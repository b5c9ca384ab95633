/**
 * The pager of the activity page (frontend/src/pages/ActivityPage.js):
 * the `pagination` state, the next / previous handlers, the view switch that
 * resets the offset, and the expressions that disable the buttons and show
 * the displayed range.
 */
module ActivityPage {

  datatype Pagination = Pagination(total: int, limit: int, offset: int)

  /** `useState({ total: 0, limit: 50, offset: 0 })`. */
  const InitialPagination := Pagination(0, 50, 0)

  datatype View = MyActivity | AllActivity

  /** The state after `nextPage`. */
  function NextPage(p: Pagination): (r: Pagination)
    ensures r.total == p.total && r.limit == p.limit
    ensures r.offset == p.offset || r.offset == p.offset + p.limit
  {
    if p.offset + p.limit < p.total then p.(offset := p.offset + p.limit) else p
  }

  /** The state after `prevPage`. */
  function PrevPage(p: Pagination): (r: Pagination)
    ensures r.total == p.total && r.limit == p.limit
    ensures p.offset >= 0 ==> r.offset >= 0
    ensures p.limit >= 0 ==> r.offset <= p.offset
  {
    if p.offset > 0 then p.(offset := if p.offset - p.limit > 0 then p.offset - p.limit else 0) else p
  }

  /** `disabled` of the Next button. */
  predicate NextDisabled(p: Pagination): (r: bool)
    ensures r ==> NextPage(p) == p
  {
    p.offset + p.limit >= p.total
  }

  /** `disabled` of the Previous button. */
  predicate PrevDisabled(p: Pagination): (r: bool)
    ensures r ==> PrevPage(p) == p
  {
    p.offset == 0
  }

  /** "Showing first - last of total". */
  function RangeShown(p: Pagination): (r: (int, int, int))
    ensures r.0 == p.offset + 1
    ensures r.1 <= p.offset + p.limit && r.1 <= p.total
    ensures r.1 == p.offset + p.limit || r.1 == p.total
    ensures r.2 == p.total
  {
    (p.offset + 1, if p.offset + p.limit < p.total then p.offset + p.limit else p.total, p.total)
  }

  /** A shown page starts at 1 or later and ends no later than the total. */
  lemma RangeShownWithinTotal(p: Pagination)
    requires 0 <= p.offset < p.total && p.limit > 0
    ensures 1 <= RangeShown(p).0 <= RangeShown(p).1 <= RangeShown(p).2
  {
  }

  /** `nextPage` moves by exactly `limit` when the guard holds and is otherwise a no-op. */
  lemma NextPageMoves(p: Pagination)
    ensures NextPage(p).total == p.total && NextPage(p).limit == p.limit
    ensures p.offset + p.limit < p.total ==> NextPage(p).offset == p.offset + p.limit
    ensures p.offset + p.limit >= p.total ==> NextPage(p) == p
  {
  }

  /** `prevPage` goes back to `max(0, offset - limit)` when `offset > 0` and is otherwise a no-op. */
  lemma PrevPageMoves(p: Pagination)
    ensures PrevPage(p).total == p.total && PrevPage(p).limit == p.limit
    ensures p.offset > 0 ==> PrevPage(p).offset >= 0 && PrevPage(p).offset == (if p.offset >= p.limit then p.offset - p.limit else 0)
    ensures p.offset <= 0 ==> PrevPage(p) == p
  {
  }

  /** The Next button is disabled exactly when `nextPage` would not move. */
  lemma NextDisabledMatchesGuard(p: Pagination)
    ensures NextDisabled(p) <==> !(p.offset + p.limit < p.total)
    ensures NextDisabled(p) ==> NextPage(p) == p
    ensures !NextDisabled(p) && p.limit > 0 ==> NextPage(p).offset > p.offset
  {
  }

  /** For a non-negative offset, the Previous button is disabled exactly when `prevPage` would not move. */
  lemma PrevDisabledMatchesGuard(p: Pagination)
    requires p.offset >= 0
    ensures PrevDisabled(p) <==> !(p.offset > 0)
    ensures PrevDisabled(p) ==> PrevPage(p) == p
    ensures !PrevDisabled(p) && p.limit > 0 ==> PrevPage(p).offset < p.offset
  {
  }

  /** An advancing `nextPage` followed by `prevPage` restores the offset. */
  lemma NextThenPrevRestores(p: Pagination)
    requires p.offset >= 0 && p.limit >= 0
    requires p.offset + p.limit < p.total
    ensures PrevPage(NextPage(p)) == p
  {
  }

  /** A user action on the pager. */
  datatype PageAction = Next | Prev | Switch(view: View)

  function Apply(p: Pagination, a: PageAction): Pagination
  {
    match a
    case Next => NextPage(p)
    case Prev => PrevPage(p)
    case Switch(_) => p.(offset := 0)
  }

  function Run(p: Pagination, actions: seq<PageAction>): Pagination
    decreases actions
  {
    if actions == [] then p else Run(Apply(p, actions[0]), actions[1..])
  }

  /** No sequence of actions makes the offset negative, and limit and total stay put. */
  lemma {:induction false} RunKeepsOffsetNonNegative(p: Pagination, actions: seq<PageAction>)
    requires p.offset >= 0 && p.limit >= 0
    ensures Run(p, actions).offset >= 0
    ensures Run(p, actions).limit == p.limit && Run(p, actions).total == p.total
    decreases actions
  {
    if actions != [] {
      RunKeepsOffsetNonNegative(Apply(p, actions[0]), actions[1..]);
    }
  }

  /** From the initial state every reachable offset is non-negative. */
  lemma InitialRunsStayNonNegative(actions: seq<PageAction>)
    ensures Run(InitialPagination, actions).offset >= 0
  {
    RunKeepsOffsetNonNegative(InitialPagination, actions);
  }

  /** The page's state. */
  class Page {
    var view: View
    var pagination: Pagination

    constructor()
      ensures view == MyActivity && pagination == InitialPagination
    {
      view := MyActivity;
      pagination := InitialPagination;
    }

    /** `nextPage`. */
    method OnNext()
      modifies this`pagination
      ensures pagination == NextPage(old(pagination))
    {
      if pagination.offset + pagination.limit < pagination.total {
        pagination := pagination.(offset := pagination.offset + pagination.limit);
      }
    }

    /** `prevPage`. */
    method OnPrev()
      modifies this`pagination
      ensures pagination == PrevPage(old(pagination))
    {
      if pagination.offset > 0 {
        var back := pagination.offset - pagination.limit;
        pagination := pagination.(offset := if back > 0 then back else 0);
      }
    }

    /** The My Activity / All Activity buttons. */
    method OnSwitchView(v: View)
      modifies this
      ensures view == v
      ensures pagination == old(pagination).(offset := 0)
    {
      view := v;
      pagination := pagination.(offset := 0);
    }

    /** `setPagination(response.data.pagination)` after a successful load. */
    method OnLoaded(loaded: Pagination)
      modifies this`pagination
      ensures pagination == loaded
    {
      pagination := loaded;
    }
  }
}
