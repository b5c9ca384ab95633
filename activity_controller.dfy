/**
 * Activity log listing and statistics
 * (backend/src/controllers/activityController.js). Queries are modelled by
 * their structure: the filters with their placeholders, the LIMIT and OFFSET
 * placeholders, and the bound values. The database's answers are inputs.
 */
module ActivityController {
  import opened Common
  import RoleCheck

  /** A bound value: a query-string text or a number literal of the controller. */
  datatype Param = Text(s: string) | Number(n: int)

  /** `AND column = $placeholder`. */
  datatype Filter = Filter(column: string, placeholder: nat)

  /** The query-string fields the controller destructures from `req.query`. */
  datatype ActivityQuery = ActivityQuery(
    limit: Option<string>, offset: Option<string>, userId: Option<string>, action: Option<string>)

  /** The logs query: filters, `LIMIT $limitPlaceholder OFFSET $offsetPlaceholder`, bound values. */
  datatype ListQuery = ListQuery(filters: seq<Filter>, limitPlaceholder: nat, offsetPlaceholder: nat, values: seq<Param>)

  /** The `COUNT(*)` query: filters and bound values. */
  datatype CountQuery = CountQuery(filters: seq<Filter>, values: seq<Param>)

  datatype Pagination = Pagination(total: int, limit: int, offset: int)

  /** The JSON reply: the rows and the echoed pagination, or a 500. */
  datatype ListReply =
    | Listed(activities: seq<Payload>, pagination: Pagination)
    | Failed(status: nat, message: string)

  /** What the database returns for the two queries: the rows and the count column. */
  datatype StoreAnswer = StoreAnswer(rows: seq<Payload>, total: Param)

  const MyActivityDefaultLimit := 50
  const AllActivityDefaultLimit := 100
  const DefaultOffset := 0

  /** `{ limit = default } = req.query`: the default applies only when the field is absent. */
  function PageParam(given: Option<string>, default: int): (p: Param)
    ensures given.None? ==> p == Number(default)
    ensures given.Some? ==> p == Text(given.value)
  {
    if given.Some? then Text(given.value) else Number(default)
  }

  /** `parseInt` on a bound value; the parse of a text is left to `parseText`. */
  function ParseInt(p: Param, parseText: string -> int): int
  {
    match p
    case Number(n) => n
    case Text(s) => parseText(s)
  }

  /** The filter columns `getAllActivity` applies: user id, then action, each only when truthy. */
  function FilterColumns(q: ActivityQuery): seq<string>
  {
    (if TruthyStr(q.userId) then ["al.user_id"] else []) + (if TruthyStr(q.action) then ["al.action"] else [])
  }

  /** The values bound to those filters, in the same order. */
  function FilterValues(q: ActivityQuery): seq<Param>
  {
    (if TruthyStr(q.userId) then [Text(q.userId.value)] else []) + (if TruthyStr(q.action) then [Text(q.action.value)] else [])
  }

  /** The query construction of `getAllActivity`. */
  method BuildAllActivityQuery(q: ActivityQuery) returns (list: ListQuery, count: CountQuery)
    ensures list.filters == count.filters
    ensures |list.filters| == |FilterColumns(q)| <= 2
    ensures forall k :: 0 <= k < |list.filters| ==>
      list.filters[k].column == FilterColumns(q)[k] && list.filters[k].placeholder == k + 1
    ensures list.limitPlaceholder == |list.filters| + 1 && list.offsetPlaceholder == |list.filters| + 2
    ensures count.values == FilterValues(q)
    ensures list.values == count.values + [PageParam(q.limit, AllActivityDefaultLimit), PageParam(q.offset, DefaultOffset)]
  {
    var limit := PageParam(q.limit, AllActivityDefaultLimit);
    var offset := PageParam(q.offset, DefaultOffset);
    var listFilters: seq<Filter> := [];
    var countFilters: seq<Filter> := [];
    var values: seq<Param> := [];
    var paramCount: nat := 1;

    if TruthyStr(q.userId) {
      var userFilter := Filter("al.user_id", paramCount);
      listFilters := listFilters + [userFilter];
      countFilters := countFilters + [userFilter];
      values := values + [Text(q.userId.value)];
      paramCount := paramCount + 1;
    }

    if TruthyStr(q.action) {
      var actionFilter := Filter("al.action", paramCount);
      listFilters := listFilters + [actionFilter];
      countFilters := countFilters + [actionFilter];
      values := values + [Text(q.action.value)];
      paramCount := paramCount + 1;
    }

    list := ListQuery(listFilters, paramCount, paramCount + 1, values + [limit, offset]);
    count := CountQuery(countFilters, values);
  }

  /** The fixed queries of `getMyActivity`: `user_id = $1 LIMIT $2 OFFSET $3`, defaults 50 and 0. */
  function MyActivityQuery(userId: int, q: ActivityQuery): (r: (ListQuery, CountQuery))
    ensures r.0.filters == r.1.filters == [Filter("user_id", 1)]
    ensures r.0.limitPlaceholder == 2 && r.0.offsetPlaceholder == 3
    ensures r.1.values == [Number(userId)] && |r.0.values| == 3 && r.0.values[..1] == r.1.values
    ensures q.limit.None? ==> r.0.values[1] == Number(50)
    ensures q.offset.None? ==> r.0.values[2] == Number(0)
  {
    var filters := [Filter("user_id", 1)];
    (ListQuery(filters, 2, 3, [Number(userId), PageParam(q.limit, MyActivityDefaultLimit), PageParam(q.offset, DefaultOffset)]),
     CountQuery(filters, [Number(userId)]))
  }

  /** The reply of a listing endpoint: any store failure is a 500; otherwise parsed pagination is echoed. */
  function ListReplyFor(answer: Option<StoreAnswer>, limit: Param, offset: Param, parseText: string -> int): (r: ListReply)
    ensures answer.None? <==> r == Failed(500, "Failed to retrieve activity logs")
    ensures answer.Some? ==>
      r.Listed? && r.activities == answer.value.rows &&
      r.pagination == Pagination(ParseInt(answer.value.total, parseText), ParseInt(limit, parseText), ParseInt(offset, parseText))
  {
    if answer.None? then Failed(500, "Failed to retrieve activity logs")
    else Listed(answer.value.rows,
                Pagination(ParseInt(answer.value.total, parseText), ParseInt(limit, parseText), ParseInt(offset, parseText)))
  }

  /** `getAllActivity`: build the two queries, then reply from the store's answer. */
  method GetAllActivity(q: ActivityQuery, answer: Option<StoreAnswer>, parseText: string -> int)
    returns (list: ListQuery, count: CountQuery, reply: ListReply)
    ensures list.filters == count.filters
    ensures |list.filters| == |FilterColumns(q)| <= 2
    ensures forall k :: 0 <= k < |list.filters| ==>
      list.filters[k].column == FilterColumns(q)[k] && list.filters[k].placeholder == k + 1
    ensures list.limitPlaceholder == |list.filters| + 1 && list.offsetPlaceholder == |list.filters| + 2
    ensures count.values == FilterValues(q)
    ensures list.values == count.values + [PageParam(q.limit, AllActivityDefaultLimit), PageParam(q.offset, DefaultOffset)]
    ensures reply == ListReplyFor(answer, PageParam(q.limit, AllActivityDefaultLimit), PageParam(q.offset, DefaultOffset), parseText)
    ensures answer.None? ==> reply.Failed? && reply.status == 500
    ensures answer.Some? && q.limit.None? && q.offset.None? ==> reply.Listed? && reply.pagination.limit == 100 && reply.pagination.offset == 0
    ensures answer.Some? ==> reply.Listed? && reply.activities == answer.value.rows
  {
    list, count := BuildAllActivityQuery(q);
    reply := ListReplyFor(answer, PageParam(q.limit, AllActivityDefaultLimit), PageParam(q.offset, DefaultOffset), parseText);
  }

  /** `getMyActivity` with the defaults 50 and 0. */
  function GetMyActivity(userId: int, q: ActivityQuery, answer: Option<StoreAnswer>, parseText: string -> int): (r: ListReply)
    ensures answer.None? ==> r.Failed? && r.status == 500
    ensures answer.Some? && q.limit.None? && q.offset.None? ==> r.Listed? && r.pagination.limit == 50 && r.pagination.offset == 0
  {
    ListReplyFor(answer, PageParam(q.limit, MyActivityDefaultLimit), PageParam(q.offset, DefaultOffset), parseText)
  }

  datatype StatsScope = SystemWide | Personal

  /** The role branch of `getActivityStats`: string equality, not the hierarchy. */
  function StatsScopeFor(role: Option<string>): (s: StatsScope)
    ensures s == SystemWide <==> role == Some("administrator") || role == Some("operator")
  {
    if role == Some("administrator") || role == Some("operator") then SystemWide else Personal
  }

  /** For an actor with a role, system-wide statistics go exactly to those `requireOperator` admits. */
  lemma StatsScopeMatchesOperatorGate(user: RoleCheck.Actor)
    requires RoleCheck.HasRoleSet(Some(user))
    ensures StatsScopeFor(user.role) == SystemWide <==> RoleCheck.RequireOperator(Some(user)) == RoleCheck.Next
    ensures StatsScopeFor(user.role) == SystemWide <==> RoleCheck.GetRoleLevel(user.role.value) >= 2
  {
  }

  /** An unknown role gets personal statistics. */
  lemma UnknownRoleGetsPersonalStats(role: string)
    requires !RoleCheck.IsValidRole(role)
    ensures StatsScopeFor(Some(role)) == Personal
  {
  }
}
