/**
 * The activity-logging response interceptor
 * (backend/src/middleware/activityLogger.js).
 *
 * `logActivity` replaces the response's `json` with a wrapper that, when the
 * status is 2xx and the request carries a user id, builds a log entry and
 * fires a write to the activity store; it then always forwards the payload to
 * the previous `json`. The store write may fail; a failure only adds a line to
 * the store's error channel.
 */
module ActivityLogger {
  import opened Common
  import RoleCheck

  /** The parts of an Express request the logger reads. */
  datatype Request = Request(
    user: Option<RoleCheck.Actor>,   // req.user
    paramsId: Option<string>,        // req.params.id
    body: Option<Payload>,           // req.body
    ip: Option<string>,              // req.ip
    forwardedFor: Option<string>,    // req.headers['x-forwarded-for']
    remoteAddress: Option<string>,   // req.connection.remoteAddress
    userAgent: Option<string>)       // req.headers['user-agent']

  /** A configured `getDetails(req, res, data)`; the response is seen through its status code. */
  type DetailFn = (Request, int, Option<Payload>) -> Payload

  /** The options object given to `logActivity`. */
  datatype LogOptions = LogOptions(
    resourceType: Option<string>,
    resourceId: Option<string>,
    getDetails: Option<DetailFn>,
    includeBody: bool,
    includeResponse: bool)

  /** The options object given to `logActivityToDatabase`; `None` is a missing field. */
  datatype DbOptions = DbOptions(
    resourceType: Option<string>,
    resourceId: Option<string>,
    details: Option<Payload>,
    ipAddress: Option<string>,
    userAgent: Option<string>)

  /** One row of `activity_logs` as inserted; `None` is SQL NULL. */
  datatype LogEntry = LogEntry(
    userId: int,
    action: string,
    resourceType: Option<string>,
    resourceId: Option<string>,
    details: Payload,
    ipAddress: Option<string>,
    userAgent: Option<string>)

  const SensitiveBodyKeys: set<string> := {"password", "token"}
  const LoggingErrorMessage := "Activity logging error"

  /** `logActivityToDatabase`'s defaults: missing fields become NULL, missing details `{}`. */
  function EntryOf(userId: int, action: string, o: DbOptions): (e: LogEntry)
    ensures e.userId == userId && e.action == action
    ensures e.resourceType == o.resourceType && e.resourceId == o.resourceId
    ensures e.ipAddress == o.ipAddress && e.userAgent == o.userAgent
    ensures o.details.None? ==> e.details == map[]
    ensures o.details.Some? ==> e.details == o.details.value
  {
    LogEntry(userId, action, o.resourceType, o.resourceId,
             if o.details.Some? then o.details.value else map[],
             o.ipAddress, o.userAgent)
  }

  /** The status test of the wrapper: 200 <= statusCode < 300. */
  predicate IsSuccess(statusCode: int)
  {
    200 <= statusCode < 300
  }

  /** `req.user?.userId` is truthy. */
  predicate HasUserId(req: Request)
  {
    req.user.Some? && TruthyInt(req.user.value.userId)
  }

  /** `{ ...obj }` followed by `delete` of each of `keys`. */
  function WithoutKeys(obj: Payload, keys: set<string>): (r: Payload)
    ensures r.Keys == obj.Keys - keys
    ensures forall k :: k in r ==> r[k] == obj[k]
  {
    map k | k in obj && k !in keys :: obj[k]
  }

  /** `req.ip || req.headers['x-forwarded-for'] || req.connection?.remoteAddress`. */
  function ResolveIp(req: Request): (ip: Option<string>)
    ensures TruthyStr(req.ip) ==> ip == req.ip
    ensures !TruthyStr(req.ip) && TruthyStr(req.forwardedFor) ==> ip == req.forwardedFor
    ensures !TruthyStr(req.ip) && !TruthyStr(req.forwardedFor) ==> ip == req.remoteAddress
  {
    if TruthyStr(req.ip) then req.ip
    else if TruthyStr(req.forwardedFor) then req.forwardedFor
    else req.remoteAddress
  }

  /** The resource id: the configured one, else `req.params.id`. */
  function ResolveResourceId(options: LogOptions, req: Request): (id: Option<string>)
    ensures options.resourceId.Some? ==> id == options.resourceId
    ensures options.resourceId.None? ==> id == req.paramsId
  {
    if options.resourceId.Some? then options.resourceId else req.paramsId
  }

  /** The detail payload: `getDetails`, else the sanitised body, then the sanitised response on top. */
  function DetailsBase(options: LogOptions, req: Request, statusCode: int, data: Option<Payload>): Payload
  {
    if options.getDetails.Some? then options.getDetails.value(req, statusCode, data)
    else if options.includeBody && req.body.Some? then
      map["body" := Obj(WithoutKeys(req.body.value, SensitiveBodyKeys))]
    else map[]
  }

  function BuildDetails(options: LogOptions, req: Request, statusCode: int, data: Option<Payload>): (d: Payload)
    ensures options.getDetails.None? ==> d.Keys <= {"body", "response"}
    ensures options.getDetails.None? && "response" in d ==> d["response"].Obj? && "token" !in d["response"].fields
    ensures options.includeResponse && data.Some? ==> d.Keys == DetailsBase(options, req, statusCode, data).Keys + {"response"}
    ensures !(options.includeResponse && data.Some?) ==> d == DetailsBase(options, req, statusCode, data)
  {
    var base := DetailsBase(options, req, statusCode, data);
    if options.includeResponse && data.Some? then
      base["response" := Obj(WithoutKeys(data.value, {"token"}))]
    else base
  }

  /** A configured `getDetails` decides the payload; `includeBody` is then ignored. */
  lemma DetailsFromGetDetails(options: LogOptions, req: Request, statusCode: int, data: Option<Payload>)
    requires options.getDetails.Some?
    ensures !(options.includeResponse && data.Some?) ==>
      BuildDetails(options, req, statusCode, data) == options.getDetails.value(req, statusCode, data)
    ensures BuildDetails(options, req, statusCode, data) ==
      BuildDetails(options.(includeBody := !options.includeBody), req, statusCode, data)
  {
  }

  /** With `includeBody` and no `getDetails`: `body` is the request body minus password and token. */
  lemma DetailsFromBody(options: LogOptions, req: Request, statusCode: int, data: Option<Payload>)
    requires options.getDetails.None? && options.includeBody && req.body.Some?
    ensures "body" in BuildDetails(options, req, statusCode, data)
    ensures BuildDetails(options, req, statusCode, data)["body"].Obj?
    ensures var b := BuildDetails(options, req, statusCode, data)["body"].fields;
      && b.Keys == req.body.value.Keys - {"password", "token"}
      && forall k :: k in b ==> b[k] == req.body.value[k]
    ensures !(options.includeResponse && data.Some?) ==>
      BuildDetails(options, req, statusCode, data).Keys == {"body"}
  {
  }

  /** With `includeResponse` and a payload: `response` is the payload minus `token`, whatever came first. */
  lemma DetailsWithResponse(options: LogOptions, req: Request, statusCode: int, data: Option<Payload>)
    requires options.includeResponse && data.Some?
    ensures var d := BuildDetails(options, req, statusCode, data);
      && "response" in d && d["response"].Obj?
      && d["response"].fields.Keys == data.value.Keys - {"token"}
      && (forall k :: k in d["response"].fields ==> d["response"].fields[k] == data.value[k])
      && var base := DetailsBase(options, req, statusCode, data);
         forall k :: k in base && k != "response" ==> k in d && d[k] == base[k]
  {
  }

  /** Without any detail option the payload is `{}`. */
  lemma DetailsEmpty(options: LogOptions, req: Request, statusCode: int, data: Option<Payload>)
    requires options.getDetails.None?
    requires !(options.includeBody && req.body.Some?)
    requires !(options.includeResponse && data.Some?)
    ensures BuildDetails(options, req, statusCode, data) == map[]
  {
  }

  /** One installed `logActivity(action, options)` closure, with the request it captured. */
  datatype Wrapper = Wrapper(action: string, options: LogOptions, req: Request)

  /** The entry a wrapper writes for one `res.json(data)` call, if any. */
  function PlannedEntry(w: Wrapper, statusCode: int, data: Option<Payload>): (e: Option<LogEntry>)
    ensures e.Some? <==> IsSuccess(statusCode) && HasUserId(w.req)
    ensures e.Some? ==>
      e.value == EntryOf(w.req.user.value.userId.value, w.action,
                         DbOptions(w.options.resourceType,
                                   ResolveResourceId(w.options, w.req),
                                   Some(BuildDetails(w.options, w.req, statusCode, data)),
                                   ResolveIp(w.req), w.req.userAgent))
  {
    if IsSuccess(statusCode) && HasUserId(w.req) then
      var o := DbOptions(w.options.resourceType, ResolveResourceId(w.options, w.req),
                         Some(BuildDetails(w.options, w.req, statusCode, data)),
                         ResolveIp(w.req), w.req.userAgent);
      Some(EntryOf(w.req.user.value.userId.value, w.action, o))
    else None
  }

  /**
   * The writes one `res.json(data)` call fires through a chain of wrappers,
   * innermost first in `chain`: the outermost (last installed) runs first.
   */
  function PlannedWrites(chain: seq<Wrapper>, statusCode: int, data: Option<Payload>): (w: seq<LogEntry>)
    ensures |w| <= |chain|
    ensures forall e :: e in w ==> e.userId in set i | 0 <= i < |chain| && HasUserId(chain[i].req) :: chain[i].req.user.value.userId.value
  {
    if chain == [] then []
    else
      var w := chain[|chain| - 1];
      var mine := if PlannedEntry(w, statusCode, data).Some? then [PlannedEntry(w, statusCode, data).value] else [];
      mine + PlannedWrites(chain[..|chain| - 1], statusCode, data)
  }

  /** A non-2xx status writes nothing, whatever the chain. */
  lemma {:induction false} NoWritesOnFailureStatus(chain: seq<Wrapper>, statusCode: int, data: Option<Payload>)
    requires !IsSuccess(statusCode)
    ensures PlannedWrites(chain, statusCode, data) == []
  {
    if chain != [] {
      NoWritesOnFailureStatus(chain[..|chain| - 1], statusCode, data);
    }
  }

  /** At most one write per wrapper per call, and each comes from a wrapper of the chain. */
  lemma {:induction false} PlannedWritesFromChain(chain: seq<Wrapper>, statusCode: int, data: Option<Payload>)
    ensures |PlannedWrites(chain, statusCode, data)| <= |chain|
    ensures forall e :: e in PlannedWrites(chain, statusCode, data) ==>
      exists w :: w in chain && PlannedEntry(w, statusCode, data) == Some(e)
  {
    if chain != [] {
      var init := chain[..|chain| - 1];
      PlannedWritesFromChain(init, statusCode, data);
      forall e | e in PlannedWrites(chain, statusCode, data)
        ensures exists w :: w in chain && PlannedEntry(w, statusCode, data) == Some(e)
      {
        if e in PlannedWrites(init, statusCode, data) {
          var w :| w in init && PlannedEntry(w, statusCode, data) == Some(e);
          assert w in chain;
        } else {
          assert PlannedEntry(chain[|chain| - 1], statusCode, data) == Some(e);
        }
      }
    }
  }

  /** Every wrapper of the chain that plans an entry has it written. */
  lemma {:induction false} EveryPlannedEntryIsWritten(chain: seq<Wrapper>, statusCode: int, data: Option<Payload>)
    ensures forall i :: 0 <= i < |chain| && PlannedEntry(chain[i], statusCode, data).Some? ==>
      PlannedEntry(chain[i], statusCode, data).value in PlannedWrites(chain, statusCode, data)
  {
    if chain != [] {
      var init := chain[..|chain| - 1];
      EveryPlannedEntryIsWritten(init, statusCode, data);
      forall i | 0 <= i < |chain| && PlannedEntry(chain[i], statusCode, data).Some?
        ensures PlannedEntry(chain[i], statusCode, data).value in PlannedWrites(chain, statusCode, data)
      {
        if i < |chain| - 1 {
          assert chain[i] == init[i];
        }
      }
    }
  }

  /** With a 2xx status and a user id on every request, each wrapper writes exactly once. */
  lemma {:induction false} EveryWrapperWrites(chain: seq<Wrapper>, statusCode: int, data: Option<Payload>)
    requires IsSuccess(statusCode)
    requires forall i :: 0 <= i < |chain| ==> HasUserId(chain[i].req)
    ensures |PlannedWrites(chain, statusCode, data)| == |chain|
  {
    if chain != [] {
      var init := chain[..|chain| - 1];
      forall i | 0 <= i < |init|
        ensures HasUserId(init[i].req)
      {
        assert init[i] == chain[i];
      }
      EveryWrapperWrites(init, statusCode, data);
    }
  }

  /** The last-installed wrapper, the outermost one, writes first. */
  lemma OutermostWritesFirst(chain: seq<Wrapper>, statusCode: int, data: Option<Payload>)
    requires chain != [] && PlannedEntry(chain[|chain| - 1], statusCode, data).Some?
    ensures PlannedWrites(chain, statusCode, data)[0] == PlannedEntry(chain[|chain| - 1], statusCode, data).value
  {
  }

  /** Two logging wrappers on one response: two writes, the second-installed one's first. */
  lemma TwoWrappersWriteOutermostFirst(inner: Wrapper, outer: Wrapper, statusCode: int, data: Option<Payload>)
    requires IsSuccess(statusCode) && HasUserId(inner.req) && HasUserId(outer.req)
    ensures PlannedWrites([inner, outer], statusCode, data) ==
      [PlannedEntry(outer, statusCode, data).value, PlannedEntry(inner, statusCode, data).value]
  {
    assert [inner, outer][..1] == [inner];
    assert [inner][..0] == [];
  }

  /** A single wrapper with status 2xx and a user id writes exactly one entry. */
  lemma SingleWrapperWritesOnce(w: Wrapper, statusCode: int, data: Option<Payload>)
    requires IsSuccess(statusCode) && HasUserId(w.req)
    ensures |PlannedWrites([w], statusCode, data)| == 1
    ensures PlannedWrites([w], statusCode, data)[0].action == w.action
    ensures PlannedWrites([w], statusCode, data)[0].userId == w.req.user.value.userId.value
  {
    assert [w][..0] == [];
  }

  /** The activity store: inserted rows and the observability channel. */
  class ActivityStore {
    var rows: seq<LogEntry>
    var errors: seq<string>

    constructor()
      ensures rows == [] && errors == []
    {
      rows := [];
      errors := [];
    }

    /**
     * One INSERT. It may fail for reasons outside the model; a failure is
     * caught, reported on `errors`, and changes nothing else.
     */
    method Insert(entry: LogEntry)
      modifies this
      ensures || (rows == old(rows) + [entry] && errors == old(errors))
              || (rows == old(rows) && errors == old(errors) + [LoggingErrorMessage])
    {
      var storeFails: bool :| true;
      if storeFails {
        errors := errors + [LoggingErrorMessage];
      } else {
        rows := rows + [entry];
      }
    }
  }

  /** `logActivityToDatabase(userId, action, options)`: never throws. */
  method LogActivityToDatabase(store: ActivityStore, userId: int, action: string, options: DbOptions)
    modifies store
    ensures var e := EntryOf(userId, action, options);
      || (store.rows == old(store.rows) + [e] && store.errors == old(store.errors))
      || (store.rows == old(store.rows) && store.errors == old(store.errors) + [LoggingErrorMessage])
  {
    store.Insert(EntryOf(userId, action, options));
  }

  /** The entry `manualLog(req, action, options)` writes, if any; its computed ip and agent win. */
  function ManualEntry(req: Request, action: string, options: DbOptions): (e: Option<LogEntry>)
    ensures e.Some? <==> HasUserId(req)
    ensures e.Some? ==> e.value.userId == req.user.value.userId.value && e.value.action == action
    ensures e.Some? ==> e.value.ipAddress == ResolveIp(req) && e.value.userAgent == req.userAgent
    ensures e.Some? ==> e.value.resourceType == options.resourceType && e.value.resourceId == options.resourceId
    ensures e.Some? ==> e.value.details == (if options.details.Some? then options.details.value else map[])
  {
    if HasUserId(req) then
      Some(EntryOf(req.user.value.userId.value, action,
                   options.(ipAddress := ResolveIp(req), userAgent := req.userAgent)))
    else None
  }

  /** `manualLog`: skips silently without a user id, otherwise one store write. */
  method ManualLog(store: ActivityStore, req: Request, action: string, options: DbOptions)
    modifies store
    ensures ManualEntry(req, action, options).None? ==> store.rows == old(store.rows) && store.errors == old(store.errors)
    ensures ManualEntry(req, action, options).Some? ==>
      var e := ManualEntry(req, action, options).value;
      || (store.rows == old(store.rows) + [e] && store.errors == old(store.errors))
      || (store.rows == old(store.rows) && store.errors == old(store.errors) + [LoggingErrorMessage])
  {
    if !HasUserId(req) {
      return;
    }
    LogActivityToDatabase(store, req.user.value.userId.value, action,
                          options.(ipAddress := ResolveIp(req), userAgent := req.userAgent));
  }

  /** The rows of `entries` that a run of inserts kept, with `stored[i]` the outcome of the i-th. */
  function Kept(entries: seq<LogEntry>, stored: seq<bool>): seq<LogEntry>
    requires |stored| == |entries|
  {
    if entries == [] then []
    else (if stored[0] then [entries[0]] else []) + Kept(entries[1..], stored[1..])
  }

  lemma {:induction false} KeptSnoc(entries: seq<LogEntry>, stored: seq<bool>, e: LogEntry, s: bool)
    requires |stored| == |entries|
    ensures Kept(entries + [e], stored + [s]) == Kept(entries, stored) + (if s then [e] else [])
  {
    if entries != [] {
      assert (entries + [e])[1..] == entries[1..] + [e];
      assert (stored + [s])[1..] == stored[1..] + [s];
      KeptSnoc(entries[1..], stored[1..], e, s);
    }
  }

  /** The HTTP response as the interceptor sees it. */
  class Response {
    var statusCode: int
    /** Payloads handed to the framework's own `json`, in order. */
    var sent: seq<Option<Payload>>
    /** The `logActivity` closures installed so far, innermost first. */
    var chain: seq<Wrapper>
    /** Every log write attempted from this response, in order. */
    var writes: seq<LogEntry>

    /** Express starts a response with status 200. */
    constructor()
      ensures statusCode == 200 && sent == [] && chain == [] && writes == []
    {
      statusCode := 200;
      sent := [];
      chain := [];
      writes := [];
    }

    /** `res.status(code)`. */
    method Status(code: int)
      modifies this`statusCode
      ensures statusCode == code
    {
      statusCode := code;
    }

    /**
     * `res.json(data)` through the installed wrappers: each wrapper fires its
     * write, then the payload is forwarded unchanged and the response returned.
     * Nothing guards against a second call: every call logs again.
     */
    method Json(data: Option<Payload>, store: ActivityStore) returns (result: Response)
      modifies this`sent, this`writes, store
      ensures result == this
      ensures sent == old(sent) + [data]
      ensures writes == old(writes) + PlannedWrites(chain, statusCode, data)
      ensures exists stored: seq<bool> ::
        (|stored| == |PlannedWrites(chain, statusCode, data)| &&
         store.rows == old(store.rows) + Kept(PlannedWrites(chain, statusCode, data), stored))
      ensures |store.rows| - |old(store.rows)| + |store.errors| - |old(store.errors)|
              == |PlannedWrites(chain, statusCode, data)|
      ensures |old(store.errors)| <= |store.errors| && store.errors[..|old(store.errors)|] == old(store.errors)
      ensures forall k :: |old(store.errors)| <= k < |store.errors| ==> store.errors[k] == LoggingErrorMessage
    {
      var planned := PlannedWrites(chain, statusCode, data);
      ghost var stored: seq<bool> := [];
      var i := 0;
      while i < |planned|
        invariant 0 <= i <= |planned| && |stored| == i
        invariant store.rows == old(store.rows) + Kept(planned[..i], stored)
        invariant |store.rows| - |old(store.rows)| + |store.errors| - |old(store.errors)| == i
        invariant writes == old(writes) + planned[..i]
        invariant sent == old(sent)
        invariant |old(store.errors)| <= |store.errors| && store.errors[..|old(store.errors)|] == old(store.errors)
        invariant forall k :: |old(store.errors)| <= k < |store.errors| ==> store.errors[k] == LoggingErrorMessage
      {
        ghost var before := store.rows;
        store.Insert(planned[i]);
        KeptSnoc(planned[..i], stored, planned[i], store.rows != before);
        stored := stored + [store.rows != before];
        writes := writes + [planned[i]];
        assert planned[..i + 1] == planned[..i] + [planned[i]];
        i := i + 1;
      }
      assert planned[..i] == planned;
      sent := sent + [data];
      result := this;
    }
  }

  /** `logActivity(action, options)` as middleware: wrap `res.json` and call `next`. */
  method LogActivity(action: string, options: LogOptions, req: Request, res: Response)
    modifies res`chain
    ensures res.chain == old(res.chain) + [Wrapper(action, options, req)]
  {
    res.chain := res.chain + [Wrapper(action, options, req)];
  }

  /**
   * Two `res.json` calls through one logging wrapper, with status 200 and a
   * user id: nothing stops the second call from attempting a second write.
   */
  method RepeatedJsonLogsAgain(action: string, options: LogOptions, req: Request, data: Option<Payload>, store: ActivityStore)
      returns (attempts: seq<LogEntry>)
    requires HasUserId(req)
    modifies store
    ensures var e := PlannedEntry(Wrapper(action, options, req), 200, data);
      e.Some? && attempts == [e.value, e.value]
  {
    var res := new Response();
    LogActivity(action, options, req, res);
    var r1 := res.Json(data, store);
    var r2 := res.Json(data, store);
    SingleWrapperWritesOnce(Wrapper(action, options, req), 200, data);
    attempts := res.writes;
  }

  /** `req.body?.email` and the like. */
  function BodyField(req: Request, key: string): Value
  {
    if req.body.Some? && key in req.body.value then req.body.value[key] else Undefined
  }

  const NoOptions := LogOptions(None, None, None, false, false)

  /** `logLogin`. */
  const LoginOptions := NoOptions.(getDetails := Some((req: Request, status: int, data: Option<Payload>) =>
    map["email" := BodyField(req, "email"), "method" := Str("jwt")]))

  /** `logLogout`. */
  const LogoutOptions := NoOptions

  /** `logRegister`. */
  const RegisterOptions := NoOptions.(getDetails := Some((req: Request, status: int, data: Option<Payload>) =>
    map["email" := BodyField(req, "email"), "name" := BodyField(req, "name")]))

  /** `logSettingsUpdate`. */
  const SettingsUpdateOptions := NoOptions.(resourceType := Some("user_settings"), includeBody := true)

  /** `logProfileUpdate`. */
  const ProfileUpdateOptions := NoOptions.(resourceType := Some("user"), includeBody := true)

  /** `logPasswordChange`. */
  const PasswordChangeOptions := NoOptions.(resourceType := Some("user"))

  /** A login logs the email and the method, never the password. */
  lemma LoginPresetDetails(req: Request, statusCode: int, data: Option<Payload>)
    ensures var d := BuildDetails(LoginOptions, req, statusCode, data);
      d == map["email" := BodyField(req, "email"), "method" := Str("jwt")] && "password" !in d
  {
  }

  /** A settings update logs the sanitised body under `body`, with resource type `user_settings`. */
  lemma SettingsUpdatePresetEntry(req: Request, data: Option<Payload>)
    requires HasUserId(req) && req.body.Some?
    ensures var e := PlannedEntry(Wrapper("settings_update", SettingsUpdateOptions, req), 200, data);
      && e.Some? && e.value.resourceType == Some("user_settings")
      && e.value.details == map["body" := Obj(WithoutKeys(req.body.value, {"password", "token"}))]
  {
  }

  /** A password change never logs any detail, so the new password is not recorded. */
  lemma PasswordChangePresetHasNoDetails(req: Request, statusCode: int, data: Option<Payload>)
    ensures BuildDetails(PasswordChangeOptions, req, statusCode, data) == map[]
  {
  }

  /** `{password: "secret", email: "a@b.com"}` with `includeBody` is logged as `{body: {email: "a@b.com"}}`. */
  lemma PasswordIsStripped(req: Request)
    requires req.body == Some(map["password" := Str("secret"), "email" := Str("a@b.com")])
    ensures BuildDetails(SettingsUpdateOptions, req, 200, None) == map["body" := Obj(map["email" := Str("a@b.com")])]
  {
    var b := WithoutKeys(req.body.value, SensitiveBodyKeys);
    assert b.Keys == {"email"};
    assert b == map["email" := Str("a@b.com")];
  }
}
