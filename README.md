# Role gate, activity logger and their neighbours, in Dafny

This project models the authorization and audit-logging core of a role-gated
web application (an Express/PostgreSQL backend and a React frontend), together
with the small pieces of decision logic around it:

- `RoleCheck` (role_check.dfy): the level table user=1, operator=2,
  administrator=3 (0 for any other name), `checkRole` for one role or a list
  of roles, the `requireAdmin` / `requireOperator` / `requireUser` presets,
  `requireExactRole`, `isValidRole`, `getRoleLevel` and `hasHigherOrEqualRole`.
  A middleware call is a pure function returning a `Decision`: call `next`,
  401, or 403 with the requirement and the actor's role.
- `ActivityLogger` (activity_logger.dfy): the `res.json` interceptor installed
  by `logActivity`. A `Response` object holds its status, the payloads
  forwarded to the framework's own `json`, the chain of installed wrappers and
  every log write attempted. An `ActivityStore` object holds inserted rows and
  the error channel; an insert may fail, and a failure only adds an error line.
  Also `logActivityToDatabase` with its defaults, `manualLog`, and the six
  preset configurations.
- `SettingsController` (settings_controller.dfy): the dynamic UPDATE built by
  `updateSettings`, as SET clauses `(column, placeholder)`, a WHERE placeholder
  and bound values, then its outcomes 400 / 404 / 400 on code 23514 / 500 /
  200 against a `user_settings` table kept as a map; `getSettings` with its
  create-if-missing insert.
- `ActivityController` (activity_controller.dfy): the filter and placeholder
  construction of `getAllActivity`, the fixed query of `getMyActivity`, the
  limit/offset defaults, the pagination echo and the 500 path, and the role
  branch of `getActivityStats`.
- `UseAuth` (use_auth.dfy): the frontend's own level table, `hasRole`,
  `isAdmin`, `isOperator`, `isUser`, and the state effects of `loadUser`, the
  mount effect, `login`, `register` and `logout` on `user`, `loading` and the
  stored token.
- `ActivityPage` (activity_page.dfy): the pager state, `nextPage`,
  `prevPage`, the view switch, the button-disable conditions and the range
  display.
- `RoleRoute` (role_route.dfy) and `RoleBadge` (role_badge.dfy): the route
  guard's four outcomes and the badge's class, label and null case.
- `Common` (common.dfy): `Option`, a JSON-like `Value`, and JavaScript
  truthiness of optional strings and numbers.

JavaScript's `undefined` and `null` are both `None` (see "## Left out" for where the two differ); the empty string is falsy, so
"a role is present" means `Some(r)` with `r != ""`, and "a user id is present"
means `Some(n)` with `n != 0`. Database answers, HTTP responses and failures
are parameters of the operations that receive them; the nondeterministic
failure of an activity-log insert is a choice inside `ActivityStore.Insert`.

Two behaviours of the code are worth stating outright:

- The wrapped `json` has no once-only guard: every call with a 2xx status and
  a user id writes again. `Response.Json` states exactly that (its new writes
  depend only on the current call), and `RepeatedJsonLogsAgain` shows two
  calls attempting two identical writes.
- An unknown *required* role has level 0 and admits every actor with a role
  (`UnknownRequirementAdmitsAnyRole`); an actor with an unknown role passes
  such a requirement too, and nothing else.

## Model

| member | source | states |
|---|---|---|
| `RoleCheck.GetRoleLevel` | backend/src/middleware/roleCheck.js:121-123 | level 1, 2, 3 for user, operator, administrator, and 0 for every other name |
| `RoleCheck.IsValidRole` | backend/src/middleware/roleCheck.js:112-114 | true exactly for the three table keys, equivalently for a positive level |
| `RoleCheck.HigherOrEqualIsTotalPreorder` | backend/src/middleware/roleCheck.js:131-133 | the dominance relation is reflexive, total and transitive |
| `RoleCheck.HasHigherOrEqualRole` | backend/src/middleware/roleCheck.js:131-133 | administrator is at least as high as any name; every name is at least as high as an off-table one; no off-table name reaches a known role, so the empty name is at the bottom (order laws in `HigherOrEqualIsTotalPreorder`) |
| `RoleCheck.Decision.Answer` | backend/src/middleware/roleCheck.js:23-70 | `next()` sends nothing; an unauthenticated request gets 401 with "Authentication required"; a refusal gets 403 with its message |
| `RoleCheck.AnyAdmitsIff` | backend/src/middleware/roleCheck.js:35-38 | the element-by-element `some` over the list holds iff some listed role has level <= the user's level |
| `RoleCheck.AnyAdmitsIsLeastRestrictive` | backend/src/middleware/roleCheck.js:34-47 | a non-empty list admits a user iff its least level is <= the user's level |
| `RoleCheck.CheckRole` | backend/src/middleware/roleCheck.js:19-72 | 401 when user or role is missing, before any comparison; single role: allow iff user level >= required level; list: allow iff some member's level <= user level; every refusal of a user with a role is a 403 carrying the requirement as given and the actual role |
| `RoleCheck.RequireAdmin` | backend/src/middleware/roleCheck.js:77 | with a role, allows exactly administrator; otherwise 401 |
| `RoleCheck.RequireOperator` | backend/src/middleware/roleCheck.js:82 | with a role, allows exactly operator and administrator; otherwise 401 |
| `RoleCheck.RequireUser` | backend/src/middleware/roleCheck.js:87 | with a role, allows exactly the three known roles; otherwise 401 |
| `RoleCheck.RequireExactRole` | backend/src/middleware/roleCheck.js:93-105 | allows iff the user exists and its role equals the given one; every refusal is a 403 (never 401) with the given role and the actual role, or 'none' when there is no user or role |
| `RoleCheck.MissingRoleIsUnauthenticated` | backend/src/middleware/roleCheck.js:23-28 | a missing user or role is answered 401 "Authentication required" for every requirement, including one of level 0 |
| `RoleCheck.UnknownRequirementAdmitsAnyRole` | backend/src/middleware/roleCheck.js:50-59 | a required role outside the table admits every user that has a role |
| `RoleCheck.EmptyListDenies` | backend/src/middleware/roleCheck.js:34-47 | an empty list of roles refuses every user that has a role with 403 |
| `RoleCheck.CheckRoleUpwardClosed` | backend/src/middleware/roleCheck.js:31-60 | if a role is admitted, every role that dominates it is admitted by the same requirement |
| `RoleCheck.OperatorListMatchesRequireOperator` | backend/src/routes/analyticsRoutes.js:25 | the route guard `checkRole(['operator','administrator'])` admits exactly what `requireOperator` admits |
| `RoleCheck.ExactRoleIgnoresHierarchy` | backend/src/middleware/roleCheck.js:93-105 | an administrator passes `checkRole('operator')` but gets 403 from `requireExactRole('operator')` |
| `ActivityLogger.EntryOf` | backend/src/middleware/activityLogger.js:16-22 | missing resource type, resource id, ip and user agent become NULL and missing details `{}`; given fields are kept |
| `ActivityLogger.WithoutKeys` | backend/src/middleware/activityLogger.js:81-87 | the copy has the original keys minus the deleted ones, each with its original value |
| `ActivityLogger.ResolveIp` | backend/src/middleware/activityLogger.js:97-99 | the ip is `req.ip` if truthy, else the forwarded-for header if truthy, else the connection's remote address |
| `ActivityLogger.ResolveResourceId` | backend/src/middleware/activityLogger.js:69-74 | the configured resource id if there is one, else `req.params.id` |
| `ActivityLogger.DetailsFromGetDetails` | backend/src/middleware/activityLogger.js:79-80 | a configured `getDetails` supplies the payload and `includeBody` then makes no difference |
| `ActivityLogger.DetailsFromBody` | backend/src/middleware/activityLogger.js:81-87 | with `includeBody` and no `getDetails`, `body` holds the request body minus `password` and `token`, every other key unchanged |
| `ActivityLogger.DetailsWithResponse` | backend/src/middleware/activityLogger.js:90-94 | with `includeResponse` and a payload, `response` holds the payload minus `token`, and every other key the earlier branch (`getDetails` or `body`) built is kept with its value |
| `ActivityLogger.BuildDetails` | backend/src/middleware/activityLogger.js:77-94 | without `getDetails` the payload has at most the keys `body` and `response`, and `response` never carries `token`; `includeResponse` with a payload adds exactly the key `response`; otherwise the earlier branch's payload is the result (branches in `DetailsFromGetDetails`, `DetailsFromBody`, `DetailsEmpty`) |
| `ActivityLogger.DetailsEmpty` | backend/src/middleware/activityLogger.js:77-94 | with no detail option in effect the payload is `{}` |
| `ActivityLogger.PlannedEntry` | backend/src/middleware/activityLogger.js:63-113 | a wrapper writes iff 200 <= status < 300 and the user id is truthy, and the entry carries its action, the user id, the configured resource type, the resolved resource id, the built details, the resolved ip and the user agent |
| `ActivityLogger.NoWritesOnFailureStatus` | backend/src/middleware/activityLogger.js:63 | a status outside 2xx writes nothing through any chain of wrappers |
| `ActivityLogger.PlannedWritesFromChain` | backend/src/middleware/activityLogger.js:61-119 | one call writes at most one entry per installed wrapper, each entry being what some wrapper of the chain plans |
| `ActivityLogger.PlannedWrites` | backend/src/middleware/activityLogger.js:61-119 | the writes of one `res.json` call through the chain: at most one per wrapper, each for the user id of some wrapper's request (both directions, count and order in `PlannedWritesFromChain`, `EveryPlannedEntryIsWritten`, `EveryWrapperWrites`, `OutermostWritesFirst`) |
| `ActivityLogger.EveryPlannedEntryIsWritten` | backend/src/middleware/activityLogger.js:58-118 | every installed wrapper whose check passes (2xx, truthy user id) has its entry among the call's writes, because each wrapper logs and then calls the `json` it captured |
| `ActivityLogger.EveryWrapperWrites` | backend/src/middleware/activityLogger.js:58-118 | with a 2xx status and a user id on every wrapped request, one call writes exactly as many entries as there are wrappers |
| `ActivityLogger.OutermostWritesFirst` | backend/src/middleware/activityLogger.js:58-118 | the last-installed wrapper, when it logs, writes the first entry of the call |
| `ActivityLogger.TwoWrappersWriteOutermostFirst` | backend/src/middleware/activityLogger.js:58-118 | two wrappers, a 2xx status and user ids: exactly two writes, the second-installed wrapper's entry before the first's |
| `ActivityLogger.SingleWrapperWritesOnce` | backend/src/middleware/activityLogger.js:63-113 | one wrapper, a 2xx status and a user id: exactly one write, with that action and user id |
| `ActivityLogger.RepeatedJsonLogsAgain` | backend/src/middleware/activityLogger.js:63-113 | calling the wrapped `json` twice with status 200 and a user id attempts the same entry twice: there is no once-only guard |
| `ActivityLogger.ActivityStore.Insert` | backend/src/middleware/activityLogger.js:42-46 | either the row is appended, or the error channel grows by one line and the rows are untouched |
| `ActivityLogger.LogActivityToDatabase` | backend/src/middleware/activityLogger.js:14-47 | inserts the defaulted entry or reports an error; it never fails outward |
| `ActivityLogger.ManualEntry` | backend/src/middleware/activityLogger.js:164-179 | an entry exists iff the user id is truthy; its ip and user agent are the computed ones whatever the options say, the other fields come from the options |
| `ActivityLogger.ManualLog` | backend/src/middleware/activityLogger.js:164-179 | without a user id the store is untouched; otherwise one insert of that entry, failing only into the error channel |
| `ActivityLogger.Response.Json` | backend/src/middleware/activityLogger.js:61-119 | the payload is always forwarded unchanged and the response returned; the attempted writes grow by exactly what the chain plans for the current status and payload; the store keeps a subsequence of them, earlier error lines stay, and each new error line is the logging error and accounts for one lost write |
| `ActivityLogger.LogActivity` | backend/src/middleware/activityLogger.js:55-123 | installs one more wrapper, with the action, options and request, on the response |
| `ActivityLogger.LoginPresetDetails` | backend/src/middleware/activityLogger.js:128-133 | a login logs `{email, method: 'jwt'}` and no password |
| `ActivityLogger.SettingsUpdatePresetEntry` | backend/src/middleware/activityLogger.js:144-147 | a settings update logs resource type `user_settings` and the sanitised body under `body` |
| `ActivityLogger.PasswordChangePresetHasNoDetails` | backend/src/middleware/activityLogger.js:154-156 | a password change logs `{}` as details |
| `ActivityLogger.PasswordIsStripped` | backend/src/middleware/activityLogger.js:81-87 | body `{password: 'secret', email: 'a@b.com'}` with `includeBody` is logged as `{body: {email: 'a@b.com'}}` |
| `SettingsController.ParamFor` | backend/src/controllers/settingsController.js:97-99 | `settings_data` is bound serialised, every other field verbatim |
| `SettingsController.ProvidedColumnsMembers` | backend/src/controllers/settingsController.js:77-100 | a column gets a clause iff it is one of the six and its field is not undefined (null counts as provided) |
| `SettingsController.ProvidedColumnsLength` | backend/src/controllers/settingsController.js:102-107 | the clause list is empty iff none of the six fields is provided |
| `SettingsController.AddIfProvided` | backend/src/controllers/settingsController.js:77-80 | one guarded push keeps clauses, placeholders and values in step with the provided columns seen so far |
| `SettingsController.BuildSetClauses` | backend/src/controllers/settingsController.js:73-100 | clauses for the provided columns in the fixed order, placeholders 1..n, `values[k-1]` bound to clause k, counter n+1 |
| `SettingsController.Assigned` | backend/src/controllers/settingsController.js:110-115 | the UPDATE assigns exactly the provided columns, each its bound value |
| `SettingsController.UpdateSettings` | backend/src/controllers/settingsController.js:60-147 | no field: 400 and no statement; otherwise the user id is bound last and the WHERE uses n+1; code 23514 gives 400, any other error 500, no row 404, all leaving the table unchanged; else 200 with the row updated by the assignments |
| `SettingsController.GetSettings` | backend/src/controllers/settingsController.js:13-53 | returns the existing row unchanged, or inserts a default row carrying the user id and returns it; a store error gives 500 and changes nothing |
| `SettingsController.InsertedRow` | backend/src/controllers/settingsController.js:30-38 | the row `INSERT ... RETURNING *` gives back: the column defaults with `user_id` set to the requesting user |
| `SettingsController.GetSettingsTwice` | backend/src/controllers/settingsController.js:28-44 | a second read returns what the first returned and inserts nothing more |
| `ActivityController.PageParam` | backend/src/controllers/activityController.js:64 | the default applies only when the query field is absent |
| `ActivityController.BuildAllActivityQuery` | backend/src/controllers/activityController.js:84-106 | user id then action filters only when truthy, the same in both queries; filter k uses $k, LIMIT $(f+1), OFFSET $(f+2); list values are the count values followed by limit (default 100) and offset (default 0) |
| `ActivityController.MyActivityQuery` | backend/src/controllers/activityController.js:16-37 | `user_id = $1 LIMIT $2 OFFSET $3` with limit default 50 and offset default 0; the count query binds only the user id |
| `ActivityController.ListReplyFor` | backend/src/controllers/activityController.js:113-128 | any store failure is a 500; otherwise the rows and the parsed total, limit and offset are echoed |
| `ActivityController.GetAllActivity` | backend/src/controllers/activityController.js:62-129 | both queries share the truthy filters in order (user id, then action) at `$1`, `$2`; LIMIT and OFFSET take the next two placeholders; the count query binds the filter values and the list query those plus limit and offset (defaults 100 and 0); the reply is `ListReplyFor` of the store's answer |
| `ActivityController.GetMyActivity` | backend/src/controllers/activityController.js:13-55 | a failure is a 500; with no limit and offset given the reply echoes 50 and 0 |
| `ActivityController.StatsScopeFor` | backend/src/controllers/activityController.js:142 | system-wide statistics exactly for the strings 'administrator' and 'operator' |
| `ActivityController.StatsScopeMatchesOperatorGate` | backend/src/controllers/activityController.js:142 | for a user with a role, system-wide statistics go exactly to those `requireOperator` admits, that is level >= 2 |
| `ActivityController.UnknownRoleGetsPersonalStats` | backend/src/controllers/activityController.js:174 | a role outside the table gets personal statistics |
| `UseAuth.LevelsAgreeWithBackend` | frontend/src/hooks/useAuth.js:51-55 | the frontend table gives every name the same level as the backend table |
| `UseAuth.Level` | frontend/src/hooks/useAuth.js:51-61 | the frontend table: user 1, operator 2, administrator 3, every other name 0 |
| `UseAuth.HasRole` | frontend/src/hooks/useAuth.js:58-63 | false without a user or role; otherwise iff level(user role) >= level(required), by the backend's levels |
| `UseAuth.IsAdmin` | frontend/src/hooks/useAuth.js:66-68 | exact equality with 'administrator', which implies `hasRole` for administrator and operator |
| `UseAuth.IsOperator` | frontend/src/hooks/useAuth.js:71-73 | true exactly for operator and administrator |
| `UseAuth.IsUserIgnoresRole` | frontend/src/hooks/useAuth.js:76-78 | a user without a role is a user, yet has no role, is no operator and no admin |
| `UseAuth.IsUser` | frontend/src/hooks/useAuth.js:76-78 | every user who passes `hasRole('user')` is a user; whoever is not a user is neither operator nor admin |
| `UseAuth.HasRoleMatchesCheckRole` | frontend/src/hooks/useAuth.js:58-63 | `hasRole(r)` in the browser holds iff the server's `checkRole(r)` calls `next` for the same user |
| `UseAuth.AuthState.constructor` | frontend/src/hooks/useAuth.js:7-8 | no user, loading, and the browser's stored token |
| `UseAuth.AuthState.LoadUser` | frontend/src/hooks/useAuth.js:19-29 | success sets the user; failure removes the token; loading ends either way |
| `UseAuth.AuthState.Mount` | frontend/src/hooks/useAuth.js:10-17 | loads the user only when a token is stored; loading ends either way |
| `UseAuth.AuthState.Login` | frontend/src/hooks/useAuth.js:31-36 | success stores the returned token and user and returns the data; failure changes nothing |
| `UseAuth.AuthState.Register` | frontend/src/hooks/useAuth.js:38-43 | the same effect as login |
| `UseAuth.AuthState.Logout` | frontend/src/hooks/useAuth.js:45-48 | token removed and user null, after which no role predicate holds |
| `ActivityPage.RangeShown` | frontend/src/pages/ActivityPage.js:217 | shows offset+1 to min(offset+limit, total) of total |
| `ActivityPage.RangeShownWithinTotal` | frontend/src/pages/ActivityPage.js:217 | for an offset inside the total and a positive limit, 1 <= first <= last <= total |
| `ActivityPage.NextPageMoves` | frontend/src/pages/ActivityPage.js:70-77 | adds exactly `limit` to the offset iff offset+limit < total, otherwise no change; limit and total kept |
| `ActivityPage.NextPage` | frontend/src/pages/ActivityPage.js:70-77 | keeps limit and total and either keeps the offset or advances it by exactly `limit` (when, in `NextPageMoves`) |
| `ActivityPage.PrevPageMoves` | frontend/src/pages/ActivityPage.js:79-86 | sets the offset to max(0, offset-limit) iff offset > 0, otherwise no change; limit and total kept |
| `ActivityPage.PrevPage` | frontend/src/pages/ActivityPage.js:79-86 | keeps limit and total; never makes a non-negative offset negative, and never moves forward for a non-negative limit |
| `ActivityPage.NextDisabled` | frontend/src/pages/ActivityPage.js:221 | a disabled Next button means a no-op `nextPage` |
| `ActivityPage.PrevDisabled` | frontend/src/pages/ActivityPage.js:211 | a disabled Previous button means a no-op `prevPage` |
| `ActivityPage.NextDisabledMatchesGuard` | frontend/src/pages/ActivityPage.js:221 | the Next button is disabled exactly when `nextPage`'s guard fails, and then `nextPage` is a no-op; an enabled one with a positive limit moves forward |
| `ActivityPage.PrevDisabledMatchesGuard` | frontend/src/pages/ActivityPage.js:211 | for a non-negative offset, the Previous button is disabled exactly when `prevPage`'s guard fails, and then `prevPage` is a no-op; an enabled one with a positive limit moves back |
| `ActivityPage.NextThenPrevRestores` | frontend/src/pages/ActivityPage.js:70-86 | an advancing `nextPage` followed by `prevPage` restores the state |
| `ActivityPage.RunKeepsOffsetNonNegative` | frontend/src/pages/ActivityPage.js:70-86 | any sequence of next, previous and view switches keeps a non-negative offset non-negative and keeps limit and total |
| `ActivityPage.InitialRunsStayNonNegative` | frontend/src/pages/ActivityPage.js:12 | from the initial state `{total 0, limit 50, offset 0}` every reachable offset is >= 0 |
| `ActivityPage.Page.constructor` | frontend/src/pages/ActivityPage.js:8-12 | starts on the own-activity view with the initial pagination |
| `ActivityPage.Page.OnNext` | frontend/src/pages/ActivityPage.js:70-77 | the new pagination is the `nextPage` state of the old |
| `ActivityPage.Page.OnPrev` | frontend/src/pages/ActivityPage.js:79-86 | the new pagination is the `prevPage` state of the old |
| `ActivityPage.Page.OnSwitchView` | frontend/src/pages/ActivityPage.js:118-129 | switching view sets the view and resets the offset to 0, leaving limit and total |
| `ActivityPage.Page.OnLoaded` | frontend/src/pages/ActivityPage.js:45-48 | a successful load replaces the pagination with the server's |
| `RoleRoute.Route` | frontend/src/components/RoleRoute.js:5-62 | loading view while loading; redirect to /login without a user; the 403 view with required and actual role iff a truthy required role is not held; the children otherwise |
| `RoleRoute.RouteMatchesServerGate` | frontend/src/components/RoleRoute.js:25-61 | once loaded and signed in, the children show iff the server's `checkRole` lets the same user through |
| `RoleRoute.RoleLessUserDenied` | frontend/src/components/RoleRoute.js:25-41 | a signed-in user without a role is shown the 403 view for any known required role |
| `RoleBadge.BadgeClass` | frontend/src/components/RoleBadge.js:5-16 | role-badge-admin / -operator / -user for the three roles, role-badge-default for any other |
| `RoleBadge.Label` | frontend/src/components/RoleBadge.js:18-29 | Admin / Operator / User for the three roles, the raw string otherwise |
| `RoleBadge.Render` | frontend/src/components/RoleBadge.js:31-37 | nothing for a falsy role; otherwise class `role-badge <class>` and the label |
| `RoleBadge.DefaultClassIffInvalidRole` | frontend/src/components/RoleBadge.js:13-14 | the default class is given exactly to names the backend calls invalid |
| `RoleBadge.KnownClassesDistinct` | frontend/src/components/RoleBadge.js:5-12 | the three known roles get three different classes |

## Left out

- SQL text and `pool.query`: queries are their structure (clauses, placeholders, values); what the database returns or raises is an input. The analytics controller's aggregations run in PostgreSQL and are not part of this model.
- Token verification and the user lookup of the authentication middleware (backend/src/middleware/auth.js): its result is the optional `Actor`.
- The 500 branch of `checkRole` (roleCheck.js:64-70): nothing in a well-typed requirement can throw, so `Decision` has no such case.
- Names inherited from `Object.prototype` (such as `toString`) that JavaScript's indexing and `in` would find in the level tables: the tables are three-key maps.
- Asynchrony: log writes are fire-and-forget; the model records that a write was attempted and its outcome, not when it completes or in which order concurrent requests persist.
- `JSON.stringify` and `parseInt` are opaque: serialised values are marked `Serialized`, and parsing a query text is a function parameter. Error messages written to the console are a fixed string.
- `getDetails` sees the response only through its status code; a `getDetails` result that is not a plain object, and a `res.json` payload that is not a plain object or absent, are not modelled.
- ActivityLogger.EntryOf: an explicit `details: null` is stored as JSON `null` by the code (the destructuring default fires only on `undefined`), but the model's `None` becomes `{}`; no call site passes an explicit null.
- ActivityLogger.ResolveResourceId: an explicit `resourceId: null` in the options is logged as NULL by the code, while the model's `None` falls back to `req.params.id`; no call site passes an explicit null.
- Numbers are unbounded integers; floating point is not modelled.
- The HTTP client, localStorage access, React rendering and routing (frontend/src/services/api.js, the other pages and components, route files): the frontend state is modelled by its fields, and the route files serve only as example inputs to the role lemmas.
- ActivityPage.RunKeepsOffsetNonNegative: requires a non-negative limit; the page starts with limit 50 and only replaces it with the server's echo of the limit it sent.
- React state updates: `setPagination`, `setUser` and the like take effect at once in the model; batching and re-rendering are not modelled.
- `getSystemSettings` and `formatDate` / `formatDetails`: statistics and formatting done by the database and the browser.
