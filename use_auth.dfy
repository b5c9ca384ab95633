/**
 * The frontend's authentication context (frontend/src/hooks/useAuth.js):
 * the role predicates offered to components, and the effects of `loadUser`,
 * `login`, `register` and `logout` on the `user` state and the stored token.
 * HTTP calls are inputs: `None` is a request that failed.
 */
module UseAuth {
  import opened Common
  import RoleCheck

  /** The user object returned by the API; only its id and role matter here. */
  datatype User = User(id: int, role: Option<string>)

  /** `response.data` of a successful login or registration. */
  datatype AuthData = AuthData(token: string, user: User)

  /** The frontend's own copy of the level table. */
  const RoleLevels: map<string, nat> := map["user" := 1, "operator" := 2, "administrator" := 3]

  /** `ROLE_LEVELS[role] || 0`. */
  function Level(role: string): (level: nat)
    ensures role == "user" ==> level == 1
    ensures role == "operator" ==> level == 2
    ensures role == "administrator" ==> level == 3
    ensures role !in {"user", "operator", "administrator"} ==> level == 0
  {
    if role in RoleLevels then RoleLevels[role] else 0
  }

  /** The frontend table and the backend table give every name the same level. */
  lemma LevelsAgreeWithBackend(role: string)
    ensures Level(role) == RoleCheck.GetRoleLevel(role)
  {
  }

  /** `hasRole(requiredRole)`: hierarchical, false without a user or role. */
  function HasRole(user: Option<User>, requiredRole: string): (r: bool)
    ensures (user.None? || !TruthyStr(user.value.role)) ==> !r
    ensures user.Some? && TruthyStr(user.value.role) ==>
      (r <==> RoleCheck.GetRoleLevel(user.value.role.value) >= RoleCheck.GetRoleLevel(requiredRole))
  {
    if user.None? || !TruthyStr(user.value.role) then false
    else Level(user.value.role.value) >= Level(requiredRole)
  }

  /** `isAdmin()`: exact equality with 'administrator'. */
  function IsAdmin(user: Option<User>): (r: bool)
    ensures r <==> user.Some? && user.value.role == Some("administrator")
    ensures r ==> HasRole(user, "administrator") && HasRole(user, "operator")
  {
    user.Some? && user.value.role == Some("administrator")
  }

  /** `isOperator()`: `hasRole('operator')`, that is operator or administrator. */
  function IsOperator(user: Option<User>): (r: bool)
    ensures r <==> user.Some? && (user.value.role == Some("operator") || user.value.role == Some("administrator"))
  {
    HasRole(user, "operator")
  }

  /** `isUser()`: a user object exists, with or without a role. */
  function IsUser(user: Option<User>): (r: bool)
    ensures HasRole(user, "user") ==> r
    ensures !r ==> !IsOperator(user) && !IsAdmin(user)
  {
    user.Some?
  }

  /** `isUser` holds for a user without a role, while `hasRole('user')` does not. */
  lemma IsUserIgnoresRole(user: Option<User>)
    requires user.Some? && user.value.role.None?
    ensures IsUser(user) && !HasRole(user, "user") && !IsOperator(user) && !IsAdmin(user)
  {
  }

  /** How the backend sees the same user. */
  function ActorOf(user: Option<User>): (a: Option<RoleCheck.Actor>)
    ensures user.None? <==> a.None?
    ensures user.Some? ==> a.value.role == user.value.role
  {
    if user.None? then None else Some(RoleCheck.Actor(Some(user.value.id), user.value.role))
  }

  /** `hasRole(r)` in the browser agrees with `checkRole(r)` on the server. */
  lemma HasRoleMatchesCheckRole(user: Option<User>, requiredRole: string)
    ensures HasRole(user, requiredRole) <==> RoleCheck.CheckRole(ActorOf(user), RoleCheck.Single(requiredRole)) == RoleCheck.Next
  {
  }

  /** The provider's state: `user`, `loading`, and the `token` entry of localStorage. */
  class AuthState {
    var user: Option<User>
    var loading: bool
    var token: Option<string>

    /** `useState(null)`, `useState(true)`, with whatever token the browser holds. */
    constructor(storedToken: Option<string>)
      ensures user == None && loading && token == storedToken
    {
      user := None;
      loading := true;
      token := storedToken;
    }

    /** `loadUser()`: a failed `getMe` removes the token; loading ends either way. */
    method LoadUser(fetched: Option<User>)
      modifies this
      ensures !loading
      ensures fetched.Some? ==> user == fetched && token == old(token)
      ensures fetched.None? ==> user == old(user) && token == None
    {
      if fetched.Some? {
        user := fetched;
      } else {
        token := None;
      }
      loading := false;
    }

    /** The mount effect: load the user only when a token is stored. */
    method Mount(fetched: Option<User>)
      modifies this
      ensures !loading
      ensures TruthyStr(old(token)) && fetched.Some? ==> user == fetched && token == old(token)
      ensures TruthyStr(old(token)) && fetched.None? ==> user == old(user) && token == None
      ensures !TruthyStr(old(token)) ==> user == old(user) && token == old(token)
    {
      if TruthyStr(token) {
        LoadUser(fetched);
      } else {
        loading := false;
      }
    }

    method StoreSession(data: AuthData)
      modifies this`token, this`user
      ensures token == Some(data.token) && user == Some(data.user)
    {
      token := Some(data.token);
      user := Some(data.user);
    }

    /** `login(email, password)`: on success store the token and user; a failure propagates and changes nothing. */
    method Login(response: Option<AuthData>) returns (data: Option<AuthData>)
      modifies this`token, this`user
      ensures data == response
      ensures response.Some? ==> token == Some(response.value.token) && user == Some(response.value.user)
      ensures response.None? ==> token == old(token) && user == old(user)
    {
      if response.Some? {
        StoreSession(response.value);
      }
      data := response;
    }

    /** `register(name, email, password)`: the same effect as `login`. */
    method Register(response: Option<AuthData>) returns (data: Option<AuthData>)
      modifies this`token, this`user
      ensures data == response
      ensures response.Some? ==> token == Some(response.value.token) && user == Some(response.value.user)
      ensures response.None? ==> token == old(token) && user == old(user)
    {
      if response.Some? {
        StoreSession(response.value);
      }
      data := response;
    }

    /** `logout()`: remove the token and forget the user. */
    method Logout()
      modifies this`token, this`user
      ensures token == None && user == None
      ensures !IsUser(user) && !IsOperator(user) && !IsAdmin(user)
    {
      token := None;
      user := None;
    }
  }
}
