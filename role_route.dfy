/**
 * The role-guarded route component (frontend/src/components/RoleRoute.js):
 * what it renders, given the auth context and the required role.
 */
module RoleRoute {
  import opened Common
  import RoleCheck
  import UseAuth

  datatype RouteView =
    | LoadingView
    | RedirectToLogin
    | AccessDenied(requiredRole: string, userRole: Option<string>)
    | Children

  /** The chain of `if` returns over `loading`, `user`, `requiredRole` and `hasRole`. */
  function Route(loading: bool, user: Option<UseAuth.User>, requiredRole: Option<string>): (v: RouteView)
    ensures loading ==> v == LoadingView
    ensures !loading && user.None? ==> v == RedirectToLogin
    ensures v.AccessDenied? <==>
      !loading && user.Some? && TruthyStr(requiredRole) && !UseAuth.HasRole(user, requiredRole.value)
    ensures v.AccessDenied? ==> v.requiredRole == requiredRole.value && v.userRole == user.value.role
    ensures v == Children <==>
      !loading && user.Some? && (!TruthyStr(requiredRole) || UseAuth.HasRole(user, requiredRole.value))
  {
    if loading then LoadingView
    else if user.None? then RedirectToLogin
    else if TruthyStr(requiredRole) && !UseAuth.HasRole(user, requiredRole.value) then
      AccessDenied(requiredRole.value, user.value.role)
    else Children
  }

  /** Once loaded and signed in, the page shows exactly when the server's `checkRole` would let the request through. */
  lemma RouteMatchesServerGate(user: Option<UseAuth.User>, requiredRole: string)
    requires user.Some? && requiredRole != ""
    ensures Route(false, user, Some(requiredRole)) == Children <==>
      RoleCheck.CheckRole(UseAuth.ActorOf(user), RoleCheck.Single(requiredRole)) == RoleCheck.Next
  {
    UseAuth.HasRoleMatchesCheckRole(user, requiredRole);
  }

  /** A signed-in user without a role is refused by any route that names a known role. */
  lemma RoleLessUserDenied(user: Option<UseAuth.User>, requiredRole: string)
    requires user.Some? && user.value.role.None? && RoleCheck.IsValidRole(requiredRole)
    ensures Route(false, user, Some(requiredRole)) == AccessDenied(requiredRole, None)
  {
  }
}
