/**
 * The backend's hierarchical role gate (backend/src/middleware/roleCheck.js).
 * A middleware invocation is modelled as a pure function from the
 * authenticated actor and the requirement to a `Decision`.
 */
module RoleCheck {
  import opened Common

  /** The constant level table: user < operator < administrator. */
  const RoleHierarchy: map<string, nat> := map["user" := 1, "operator" := 2, "administrator" := 3]

  const AuthRequiredMessage := "Authentication required"
  const InsufficientMessage := "Insufficient permissions"
  const SpecificRoleMessage := "Specific role required"

  /** The identity attached to `req.user` by the authentication layer. */
  datatype Actor = Actor(userId: Option<int>, role: Option<string>)

  /** One required role, or a list of acceptable roles. */
  datatype Requirement = Single(role: string) | AnyOf(roles: seq<string>)

  /** What the middleware does: call `next`, answer 401, or answer 403 with diagnostics. */
  datatype Decision =
    | Next
    | Unauthenticated
    | Forbidden(message: string, required: Requirement, current: string)
  {
    /** The answer sent to the client: none when `next()` is called, else the status and message. */
    function Answer(): (a: Option<(nat, string)>)
      ensures Next? <==> a.None?
      ensures Unauthenticated? ==> a == Some((401, AuthRequiredMessage))
      ensures Forbidden? ==> a == Some((403, message))
    {
      match this
      case Next => None
      case Unauthenticated => Some((401, AuthRequiredMessage))
      case Forbidden(msg, _, _) => Some((403, msg))
    }
  }

  predicate IsKnownRole(role: string)
  {
    role == "user" || role == "operator" || role == "administrator"
  }

  /** `getRoleLevel`: the table entry, or 0 for any other name. */
  function GetRoleLevel(role: string): (level: nat)
    ensures role == "user" ==> level == 1
    ensures role == "operator" ==> level == 2
    ensures role == "administrator" ==> level == 3
    ensures !IsKnownRole(role) ==> level == 0
  {
    if role in RoleHierarchy then RoleHierarchy[role] else 0
  }

  /** `isValidRole`: membership among the table's keys. */
  function IsValidRole(role: string): (valid: bool)
    ensures valid <==> IsKnownRole(role)
    ensures valid <==> GetRoleLevel(role) > 0
  {
    role in RoleHierarchy
  }

  /** `hasHigherOrEqualRole`. */
  function HasHigherOrEqualRole(role1: string, role2: string): (r: bool)
    ensures role1 == "administrator" ==> r
    ensures !IsKnownRole(role2) ==> r
    ensures IsKnownRole(role2) && !IsKnownRole(role1) ==> !r
  {
    GetRoleLevel(role1) >= GetRoleLevel(role2)
  }

  lemma HigherOrEqualIsTotalPreorder(a: string, b: string, c: string)
    ensures HasHigherOrEqualRole(a, a)
    ensures HasHigherOrEqualRole(a, b) || HasHigherOrEqualRole(b, a)
    ensures HasHigherOrEqualRole(a, b) && HasHigherOrEqualRole(b, c) ==> HasHigherOrEqualRole(a, c)
  {
  }

  /** The actor is present and carries a truthy role. */
  predicate HasRoleSet(user: Option<Actor>)
  {
    user.Some? && TruthyStr(user.value.role)
  }

  /** `requiredRole.some(role => userLevel >= level(role))`, element by element. */
  function AnyAdmits(roles: seq<string>, userLevel: nat): bool
  {
    roles != [] && (GetRoleLevel(roles[0]) <= userLevel || AnyAdmits(roles[1..], userLevel))
  }

  lemma {:induction false} AnyAdmitsIff(roles: seq<string>, userLevel: nat)
    ensures AnyAdmits(roles, userLevel) <==> exists i :: 0 <= i < |roles| && GetRoleLevel(roles[i]) <= userLevel
  {
    if roles != [] {
      AnyAdmitsIff(roles[1..], userLevel);
      if AnyAdmits(roles[1..], userLevel) {
        var i :| 0 <= i < |roles[1..]| && GetRoleLevel(roles[1..][i]) <= userLevel;
        assert GetRoleLevel(roles[i + 1]) <= userLevel;
      }
      if exists i :: 0 <= i < |roles| && GetRoleLevel(roles[i]) <= userLevel {
        var i :| 0 <= i < |roles| && GetRoleLevel(roles[i]) <= userLevel;
        if i > 0 {
          assert GetRoleLevel(roles[1..][i - 1]) <= userLevel;
        }
      }
    }
  }

  /** The least level in a non-empty list of roles. */
  function MinLevel(roles: seq<string>): (m: nat)
    requires roles != []
  {
    if |roles| == 1 then GetRoleLevel(roles[0])
    else
      var rest := MinLevel(roles[1..]);
      if GetRoleLevel(roles[0]) <= rest then GetRoleLevel(roles[0]) else rest
  }

  /** A list requirement is as strict as its least restrictive member. */
  lemma {:induction false} AnyAdmitsIsLeastRestrictive(roles: seq<string>, userLevel: nat)
    requires roles != []
    ensures AnyAdmits(roles, userLevel) <==> MinLevel(roles) <= userLevel
  {
    if |roles| > 1 {
      AnyAdmitsIsLeastRestrictive(roles[1..], userLevel);
    }
  }

  /** `checkRole(requiredRole)` applied to a request whose `req.user` is `user`. */
  function CheckRole(user: Option<Actor>, requirement: Requirement): (d: Decision)
    ensures !HasRoleSet(user) ==> d == Unauthenticated
    ensures HasRoleSet(user) && requirement.Single? ==>
      (d == Next <==> GetRoleLevel(user.value.role.value) >= GetRoleLevel(requirement.role))
    ensures HasRoleSet(user) && requirement.AnyOf? ==>
      (d == Next <==> exists i :: 0 <= i < |requirement.roles| &&
                        GetRoleLevel(requirement.roles[i]) <= GetRoleLevel(user.value.role.value))
    ensures HasRoleSet(user) && d != Next ==>
      d == Forbidden(InsufficientMessage, requirement, user.value.role.value)
  {
    if !HasRoleSet(user) then Unauthenticated
    else
      var userRole := user.value.role.value;
      var userLevel := GetRoleLevel(userRole);
      match requirement
      case AnyOf(roles) =>
        AnyAdmitsIff(roles, userLevel);
        if AnyAdmits(roles, userLevel) then Next
        else Forbidden(InsufficientMessage, requirement, userRole)
      case Single(role) =>
        if userLevel < GetRoleLevel(role) then Forbidden(InsufficientMessage, requirement, userRole)
        else Next
  }

  /** `requireAdmin`. */
  function RequireAdmin(user: Option<Actor>): (d: Decision)
    ensures HasRoleSet(user) ==> (d == Next <==> user.value.role == Some("administrator"))
    ensures !HasRoleSet(user) ==> d == Unauthenticated
  {
    CheckRole(user, Single("administrator"))
  }

  /** `requireOperator`: operator or administrator. */
  function RequireOperator(user: Option<Actor>): (d: Decision)
    ensures HasRoleSet(user) ==>
      (d == Next <==> user.value.role == Some("operator") || user.value.role == Some("administrator"))
    ensures !HasRoleSet(user) ==> d == Unauthenticated
  {
    CheckRole(user, Single("operator"))
  }

  /** `requireUser`: any of the three known roles; an unknown role is refused. */
  function RequireUser(user: Option<Actor>): (d: Decision)
    ensures HasRoleSet(user) ==> (d == Next <==> IsKnownRole(user.value.role.value))
    ensures !HasRoleSet(user) ==> d == Unauthenticated
  {
    CheckRole(user, Single("user"))
  }

  /** `requireExactRole(exactRole)`: name equality, no hierarchy, never 401. */
  function RequireExactRole(user: Option<Actor>, exactRole: string): (d: Decision)
    ensures d == Next <==> user.Some? && user.value.role == Some(exactRole)
    ensures d != Next ==> d.Forbidden? && d.message == SpecificRoleMessage && d.required == Single(exactRole)
    ensures d != Next && HasRoleSet(user) ==> d.current == user.value.role.value
    ensures d != Next && !HasRoleSet(user) ==> d.current == "none"
  {
    if user.None? || user.value.role != Some(exactRole) then
      var current := if HasRoleSet(user) then user.value.role.value else "none";
      Forbidden(SpecificRoleMessage, Single(exactRole), current)
    else Next
  }

  /** A missing actor or role is a 401 whatever the requirement, even one of level 0. */
  lemma MissingRoleIsUnauthenticated(user: Option<Actor>, requirement: Requirement)
    requires !HasRoleSet(user)
    ensures CheckRole(user, requirement).Answer() == Some((401, AuthRequiredMessage))
  {
  }

  /** A required role that is not in the table admits every actor with a role. */
  lemma UnknownRequirementAdmitsAnyRole(user: Option<Actor>, required: string)
    requires HasRoleSet(user) && !IsKnownRole(required)
    ensures CheckRole(user, Single(required)) == Next
  {
  }

  /** An empty list of acceptable roles refuses everyone who has a role. */
  lemma EmptyListDenies(user: Option<Actor>)
    requires HasRoleSet(user)
    ensures CheckRole(user, AnyOf([])).Answer().Some? && CheckRole(user, AnyOf([])).Answer().value.0 == 403
  {
  }

  /** Granting is upward closed: a role at least as high as an admitted one is admitted. */
  lemma CheckRoleUpwardClosed(user1: Option<Actor>, user2: Option<Actor>, requirement: Requirement)
    requires HasRoleSet(user1) && HasRoleSet(user2)
    requires HasHigherOrEqualRole(user2.value.role.value, user1.value.role.value)
    requires CheckRole(user1, requirement) == Next
    ensures CheckRole(user2, requirement) == Next
  {
    if requirement.AnyOf? {
      AnyAdmitsIff(requirement.roles, GetRoleLevel(user1.value.role.value));
      AnyAdmitsIff(requirement.roles, GetRoleLevel(user2.value.role.value));
    }
  }

  /** The list guard `['operator', 'administrator']` used in the routes admits exactly what `requireOperator` admits. */
  lemma OperatorListMatchesRequireOperator(user: Option<Actor>)
    ensures CheckRole(user, AnyOf(["operator", "administrator"])).Next? <==> RequireOperator(user).Next?
  {
    if HasRoleSet(user) {
      var l := GetRoleLevel(user.value.role.value);
      AnyAdmitsIff(["operator", "administrator"], l);
      assert GetRoleLevel(["operator", "administrator"][0]) == 2;
      assert GetRoleLevel(["operator", "administrator"][1]) == 3;
    }
  }

  /** Exact matching ignores the hierarchy: an administrator does not pass `requireExactRole('operator')`. */
  lemma ExactRoleIgnoresHierarchy(user: Option<Actor>)
    requires user.Some? && user.value.role == Some("administrator")
    ensures CheckRole(user, Single("operator")) == Next
    ensures RequireExactRole(user, "operator") == Forbidden(SpecificRoleMessage, Single("operator"), "administrator")
  {
  }
}
