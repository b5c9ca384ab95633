/**
 * The role badge (frontend/src/components/RoleBadge.js): CSS class and label
 * per role, and nothing at all for a falsy role.
 */
module RoleBadge {
  import opened Common
  import RoleCheck

  /** `getRoleBadgeClass`. */
  function BadgeClass(role: string): (c: string)
    ensures role == "administrator" ==> c == "role-badge-admin"
    ensures role == "operator" ==> c == "role-badge-operator"
    ensures role == "user" ==> c == "role-badge-user"
    ensures !RoleCheck.IsKnownRole(role) ==> c == "role-badge-default"
  {
    match role
    case "administrator" => "role-badge-admin"
    case "operator" => "role-badge-operator"
    case "user" => "role-badge-user"
    case _ => "role-badge-default"
  }

  /** `getRoleLabel`: a display name for known roles, the raw string otherwise. */
  function Label(role: string): (l: string)
    ensures role == "administrator" ==> l == "Admin"
    ensures role == "operator" ==> l == "Operator"
    ensures role == "user" ==> l == "User"
    ensures !RoleCheck.IsKnownRole(role) ==> l == role
  {
    match role
    case "administrator" => "Admin"
    case "operator" => "Operator"
    case "user" => "User"
    case _ => role
  }

  /** `<span className={`role-badge ${class}`}>{label}</span>`. */
  datatype Badge = Badge(className: string, caption: string)

  /** The component: `null` for a falsy role, otherwise the badge. */
  function Render(role: Option<string>): (b: Option<Badge>)
    ensures b.None? <==> !TruthyStr(role)
    ensures b.Some? ==> b.value == Badge("role-badge " + BadgeClass(role.value), Label(role.value))
  {
    if !TruthyStr(role) then None
    else Some(Badge("role-badge " + BadgeClass(role.value), Label(role.value)))
  }

  /** The default class marks exactly the names the backend does not know. */
  lemma DefaultClassIffInvalidRole(role: string)
    ensures BadgeClass(role) == "role-badge-default" <==> !RoleCheck.IsValidRole(role)
  {
  }

  /** The three known roles get three different classes. */
  lemma KnownClassesDistinct(r1: string, r2: string)
    requires RoleCheck.IsValidRole(r1) && RoleCheck.IsValidRole(r2) && r1 != r2
    ensures BadgeClass(r1) != BadgeClass(r2)
  {
  }
}
