/**
 * The records the client exchanges with the backend: users, class members
 * and their roles, and classes.
 */
module Data {
  import opened Wrappers

  /** The closed set of membership roles within a class. */
  datatype MemberRole = Owner | Member | Admin

  datatype User = User(id: string, email: string, displayName: string)

  /** A member of a class: the member's user id, display name and role. */
  datatype ClassMember = ClassMember(user: string, displayName: string, role: MemberRole)

  datatype Class = Class(id: string, name: string, description: string, members: seq<ClassMember>)

  /** The string a role travels as (`'owner'`, `'member'`, `'admin'`). */
  function RoleKey(role: MemberRole): (key: string)
    ensures key != ""
  {
    match role
    case Owner => "owner"
    case Member => "member"
    case Admin => "admin"
  }

  /** Reads a role back from its string; `None` for any other string. */
  function ParseRole(key: string): (role: Option<MemberRole>)
    ensures role.Some? ==> RoleKey(role.value) == key
  {
    if key == "owner" then Some(Owner)
    else if key == "member" then Some(Member)
    else if key == "admin" then Some(Admin)
    else None
  }

  /** Every role survives the trip to its string and back. */
  lemma ParseRoleKey(role: MemberRole)
    ensures ParseRole(RoleKey(role)) == Some(role)
  {
  }

  /** Distinct roles travel as distinct strings. */
  lemma RoleKeyInjective(a: MemberRole, b: MemberRole)
    ensures RoleKey(a) == RoleKey(b) ==> a == b
  {
  }
}
