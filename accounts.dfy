/** The user entity and its role (the role part of accounts/models.py), and
    the identity a request arrives with. */
module Accounts {
  import opened Collections

  type UserId = nat

  /** The values stored in `User.role`. */
  const ROLE_USER: string := "user"
  const ROLE_MOD: string := "moderator"
  const ROLE_ADMIN: string := "admin"

  /** The three declared choices of `User.role`. */
  datatype Role = RoleUser | RoleModerator | RoleAdmin {
    /** The string the role is stored as. */
    function Value(): string {
      match this
      case RoleUser => ROLE_USER
      case RoleModerator => ROLE_MOD
      case RoleAdmin => ROLE_ADMIN
    }
  }

  /** Validation of a stored role string against the declared choices. */
  function ParseRole(s: string): (r: Option<Role>)
    ensures r.Some? ==> r.value.Value() == s
  {
    if s == ROLE_USER then Some(RoleUser)
    else if s == ROLE_MOD then Some(RoleModerator)
    else if s == ROLE_ADMIN then Some(RoleAdmin)
    else None
  }

  /** Every role round-trips through its stored value, and exactly the three
      declared strings are accepted. */
  lemma ParseRoleExact(s: string, role: Role)
    ensures ParseRole(role.Value()) == Some(role)
    ensures ParseRole(s).Some? <==> s == ROLE_USER || s == ROLE_MOD || s == ROLE_ADMIN
  {
  }

  datatype User = User(id: UserId, role: Role)

  /** A user as created: the role takes its default. */
  function NewUser(id: UserId): (u: User)
    ensures u.id == id && u.role.Value() == ROLE_USER
  {
    User(id, RoleUser)
  }

  /** `User.is_moderator()`. */
  predicate IsModerator(u: User) {
    u.role.Value() == ROLE_MOD
  }

  /** `User.is_admin()`. */
  predicate IsAdmin(u: User) {
    u.role.Value() == ROLE_ADMIN
  }

  /** The string comparisons pick out exactly the matching role. */
  lemma RolePredicatesExact(u: User)
    ensures IsModerator(u) <==> u.role == RoleModerator
    ensures IsAdmin(u) <==> u.role == RoleAdmin
  {
  }

  /** No user is both moderator and admin; a plain user is neither, and a
      new user is a plain user. */
  lemma RolesExclusive(u: User, id: UserId)
    ensures !(IsModerator(u) && IsAdmin(u))
    ensures u.role == RoleUser ==> !IsModerator(u) && !IsAdmin(u)
    ensures !IsModerator(NewUser(id)) && !IsAdmin(NewUser(id))
  {
  }

  /** `request.user`: the anonymous user or an authenticated account. */
  datatype Viewer = Anonymous | Authenticated(user: User)
}
