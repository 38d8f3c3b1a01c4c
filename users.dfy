/** The custom user model: a role field with two choices and the is_admin property. */
module Users {
  import opened Results

  const RoleUser: string := "USER"
  const RoleAdmin: string := "ADMIN"

  /** The default value of the role field. */
  const DefaultRole: string := RoleUser

  /** The choices of the role field. */
  predicate ValidRole(role: string) {
    role == RoleUser || role == RoleAdmin
  }

  datatype User = User(email: string, role: string)

  /**
   * The is_admin property: a stored role compared with the admin choice. It
   * holds exactly for the one valid choice that is not the default.
   */
  predicate IsAdmin(u: User)
    ensures IsAdmin(u) <==> ValidRole(u.role) && u.role != DefaultRole
  {
    u.role == RoleAdmin
  }

  /** A user row created with only an email: the role takes its default. */
  function NewUser(email: string): (u: User)
    ensures u.email == email
    ensures ValidRole(u.role) && !IsAdmin(u)
  {
    User(email, DefaultRole)
  }

  /** The unique constraint on the email column. */
  ghost predicate EmailsUnique(users: map<int, User>) {
    forall a, b :: a in users && b in users && a != b ==> users[a].email != users[b].email
  }

  /** Every stored role is one of the field's choices. */
  ghost predicate RolesValid(users: map<int, User>) {
    forall a :: a in users ==> ValidRole(users[a].role)
  }

  /**
   * Inserting a user row under a fresh primary key: refused when the email
   * is already taken, otherwise stored with the default role.
   */
  function Register(users: map<int, User>, id: int, email: string): (r: Option<map<int, User>>)
    requires id !in users
    ensures r.Some? <==> forall a :: a in users ==> users[a].email != email
    ensures r.Some? ==> r.value.Keys == users.Keys + {id} && r.value[id].email == email && r.value[id].role == DefaultRole
    ensures r.Some? ==> forall a :: a in users ==> r.value[a] == users[a]
    ensures r.Some? && EmailsUnique(users) ==> EmailsUnique(r.value)
    ensures r.Some? && RolesValid(users) ==> RolesValid(r.value)
  {
    if exists a :: a in users && users[a].email == email then None
    else Some(users[id := NewUser(email)])
  }
}
