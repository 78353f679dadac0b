/** Accounts as `src/lib/auth.ts` describes them: the activity states, the
    user record, the role names and the role-based landing page. */
module Auth {
  import opened Common

  /** `IsActive`. */
  datatype IsActive = Active | Inactive | Blocked

  function IsActiveName(a: IsActive): string {
    match a
    case Active => "ACTIVE"
    case Inactive => "INACTIVE"
    case Blocked => "BLOCKED"
  }

  /** The activity state a string names, if any. */
  function ParseIsActive(t: string): (r: Option<IsActive>)
    ensures r.Some? ==> IsActiveName(r.value) == t
  {
    if t == "ACTIVE" then Some(Active)
    else if t == "INACTIVE" then Some(Inactive)
    else if t == "BLOCKED" then Some(Blocked)
    else None
  }

  /** Exactly three strings name an activity state, and each names a
      different one. */
  lemma IsActiveValues(t: string, a: IsActive)
    ensures ParseIsActive(t).Some? <==> t in {"ACTIVE", "INACTIVE", "BLOCKED"}
    ensures ParseIsActive(IsActiveName(a)) == Some(a)
  {
  }

  // The role names. `src/constants/role` is not part of this model; its
  // values are the upper-case names that `User.role` admits, which the
  // registration form's default "SENDER" also uses.
  const ROLE_ADMIN := "ADMIN"
  const ROLE_SENDER := "SENDER"
  const ROLE_RECEIVER := "RECEIVER"
  const ROLE_SUPER_ADMIN := "SUPER_ADMIN"

  /** `User`; the optional `_id`, `createdAt` and `isActive` are options. */
  datatype User = User(
    id: Option<string>,
    email: string,
    name: string,
    role: string,
    createdAt: Option<string>,
    isActive: Option<IsActive>,
    isDeleted: bool,
    isVerified: bool,
    updatedAt: string)

  /** `getRedirectPath`: the landing page for a lower-case role name, the
      home page for anything else. */
  function RedirectPath(role: string): (path: string)
    ensures |path| >= 1 && path[0] == '/'
    ensures path == "/admin" <==> role == "admin"
    ensures path == "/sender" <==> role == "sender"
    ensures path == "/receiver" <==> role == "receiver"
    ensures path == "/" <==> role !in {"admin", "sender", "receiver"}
  {
    match role
    case "admin" => "/admin"
    case "sender" => "/sender"
    case "receiver" => "/receiver"
    case _ => "/"
  }

  /** The comparison is case-sensitive, so every role a `User` actually
      carries lands on the home page. */
  lemma UserRolesRedirectHome(u: User)
    requires u.role in {ROLE_ADMIN, ROLE_SENDER, ROLE_RECEIVER}
    ensures RedirectPath(u.role) == "/"
  {
  }
}
