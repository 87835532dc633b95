/** The account record the auth API returns (the `User` interface of the session store). */
module Accounts {
  import opened Wrappers

  datatype Role = UserRole | EpaAdmin | HealthAdmin | SuperAdmin

  /** The role as the API spells it; role lists in the pages hold these strings. */
  function RoleName(r: Role): (name: string)
    ensures name in {"user", "epa_admin", "health_admin", "super_admin"}
  {
    match r
    case UserRole => "user"
    case EpaAdmin => "epa_admin"
    case HealthAdmin => "health_admin"
    case SuperAdmin => "super_admin"
  }

  datatype User = User(
    id: string,
    email: string,
    username: string,
    fullName: string,
    phoneNumber: Option<string>,
    role: Role,
    isVerified: bool)
}
