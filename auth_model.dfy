/** src/models/authModel.js: the account principal. `email` is required and
    unique among accounts, `role` is one of "user", "admin", "inspector"
    (default "user"), the profile fields and `OwnerId` default to null. */
module AuthModel {
  import opened Common
  import opened Bcrypt

  datatype Role = UserRole | AdminRole | InspectorRole

  function RoleName(r: Role): string {
    match r
    case UserRole => "user"
    case AdminRole => "admin"
    case InspectorRole => "inspector"
  }

  /** How the schema casts the `role` given to `create`: the default when it
      is absent, the enum value when it names one, a validation error (None)
      otherwise. */
  function ParseRole(role: Option<string>): (r: Option<Role>)
    ensures role.None? ==> r == Some(UserRole)
    ensures role.Some? && r.Some? ==> RoleName(r.value) == role.value
    ensures role.Some? && r.None? ==> forall k: Role :: RoleName(k) != role.value
  {
    match role
    case None => Some(UserRole)
    case Some(s) =>
      if s == "user" then Some(UserRole)
      else if s == "admin" then Some(AdminRole)
      else if s == "inspector" then Some(InspectorRole)
      else None
  }

  datatype Account = Account(
    id: Id,
    fullName: string,
    email: string,
    password: PasswordHash,
    role: Role,
    phoneNumber: Option<string>,
    dob: Option<string>,
    gender: Option<string>,
    nationality: Option<string>,
    profileImage: Option<string>,
    profileImagePublicId: Option<string>,
    ownerId: Option<Id>)

  /** The fields `AuthModel.create` is called with. */
  datatype AccountFields = AccountFields(
    fullName: string,
    email: string,
    password: PasswordHash,
    role: Option<string>,
    phoneNumber: Option<string>,
    dob: Option<string>,
    gender: Option<string>,
    nationality: Option<string>)

  /** The document the schema builds from `fields`, or None when validation
      fails: a required string is empty, or the role is not in the enum. */
  function NewAccount(id: Id, fields: AccountFields): (r: Option<Account>)
    ensures r.Some? <==> fields.fullName != "" && fields.email != "" && ParseRole(fields.role).Some?
    ensures r.Some? ==> r.value.id == id && r.value.fullName == fields.fullName
    ensures r.Some? ==> r.value.email == fields.email && r.value.password == fields.password
    ensures r.Some? ==> Some(r.value.role) == ParseRole(fields.role)
    ensures r.Some? ==> r.value.phoneNumber == fields.phoneNumber && r.value.dob == fields.dob
    ensures r.Some? ==> r.value.gender == fields.gender && r.value.nationality == fields.nationality
    ensures r.Some? ==> r.value.profileImage.None? && r.value.profileImagePublicId.None? && r.value.ownerId.None?
  {
    if fields.fullName == "" || fields.email == "" then None
    else match ParseRole(fields.role)
      case None => None
      case Some(role) =>
        Some(Account(id, fields.fullName, fields.email, fields.password, role,
                     fields.phoneNumber, fields.dob, fields.gender, fields.nationality,
                     None, None, None))
  }
}
