/** The User schema (server/models/User.js). */
module UserModel {
  import opened Wrappers
  import opened Ids
  import Text

  /** The `role` enum; a new user defaults to Passenger. */
  datatype Role = PassengerRole | Staff | Agent | Admin

  const DefaultRole: Role := PassengerRole

  function RoleName(r: Role): string {
    match r
    case PassengerRole => "passenger"
    case Staff => "staff"
    case Agent => "agent"
    case Admin => "admin"
  }

  function ParseRole(s: string): (r: Option<Role>)
    ensures forall role :: r == Some(role) <==> RoleName(role) == s
  {
    if s == "passenger" then Some(PassengerRole)
    else if s == "staff" then Some(Staff)
    else if s == "agent" then Some(Agent)
    else if s == "admin" then Some(Admin)
    else None
  }

  /** The five keys of `profile.address`; any other key is dropped by the strict schema. */
  datatype AddressKey = Street | City | State | Country | ZipCode

  type Address = map<AddressKey, string>

  /** The optional profile; an empty string stands for an unset text field. */
  datatype Profile = Profile(
    phone: string,
    passportNumber: string,
    dateOfBirth: Option<Time>,
    nationality: string,
    address: Address)

  /** A stored user. `password` holds the bcrypt hash, which this model treats as opaque text. */
  datatype User = User(
    name: string,
    email: string,
    password: string,
    role: Role,
    profile: Profile,
    isProfileComplete: bool)

  /** `isProfileComplete` defaults to false. */
  const DefaultProfileComplete := false

  /** Phone, passport, date of birth and nationality all set (JavaScript truthiness). */
  predicate Complete(p: Profile) {
    p.phone != "" && p.passportNumber != "" && p.dateOfBirth.Some? && p.nationality != ""
  }

  /** A stored user carries the completeness flag of its own profile. */
  predicate Consistent(u: User) {
    u.isProfileComplete == Complete(u.profile)
  }

  /** The validators of `User.create`: name and e-mail required, password of at least 6 characters. */
  predicate Acceptable(name: string, email: string, password: string) {
    name != "" && Text.ToLower(email) != "" && |password| >= 6
  }

  /** The unique index on `email`; e-mails are stored lower-cased. */
  predicate EmailsUnique(users: map<Id, User>) {
    forall i, j :: i in users && j in users && i != j ==> users[i].email != users[j].email
  }

  /** The view of a user returned by queries: `password` has `select: false`. */
  datatype PublicUser = PublicUser(name: string, email: string, role: Role, profile: Profile, isProfileComplete: bool)

  function Public(u: User): PublicUser {
    PublicUser(u.name, u.email, u.role, u.profile, u.isProfileComplete)
  }

  /** Two users that differ only in their password hash look the same to every query. */
  lemma PasswordNotSelected(u: User, hash: string)
    ensures Public(u.(password := hash)) == Public(u)
  {
  }
}
