/**
 * The account handlers (server/controllers/authController.js): register with its e-mail and
 * passport checks, login with its uniform refusal, and the profile update that merges the
 * supplied fields and recomputes `isProfileComplete`. Tokens and password hashing are outside
 * the model: the hash of a new password and the password comparison are parameters.
 */
module AuthController {
  import opened Wrappers
  import opened Ids
  import opened UserModel
  import Text
  import opened Store

  const UserExists := ApiError(400, "User already exists")
  const PassportRegistered := ApiError(400, "Passport number already registered")
  const ServerError := ApiError(500, "Server error")
  const MissingCredentials := ApiError(400, "Please provide email and password")
  const InvalidCredentials := ApiError(401, "Invalid credentials")
  const UserNotFound := ApiError(404, "User not found")

  /** The users `findOne({ email })` matches; the `lowercase` setter applies to the query value. */
  function EmailHolders(users: map<Id, User>, email: string): set<Id> {
    set i | i in users && users[i].email == Text.ToLower(email)
  }

  /** The users `findOne({ "profile.passportNumber": passport })` matches (no setter on that path). */
  function PassportHolders(users: map<Id, User>, passport: string): set<Id> {
    set i | i in users && users[i].profile.passportNumber == passport
  }

  /** No two users hold the same non-empty passport; only the handlers' checks keep this. */
  predicate PassportsDistinct(users: map<Id, User>) {
    forall i, j :: i in users && j in users && i != j && users[i].profile.passportNumber != "" ==>
      users[i].profile.passportNumber != users[j].profile.passportNumber
  }

  /** Every stored user carries the completeness flag of its own profile. */
  predicate AllConsistent(users: map<Id, User>) {
    forall i :: i in users ==> Consistent(users[i])
  }

  // ---------------------------------------------------------------------------------------
  // register

  /** The register body; an absent text field is "" (JavaScript treats both as false). */
  datatype RegisterRequest = RegisterRequest(
    name: string,
    email: string,
    password: string,
    role: string,
    phone: string,
    passportNumber: string,
    dateOfBirth: Option<Time>,
    nationality: string,
    address: Option<Address>)

  /** `role || "passenger"`, then the enum. */
  function RoleOf(role: string): (r: Option<Role>)
    ensures role == "" ==> r == Some(DefaultRole)
    ensures role != "" ==> (r.Some? <==> ParseRole(role).Some?)
  {
    ParseRole(if role == "" then "passenger" else role)
  }

  /**
   * register: an e-mail already registered answers 400, then a supplied passport some user
   * already holds answers 400; then `User.create` either stores the user or fails validation,
   * which reaches the generic 500 answer. The stored password is `hash`, the hook's output.
   */
  function RegisterSpec(users: map<Id, User>, req: RegisterRequest, hash: string): (r: Result<User, ApiError>)
    ensures EmailHolders(users, req.email) != {} ==> r == Err(UserExists)
    ensures (EmailHolders(users, req.email) == {} && req.passportNumber != ""
             && PassportHolders(users, req.passportNumber) != {}) ==> r == Err(PassportRegistered)
    ensures (EmailHolders(users, req.email) == {}
             && (req.passportNumber == "" || PassportHolders(users, req.passportNumber) == {})) ==>
              (r.Ok? <==> Acceptable(req.name, req.email, req.password) && RoleOf(req.role).Some?)
              && (r.Err? ==> r.error == ServerError)
    ensures r.Ok? ==> Consistent(r.value) && r.value.email == Text.ToLower(req.email)
                      && Some(r.value.role) == RoleOf(req.role) && r.value.password == hash
    ensures r.Ok? ==> r.value.profile.address == req.address.GetOr(map[])
                      && r.value.profile.passportNumber == req.passportNumber
    ensures r.Ok? ==> r.value.name == req.name
                      && r.value.profile == Profile(req.phone, req.passportNumber, req.dateOfBirth, req.nationality, req.address.GetOr(map[]))
                      && (r.value.isProfileComplete <==> req.phone != "" && req.passportNumber != ""
                                                          && req.dateOfBirth.Some? && req.nationality != "")
  {
    if EmailHolders(users, req.email) != {} then Err(UserExists)
    else if req.passportNumber != "" && PassportHolders(users, req.passportNumber) != {} then Err(PassportRegistered)
    else if !Acceptable(req.name, req.email, req.password) || RoleOf(req.role).None? then Err(ServerError)
    else
      var profile := Profile(req.phone, req.passportNumber, req.dateOfBirth, req.nationality, req.address.GetOr(map[]));
      Ok(User(req.name, Text.ToLower(req.email), hash, RoleOf(req.role).value, profile, Complete(profile)))
  }

  method Register(db: Database, req: RegisterRequest, hash: string) returns (r: Result<User, ApiError>)
    modifies db`users
    ensures r == RegisterSpec(old(db.users), req, hash)
    ensures db.users == if r.Ok? then old(db.users)[FreshId(old(db.users).Keys) := r.value] else old(db.users)
  {
    var users := db.users;
    if EmailHolders(users, req.email) != {} {
      return Err(UserExists);
    }
    if req.passportNumber != "" && PassportHolders(users, req.passportNumber) != {} {
      return Err(PassportRegistered);
    }
    var isProfileComplete := req.phone != "" && req.passportNumber != "" && req.dateOfBirth.Some? && req.nationality != "";
    var role := RoleOf(req.role);
    if !Acceptable(req.name, req.email, req.password) || role.None? {
      return Err(ServerError);
    }
    var profile := Profile(req.phone, req.passportNumber, req.dateOfBirth, req.nationality, req.address.GetOr(map[]));
    var user := User(req.name, Text.ToLower(req.email), hash, role.value, profile, isProfileComplete);
    db.users := users[FreshId(users.Keys) := user];
    r := Ok(user);
  }

  /** A registered user keeps e-mails unique, passports distinct and every flag consistent. */
  lemma RegisterKeepsRegistry(users: map<Id, User>, req: RegisterRequest, hash: string)
    requires EmailsUnique(users) && PassportsDistinct(users) && AllConsistent(users)
    requires RegisterSpec(users, req, hash).Ok?
    ensures var after := users[FreshId(users.Keys) := RegisterSpec(users, req, hash).value];
            EmailsUnique(after) && PassportsDistinct(after) && AllConsistent(after)
  {
    var u := RegisterSpec(users, req, hash).value;
    var id := FreshId(users.Keys);
    var after := users[id := u];
    forall i, j | i in after && j in after && i != j
      ensures after[i].email != after[j].email
    {
      if i == id || j == id {
        var other := if i == id then j else i;
        assert other in users && after[other] == users[other];
        assert other !in EmailHolders(users, req.email);
      }
    }
    forall i, j | i in after && j in after && i != j && after[i].profile.passportNumber != ""
      ensures after[i].profile.passportNumber != after[j].profile.passportNumber
    {
      if i == id || j == id {
        var other := if i == id then j else i;
        assert other in users && after[other] == users[other];
        if u.profile.passportNumber != "" {
          assert other !in PassportHolders(users, req.passportNumber);
        }
      }
    }
  }

  // ---------------------------------------------------------------------------------------
  // login

  /**
   * login: a missing e-mail or password answers 400; otherwise the user holding the e-mail
   * must exist and `matches(password, storedHash)` must hold, and both failures give the same
   * 401 answer. On success the answer carries the user's id.
   */
  function LoginSpec(users: map<Id, User>, email: string, password: string,
                     matches: (string, string) -> bool): (r: Result<Id, ApiError>)
    ensures email == "" || password == "" ==> r == Err(MissingCredentials)
    ensures email != "" && password != "" && r.Err? ==> r.error == InvalidCredentials
    ensures r.Ok? ==> r.value in EmailHolders(users, email) && matches(password, users[r.value].password)
    ensures email != "" && password != "" && EmailHolders(users, email) == {} ==> r == Err(InvalidCredentials)
  {
    if email == "" || password == "" then Err(MissingCredentials)
    else
      var holders := EmailHolders(users, email);
      if !exists i :: i in holders then Err(InvalidCredentials)
      else
        var id := FirstId(holders);
        if matches(password, users[id].password) then Ok(id) else Err(InvalidCredentials)
  }

  /** With unique e-mails, login succeeds exactly for the user holding the e-mail and a matching password. */
  lemma LoginSucceedsExactly(users: map<Id, User>, email: string, password: string,
                             matches: (string, string) -> bool, id: Id)
    requires EmailsUnique(users) && email != "" && password != ""
    requires id in users && users[id].email == Text.ToLower(email)
    ensures LoginSpec(users, email, password, matches) == Ok(id) <==> matches(password, users[id].password)
  {
    var holders := EmailHolders(users, email);
    assert id in holders;
    assert forall i :: i in holders ==> i == id;
  }

  // ---------------------------------------------------------------------------------------
  // updateProfile

  /** The updateProfile body; an absent text field is "". */
  datatype ProfileUpdate = ProfileUpdate(
    name: string,
    phone: string,
    passportNumber: string,
    dateOfBirth: Option<Time>,
    nationality: string,
    address: Option<Address>)

  /** The body with no fields. */
  const NoUpdate := ProfileUpdate("", "", "", None, "", None)

  /**
   * The field-by-field overwrite: only supplied, non-empty fields replace the stored ones, the
   * address is merged key by key with the supplied keys winning, and the completeness flag is
   * recomputed from the result.
   */
  function ApplyProfile(u: User, b: ProfileUpdate): (r: User)
    ensures Consistent(r)
    ensures r.email == u.email && r.password == u.password && r.role == u.role
    ensures r.name == (if b.name != "" then b.name else u.name)
    ensures r.profile.passportNumber == (if b.passportNumber != "" then b.passportNumber else u.profile.passportNumber)
    ensures r.profile.phone == (if b.phone != "" then b.phone else u.profile.phone)
    ensures r.profile.nationality == (if b.nationality != "" then b.nationality else u.profile.nationality)
    ensures r.profile.dateOfBirth == (if b.dateOfBirth.Some? then b.dateOfBirth else u.profile.dateOfBirth)
  {
    var p := u.profile;
    var profile := Profile(
      if b.phone != "" then b.phone else p.phone,
      if b.passportNumber != "" then b.passportNumber else p.passportNumber,
      if b.dateOfBirth.Some? then b.dateOfBirth else p.dateOfBirth,
      if b.nationality != "" then b.nationality else p.nationality,
      if b.address.Some? then p.address + b.address.value else p.address);
    User(if b.name != "" then b.name else u.name, u.email, u.password, u.role, profile, Complete(profile))
  }

  /** `{ ...user.profile.address, ...address }`: every old key stays, and a supplied key wins. */
  lemma AddressMerged(u: User, b: ProfileUpdate)
    ensures var a := ApplyProfile(u, b).profile.address;
            (forall k :: k in a <==> k in u.profile.address || (b.address.Some? && k in b.address.value))
            && (forall k :: k in a ==>
                  a[k] == if b.address.Some? && k in b.address.value then b.address.value[k] else u.profile.address[k])
  {
  }

  /** An empty body changes nothing on a consistent user. */
  lemma EmptyProfileUpdate(u: User)
    requires Consistent(u)
    ensures ApplyProfile(u, NoUpdate) == u
  {
  }

  /** A passport change is refused when a user other than the caller holds it. */
  predicate ProfilePassportClash(users: map<Id, User>, id: Id, b: ProfileUpdate)
    requires id in users
  {
    b.passportNumber != "" && b.passportNumber != users[id].profile.passportNumber
    && PassportHolders(users, b.passportNumber) - {id} != {}
  }

  /** updateProfile: 404 for an unknown user, 400 for a passport another user holds, else the merge. */
  function UpdateProfileSpec(users: map<Id, User>, id: Id, b: ProfileUpdate): (r: Result<User, ApiError>)
    ensures id !in users ==> r == Err(UserNotFound)
    ensures id in users ==> (r.Err? <==> ProfilePassportClash(users, id, b)) && (r.Err? ==> r.error == PassportRegistered)
    ensures r.Ok? ==> id in users && r.value == ApplyProfile(users[id], b)
  {
    if id !in users then Err(UserNotFound)
    else if ProfilePassportClash(users, id, b) then Err(PassportRegistered)
    else Ok(ApplyProfile(users[id], b))
  }

  method UpdateProfile(db: Database, id: Id, b: ProfileUpdate) returns (r: Result<User, ApiError>)
    modifies db`users
    ensures r == UpdateProfileSpec(old(db.users), id, b)
    ensures db.users == if r.Ok? then old(db.users)[id := r.value] else old(db.users)
  {
    var users := db.users;
    if id !in users {
      return Err(UserNotFound);
    }
    var user := users[id];
    if b.passportNumber != "" && b.passportNumber != user.profile.passportNumber
       && PassportHolders(users, b.passportNumber) - {id} != {} {
      return Err(PassportRegistered);
    }
    var profile := user.profile;
    if b.name != "" { user := user.(name := b.name); }
    if b.phone != "" { profile := profile.(phone := b.phone); }
    if b.passportNumber != "" { profile := profile.(passportNumber := b.passportNumber); }
    if b.dateOfBirth.Some? { profile := profile.(dateOfBirth := b.dateOfBirth); }
    if b.nationality != "" { profile := profile.(nationality := b.nationality); }
    if b.address.Some? { profile := profile.(address := profile.address + b.address.value); }
    user := user.(profile := profile, isProfileComplete := Complete(profile));
    db.users := users[id := user];
    r := Ok(user);
  }

  /** An accepted profile update keeps e-mails unique, passports distinct and every flag consistent. */
  lemma UpdateProfileKeepsRegistry(users: map<Id, User>, id: Id, b: ProfileUpdate)
    requires EmailsUnique(users) && PassportsDistinct(users) && AllConsistent(users)
    requires UpdateProfileSpec(users, id, b).Ok?
    ensures var after := users[id := UpdateProfileSpec(users, id, b).value];
            EmailsUnique(after) && PassportsDistinct(after) && AllConsistent(after)
  {
    var u := UpdateProfileSpec(users, id, b).value;
    var after := users[id := u];
    forall i, j | i in after && j in after && i != j && after[i].profile.passportNumber != ""
      ensures after[i].profile.passportNumber != after[j].profile.passportNumber
    {
      if i == id || j == id {
        var other := if i == id then j else i;
        assert other in users && after[other] == users[other];
        if b.passportNumber != "" && b.passportNumber != users[id].profile.passportNumber {
          assert other !in PassportHolders(users, b.passportNumber) - {id};
        } else {
          assert u.profile.passportNumber == users[id].profile.passportNumber;
        }
      }
    }
  }
}
