/** The Passenger schema (server/models/Passenger.js). */
module PassengerModel {
  import opened Wrappers
  import opened Ids
  import Text

  datatype Passenger = Passenger(
    name: string,
    email: string,
    phone: string,
    passportNumber: string,
    dateOfBirth: Time,
    nationality: string,
    userId: Option<Id>,
    createdAt: Time)

  /** The six person fields of a create or update request; absent fields are None. */
  datatype PassengerFields = PassengerFields(
    name: Option<string>,
    email: Option<string>,
    phone: Option<string>,
    passportNumber: Option<string>,
    dateOfBirth: Option<Time>,
    nationality: Option<string>)

  /**
   * The body of an update: the person fields, and the two other schema paths, which
   * `findByIdAndUpdate` writes like any other when the body names them. `userId` is
   * Some(None) for an explicit null.
   */
  datatype PassengerUpdate = PassengerUpdate(fields: PassengerFields, userId: Option<Option<Id>>, createdAt: Option<Time>)

  /**
   * `\w+([\.-]?\w+)*` on `s[lo..hi]`: word characters in runs separated by single dots or
   * hyphens, beginning and ending with a word character.
   */
  predicate DottedWordAt(s: string, lo: int, hi: int) {
    0 <= lo < hi <= |s| && Text.IsWordChar(s[lo]) && Text.IsWordChar(s[hi - 1])
    && (forall i :: lo <= i < hi ==> Text.IsWordChar(s[i]) || s[i] == '.' || s[i] == '-')
    && (forall i :: lo <= i < hi - 1 ==> NoSeparatorPairAt(s, i))
  }

  /** Positions i and i + 1 of `s` do not hold two separators in a row. */
  predicate NoSeparatorPairAt(s: string, i: int) {
    0 <= i < |s| - 1 ==> Text.IsWordChar(s[i]) || Text.IsWordChar(s[i + 1])
  }

  /**
   * The e-mail pattern `^\w+([\.-]?\w+)*@\w+([\.-]?\w+)*(\.\w{2,3})+$`: a dotted word, '@',
   * a dotted word, '.', and a final label of two or three word characters.
   */
  predicate EmailPattern(s: string) {
    exists at, dot :: 0 <= at < dot < |s| && EmailSplit(s, at, dot)
  }

  /** `s` matches the e-mail pattern with its '@' at `at` and its last '.' at `dot`. */
  predicate EmailSplit(s: string, at: int, dot: int) {
    0 <= at < dot < |s| && s[at] == '@' && s[dot] == '.'
    && DottedWordAt(s, 0, at) && DottedWordAt(s, at + 1, dot)
    && 2 <= |s| - dot - 1 <= 3
    && (forall i :: dot < i < |s| ==> Text.IsWordChar(s[i]))
  }

  /** The `trim` setter on name and nationality, `lowercase` on email, `uppercase` on passport. */
  function NormName(s: string): string { Text.Trim(s) }
  function NormEmail(s: string): string { Text.ToLower(s) }
  function NormPassport(s: string): string { Text.ToUpper(s) }

  /** Every supplied field passes its validators. */
  predicate SuppliedWellFormed(f: PassengerFields) {
    (f.name.Some? ==> NormName(f.name.value) != "")
    && (f.email.Some? ==> EmailPattern(NormEmail(f.email.value)))
    && (f.phone.Some? ==> f.phone.value != "")
    && (f.passportNumber.Some? ==> NormPassport(f.passportNumber.value) != "")
    && (f.nationality.Some? ==> NormName(f.nationality.value) != "")
  }

  /** The `required` validator of one string path after its setter: missing, or empty once set. */
  function RequiredMsg(v: Option<string>, create: bool, msg: string): (m: seq<string>)
    ensures m == [] <==> (v.Some? ==> v.value != "") && (create ==> v.Some?)
    ensures m != [] ==> m == [msg]
  {
    if (v.Some? && v.value == "") || (v.None? && create) then [msg] else []
  }

  /** The e-mail path: `required`, then `match`, which skips an empty value. */
  function EmailMsgs(v: Option<string>, create: bool): (m: seq<string>)
    ensures m == [] <==> (v.Some? ==> EmailPattern(v.value)) && (create ==> v.Some?)
    ensures v.Some? && v.value != "" && !EmailPattern(v.value) ==> m == ["Please add a valid email"]
  {
    var required := RequiredMsg(v, create, "Please add email");
    if v.Some? && v.value != "" && !EmailPattern(v.value) then required + ["Please add a valid email"]
    else
      assert v.Some? && v.value == "" ==> !EmailPattern(v.value);
      required
  }

  /** The path of `f` after the setters: trim on name and nationality, lowercase on email, uppercase on passport. */
  function SetName(f: PassengerFields): Option<string> {
    if f.name.Some? then Some(NormName(f.name.value)) else None
  }
  function SetEmail(f: PassengerFields): Option<string> {
    if f.email.Some? then Some(NormEmail(f.email.value)) else None
  }
  function SetPassport(f: PassengerFields): Option<string> {
    if f.passportNumber.Some? then Some(NormPassport(f.passportNumber.value)) else None
  }
  function SetNationality(f: PassengerFields): Option<string> {
    if f.nationality.Some? then Some(NormName(f.nationality.value)) else None
  }

  /**
   * The validator messages, in schema order, for the paths present in `f` (all six paths
   * when `create`, since every one is required; only the supplied ones for an update run
   * with `runValidators`).
   */
  function FieldErrors(f: PassengerFields, create: bool): (msgs: seq<string>)
    ensures create && f.name.None? ==> "Please add passenger name" in msgs
    ensures f.email.Some? && NormEmail(f.email.value) != "" && !EmailPattern(NormEmail(f.email.value))
            ==> "Please add a valid email" in msgs
    ensures msgs == [] <==> SuppliedWellFormed(f)
                            && (create ==> f.name.Some? && f.email.Some? && f.phone.Some?
                                           && f.passportNumber.Some? && f.dateOfBirth.Some? && f.nationality.Some?)
  {
    var name := RequiredMsg(SetName(f), create, "Please add passenger name");
    var email := EmailMsgs(SetEmail(f), create);
    var phone := RequiredMsg(f.phone, create, "Please add phone number");
    var passport := RequiredMsg(SetPassport(f), create, "Please add passport number");
    var dob := if create && f.dateOfBirth.None? then ["Please add date of birth"] else [];
    var nationality := RequiredMsg(SetNationality(f), create, "Please add nationality");
    assert name != [] ==> name[0] in name + email;
    name + email + phone + passport + dob + nationality
  }

  /** What the schema guarantees of a stored passenger. */
  predicate Valid(p: Passenger) {
    p.name != "" && p.name == NormName(p.name)
    && EmailPattern(p.email) && p.email == NormEmail(p.email)
    && p.phone != ""
    && p.passportNumber != "" && p.passportNumber == NormPassport(p.passportNumber)
    && p.nationality != "" && p.nationality == NormName(p.nationality)
  }

  /** The unique index on `passportNumber`. */
  predicate PassportsUnique(passengers: map<Id, Passenger>) {
    forall i, j :: i in passengers && j in passengers && i != j ==> passengers[i].passportNumber != passengers[j].passportNumber
  }

  lemma NormIdempotent(s: string)
    ensures NormName(NormName(s)) == NormName(s)
    ensures NormEmail(NormEmail(s)) == NormEmail(s)
    ensures NormPassport(NormPassport(s)) == NormPassport(s)
  {
    Text.ToUpperIdempotent(s);
    var l := NormEmail(s);
    assert forall i :: 0 <= i < |l| ==> Text.LowerChar(l[i]) == l[i];
  }

  /**
   * `Passenger.create`: accepted exactly when no validator fails; the stored fields are the
   * inputs after their setters.
   */
  function NewPassenger(f: PassengerFields, userId: Option<Id>, now: Time): (r: Result<Passenger, seq<string>>)
    ensures r.Err? <==> FieldErrors(f, true) != []
    ensures r.Err? ==> r.error == FieldErrors(f, true)
    ensures r.Ok? ==> r.value.userId == userId && r.value.createdAt == now
    ensures r.Ok? ==> r.value.passportNumber == NormPassport(f.passportNumber.value)
                      && r.value.email == NormEmail(f.email.value)
  {
    var errors := FieldErrors(f, true);
    if errors != [] then Err(errors)
    else
      Ok(Passenger(NormName(f.name.value), NormEmail(f.email.value), f.phone.value,
                   NormPassport(f.passportNumber.value), f.dateOfBirth.value,
                   NormName(f.nationality.value), userId, now))
  }

  /** Every passenger `Passenger.create` accepts satisfies the schema. */
  lemma NewPassengerIsValid(f: PassengerFields, userId: Option<Id>, now: Time)
    ensures NewPassenger(f, userId, now).Ok? ==> Valid(NewPassenger(f, userId, now).value)
  {
    if FieldErrors(f, true) == [] {
      NormIdempotent(f.name.value);
      NormIdempotent(f.email.value);
      NormIdempotent(f.passportNumber.value);
      NormIdempotent(f.nationality.value);
    }
  }

  /** The supplied fields, after their setters, over the stored ones. */
  function Merge(p: Passenger, f: PassengerFields): Passenger {
    p.(
      name := if f.name.Some? then NormName(f.name.value) else p.name,
      email := if f.email.Some? then NormEmail(f.email.value) else p.email,
      phone := f.phone.GetOr(p.phone),
      passportNumber := if f.passportNumber.Some? then NormPassport(f.passportNumber.value) else p.passportNumber,
      dateOfBirth := f.dateOfBirth.GetOr(p.dateOfBirth),
      nationality := if f.nationality.Some? then NormName(f.nationality.value) else p.nationality)
  }

  lemma MergeKeepsValid(p: Passenger, f: PassengerFields)
    requires Valid(p) && SuppliedWellFormed(f)
    ensures Valid(Merge(p, f))
  {
    NormIdempotent(f.name.GetOr(""));
    NormIdempotent(f.email.GetOr(""));
    NormIdempotent(f.passportNumber.GetOr(""));
    NormIdempotent(f.nationality.GetOr(""));
  }

  /**
   * `findByIdAndUpdate(id, body, {runValidators: true})`: the supplied person fields replace
   * the stored ones after their setters, and a supplied `userId` or `createdAt` is written as
   * it is; whatever the body leaves out stays.
   */
  function ApplyFields(p: Passenger, u: PassengerUpdate): (r: Result<Passenger, seq<string>>)
    ensures r.Err? <==> !SuppliedWellFormed(u.fields)
    ensures r.Ok? ==> r.value.userId == u.userId.GetOr(p.userId) && r.value.createdAt == u.createdAt.GetOr(p.createdAt)
    ensures r.Ok? && u.fields.passportNumber.None? ==> r.value.passportNumber == p.passportNumber
    ensures r.Ok? && u.fields.passportNumber.Some? ==> r.value.passportNumber == NormPassport(u.fields.passportNumber.value)
  {
    var errors := FieldErrors(u.fields, false);
    if errors != [] then Err(errors)
    else
      Ok(Merge(p, u.fields).(userId := u.userId.GetOr(p.userId), createdAt := u.createdAt.GetOr(p.createdAt)))
  }

  /** An accepted update of a valid passenger leaves it valid. */
  lemma ApplyFieldsKeepsValid(p: Passenger, u: PassengerUpdate)
    requires Valid(p) && ApplyFields(p, u).Ok?
    ensures Valid(ApplyFields(p, u).value)
  {
    MergeKeepsValid(p, u.fields);
  }

  /** A well-formed address with dots and a hyphen is accepted. */
  lemma EmailAccepted()
    ensures EmailPattern("a.b-c@d.io")
  {
    var ok := "a.b-c@d.io";
    assert DottedWordAt(ok, 0, 5) && DottedWordAt(ok, 6, 7);
    assert EmailSplit(ok, 5, 7);
  }

  /** Two separators in a row are refused. */
  lemma EmailDoubleDotRefused()
    ensures !EmailPattern("jo..ann@mail.com")
  {
    var s := "jo..ann@mail.com";
    assert !NoSeparatorPairAt(s, 2);
    forall at, dot | 0 <= at < dot < |s|
      ensures !EmailSplit(s, at, dot)
    {
      if s[at] == '@' {
        assert at == 7;
      }
    }
  }

  /** The last label must have two or three characters. */
  lemma EmailLastLabelLength()
    ensures !EmailPattern("jo@mail.c")
    ensures !EmailPattern("jo@mail.info")
  {
    var short, long := "jo@mail.c", "jo@mail.info";
    assert forall dot :: 0 <= dot < |short| && 2 <= |short| - dot - 1 <= 3 ==> short[dot] != '.';
    assert forall dot :: 0 <= dot < |long| && 2 <= |long| - dot - 1 <= 3 ==> long[dot] != '.';
  }
}
