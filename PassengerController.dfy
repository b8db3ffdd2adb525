/**
 * The passenger registry handlers (server/controllers/passengerController.js): listing with
 * search and pagination, lookup, create and update guarded by the passport lookup, delete
 * guarded by the bookings, and the exact passport search.
 */
module PassengerController {
  import opened Wrappers
  import opened Ids
  import opened PassengerModel
  import BookingModel
  import Text
  import Paging
  import opened Store

  const PassengerNotFound := ApiError(404, "Passenger not found")
  const PassportTaken := ApiError(400, "Passenger with this passport number already exists")
  const HasBookings := ApiError(400, "Cannot delete passenger with existing bookings")

  /** A failed validation answers 400 with the validator messages joined by ", ". */
  function ValidationFailed(msgs: seq<string>): ApiError {
    ApiError(400, Text.Join(msgs, ", "))
  }

  /** Every stored passenger satisfies its schema. */
  predicate AllValid(passengers: map<Id, Passenger>) {
    forall i :: i in passengers ==> Valid(passengers[i])
  }

  /** Every stored passport is in upper case, as the `uppercase` setter leaves it. */
  predicate PassportsNormal(passengers: map<Id, Passenger>) {
    forall i :: i in passengers ==> passengers[i].passportNumber == NormPassport(passengers[i].passportNumber)
  }

  lemma ValidPassportsNormal(passengers: map<Id, Passenger>)
    requires AllValid(passengers)
    ensures PassportsNormal(passengers)
  {
  }

  /** The passengers `findOne({ passportNumber })` matches; the `uppercase` setter applies to the query value. */
  function Holders(passengers: map<Id, Passenger>, passport: string): set<Id> {
    set i | i in passengers && passengers[i].passportNumber == NormPassport(passport)
  }

  // ---------------------------------------------------------------------------------------
  // getPassengers

  /** The query string; an absent `page` or `limit` is None. */
  datatype PassengerQuery = PassengerQuery(search: string, page: Option<nat>, limit: Option<nat>)

  /** `page = 1` and `limit = 10` when absent. */
  function PageNo(q: PassengerQuery): nat { q.page.GetOr(1) }
  function Limit(q: PassengerQuery): nat { q.limit.GetOr(10) }

  /** The `$or` of three case-insensitive regular expressions; no search matches everyone. */
  predicate Matches(p: Passenger, search: string) {
    search == ""
    || Text.ContainsIgnoreCase(p.name, search)
    || Text.ContainsIgnoreCase(p.email, search)
    || Text.ContainsIgnoreCase(p.passportNumber, search)
  }

  function CreatedAt(passengers: map<Id, Passenger>): Id -> int {
    i => if i in passengers then passengers[i].createdAt else 0
  }

  /** The collection in the listing's sort order `{ createdAt: -1 }`: every passenger once. */
  predicate NewestFirst(passengers: map<Id, Passenger>, order: seq<Id>) {
    Paging.Distinct(order)
    && (forall i :: i in passengers ==> i in order)
    && (forall i :: i in order ==> i in passengers)
    && Paging.SortedDesc(order, CreatedAt(passengers))
  }

  function Keep(passengers: map<Id, Passenger>, search: string): Id -> bool {
    i => i in passengers && Matches(passengers[i], search)
  }

  function MatchingIds(passengers: map<Id, Passenger>, search: string): set<Id> {
    set i | i in passengers && Matches(passengers[i], search)
  }

  datatype PassengerPage = PassengerPage(passengers: seq<Id>, total: nat, page: nat, pages: nat)

  /** getPassengers: one page of the matches, newest first, with `total` and `pages = ceil(total / limit)`. */
  function GetPassengers(passengers: map<Id, Passenger>, order: seq<Id>, q: PassengerQuery): (r: PassengerPage)
    requires PageNo(q) >= 1 && Limit(q) >= 1 && NewestFirst(passengers, order)
    ensures |r.passengers| <= Limit(q)
    ensures forall i :: i in r.passengers ==> i in passengers && Matches(passengers[i], q.search)
    ensures Paging.SortedDesc(r.passengers, CreatedAt(passengers))
    ensures r.total == |MatchingIds(passengers, q.search)|
    ensures r.pages == Paging.Pages(r.total, Limit(q)) && r.page == PageNo(q)
  {
    var matching := Paging.Filter(order, Keep(passengers, q.search));
    Paging.FilterCountsMatches(order, Keep(passengers, q.search), MatchingIds(passengers, q.search));
    Paging.FilterKeepsSortedDesc(order, Keep(passengers, q.search), CreatedAt(passengers));
    Paging.PageOfKeepsSortedDesc(matching, PageNo(q), Limit(q), CreatedAt(passengers));
    PassengerPage(Paging.PageOf(matching, PageNo(q), Limit(q)), |matching|, PageNo(q), Paging.Pages(|matching|, Limit(q)))
  }

  /** The listing for page `p` is that page of the matching passengers, newest first. */
  lemma ListingOfPage(passengers: map<Id, Passenger>, order: seq<Id>, q: PassengerQuery, p: nat)
    requires Limit(q) >= 1 && NewestFirst(passengers, order) && p >= 1
    ensures var matching := Paging.Filter(order, Keep(passengers, q.search));
            var r := GetPassengers(passengers, order, q.(page := Some(p)));
            r.passengers == Paging.PageOf(matching, p, Limit(q)) && r.pages == Paging.Pages(|matching|, Limit(q))
  {
    assert q.(page := Some(p)).search == q.search;
  }

  /** Every matching passenger is listed on one of the `pages` pages of the same query. */
  lemma EveryMatchListed(passengers: map<Id, Passenger>, order: seq<Id>, q: PassengerQuery, id: Id)
    requires PageNo(q) >= 1 && Limit(q) >= 1 && NewestFirst(passengers, order)
    requires id in passengers && Matches(passengers[id], q.search)
    ensures exists p: nat :: 1 <= p <= GetPassengers(passengers, order, q).pages
                             && id in GetPassengers(passengers, order, q.(page := Some(p))).passengers
  {
    var matching := Paging.Filter(order, Keep(passengers, q.search));
    assert id in matching;
    var p := Paging.PageHolding(matching, Limit(q), id);
    ListingOfPage(passengers, order, q, PageNo(q));
    ListingOfPage(passengers, order, q, p);
  }

  /** The search ignores case: searching in capitals finds the same passengers. */
  lemma SearchIgnoresCase(p: Passenger, search: string)
    ensures Matches(p, Text.ToUpper(search)) <==> Matches(p, Text.ToLower(search))
  {
    var u, l := Text.ToUpper(search), Text.ToLower(search);
    assert Text.ToLower(u) == Text.ToLower(l) by {
      assert forall i :: 0 <= i < |search| ==> Text.LowerChar(u[i]) == Text.LowerChar(l[i]);
    }
  }

  // ---------------------------------------------------------------------------------------
  // getPassenger

  /** getPassenger: the stored passenger, or 404. */
  function GetPassenger(passengers: map<Id, Passenger>, id: Id): (r: Result<Passenger, ApiError>)
    ensures r.Ok? <==> id in passengers
    ensures r.Ok? ==> r.value == passengers[id]
    ensures r.Err? ==> r.error == PassengerNotFound
  {
    if id in passengers then Ok(passengers[id]) else Err(PassengerNotFound)
  }

  // ---------------------------------------------------------------------------------------
  // createPassenger

  datatype CreateRequest = CreateRequest(fields: PassengerFields, userId: Option<Id>)

  /**
   * createPassenger: refused when a passenger already holds the (upper-cased) passport, then
   * when a validator fails; `userId` is the supplied one or null.
   */
  function CreateSpec(passengers: map<Id, Passenger>, req: CreateRequest, now: Time): (r: Result<Passenger, ApiError>)
    ensures PassportClash(passengers, req.fields) ==> r == Err(PassportTaken)
    ensures !PassportClash(passengers, req.fields) ==>
              (r.Ok? <==> FieldErrors(req.fields, true) == [])
              && (r.Err? ==> r.error == ValidationFailed(FieldErrors(req.fields, true)))
    ensures r.Ok? ==> r.value.userId == req.userId && r.value.createdAt == now
                      && r.value.passportNumber == NormPassport(req.fields.passportNumber.value)
                      && Holders(passengers, req.fields.passportNumber.value) == {}
  {
    if PassportClash(passengers, req.fields) then Err(PassportTaken)
    else
      match NewPassenger(req.fields, req.userId, now)
      case Err(msgs) => Err(ValidationFailed(msgs))
      case Ok(p) => Ok(p)
  }

  /** The request names a passport some stored passenger already holds. */
  predicate PassportClash(passengers: map<Id, Passenger>, f: PassengerFields) {
    f.passportNumber.Some? && Holders(passengers, f.passportNumber.value) != {}
  }

  method CreatePassenger(db: Database, req: CreateRequest, now: Time) returns (r: Result<Passenger, ApiError>)
    modifies db`passengers
    ensures r == CreateSpec(old(db.passengers), req, now)
    ensures db.passengers == if r.Ok? then old(db.passengers)[FreshId(old(db.passengers).Keys) := r.value]
                             else old(db.passengers)
  {
    if PassportClash(db.passengers, req.fields) {
      return Err(PassportTaken);
    }
    var created := NewPassenger(req.fields, req.userId, now);
    if created.Err? {
      return Err(ValidationFailed(created.error));
    }
    db.passengers := db.passengers[FreshId(db.passengers.Keys) := created.value];
    r := Ok(created.value);
  }

  /** A created passenger holds a passport no other passenger holds. */
  lemma CreateKeepsPassportsUnique(passengers: map<Id, Passenger>, req: CreateRequest, now: Time)
    requires PassportsUnique(passengers)
    requires CreateSpec(passengers, req, now).Ok?
    ensures PassportsUnique(passengers[FreshId(passengers.Keys) := CreateSpec(passengers, req, now).value])
  {
    var p := CreateSpec(passengers, req, now).value;
    var id := FreshId(passengers.Keys);
    forall k | k in passengers && k != id
      ensures passengers[k].passportNumber != p.passportNumber
    {
      assert k !in Holders(passengers, req.fields.passportNumber.value);
    }
    StoreKeepsPassportsUnique(passengers, id, p);
  }

  /** Storing a passenger under `id` keeps passports unique when no other passenger holds its passport. */
  lemma StoreKeepsPassportsUnique(passengers: map<Id, Passenger>, id: Id, p: Passenger)
    requires PassportsUnique(passengers)
    requires forall k :: k in passengers && k != id ==> passengers[k].passportNumber != p.passportNumber
    ensures PassportsUnique(passengers[id := p])
  {
    var after := passengers[id := p];
    forall i, j | i in after && j in after && i != j
      ensures after[i].passportNumber != after[j].passportNumber
    {
      if i != id && j != id {
        assert after[i] == passengers[i] && after[j] == passengers[j];
      }
    }
  }

  /** A created passenger satisfies the schema, so the registry stays valid. */
  lemma CreateKeepsAllValid(passengers: map<Id, Passenger>, req: CreateRequest, now: Time)
    requires AllValid(passengers)
    requires CreateSpec(passengers, req, now).Ok?
    ensures AllValid(passengers[FreshId(passengers.Keys) := CreateSpec(passengers, req, now).value])
  {
    NewPassengerIsValid(req.fields, req.userId, now);
  }

  // ---------------------------------------------------------------------------------------
  // updatePassenger

  /**
   * The passport guard of updatePassenger: a supplied, non-empty passport that differs, as
   * sent, from the stored one is looked up (upper-cased) among all passengers, this one included.
   */
  predicate UpdateClash(passengers: map<Id, Passenger>, id: Id, u: PassengerUpdate)
    requires id in passengers
  {
    var f := u.fields;
    f.passportNumber.Some? && f.passportNumber.value != ""
    && f.passportNumber.value != passengers[id].passportNumber
    && Holders(passengers, f.passportNumber.value) != {}
  }

  /**
   * updatePassenger: 404 for an unknown id, then the passport guard, then the validators
   * on the supplied fields (`runValidators`); otherwise the body's paths replace the stored ones.
   */
  function UpdateSpec(passengers: map<Id, Passenger>, id: Id, u: PassengerUpdate): (r: Result<Passenger, ApiError>)
    ensures id !in passengers <==> r == Err(PassengerNotFound)
    ensures id in passengers && UpdateClash(passengers, id, u) ==> r == Err(PassportTaken)
    ensures id in passengers && !UpdateClash(passengers, id, u) ==>
              (r.Ok? <==> SuppliedWellFormed(u.fields))
              && (r.Err? ==> r.error == ValidationFailed(FieldErrors(u.fields, false)))
    ensures r.Ok? ==> id in passengers && ApplyFields(passengers[id], u) == Ok(r.value)
  {
    if id !in passengers then Err(PassengerNotFound)
    else if UpdateClash(passengers, id, u) then Err(PassportTaken)
    else
      match ApplyFields(passengers[id], u)
      case Err(msgs) => Err(ValidationFailed(msgs))
      case Ok(p) => Ok(p)
  }

  method UpdatePassenger(db: Database, id: Id, u: PassengerUpdate) returns (r: Result<Passenger, ApiError>)
    modifies db`passengers
    ensures r == UpdateSpec(old(db.passengers), id, u)
    ensures db.passengers == if r.Ok? then old(db.passengers)[id := r.value] else old(db.passengers)
  {
    if id !in db.passengers {
      return Err(PassengerNotFound);
    }
    if UpdateClash(db.passengers, id, u) {
      return Err(PassportTaken);
    }
    var updated := ApplyFields(db.passengers[id], u);
    if updated.Err? {
      return Err(ValidationFailed(updated.error));
    }
    db.passengers := db.passengers[id := updated.value];
    r := Ok(updated.value);
  }

  /** An update never gives a passenger a passport another one holds. */
  lemma UpdateKeepsPassportsUnique(passengers: map<Id, Passenger>, id: Id, u: PassengerUpdate)
    requires PassportsUnique(passengers) && PassportsNormal(passengers)
    requires UpdateSpec(passengers, id, u).Ok?
    ensures PassportsUnique(passengers[id := UpdateSpec(passengers, id, u).value])
  {
    var p := UpdateSpec(passengers, id, u).value;
    forall k | k in passengers && k != id
      ensures passengers[k].passportNumber != p.passportNumber
    {
      if u.fields.passportNumber.Some? {
        if u.fields.passportNumber.value == passengers[id].passportNumber {
          assert p.passportNumber == passengers[id].passportNumber;
        } else {
          assert k !in Holders(passengers, u.fields.passportNumber.value);
        }
      }
    }
    StoreKeepsPassportsUnique(passengers, id, p);
  }

  /** An accepted update leaves every stored passenger valid. */
  lemma UpdateKeepsAllValid(passengers: map<Id, Passenger>, id: Id, u: PassengerUpdate)
    requires AllValid(passengers)
    requires UpdateSpec(passengers, id, u).Ok?
    ensures AllValid(passengers[id := UpdateSpec(passengers, id, u).value])
  {
    ApplyFieldsKeepsValid(passengers[id], u);
  }

  /**
   * The guard compares the passport as sent with the stored, upper-cased one but looks it up
   * upper-cased: resending one's own passport in lower case is refused as a duplicate.
   */
  lemma OwnPassportInLowerCaseRefused()
    ensures var p := Passenger("Ann Lee", "ann@mail.com", "555", "AB12", 0, "NZ", None, 0);
            var u := PassengerUpdate(PassengerFields(None, None, None, Some("ab12"), None, None), None, None);
            UpdateSpec(map[7 := p], 7, u) == Err(PassportTaken)
  {
    var p := Passenger("Ann Lee", "ann@mail.com", "555", "AB12", 0, "NZ", None, 0);
    assert NormPassport("ab12") == "AB12";
    assert 7 in Holders(map[7 := p], "ab12");
  }

  // ---------------------------------------------------------------------------------------
  // deletePassenger

  /** Bookings that refer to the passenger, whatever their status. */
  predicate HasAnyBooking(bookings: map<Id, BookingModel.Booking>, id: Id) {
    exists b :: b in bookings && bookings[b].passengerId == id
  }

  /** Every booking refers to a stored passenger. */
  predicate BookingsLinked(passengers: map<Id, Passenger>, bookings: map<Id, BookingModel.Booking>) {
    forall b :: b in bookings ==> bookings[b].passengerId in passengers
  }

  /** deletePassenger: 404, then refused while any booking refers to the passenger. */
  function DeleteSpec(passengers: map<Id, Passenger>, bookings: map<Id, BookingModel.Booking>, id: Id): (r: Result<Passenger, ApiError>)
    ensures id !in passengers <==> r == Err(PassengerNotFound)
    ensures r == Err(HasBookings) <==> id in passengers && HasAnyBooking(bookings, id)
    ensures r.Ok? <==> id in passengers && !HasAnyBooking(bookings, id)
    ensures r.Ok? ==> r.value == passengers[id]
  {
    if id !in passengers then Err(PassengerNotFound)
    else if HasAnyBooking(bookings, id) then Err(HasBookings)
    else Ok(passengers[id])
  }

  method DeletePassenger(db: Database, id: Id) returns (r: Result<Passenger, ApiError>)
    modifies db`passengers
    ensures r == DeleteSpec(old(db.passengers), old(db.bookings), id)
    ensures db.passengers == if r.Ok? then old(db.passengers) - {id} else old(db.passengers)
  {
    if id !in db.passengers {
      return Err(PassengerNotFound);
    }
    if HasAnyBooking(db.bookings, id) {
      return Err(HasBookings);
    }
    r := Ok(db.passengers[id]);
    db.passengers := db.passengers - {id};
  }

  /** Deleting never leaves a booking that refers to a missing passenger. */
  lemma DeleteKeepsBookingsLinked(passengers: map<Id, Passenger>, bookings: map<Id, BookingModel.Booking>, id: Id)
    requires BookingsLinked(passengers, bookings)
    requires DeleteSpec(passengers, bookings, id).Ok?
    ensures BookingsLinked(passengers - {id}, bookings)
  {
    forall b | b in bookings
      ensures bookings[b].passengerId in passengers - {id}
    {
      assert !(bookings[b].passengerId == id);
    }
  }

  // ---------------------------------------------------------------------------------------
  // searchByPassport

  /**
   * searchByPassport: the passenger holding the passport after the `uppercase` setter, the
   * first in natural order if several do; 404 when none does.
   */
  function SearchByPassport(passengers: map<Id, Passenger>, passport: string): (r: Result<Id, ApiError>)
    ensures r.Err? <==> forall i :: i in passengers ==> passengers[i].passportNumber != NormPassport(passport)
    ensures r.Err? ==> r.error == PassengerNotFound
    ensures r.Ok? ==> r.value in passengers && passengers[r.value].passportNumber == NormPassport(passport)
  {
    var holders := Holders(passengers, passport);
    assert forall i :: i in passengers && passengers[i].passportNumber == NormPassport(passport) ==> i in holders;
    if exists i :: i in holders then Ok(FirstId(holders))
    else Err(PassengerNotFound)
  }

  /** With the unique index the search finds the one holder. */
  lemma SearchFindsTheHolder(passengers: map<Id, Passenger>, id: Id)
    requires PassportsUnique(passengers) && PassportsNormal(passengers) && id in passengers
    ensures SearchByPassport(passengers, passengers[id].passportNumber) == Ok(id)
  {
    var passport := passengers[id].passportNumber;
    Text.ToUpperIdempotent(passport);
    assert id in Holders(passengers, passport);
    var k := SearchByPassport(passengers, passport).value;
    assert passengers[k].passportNumber == passport;
  }
}
