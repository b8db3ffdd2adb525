/**
 * The booking handlers (server/controllers/bookingController.js): the listing, create with
 * its ordered checks and reference generation, update, cancel, check-in and board.
 * Each handler is a method on the store proved against a specification function.
 */
module BookingController {
  import opened Wrappers
  import opened Ids
  import opened BookingModel
  import FlightModel
  import PassengerModel
  import Text
  import Paging
  import opened Store

  const FlightNotFound := ApiError(404, "Flight not found")
  const PassengerNotFound := ApiError(404, "Passenger not found")
  const SeatTaken := ApiError(400, "Seat already taken")
  const FlightFull := ApiError(400, "Flight is full")
  const BookingNotFound := ApiError(404, "Booking not found")
  const CannotCancelBoarded := ApiError(400, "Cannot cancel a booking that has already boarded")
  const CannotCheckInCancelled := ApiError(400, "Cannot check-in a cancelled booking")
  const AlreadyCheckedIn := ApiError(400, "Booking already checked-in")
  const MustCheckInFirst := ApiError(400, "Passenger must check-in first")
  /** Any error other than a validation error, such as the unique index refusing a reference, reaches the generic answer. */
  const ServerError := ApiError(500, "Server error")

  // ---------------------------------------------------------------------------------------
  // Booking references

  /** The characters a reference is drawn from. */
  const Alphabet := "ABCDEFGHIJKLMNOPQRSTUVWXYZ0123456789"

  /** The six values of `Math.floor(Math.random() * 36)` one reference is built from. */
  type Draw = d: seq<nat> | |d| == 6 && forall i :: 0 <= i < |d| ==> d[i] < 36
    witness [0, 0, 0, 0, 0, 0]

  predicate InAlphabet(c: char) { Text.IsUpperLetter(c) || Text.IsDigit(c) }

  /** The position of an alphabet character in Alphabet. */
  function AlphabetIndex(c: char): nat
    requires InAlphabet(c)
  {
    if Text.IsUpperLetter(c) then c as int - 'A' as int else 26 + c as int - '0' as int
  }

  lemma AlphabetIndexInverts(i: nat)
    requires i < 36
    ensures InAlphabet(Alphabet[i]) && AlphabetIndex(Alphabet[i]) == i
  {
  }

  /** The reference a draw spells. */
  function ReferenceFrom(d: Draw): (r: string)
    ensures |r| == 6
    ensures forall i :: 0 <= i < 6 ==> InAlphabet(r[i])
  {
    var r := seq(6, i requires 0 <= i < 6 => Alphabet[d[i]]);
    assert forall i :: 0 <= i < 6 ==> r[i] == Alphabet[d[i]] && InAlphabet(r[i]) by {
      forall i | 0 <= i < 6
        ensures InAlphabet(r[i])
      {
        AlphabetIndexInverts(d[i]);
      }
    }
    r
  }

  /** Reading a reference back gives the draw: different draws spell different references. */
  lemma {:induction false} ReferenceDeterminesDraw(d: Draw, e: Draw)
    requires ReferenceFrom(d) == ReferenceFrom(e)
    ensures d == e
  {
    forall i | 0 <= i < 6
      ensures d[i] == e[i]
    {
      AlphabetIndexInverts(d[i]);
      AlphabetIndexInverts(e[i]);
      assert ReferenceFrom(d)[i] == Alphabet[d[i]];
      assert ReferenceFrom(e)[i] == Alphabet[e[i]];
    }
  }

  /** A generated reference satisfies the schema: it is non-empty and already upper-case. */
  lemma ReferenceIsWellFormed(d: Draw)
    ensures ReferenceFrom(d) != "" && Text.ToUpper(ReferenceFrom(d)) == ReferenceFrom(d)
  {
    var r := ReferenceFrom(d);
    assert forall i :: 0 <= i < |r| ==> Text.UpperChar(r[i]) == r[i];
  }

  /** generateBookingReference: six characters appended one at a time. */
  method GenerateBookingReference(d: Draw) returns (reference: string)
    ensures reference == ReferenceFrom(d)
  {
    reference := "";
    for i := 0 to 6
      invariant |reference| == i
      invariant forall j :: 0 <= j < i ==> reference[j] == Alphabet[d[j]]
    {
      reference := reference + [Alphabet[d[i]]];
    }
  }

  /** The references already stored. */
  function References(bookings: map<Id, Booking>): set<string> {
    set i | i in bookings :: bookings[i].reference
  }

  /** The random source eventually yields a reference not in `taken`. */
  predicate SomeFresh(draws: seq<Draw>, taken: set<string>) {
    exists k :: 0 <= k < |draws| && ReferenceFrom(draws[k]) !in taken
  }

  /** The index of the first draw whose reference is not taken: the loop stops there. */
  function FirstFresh(draws: seq<Draw>, taken: set<string>): (k: nat)
    requires SomeFresh(draws, taken)
    ensures k < |draws| && ReferenceFrom(draws[k]) !in taken
    ensures forall j :: 0 <= j < k ==> ReferenceFrom(draws[j]) in taken
  {
    if ReferenceFrom(draws[0]) !in taken then 0
    else
      var k :| 0 <= k < |draws| && ReferenceFrom(draws[k]) !in taken;
      assert ReferenceFrom(draws[1..][k - 1]) !in taken;
      var rest := FirstFresh(draws[1..], taken);
      assert forall j :: 1 <= j < 1 + rest ==> draws[j] == draws[1..][j - 1];
      1 + rest
  }

  // ---------------------------------------------------------------------------------------
  // Queries used by the checks

  /**
   * Some booking other than `except` on the flight holds the seat with a status in
   * confirmed, checked-in or boarded.
   */
  predicate SeatHeld(bookings: map<Id, Booking>, flightId: Id, seat: string, except: Option<Id>) {
    exists i :: i in bookings && Some(i) != except && bookings[i].flightId == flightId
      && bookings[i].seatNumber == seat && HoldsSeat(bookings[i].status)
  }

  /** The bookings of the flight that count against its capacity. */
  function ActiveOn(bookings: map<Id, Booking>, flightId: Id): set<Id> {
    set i | i in bookings && bookings[i].flightId == flightId && HoldsSeat(bookings[i].status)
  }

  /** No seat of a flight is held by two bookings with a seat-holding status. */
  predicate SeatsUnique(bookings: map<Id, Booking>) {
    forall i, j :: i in bookings && j in bookings && i != j
      && bookings[i].flightId == bookings[j].flightId && bookings[i].seatNumber != ""
      && bookings[i].seatNumber == bookings[j].seatNumber
      ==> !(HoldsSeat(bookings[i].status) && HoldsSeat(bookings[j].status))
  }

  /**
   * `flight.capacity.economy + flight.capacity.business`: None stands for the NaN the sum
   * gives when an update left either figure absent.
   */
  function TotalCapacity(f: FlightModel.Flight): (t: Option<int>)
    ensures t.Some? <==> f.capacity.economy.Some? && f.capacity.business.Some?
    ensures t.Some? ==> t.value == f.capacity.economy.value + f.capacity.business.value
  {
    if f.capacity.economy.Some? && f.capacity.business.Some? then Some(f.capacity.economy.value + f.capacity.business.value)
    else None
  }

  /** The seat-holding bookings of every flight with both figures fit `economy + business`. */
  predicate WithinCapacity(flights: map<Id, FlightModel.Flight>, bookings: map<Id, Booking>) {
    forall f :: f in flights && TotalCapacity(flights[f]).Some? ==> |ActiveOn(bookings, f)| <= TotalCapacity(flights[f]).value
  }

  // ---------------------------------------------------------------------------------------
  // Schema validation of the `class` and `status` paths

  function RequiredMessage(path: string): string {
    "Path `" + path + "` is required."
  }

  function EnumMessage(value: string, path: string): string {
    "`" + value + "` is not a valid enum value for path `" + path + "`."
  }

  /** The `class` validators: required, then the enum. */
  function ClassErrors(c: Option<string>, required: bool): (msgs: seq<string>)
    ensures msgs == [] <==> (if c.None? then !required else ParseSeatClass(c.value).Some?)
  {
    if c.None? then (if required then [RequiredMessage("class")] else [])
    else if c.value == "" then [RequiredMessage("class")]
    else if ParseSeatClass(c.value).None? then [EnumMessage(c.value, "class")]
    else []
  }

  function StatusErrors(s: Option<string>): (msgs: seq<string>)
    ensures msgs == [] <==> (s.None? || ParseStatus(s.value).Some?)
  {
    if s.None? || ParseStatus(s.value).Some? then [] else [EnumMessage(s.value, "status")]
  }

  // ---------------------------------------------------------------------------------------
  // createBooking

  datatype CreateRequest = CreateRequest(
    flightId: Option<Id>,
    passengerId: Option<Id>,
    seatNumber: string,
    seatClass: Option<string>,
    baggage: Option<seq<BaggageItem>>)

  predicate FlightMissing(flights: map<Id, FlightModel.Flight>, req: CreateRequest) {
    req.flightId.None? || req.flightId.value !in flights
  }

  predicate PassengerMissing(passengers: map<Id, PassengerModel.Passenger>, req: CreateRequest) {
    req.passengerId.None? || req.passengerId.value !in passengers
  }

  /** The seat check: skipped without a seat number. */
  predicate SeatConflict(bookings: map<Id, Booking>, req: CreateRequest)
    requires req.flightId.Some?
  {
    req.seatNumber != "" && SeatHeld(bookings, req.flightId.value, req.seatNumber, None)
  }

  /** The capacity check counts economy and business only; a comparison with NaN is false, so a flight missing either figure is never full. */
  predicate Full(flights: map<Id, FlightModel.Flight>, bookings: map<Id, Booking>, flightId: Id)
    requires flightId in flights
  {
    TotalCapacity(flights[flightId]).Some? && |ActiveOn(bookings, flightId)| >= TotalCapacity(flights[flightId]).value
  }

  /**
   * createBooking: flight, passenger, seat and capacity are checked in that order; a
   * booking that passes them gets the first untaken generated reference, status
   * confirmed and baggage defaulting to empty, and is then validated by the schema.
   */
  function CreateSpec(flights: map<Id, FlightModel.Flight>, passengers: map<Id, PassengerModel.Passenger>,
                      bookings: map<Id, Booking>, req: CreateRequest, draws: seq<Draw>, now: Time)
    : (r: Result<Booking, ApiError>)
    requires SomeFresh(draws, References(bookings))
    ensures FlightMissing(flights, req) ==> r == Err(FlightNotFound)
    ensures !FlightMissing(flights, req) && PassengerMissing(passengers, req) ==> r == Err(PassengerNotFound)
    ensures r == Err(SeatTaken) <==>
              !FlightMissing(flights, req) && !PassengerMissing(passengers, req) && SeatConflict(bookings, req)
    ensures r == Err(FlightFull) <==>
              !FlightMissing(flights, req) && !PassengerMissing(passengers, req) && !SeatConflict(bookings, req)
              && Full(flights, bookings, req.flightId.value)
    ensures r.Ok? ==> !FlightMissing(flights, req) && !PassengerMissing(passengers, req)
                      && !SeatConflict(bookings, req) && !Full(flights, bookings, req.flightId.value)
                      && ClassErrors(req.seatClass, true) == []
    ensures r.Ok? ==> r.value.flightId == req.flightId.value && r.value.passengerId == req.passengerId.value
                      && r.value.seatNumber == req.seatNumber
                      && Some(r.value.seatClass) == ParseSeatClass(req.seatClass.value)
                      && r.value.status == Confirmed && r.value.baggage == req.baggage.GetOr([])
                      && r.value.checkInTime.None? && r.value.boardingTime.None? && r.value.createdAt == now
    ensures r.Ok? ==> WellFormed(r.value) && r.value.reference !in References(bookings)
                      && r.value.reference == ReferenceFrom(draws[FirstFresh(draws, References(bookings))])
    ensures !FlightMissing(flights, req) && !PassengerMissing(passengers, req) && !SeatConflict(bookings, req)
            && !Full(flights, bookings, req.flightId.value) ==>
              (r.Ok? <==> ClassErrors(req.seatClass, true) == [])
              && (r.Err? ==> r.error == ApiError(400, Text.Join(ClassErrors(req.seatClass, true), ", ")))
  {
    if FlightMissing(flights, req) then Err(FlightNotFound)
    else if PassengerMissing(passengers, req) then Err(PassengerNotFound)
    else if SeatConflict(bookings, req) then Err(SeatTaken)
    else if Full(flights, bookings, req.flightId.value) then Err(FlightFull)
    else
      var reference := ReferenceFrom(draws[FirstFresh(draws, References(bookings))]);
      ReferenceIsWellFormed(draws[FirstFresh(draws, References(bookings))]);
      var errors := ClassErrors(req.seatClass, true);
      if errors != [] then Err(ApiError(400, Text.Join(errors, ", ")))
      else
        Ok(Booking(reference, req.flightId.value, req.passengerId.value, req.seatNumber,
                   ParseSeatClass(req.seatClass.value).value, Confirmed, req.baggage.GetOr([]),
                   None, None, now))
  }

  /** createBooking on the store; a successful booking is inserted under a fresh ObjectId. */
  method CreateBooking(db: Database, req: CreateRequest, draws: seq<Draw>, now: Time)
    returns (r: Result<Booking, ApiError>)
    requires SomeFresh(draws, References(db.bookings))
    modifies db`bookings
    ensures r == CreateSpec(old(db.flights), old(db.passengers), old(db.bookings), req, draws, now)
    ensures db.bookings == if r.Ok? then old(db.bookings)[FreshId(old(db.bookings).Keys) := r.value]
                           else old(db.bookings)
  {
    if FlightMissing(db.flights, req) {
      return Err(FlightNotFound);
    }
    if PassengerMissing(db.passengers, req) {
      return Err(PassengerNotFound);
    }
    if SeatConflict(db.bookings, req) {
      return Err(SeatTaken);
    }
    if Full(db.flights, db.bookings, req.flightId.value) {
      return Err(FlightFull);
    }
    ghost var taken := References(db.bookings);
    var reference := "";
    var isUnique := false;
    var k := 0;
    while !isUnique
      invariant 0 <= k <= |draws|
      invariant !isUnique ==> forall j :: 0 <= j < k ==> ReferenceFrom(draws[j]) in taken
      invariant isUnique ==> 1 <= k && reference == ReferenceFrom(draws[k - 1]) && reference !in taken
                             && forall j :: 0 <= j < k - 1 ==> ReferenceFrom(draws[j]) in taken
      modifies {}
      decreases |draws| - k, if isUnique then 0 else 1
    {
      assert k < |draws| by {
        var f :| 0 <= f < |draws| && ReferenceFrom(draws[f]) !in taken;
      }
      reference := GenerateBookingReference(draws[k]);
      k := k + 1;
      if reference !in References(db.bookings) {
        isUnique := true;
      }
    }
    assert k - 1 == FirstFresh(draws, taken);
    var errors := ClassErrors(req.seatClass, true);
    if errors != [] {
      return Err(ApiError(400, Text.Join(errors, ", ")));
    }
    var booking := Booking(reference, req.flightId.value, req.passengerId.value, req.seatNumber,
                           ParseSeatClass(req.seatClass.value).value, Confirmed, req.baggage.GetOr([]),
                           None, None, now);
    db.bookings := db.bookings[FreshId(db.bookings.Keys) := booking];
    r := Ok(booking);
  }

  /** Inserting a booking whose seat no seat-holding booking of its flight holds keeps seats unique. */
  lemma InsertKeepsSeatsUnique(bookings: map<Id, Booking>, id: Id, b: Booking)
    requires SeatsUnique(bookings) && id !in bookings
    requires b.seatNumber == "" || !SeatHeld(bookings, b.flightId, b.seatNumber, None)
    ensures SeatsUnique(bookings[id := b])
  {
    var after := bookings[id := b];
    forall i, j | i in after && j in after && i != j && after[i].flightId == after[j].flightId
                  && after[i].seatNumber != "" && after[i].seatNumber == after[j].seatNumber
      ensures !(HoldsSeat(after[i].status) && HoldsSeat(after[j].status))
    {
      if i == id {
        assert !SeatHeld(bookings, b.flightId, b.seatNumber, None) && j in bookings;
      } else if j == id {
        assert !SeatHeld(bookings, b.flightId, b.seatNumber, None) && i in bookings;
      }
    }
  }

  /** A successful create never puts two seat-holding bookings in one seat. */
  lemma CreateKeepsSeatsUnique(flights: map<Id, FlightModel.Flight>, passengers: map<Id, PassengerModel.Passenger>,
                               bookings: map<Id, Booking>, req: CreateRequest, draws: seq<Draw>, now: Time)
    requires SomeFresh(draws, References(bookings)) && SeatsUnique(bookings)
    requires CreateSpec(flights, passengers, bookings, req, draws, now).Ok?
    ensures SeatsUnique(bookings[FreshId(bookings.Keys) := CreateSpec(flights, passengers, bookings, req, draws, now).value])
  {
    var b := CreateSpec(flights, passengers, bookings, req, draws, now).value;
    InsertKeepsSeatsUnique(bookings, FreshId(bookings.Keys), b);
  }

  /** A successful create keeps the unique index on bookingReference satisfied. */
  lemma CreateKeepsReferencesUnique(flights: map<Id, FlightModel.Flight>, passengers: map<Id, PassengerModel.Passenger>,
                                    bookings: map<Id, Booking>, req: CreateRequest, draws: seq<Draw>, now: Time)
    requires SomeFresh(draws, References(bookings)) && ReferencesUnique(bookings)
    requires CreateSpec(flights, passengers, bookings, req, draws, now).Ok?
    ensures ReferencesUnique(bookings[FreshId(bookings.Keys) := CreateSpec(flights, passengers, bookings, req, draws, now).value])
  {
    var b := CreateSpec(flights, passengers, bookings, req, draws, now).value;
    forall i | i in bookings
      ensures bookings[i].reference != b.reference
    {
      assert bookings[i].reference in References(bookings);
    }
  }

  /** Inserting one seat-holding booking into a flight that is not full keeps every flight within capacity. */
  lemma InsertRespectsCapacity(flights: map<Id, FlightModel.Flight>, bookings: map<Id, Booking>, id: Id, b: Booking)
    requires WithinCapacity(flights, bookings) && id !in bookings
    requires b.flightId in flights && !Full(flights, bookings, b.flightId)
    ensures WithinCapacity(flights, bookings[id := b])
  {
    forall f | f in flights && TotalCapacity(flights[f]).Some?
      ensures |ActiveOn(bookings[id := b], f)| <= TotalCapacity(flights[f]).value
    {
      ActiveAfterInsert(bookings, id, b, f);
    }
  }

  lemma ActiveAfterInsert(bookings: map<Id, Booking>, id: Id, b: Booking, f: Id)
    requires id !in bookings
    ensures ActiveOn(bookings[id := b], f)
            == if f == b.flightId && HoldsSeat(b.status) then ActiveOn(bookings, f) + {id} else ActiveOn(bookings, f)
    ensures id !in ActiveOn(bookings, f)
  {
  }

  /**
   * After a successful create the flight's seat-holding bookings still fit economy +
   * business, so creates alone never overbook a flight (first class is not counted).
   */
  lemma CreateRespectsCapacity(flights: map<Id, FlightModel.Flight>, passengers: map<Id, PassengerModel.Passenger>,
                               bookings: map<Id, Booking>, req: CreateRequest, draws: seq<Draw>, now: Time)
    requires SomeFresh(draws, References(bookings)) && WithinCapacity(flights, bookings)
    requires CreateSpec(flights, passengers, bookings, req, draws, now).Ok?
    ensures WithinCapacity(flights, bookings[FreshId(bookings.Keys) := CreateSpec(flights, passengers, bookings, req, draws, now).value])
  {
    var b := CreateSpec(flights, passengers, bookings, req, draws, now).value;
    InsertRespectsCapacity(flights, bookings, FreshId(bookings.Keys), b);
  }

  // ---------------------------------------------------------------------------------------
  // updateBooking

  /** The request body of an update; every field is optional, and every schema path it names is written. */
  datatype BookingPatch = BookingPatch(
    flightId: Option<Id>,
    passengerId: Option<Id>,
    seatNumber: Option<string>,
    seatClass: Option<string>,
    status: Option<string>,
    baggage: Option<seq<BaggageItem>>,
    reference: Option<string>,
    checkInTime: Option<Time>,
    boardingTime: Option<Time>)

  /** The seat is re-checked only for a non-empty seat number that differs from the current one. */
  predicate SeatRecheck(current: Booking, patch: BookingPatch) {
    patch.seatNumber.Some? && patch.seatNumber.value != "" && patch.seatNumber.value != current.seatNumber
  }

  /** The `required` validator of `bookingReference`, which an update may set to the empty string. */
  function ReferenceErrors(r: Option<string>): (msgs: seq<string>)
    ensures msgs == [] <==> (r.None? || r.value != "")
  {
    if r.Some? && r.value == "" then [RequiredMessage("bookingReference")] else []
  }

  /** The validators `runValidators` applies to the supplied paths, in schema order. */
  function PatchErrors(patch: BookingPatch): seq<string> {
    ReferenceErrors(patch.reference) + ClassErrors(patch.seatClass, false) + StatusErrors(patch.status)
  }

  /** The unique index on `bookingReference`: another booking already holds the upper-cased reference. */
  predicate ReferenceTaken(bookings: map<Id, Booking>, id: Id, patch: BookingPatch) {
    patch.reference.Some? && exists j :: j in bookings && j != id && bookings[j].reference == Text.ToUpper(patch.reference.value)
  }

  /** The stored booking with the validated patch applied; the reference is upper-cased by its setter. */
  function Patched(b: Booking, patch: BookingPatch): Booking
    requires PatchErrors(patch) == []
  {
    b.(flightId := patch.flightId.GetOr(b.flightId),
       passengerId := patch.passengerId.GetOr(b.passengerId),
       seatNumber := patch.seatNumber.GetOr(b.seatNumber),
       seatClass := if patch.seatClass.Some? then ParseSeatClass(patch.seatClass.value).value else b.seatClass,
       status := if patch.status.Some? then ParseStatus(patch.status.value).value else b.status,
       baggage := patch.baggage.GetOr(b.baggage),
       reference := if patch.reference.Some? then Text.ToUpper(patch.reference.value) else b.reference,
       checkInTime := if patch.checkInTime.Some? then patch.checkInTime else b.checkInTime,
       boardingTime := if patch.boardingTime.Some? then patch.boardingTime else b.boardingTime)
  }

  /**
   * updateBooking: not found, then the seat re-check excluding the booking itself, then the
   * schema validators, then the unique index on the reference (a 500); the rest of the patch,
   * status and the two timestamps included, is written unchecked.
   */
  function UpdateSpec(bookings: map<Id, Booking>, id: Id, patch: BookingPatch): (r: Result<Booking, ApiError>)
    ensures id !in bookings <==> r == Err(BookingNotFound)
    ensures r == Err(SeatTaken) <==> id in bookings && SeatRecheck(bookings[id], patch)
                                       && SeatHeld(bookings, bookings[id].flightId, patch.seatNumber.value, Some(id))
    ensures r == Err(ServerError) <==> id in bookings
                                       && !(SeatRecheck(bookings[id], patch)
                                            && SeatHeld(bookings, bookings[id].flightId, patch.seatNumber.value, Some(id)))
                                       && PatchErrors(patch) == [] && ReferenceTaken(bookings, id, patch)
    ensures r.Ok? <==> id in bookings
                       && !(SeatRecheck(bookings[id], patch)
                            && SeatHeld(bookings, bookings[id].flightId, patch.seatNumber.value, Some(id)))
                       && ReferenceErrors(patch.reference) == []
                       && ClassErrors(patch.seatClass, false) == [] && StatusErrors(patch.status) == []
                       && !ReferenceTaken(bookings, id, patch)
    ensures r.Ok? ==> r.value == Patched(bookings[id], patch)
    ensures r.Ok? && patch.status.Some? ==> StatusName(r.value.status) == patch.status.value
    ensures r.Ok? && patch.checkInTime.Some? ==> r.value.checkInTime == patch.checkInTime
    ensures r.Ok? && patch.boardingTime.Some? ==> r.value.boardingTime == patch.boardingTime
  {
    if id !in bookings then Err(BookingNotFound)
    else
      var b := bookings[id];
      if SeatRecheck(b, patch) && SeatHeld(bookings, b.flightId, patch.seatNumber.value, Some(id)) then Err(SeatTaken)
      else
        var errors := PatchErrors(patch);
        if errors != [] then
          assert errors[0] != "Seat already taken";
          Err(ApiError(400, Text.Join(errors, ", ")))
        else if ReferenceTaken(bookings, id, patch) then Err(ServerError)
        else Ok(Patched(b, patch))
  }

  method UpdateBooking(db: Database, id: Id, patch: BookingPatch) returns (r: Result<Booking, ApiError>)
    modifies db`bookings
    ensures r == UpdateSpec(old(db.bookings), id, patch)
    ensures db.bookings == if r.Ok? then old(db.bookings)[id := r.value] else old(db.bookings)
  {
    if id !in db.bookings {
      return Err(BookingNotFound);
    }
    var booking := db.bookings[id];
    if SeatRecheck(booking, patch) && SeatHeld(db.bookings, booking.flightId, patch.seatNumber.value, Some(id)) {
      return Err(SeatTaken);
    }
    var errors := PatchErrors(patch);
    if errors != [] {
      return Err(ApiError(400, Text.Join(errors, ", ")));
    }
    if ReferenceTaken(db.bookings, id, patch) {
      return Err(ServerError);
    }
    booking := Patched(booking, patch);
    db.bookings := db.bookings[id := booking];
    r := Ok(booking);
  }

  /** An accepted update keeps references unique and well formed: a taken reference is refused by the index. */
  lemma UpdateKeepsReferencesUnique(bookings: map<Id, Booking>, id: Id, patch: BookingPatch)
    requires ReferencesUnique(bookings) && id in bookings && WellFormed(bookings[id])
    requires UpdateSpec(bookings, id, patch).Ok?
    ensures ReferencesUnique(bookings[id := UpdateSpec(bookings, id, patch).value])
    ensures WellFormed(UpdateSpec(bookings, id, patch).value)
  {
    var b := UpdateSpec(bookings, id, patch).value;
    if patch.reference.Some? {
      Text.ToUpperIdempotent(patch.reference.value);
      forall j | j in bookings && j != id
        ensures bookings[j].reference != b.reference
      {
      }
    }
  }

  /** An update that changes neither status nor flight keeps seats unique. */
  lemma UpdateKeepsSeatsUnique(bookings: map<Id, Booking>, id: Id, patch: BookingPatch)
    requires SeatsUnique(bookings) && patch.status.None? && patch.flightId.None?
    requires UpdateSpec(bookings, id, patch).Ok?
    ensures SeatsUnique(bookings[id := UpdateSpec(bookings, id, patch).value])
  {
    var b := UpdateSpec(bookings, id, patch).value;
    var old_ := bookings[id];
    var after := bookings[id := b];
    assert b.flightId == old_.flightId && b.status == old_.status;
    forall i, j | i in after && j in after && i != j && after[i].flightId == after[j].flightId
                  && after[i].seatNumber != "" && after[i].seatNumber == after[j].seatNumber
      ensures !(HoldsSeat(after[i].status) && HoldsSeat(after[j].status))
    {
      if i == id || j == id {
        var other := if i == id then j else i;
        assert other in bookings && other != id && after[other] == bookings[other];
        if SeatRecheck(old_, patch) {
          assert !SeatHeld(bookings, b.flightId, b.seatNumber, Some(id));
        } else {
          assert b.seatNumber == old_.seatNumber;
        }
      }
    }
  }

  /**
   * The status patch is not checked: setting a cancelled booking back to confirmed puts
   * two seat-holding bookings in one seat.
   */
  lemma UpdateStatusCanDoubleBookSeat()
    ensures exists bookings: map<Id, Booking>, id: Id, patch: BookingPatch ::
              SeatsUnique(bookings) && UpdateSpec(bookings, id, patch).Ok?
              && !SeatsUnique(bookings[id := UpdateSpec(bookings, id, patch).value])
  {
    var held := Booking("AAAAAA", 0, 0, "12A", Economy, Confirmed, [], None, None, 0);
    var cancelled := held.(reference := "BBBBBB", passengerId := 1, status := Cancelled);
    var bookings := map[0 := held, 1 := cancelled];
    var patch := BookingPatch(None, None, None, None, Some("confirmed"), None, None, None, None);
    assert SeatsUnique(bookings);
    var after := bookings[1 := UpdateSpec(bookings, 1, patch).value];
    assert after[0].seatNumber == after[1].seatNumber && HoldsSeat(after[1].status);
    assert !SeatsUnique(after);
  }

  // ---------------------------------------------------------------------------------------
  // deleteBooking (cancel), checkInBooking, boardBooking

  /** Cancel: refused for a boarded booking; any other booking is removed outright. */
  function CancelSpec(bookings: map<Id, Booking>, id: Id): (r: Result<Booking, ApiError>)
    ensures id !in bookings <==> r == Err(BookingNotFound)
    ensures r == Err(CannotCancelBoarded) <==> id in bookings && bookings[id].status == Boarded
    ensures r.Ok? <==> id in bookings && bookings[id].status != Boarded
    ensures r.Ok? ==> r.value == bookings[id]
  {
    if id !in bookings then Err(BookingNotFound)
    else if bookings[id].status == Boarded then Err(CannotCancelBoarded)
    else Ok(bookings[id])
  }

  method DeleteBooking(db: Database, id: Id) returns (r: Result<Booking, ApiError>)
    modifies db`bookings
    ensures r == CancelSpec(old(db.bookings), id)
    ensures db.bookings == if r.Ok? then old(db.bookings) - {id} else old(db.bookings)
  {
    if id !in db.bookings {
      return Err(BookingNotFound);
    }
    var booking := db.bookings[id];
    if booking.status == Boarded {
      return Err(CannotCancelBoarded);
    }
    db.bookings := db.bookings - {id};
    r := Ok(booking);
  }

  /**
   * Cancelling hard-deletes: afterwards the booking is gone, no booking is marked
   * cancelled by it, and its seat can be booked again.
   */
  lemma CancelFreesSeat(bookings: map<Id, Booking>, id: Id)
    requires SeatsUnique(bookings) && CancelSpec(bookings, id).Ok?
    requires bookings[id].seatNumber != "" && HoldsSeat(bookings[id].status)
    ensures id !in bookings - {id}
    ensures forall i :: i in bookings - {id} ==> (bookings - {id})[i] == bookings[i]
    ensures !SeatHeld(bookings - {id}, bookings[id].flightId, bookings[id].seatNumber, None)
  {
    var b := bookings[id];
    var after := bookings - {id};
    forall i | i in after
      ensures !(after[i].flightId == b.flightId && after[i].seatNumber == b.seatNumber && HoldsSeat(after[i].status))
    {
      assert i in bookings && i != id && after[i] == bookings[i];
    }
  }

  /** Check-in: refused when cancelled, then when already checked in or boarded. */
  function CheckInSpec(bookings: map<Id, Booking>, id: Id, now: Time): (r: Result<Booking, ApiError>)
    ensures id !in bookings <==> r == Err(BookingNotFound)
    ensures r == Err(CannotCheckInCancelled) <==> id in bookings && bookings[id].status == Cancelled
    ensures r == Err(AlreadyCheckedIn) <==> id in bookings && bookings[id].status in {CheckedIn, Boarded}
    ensures r.Ok? <==> id in bookings && bookings[id].status == Confirmed
    ensures r.Ok? ==> r.value == bookings[id].(status := CheckedIn, checkInTime := Some(now))
  {
    if id !in bookings then Err(BookingNotFound)
    else if bookings[id].status == Cancelled then Err(CannotCheckInCancelled)
    else if bookings[id].status == CheckedIn || bookings[id].status == Boarded then Err(AlreadyCheckedIn)
    else
      assert bookings[id].status == Confirmed;
      Ok(bookings[id].(status := CheckedIn, checkInTime := Some(now)))
  }

  method CheckInBooking(db: Database, id: Id, now: Time) returns (r: Result<Booking, ApiError>)
    modifies db`bookings
    ensures r == CheckInSpec(old(db.bookings), id, now)
    ensures db.bookings == if r.Ok? then old(db.bookings)[id := r.value] else old(db.bookings)
  {
    if id !in db.bookings {
      return Err(BookingNotFound);
    }
    var booking := db.bookings[id];
    if booking.status == Cancelled {
      return Err(CannotCheckInCancelled);
    }
    if booking.status == CheckedIn || booking.status == Boarded {
      return Err(AlreadyCheckedIn);
    }
    booking := booking.(status := CheckedIn, checkInTime := Some(now));
    db.bookings := db.bookings[id := booking];
    r := Ok(booking);
  }

  /** Board: only from exactly checked-in. */
  function BoardSpec(bookings: map<Id, Booking>, id: Id, now: Time): (r: Result<Booking, ApiError>)
    ensures id !in bookings <==> r == Err(BookingNotFound)
    ensures r == Err(MustCheckInFirst) <==> id in bookings && bookings[id].status != CheckedIn
    ensures r.Ok? <==> id in bookings && bookings[id].status == CheckedIn
    ensures r.Ok? ==> r.value == bookings[id].(status := Boarded, boardingTime := Some(now))
  {
    if id !in bookings then Err(BookingNotFound)
    else if bookings[id].status != CheckedIn then Err(MustCheckInFirst)
    else Ok(bookings[id].(status := Boarded, boardingTime := Some(now)))
  }

  method BoardBooking(db: Database, id: Id, now: Time) returns (r: Result<Booking, ApiError>)
    modifies db`bookings
    ensures r == BoardSpec(old(db.bookings), id, now)
    ensures db.bookings == if r.Ok? then old(db.bookings)[id := r.value] else old(db.bookings)
  {
    if id !in db.bookings {
      return Err(BookingNotFound);
    }
    var booking := db.bookings[id];
    if booking.status != CheckedIn {
      return Err(MustCheckInFirst);
    }
    booking := booking.(status := Boarded, boardingTime := Some(now));
    db.bookings := db.bookings[id := booking];
    r := Ok(booking);
  }

  /**
   * The guarded transitions: a confirmed booking can be checked in and then boarded,
   * never checked in twice, and boarding it directly is refused.
   */
  lemma {:induction false} CheckInThenBoard(bookings: map<Id, Booking>, id: Id, t1: Time, t2: Time)
    requires id in bookings && bookings[id].status == Confirmed
    ensures var after := bookings[id := CheckInSpec(bookings, id, t1).value];
            BoardSpec(after, id, t2).Ok? && BoardSpec(after, id, t2).value.status == Boarded
            && CheckInSpec(after, id, t2) == Err(AlreadyCheckedIn)
    ensures BoardSpec(bookings, id, t2) == Err(MustCheckInFirst)
  {
  }

  /** Check-in and board change only the status and a timestamp, so seats stay unique. */
  lemma TransitionsKeepSeatsUnique(bookings: map<Id, Booking>, id: Id, now: Time)
    requires SeatsUnique(bookings)
    ensures CheckInSpec(bookings, id, now).Ok? ==> SeatsUnique(bookings[id := CheckInSpec(bookings, id, now).value])
    ensures BoardSpec(bookings, id, now).Ok? ==> SeatsUnique(bookings[id := BoardSpec(bookings, id, now).value])
  {
  }

  // ---------------------------------------------------------------------------------------
  // getBookings

  /** The query string of the listing; an absent `page` or `limit` is None. `passengerId` is accepted but never used. */
  datatype BookingQuery = BookingQuery(
    search: string,
    status: string,
    flightId: Option<Id>,
    passengerId: Option<Id>,
    page: Option<nat>,
    limit: Option<nat>)

  /** `page = 1` and `limit = 10` when absent. */
  function PageNo(q: BookingQuery): nat { q.page.GetOr(1) }
  function Limit(q: BookingQuery): nat { q.limit.GetOr(10) }

  /** The filter built from the query: exact status and flight, case-insensitive reference search. */
  predicate Matches(b: Booking, q: BookingQuery) {
    (q.status == "" || StatusName(b.status) == q.status)
    && (q.flightId.None? || b.flightId == q.flightId.value)
    && (q.search == "" || Text.ContainsIgnoreCase(b.reference, q.search))
  }

  /** The sort key of the listing, `createdAt`. */
  function CreatedAt(bookings: map<Id, Booking>): Id -> int {
    i => if i in bookings then bookings[i].createdAt else 0
  }

  /** The collection in the listing's sort order: every booking once, newest first. */
  predicate NewestFirst(bookings: map<Id, Booking>, order: seq<Id>) {
    Paging.Distinct(order)
    && (forall i :: i in bookings ==> i in order)
    && (forall i :: i in order ==> i in bookings)
    && Paging.SortedDesc(order, CreatedAt(bookings))
  }

  datatype BookingPage = BookingPage(bookings: seq<Id>, total: nat, page: nat, pages: nat)

  function Keep(bookings: map<Id, Booking>, q: BookingQuery): Id -> bool {
    i => i in bookings && Matches(bookings[i], q)
  }

  function MatchingIds(bookings: map<Id, Booking>, q: BookingQuery): set<Id> {
    set i | i in bookings && Matches(bookings[i], q)
  }

  /** One page of the bookings `keep` selects from the newest-first listing, with the total and page count. */
  function PageOfBookings(order: seq<Id>, keep: Id -> bool, q: BookingQuery): BookingPage
    requires PageNo(q) >= 1 && Limit(q) >= 1
  {
    var matching := Paging.Filter(order, keep);
    BookingPage(Paging.PageOf(matching, PageNo(q), Limit(q)), |matching|, PageNo(q), Paging.Pages(|matching|, Limit(q)))
  }

  /** getBookings: one page of the matching bookings, newest first, with the total and page count. */
  function ListBookings(bookings: map<Id, Booking>, order: seq<Id>, q: BookingQuery): (r: BookingPage)
    requires PageNo(q) >= 1 && Limit(q) >= 1 && NewestFirst(bookings, order)
    ensures |r.bookings| <= Limit(q)
    ensures forall i :: i in r.bookings ==> i in bookings && Matches(bookings[i], q)
    ensures Paging.SortedDesc(r.bookings, CreatedAt(bookings))
    ensures r.total == |MatchingIds(bookings, q)|
    ensures r.pages == Paging.Pages(r.total, Limit(q)) && r.page == PageNo(q)
  {
    var matching := Paging.Filter(order, Keep(bookings, q));
    Paging.FilterCountsMatches(order, Keep(bookings, q), MatchingIds(bookings, q));
    Paging.FilterKeepsSortedDesc(order, Keep(bookings, q), CreatedAt(bookings));
    Paging.PageOfKeepsSortedDesc(matching, PageNo(q), Limit(q), CreatedAt(bookings));
    PageOfBookings(order, Keep(bookings, q), q)
  }

  /** The listing for page `p` is that page of the matching bookings, newest first. */
  lemma ListingOfPage(bookings: map<Id, Booking>, order: seq<Id>, q: BookingQuery, p: nat)
    requires Limit(q) >= 1 && NewestFirst(bookings, order) && p >= 1
    ensures var matching := Paging.Filter(order, Keep(bookings, q));
            var r := ListBookings(bookings, order, q.(page := Some(p)));
            r.bookings == Paging.PageOf(matching, p, Limit(q)) && r.pages == Paging.Pages(|matching|, Limit(q))
  {
    Paging.FilterAgrees(order, Keep(bookings, q.(page := Some(p))), Keep(bookings, q));
  }

  /** Every matching booking is listed on one of the `pages` pages of the same query. */
  lemma EveryMatchListed(bookings: map<Id, Booking>, order: seq<Id>, q: BookingQuery, id: Id)
    requires PageNo(q) >= 1 && Limit(q) >= 1 && NewestFirst(bookings, order)
    requires id in bookings && Matches(bookings[id], q)
    ensures exists p: nat :: 1 <= p <= ListBookings(bookings, order, q).pages
                             && id in ListBookings(bookings, order, q.(page := Some(p))).bookings
  {
    var matching := Paging.Filter(order, Keep(bookings, q));
    assert id in matching;
    var p := Paging.PageHolding(matching, Limit(q), id);
    ListingOfPage(bookings, order, q, PageNo(q));
    ListingOfPage(bookings, order, q, p);
  }

  /**
   * As written, `passengerId` plays no part in the listing: a query naming a passenger lists
   * the same page as the query without one, so another passenger's booking is listed too.
   */
  lemma PassengerIdIgnored(bookings: map<Id, Booking>, order: seq<Id>, q: BookingQuery, passenger: Id)
    requires PageNo(q) >= 1 && Limit(q) >= 1 && NewestFirst(bookings, order)
    ensures ListBookings(bookings, order, q.(passengerId := Some(passenger)))
            == ListBookings(bookings, order, q.(passengerId := None))
  {
    Paging.FilterAgrees(order, Keep(bookings, q.(passengerId := Some(passenger))), Keep(bookings, q.(passengerId := None)));
    assert MatchingIds(bookings, q.(passengerId := Some(passenger))) == MatchingIds(bookings, q.(passengerId := None));
  }

  /** The input that shows it: asking for passenger 2's bookings lists the one booking, which is passenger 1's. */
  lemma OtherPassengersBookingListed()
    ensures var b := Booking("AAAAAA", 0, 1, "12A", Economy, Confirmed, [], None, None, 0);
            var q := BookingQuery("", "", None, Some(2), None, None);
            ListBookings(map[5 := b], [5], q).bookings == [5]
  {
    var b := Booking("AAAAAA", 0, 1, "12A", Economy, Confirmed, [], None, None, 0);
    var q := BookingQuery("", "", None, Some(2), None, None);
    assert Paging.Filter([5], Keep(map[5 := b], q)) == [5];
  }

  /** The filter `getBookings` evidently means to build: the written one, plus the passenger when one is named. */
  predicate MatchesWithPassenger(b: Booking, q: BookingQuery) {
    Matches(b, q) && (q.passengerId.None? || b.passengerId == q.passengerId.value)
  }

  function KeepWithPassenger(bookings: map<Id, Booking>, q: BookingQuery): Id -> bool {
    i => i in bookings && MatchesWithPassenger(bookings[i], q)
  }

  function MatchingWithPassenger(bookings: map<Id, Booking>, q: BookingQuery): set<Id> {
    set i | i in bookings && MatchesWithPassenger(bookings[i], q)
  }

  /**
   * getBookings with `passengerId` applied: one page of the named passenger's matching
   * bookings, newest first, so a passenger's list holds only their own bookings.
   */
  function ListBookingsForPassenger(bookings: map<Id, Booking>, order: seq<Id>, q: BookingQuery): (r: BookingPage)
    requires PageNo(q) >= 1 && Limit(q) >= 1 && NewestFirst(bookings, order)
    ensures |r.bookings| <= Limit(q)
    ensures forall i :: i in r.bookings ==> i in bookings && Matches(bookings[i], q)
                                            && (q.passengerId.Some? ==> bookings[i].passengerId == q.passengerId.value)
    ensures Paging.SortedDesc(r.bookings, CreatedAt(bookings))
    ensures r.total == |MatchingWithPassenger(bookings, q)|
    ensures r.pages == Paging.Pages(r.total, Limit(q)) && r.page == PageNo(q)
    ensures q.passengerId.None? ==> r == ListBookings(bookings, order, q)
  {
    var keep := KeepWithPassenger(bookings, q);
    var matching := Paging.Filter(order, keep);
    Paging.FilterCountsMatches(order, keep, MatchingWithPassenger(bookings, q));
    Paging.FilterKeepsSortedDesc(order, keep, CreatedAt(bookings));
    Paging.PageOfKeepsSortedDesc(matching, PageNo(q), Limit(q), CreatedAt(bookings));
    if q.passengerId.None? then
      Paging.FilterAgrees(order, keep, Keep(bookings, q));
      PageOfBookings(order, keep, q)
    else PageOfBookings(order, keep, q)
  }

  /** With the filter applied, every matching booking of the passenger is on one of the pages, and no other booking is. */
  lemma EveryBookingOfPassengerListed(bookings: map<Id, Booking>, order: seq<Id>, q: BookingQuery, id: Id)
    requires PageNo(q) >= 1 && Limit(q) >= 1 && NewestFirst(bookings, order) && q.passengerId.Some?
    requires id in bookings && Matches(bookings[id], q) && bookings[id].passengerId == q.passengerId.value
    ensures exists p: nat :: 1 <= p <= ListBookingsForPassenger(bookings, order, q).pages
                             && id in ListBookingsForPassenger(bookings, order, q.(page := Some(p))).bookings
  {
    var keep := KeepWithPassenger(bookings, q);
    var matching := Paging.Filter(order, keep);
    assert id in matching;
    var p := Paging.PageHolding(matching, Limit(q), id);
    Paging.FilterAgrees(order, KeepWithPassenger(bookings, q.(page := Some(p))), keep);
    assert ListBookingsForPassenger(bookings, order, q.(page := Some(p))).bookings == Paging.PageOf(matching, p, Limit(q));
  }
}
