/** The Flight schema (server/models/Flight.js). */
module FlightModel {
  import opened Wrappers
  import opened Ids
  import Text

  /** The `aircraft` enum. */
  datatype Aircraft = A320 | A330 | B737 | B777 | B787 | A380

  function AircraftName(a: Aircraft): string {
    match a
    case A320 => "A320"
    case A330 => "A330"
    case B737 => "B737"
    case B777 => "B777"
    case B787 => "B787"
    case A380 => "A380"
  }

  function ParseAircraft(s: string): (r: Option<Aircraft>)
    ensures forall a :: r == Some(a) <==> AircraftName(a) == s
  {
    if s == "A320" then Some(A320)
    else if s == "A330" then Some(A330)
    else if s == "B737" then Some(B737)
    else if s == "B777" then Some(B777)
    else if s == "B787" then Some(B787)
    else if s == "A380" then Some(A380)
    else None
  }

  /** The `status` enum of a flight; a new flight defaults to Scheduled. */
  datatype FlightStatus = Scheduled | Boarding | Departed | Delayed | Cancelled

  const DefaultStatus: FlightStatus := Scheduled

  function FlightStatusName(s: FlightStatus): string {
    match s
    case Scheduled => "scheduled"
    case Boarding => "boarding"
    case Departed => "departed"
    case Delayed => "delayed"
    case Cancelled => "cancelled"
  }

  function ParseFlightStatus(s: string): (r: Option<FlightStatus>)
    ensures forall st :: r == Some(st) <==> FlightStatusName(st) == s
  {
    if s == "scheduled" then Some(Scheduled)
    else if s == "boarding" then Some(Boarding)
    else if s == "departed" then Some(Departed)
    else if s == "delayed" then Some(Delayed)
    else if s == "cancelled" then Some(Cancelled)
    else None
  }

  /** Per-class figures: first, business and economy. */
  datatype ClassFigures = ClassFigures(first: int, business: int, economy: int)

  /**
   * A stored `capacity` or `price` sub-document. `first` reads back as its default 0 when
   * it is missing. `business` and `economy` are None when an update replaced the
   * sub-document with one that lacked them.
   */
  datatype StoredFigures = StoredFigures(first: int, business: Option<int>, economy: Option<int>)

  datatype Flight = Flight(
    flightNumber: string,
    airline: string,
    aircraft: Aircraft,
    origin: string,
    destination: string,
    departureTime: Time,
    arrivalTime: Time,
    gate: string,
    status: FlightStatus,
    capacity: StoredFigures,
    price: StoredFigures,
    createdAt: Time)

  /** The `uppercase` and `trim` setters together. */
  function UpperTrim(s: string): string { Text.ToUpper(Text.Trim(s)) }

  /** What the schema guarantees of a stored flight's strings. */
  predicate Normalised(f: Flight) {
    f.flightNumber != "" && f.flightNumber == UpperTrim(f.flightNumber)
    && f.airline != "" && f.airline == Text.Trim(f.airline)
    && f.origin != "" && f.origin == UpperTrim(f.origin)
    && f.destination != "" && f.destination == UpperTrim(f.destination)
    && f.gate == Text.Trim(f.gate)
  }

  /** The unique index on `flightNumber`. */
  predicate NumbersUnique(flights: map<Id, Flight>) {
    forall i, j :: i in flights && j in flights && i != j ==> flights[i].flightNumber != flights[j].flightNumber
  }

  /** A request body for `Flight.create` or `findByIdAndUpdate`; absent fields are None. */
  datatype FigureInput = FigureInput(first: Option<int>, business: Option<int>, economy: Option<int>)

  const NoFigures := FigureInput(None, None, None)

  datatype FlightInput = FlightInput(
    flightNumber: Option<string>,
    airline: Option<string>,
    aircraft: Option<string>,
    origin: Option<string>,
    destination: Option<string>,
    departureTime: Option<Time>,
    arrivalTime: Option<Time>,
    gate: Option<string>,
    status: Option<string>,
    capacity: Option<FigureInput>,
    price: Option<FigureInput>,
    createdAt: Option<Time>)

  /** A Mongoose ValidationError: the schema paths that failed, in schema order. */
  datatype ValidationError = ValidationError(paths: seq<string>)

  /** A required string passes when, after its setters, it is non-empty. */
  predicate Filled(o: Option<string>, upper: bool) {
    o.Some? && (if upper then UpperTrim(o.value) else Text.Trim(o.value)) != ""
  }

  predicate EnumOk<T>(o: Option<string>, parse: string -> Option<T>, required: bool) {
    if o.None? then !required else parse(o.value).Some?
  }

  function Check(ok: bool, path: string): seq<string> { if ok then [] else [path] }

  /** The paths whose validators fail for a create request. */
  function Failures(input: FlightInput): seq<string> {
    Check(Filled(input.flightNumber, true), "flightNumber")
    + Check(Filled(input.airline, false), "airline")
    + Check(EnumOk(input.aircraft, ParseAircraft, true), "aircraft")
    + Check(Filled(input.origin, true), "origin")
    + Check(Filled(input.destination, true), "destination")
    + Check(input.departureTime.Some?, "departureTime")
    + Check(input.arrivalTime.Some?, "arrivalTime")
    + Check(EnumOk(input.status, ParseFlightStatus, false), "status")
    + Check(input.capacity.GetOr(NoFigures).business.Some?, "capacity.business")
    + Check(input.capacity.GetOr(NoFigures).economy.Some?, "capacity.economy")
    + Check(input.price.GetOr(NoFigures).business.Some?, "price.business")
    + Check(input.price.GetOr(NoFigures).economy.Some?, "price.economy")
  }

  /**
   * The sub-document a sent object becomes: exactly its own figures, with a missing `first`
   * read back as the default 0 and a missing `business` or `economy` left absent.
   */
  function StoredOf(input: FigureInput): (r: StoredFigures)
    ensures r.business == input.business && r.economy == input.economy
    ensures input.first.Some? ==> r.first == input.first.value
    ensures input.first.None? ==> r.first == 0
  {
    StoredFigures(input.first.GetOr(0), input.business, input.economy)
  }

  /**
   * Casting and validating a create request at time `now`: the flight is accepted exactly
   * when every required path is filled and every enum is valid; the stored strings are
   * upper-cased and trimmed as the schema says, a `createdAt` sent in the body is kept,
   * and the defaults fill the rest.
   */
  function NewFlight(input: FlightInput, now: Time): (r: Result<Flight, ValidationError>)
    ensures r.Err? <==> Failures(input) != []
    ensures r.Err? ==> r.error.paths == Failures(input)
    ensures r.Ok? ==> r.value.flightNumber == UpperTrim(input.flightNumber.value)
                      && r.value.origin == UpperTrim(input.origin.value)
                      && r.value.destination == UpperTrim(input.destination.value)
                      && Some(r.value.aircraft) == ParseAircraft(input.aircraft.value)
    ensures r.Ok? ==> r.value.airline == Text.Trim(input.airline.value)
                      && r.value.gate == Text.Trim(input.gate.GetOr(""))
    ensures r.Ok? ==> r.value.status == (if input.status.None? then DefaultStatus else ParseFlightStatus(input.status.value).value)
    ensures r.Ok? ==> input.capacity.Some? && input.price.Some?
                      && r.value.capacity == StoredOf(input.capacity.value)
                      && r.value.price == StoredOf(input.price.value)
                      && r.value.capacity.business.Some? && r.value.capacity.economy.Some?
                      && r.value.price.business.Some? && r.value.price.economy.Some?
    ensures r.Ok? ==> r.value.createdAt == input.createdAt.GetOr(now)
  {
    var failures := Failures(input);
    if failures != [] then Err(ValidationError(failures))
    else
      var flightNumber := UpperTrim(input.flightNumber.value);
      var origin := UpperTrim(input.origin.value);
      var destination := UpperTrim(input.destination.value);
      Ok(Flight(
        flightNumber,
        Text.Trim(input.airline.value),
        ParseAircraft(input.aircraft.value).value,
        origin,
        destination,
        input.departureTime.value,
        input.arrivalTime.value,
        Text.Trim(input.gate.GetOr("")),
        if input.status.None? then DefaultStatus else ParseFlightStatus(input.status.value).value,
        StoredOf(input.capacity.value),
        StoredOf(input.price.value),
        input.createdAt.GetOr(now)))
  }

  /** Every flight `Flight.create` accepts satisfies the schema's string rules. */
  lemma NewFlightIsNormalised(input: FlightInput, now: Time)
    requires NewFlight(input, now).Ok?
    ensures Normalised(NewFlight(input, now).value)
  {
    var f := NewFlight(input, now).value;
    assert Filled(input.flightNumber, true) && Filled(input.airline, false)
           && Filled(input.origin, true) && Filled(input.destination, true);
    UpperTrimIdempotent(input.flightNumber.value);
    UpperTrimIdempotent(input.origin.value);
    UpperTrimIdempotent(input.destination.value);
    TrimIdempotent(input.airline.value);
    TrimIdempotent(input.gate.GetOr(""));
  }

  lemma TrimIdempotent(s: string)
    ensures Text.Trim(Text.Trim(s)) == Text.Trim(s)
  {
  }

  /** Upper-casing a trimmed string leaves nothing to trim. */
  lemma UpperOfTrimmed(t: string)
    requires t == "" || (!Text.IsSpace(t[0]) && !Text.IsSpace(t[|t| - 1]))
    ensures Text.Trim(Text.ToUpper(t)) == Text.ToUpper(t)
  {
    var u := Text.ToUpper(t);
    if u != "" {
      assert u[0] == Text.UpperChar(t[0]) && u[|u| - 1] == Text.UpperChar(t[|t| - 1]);
    }
    Text.TrimKeepsTrimmed(u);
  }

  lemma UpperTrimIdempotent(s: string)
    ensures UpperTrim(UpperTrim(s)) == UpperTrim(s)
  {
    var t := Text.Trim(s);
    UpperOfTrimmed(t);
    Text.ToUpperIdempotent(t);
  }

  // ---------------------------------------------------------------------------------------
  // `findByIdAndUpdate(id, body, { runValidators: true })`: the setters apply to the supplied
  // values, and only the supplied paths are validated.

  /** The paths whose update validators fail: a supplied required string that is empty after its setters, or a supplied enum value outside the enum. */
  function UpdateFailures(input: FlightInput): seq<string> {
    Check(input.flightNumber.None? || Filled(input.flightNumber, true), "flightNumber")
    + Check(input.airline.None? || Filled(input.airline, false), "airline")
    + Check(EnumOk(input.aircraft, ParseAircraft, false), "aircraft")
    + Check(input.origin.None? || Filled(input.origin, true), "origin")
    + Check(input.destination.None? || Filled(input.destination, true), "destination")
    + Check(EnumOk(input.status, ParseFlightStatus, false), "status")
  }

  /**
   * The `$set` of every supplied field, each through its setters; absent fields keep their
   * value. A supplied `capacity` or `price` object replaces the whole sub-document.
   */
  function ApplyUpdate(f: Flight, input: FlightInput): (r: Flight)
    requires UpdateFailures(input) == []
    ensures r.createdAt == input.createdAt.GetOr(f.createdAt)
    ensures input.capacity.Some? ==> r.capacity == StoredOf(input.capacity.value)
    ensures input.capacity.None? ==> r.capacity == f.capacity
    ensures input.price.Some? ==> r.price == StoredOf(input.price.value)
    ensures input.price.None? ==> r.price == f.price
  {
    Flight(
      if input.flightNumber.Some? then UpperTrim(input.flightNumber.value) else f.flightNumber,
      if input.airline.Some? then Text.Trim(input.airline.value) else f.airline,
      if input.aircraft.Some? then ParseAircraft(input.aircraft.value).value else f.aircraft,
      if input.origin.Some? then UpperTrim(input.origin.value) else f.origin,
      if input.destination.Some? then UpperTrim(input.destination.value) else f.destination,
      input.departureTime.GetOr(f.departureTime),
      input.arrivalTime.GetOr(f.arrivalTime),
      if input.gate.Some? then Text.Trim(input.gate.value) else f.gate,
      if input.status.Some? then ParseFlightStatus(input.status.value).value else f.status,
      if input.capacity.Some? then StoredOf(input.capacity.value) else f.capacity,
      if input.price.Some? then StoredOf(input.price.value) else f.price,
      input.createdAt.GetOr(f.createdAt))
  }

  /** An update body with no fields. */
  const NoChange := FlightInput(None, None, None, None, None, None, None, None, None, None, None, None)

  /** An empty update body leaves the flight as it was. */
  lemma EmptyUpdateChangesNothing(f: Flight)
    ensures UpdateFailures(NoChange) == []
    ensures ApplyUpdate(f, NoChange) == f
  {
  }

  /** An accepted update keeps the schema's string rules. */
  lemma UpdateKeepsNormalised(f: Flight, input: FlightInput)
    requires Normalised(f) && UpdateFailures(input) == []
    ensures Normalised(ApplyUpdate(f, input))
  {
    var g := ApplyUpdate(f, input);
    KeptUpperTrim(input.flightNumber, f.flightNumber);
    KeptTrim(input.airline, f.airline, true);
    KeptUpperTrim(input.origin, f.origin);
    KeptUpperTrim(input.destination, f.destination);
    KeptTrim(input.gate, f.gate, false);
  }

  /** A required upper-cased path stays non-empty and normalised under a valid `$set`. */
  lemma KeptUpperTrim(o: Option<string>, current: string)
    requires current != "" && current == UpperTrim(current)
    requires o.None? || Filled(o, true)
    ensures var v := if o.Some? then UpperTrim(o.value) else current; v != "" && v == UpperTrim(v)
  {
    if o.Some? { UpperTrimIdempotent(o.value); }
  }

  /** A trimmed path stays trimmed (and, when required, non-empty) under a valid `$set`. */
  lemma KeptTrim(o: Option<string>, current: string, required: bool)
    requires (required ==> current != "") && current == Text.Trim(current)
    requires required ==> o.None? || Filled(o, false)
    ensures var v := if o.Some? then Text.Trim(o.value) else current; (required ==> v != "") && v == Text.Trim(v)
  {
    if o.Some? { TrimIdempotent(o.value); }
  }

  /** Sending the same update twice has the effect of sending it once. */
  lemma UpdateIdempotent(f: Flight, input: FlightInput)
    requires UpdateFailures(input) == []
    ensures ApplyUpdate(ApplyUpdate(f, input), input) == ApplyUpdate(f, input)
  {
  }

  /**
   * A sent `capacity` or `price` object keeps nothing of the stored sub-document: the
   * result is the same whatever the flight held before.
   */
  lemma SentFiguresForgetOld(f: Flight, g: Flight, input: FlightInput)
    requires UpdateFailures(input) == []
    ensures input.capacity.Some? ==> ApplyUpdate(f, input).capacity == ApplyUpdate(g, input).capacity
    ensures input.price.Some? ==> ApplyUpdate(f, input).price == ApplyUpdate(g, input).price
  {
  }

  /** The admin edit form's body: its `capacity` and `price` objects carry fixed figures and no `first`. */
  function WithEditFormFigures(body: FlightInput, economy: int): FlightInput {
    body.(capacity := Some(FigureInput(None, Some(20), Some(economy))),
          price := Some(FigureInput(None, Some(600), Some(200))))
  }

  /**
   * Saving the edit form wipes a flight's first class: capacity and price of first class
   * read back as 0, whatever the flight held, and the other fields are set as without the
   * figures.
   */
  lemma EditFormDropsFirstClass(f: Flight, body: FlightInput, economy: int)
    requires f.capacity.first > 0 && UpdateFailures(body) == []
    ensures UpdateFailures(WithEditFormFigures(body, economy)) == []
    ensures var g := ApplyUpdate(f, WithEditFormFigures(body, economy));
            g.capacity == StoredFigures(0, Some(20), Some(economy)) && g.price == StoredFigures(0, Some(600), Some(200))
            && g.capacity.first != f.capacity.first
            && g.(capacity := f.capacity, price := f.price) == ApplyUpdate(f, body).(capacity := f.capacity, price := f.price)
  {
  }
}
