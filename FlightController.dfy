/**
 * The flight registry handlers (server/controllers/flightController.js): the public listing
 * with its status, destination and search filters, sort and pagination; lookup; create
 * guarded by the unique flight number; update, delete and the status patch, each answering
 * 404 for an unknown id.
 */
module FlightController {
  import opened Wrappers
  import opened Ids
  import opened FlightModel
  import Text
  import Paging
  import opened Store

  const FlightNotFound := ApiError(404, "Flight not found")
  const NumberTaken := ApiError(400, "Flight number already exists")
  /**
   * The duplicate-key error (code 11000) of an update, which reaches the generic 500 answer
   * with the driver's message. The text here stands for that message and is not its exact wording.
   */
  const DuplicateKey := ApiError(500, "E11000 duplicate key error collection: flights index: flightNumber_1")

  /**
   * A Mongoose validation error reaches the generic 500 answer with its message. The model keeps
   * the prefix and the failing paths; Mongoose's own message carries each validator's text instead.
   */
  function ValidationFailed(e: ValidationError): ApiError {
    ApiError(500, "Flight validation failed: " + Text.Join(e.paths, ", "))
  }

  /** Every stored flight satisfies the schema's string rules. */
  predicate AllNormalised(flights: map<Id, Flight>) {
    forall i :: i in flights ==> Normalised(flights[i])
  }

  /** The flights holding `number` (what the unique index on `flightNumber` compares). */
  function NumberHolders(flights: map<Id, Flight>, number: string): set<Id> {
    set i | i in flights && flights[i].flightNumber == number
  }

  // ---------------------------------------------------------------------------------------
  // getFlights

  /** The filtering parameters of the query string; absent parameters are None. */
  datatype Filters = Filters(status: Option<string>, destination: Option<string>, search: Option<string>)

  /** The query string; absent parameters are None. */
  datatype FlightQuery = FlightQuery(
    filters: Filters,
    page: Option<nat>,
    limit: Option<nat>,
    sortBy: Option<string>,
    order: Option<string>)

  /** A parameter JavaScript treats as true: present and non-empty. */
  predicate Given(o: Option<string>) { o.Some? && o.value != "" }

  /** `page = 1` and `limit = 10` when absent. */
  function PageNo(q: FlightQuery): nat { q.page.GetOr(1) }
  function Limit(q: FlightQuery): nat { q.limit.GetOr(10) }

  /** `query.status = status`: exact equality with the stored status. */
  predicate StatusMatches(f: Flight, status: Option<string>) {
    Given(status) ==> FlightStatusName(f.status) == status.value
  }

  /** `query.destination = destination.toUpperCase()`, which the schema's setters then trim. */
  predicate DestinationMatches(f: Flight, destination: Option<string>) {
    Given(destination) ==> f.destination == UpperTrim(Text.ToUpper(destination.value))
  }

  /** The `$or` of three case-insensitive regular expressions. */
  predicate SearchMatches(f: Flight, search: Option<string>) {
    Given(search) ==>
      Text.ContainsIgnoreCase(f.flightNumber, search.value)
      || Text.ContainsIgnoreCase(f.destination, search.value)
      || Text.ContainsIgnoreCase(f.origin, search.value)
  }

  predicate Matches(f: Flight, q: Filters) {
    StatusMatches(f, q.status) && DestinationMatches(f, q.destination) && SearchMatches(f, q.search)
  }

  datatype Direction = Ascending | Descending

  /** `order === "desc" ? -1 : 1`. */
  function DirectionOf(order: Option<string>): (d: Direction)
    ensures d == Descending <==> order == Some("desc")
  {
    if order == Some("desc") then Descending else Ascending
  }

  /** `sortBy`, defaulting to `departureTime`. */
  function SortField(q: FlightQuery): string { q.sortBy.GetOr("departureTime") }

  /** The value a sort on `field` compares, for the date fields; other fields are not modelled. */
  function TimeKey(f: Flight, field: string): Option<Time> {
    if field == "departureTime" then Some(f.departureTime)
    else if field == "arrivalTime" then Some(f.arrivalTime)
    else if field == "createdAt" then Some(f.createdAt)
    else None
  }

  /** A key that never increases along the requested order. */
  function Rank(flights: map<Id, Flight>, field: string, d: Direction): Id -> int {
    i => if i in flights && TimeKey(flights[i], field).Some? then
           (if d == Descending then TimeKey(flights[i], field).value else -TimeKey(flights[i], field).value)
         else 0
  }

  /** The collection in the order `sort({ [sortBy]: sortOrder })` returns it: every flight once. */
  predicate InSortOrder(flights: map<Id, Flight>, order: seq<Id>, q: FlightQuery) {
    Paging.Distinct(order)
    && (forall i :: i in flights ==> i in order)
    && (forall i :: i in order ==> i in flights)
    && Paging.SortedDesc(order, Rank(flights, SortField(q), DirectionOf(q.order)))
  }

  function Keep(flights: map<Id, Flight>, q: Filters): Id -> bool {
    i => i in flights && Matches(flights[i], q)
  }

  function MatchingIds(flights: map<Id, Flight>, q: Filters): set<Id> {
    set i | i in flights && Matches(flights[i], q)
  }

  datatype FlightPage = FlightPage(flights: seq<Id>, count: nat, total: nat, page: nat, pages: nat)

  /**
   * getFlights: the `limit` matches after the first `(page - 1) * limit`, in the requested
   * order, with `count`, `total` and `pages = ceil(total / limit)`.
   */
  function GetFlights(flights: map<Id, Flight>, order: seq<Id>, q: FlightQuery): (r: FlightPage)
    requires PageNo(q) >= 1 && Limit(q) >= 1 && InSortOrder(flights, order, q)
    ensures |r.flights| <= Limit(q) && r.count == |r.flights|
    ensures forall i :: i in r.flights ==> i in flights && Matches(flights[i], q.filters)
    ensures Paging.SortedDesc(r.flights, Rank(flights, SortField(q), DirectionOf(q.order)))
    ensures r.total == |MatchingIds(flights, q.filters)|
    ensures r.page == PageNo(q) && r.pages == Paging.Pages(r.total, Limit(q))
  {
    var keep := Keep(flights, q.filters);
    var rank := Rank(flights, SortField(q), DirectionOf(q.order));
    var matching := Paging.Filter(order, keep);
    Paging.FilterCountsMatches(order, keep, MatchingIds(flights, q.filters));
    Paging.FilterKeepsSortedDesc(order, keep, rank);
    Paging.PageOfKeepsSortedDesc(matching, PageNo(q), Limit(q), rank);
    var listed := Paging.PageOf(matching, PageNo(q), Limit(q));
    FlightPage(listed, |listed|, |matching|, PageNo(q), Paging.Pages(|matching|, Limit(q)))
  }

  /** Every matching flight is listed on one of the `pages` pages of the same query. */
  lemma EveryMatchListed(flights: map<Id, Flight>, order: seq<Id>, q: FlightQuery, id: Id)
    requires PageNo(q) >= 1 && Limit(q) >= 1 && InSortOrder(flights, order, q)
    requires id in flights && Matches(flights[id], q.filters)
    ensures exists p: nat :: 1 <= p <= GetFlights(flights, order, q).pages
                             && id in GetFlights(flights, order, q.(page := Some(p))).flights
  {
    var matching := Paging.Filter(order, Keep(flights, q.filters));
    assert id in matching;
    var p := Paging.PageHolding(matching, Limit(q), id);
    ListingOfPage(flights, order, q, PageNo(q));
    ListingOfPage(flights, order, q, p);
  }

  /** The listing for page `p` is that page of the matches in the requested order. */
  lemma ListingOfPage(flights: map<Id, Flight>, order: seq<Id>, q: FlightQuery, p: nat)
    requires PageNo(q) >= 1 && Limit(q) >= 1 && InSortOrder(flights, order, q) && p >= 1
    ensures var matching := Paging.Filter(order, Keep(flights, q.filters));
            var r := GetFlights(flights, order, q.(page := Some(p)));
            r.flights == Paging.PageOf(matching, p, Limit(q)) && r.pages == Paging.Pages(|matching|, Limit(q))
  {
    var q' := q.(page := Some(p));
    assert SortField(q') == SortField(q) && q'.order == q.order && q'.filters == q.filters;
  }

  /** With the default sort, a page lists departures in time order, latest first for `order=desc`. */
  lemma ListedByDeparture(flights: map<Id, Flight>, order: seq<Id>, q: FlightQuery, a: nat, b: nat)
    requires PageNo(q) >= 1 && Limit(q) >= 1 && InSortOrder(flights, order, q)
    requires q.sortBy.None?
    requires a < b < |GetFlights(flights, order, q).flights|
    ensures var r := GetFlights(flights, order, q).flights;
            if q.order == Some("desc") then flights[r[a]].departureTime >= flights[r[b]].departureTime
            else flights[r[a]].departureTime <= flights[r[b]].departureTime
  {
    var r := GetFlights(flights, order, q).flights;
    assert r[a] in r && r[b] in r;
    assert Rank(flights, SortField(q), DirectionOf(q.order))(r[a]) >= Rank(flights, SortField(q), DirectionOf(q.order))(r[b]);
  }

  /** The destination filter ignores the case of the value sent. */
  lemma DestinationIgnoresCase(f: Flight, d: string)
    ensures DestinationMatches(f, Some(Text.ToLower(d))) <==> DestinationMatches(f, Some(d))
  {
    Text.UpperOfLower(d);
  }

  /** A stored flight is found by its own destination, whatever case the client sends. */
  lemma StoredDestinationFound(f: Flight)
    requires Normalised(f)
    ensures DestinationMatches(f, Some(Text.ToLower(f.destination)))
  {
    DestinationIgnoresCase(f, f.destination);
    UpperTrimIdempotent(f.destination);
    UpperOfTrimmed(Text.Trim(f.destination));
    Text.ToUpperIdempotent(Text.Trim(f.destination));
  }

  // ---------------------------------------------------------------------------------------
  // getFlight

  /** getFlight: the stored flight, or 404. */
  function GetFlight(flights: map<Id, Flight>, id: Id): (r: Result<Flight, ApiError>)
    ensures r.Ok? <==> id in flights
    ensures r.Ok? ==> r.value == flights[id]
    ensures r.Err? ==> r.error == FlightNotFound
  {
    if id in flights then Ok(flights[id]) else Err(FlightNotFound)
  }

  // ---------------------------------------------------------------------------------------
  // createFlight

  /**
   * createFlight: the schema validates first (500 with the validation message), then the unique
   * index refuses a flight number already stored (400). A `createdAt` in the body is stored.
   */
  function CreateSpec(flights: map<Id, Flight>, input: FlightInput, now: Time): (r: Result<Flight, ApiError>)
    ensures Failures(input) != [] ==> r == Err(ValidationFailed(ValidationError(Failures(input))))
    ensures Failures(input) == [] ==>
              (r.Err? <==> NumberHolders(flights, UpperTrim(input.flightNumber.value)) != {})
              && (r.Err? ==> r.error == NumberTaken)
    ensures r.Ok? ==> NewFlight(input, now) == Ok(r.value) && NumberHolders(flights, r.value.flightNumber) == {}
    ensures r.Ok? ==> r.value.createdAt == input.createdAt.GetOr(now)
  {
    match NewFlight(input, now)
    case Err(e) => Err(ValidationFailed(e))
    case Ok(f) => if NumberHolders(flights, f.flightNumber) != {} then Err(NumberTaken) else Ok(f)
  }

  method CreateFlight(db: Database, input: FlightInput, now: Time) returns (r: Result<Flight, ApiError>)
    modifies db`flights
    ensures r == CreateSpec(old(db.flights), input, now)
    ensures db.flights == if r.Ok? then old(db.flights)[FreshId(old(db.flights).Keys) := r.value] else old(db.flights)
  {
    var flights := db.flights;
    r := CreateSpec(flights, input, now);
    if r.Ok? {
      db.flights := flights[FreshId(flights.Keys) := r.value];
    }
  }

  /** Storing a flight whose number no other flight holds keeps the numbers unique. */
  lemma StoreKeepsNumbersUnique(flights: map<Id, Flight>, id: Id, f: Flight)
    requires NumbersUnique(flights) && NumberHolders(flights, f.flightNumber) - {id} == {}
    ensures NumbersUnique(flights[id := f])
  {
    var after := flights[id := f];
    forall i, j | i in after && j in after && i != j
      ensures after[i].flightNumber != after[j].flightNumber
    {
      if i == id || j == id {
        var other := if i == id then j else i;
        assert other in flights && after[other] == flights[other];
        assert other !in NumberHolders(flights, f.flightNumber) - {id};
      }
    }
  }

  /** Storing a normalised flight keeps every stored flight normalised. */
  lemma StoreKeepsNormalised(flights: map<Id, Flight>, id: Id, f: Flight)
    requires AllNormalised(flights) && Normalised(f)
    ensures AllNormalised(flights[id := f])
  {
  }

  /** A created flight keeps flight numbers unique and every stored flight normalised. */
  lemma CreateKeepsRegistry(flights: map<Id, Flight>, input: FlightInput, now: Time)
    requires NumbersUnique(flights) && AllNormalised(flights)
    requires CreateSpec(flights, input, now).Ok?
    ensures var after := flights[FreshId(flights.Keys) := CreateSpec(flights, input, now).value];
            NumbersUnique(after) && AllNormalised(after)
  {
    var f := CreateSpec(flights, input, now).value;
    NewFlightIsNormalised(input, now);
    StoreKeepsNormalised(flights, FreshId(flights.Keys), f);
    StoreKeepsNumbersUnique(flights, FreshId(flights.Keys), f);
  }

  // ---------------------------------------------------------------------------------------
  // updateFlight

  /** A supplied flight number that another flight already holds. */
  predicate UpdateClash(flights: map<Id, Flight>, id: Id, input: FlightInput) {
    input.flightNumber.Some? && NumberHolders(flights, UpperTrim(input.flightNumber.value)) - {id} != {}
  }

  /**
   * updateFlight: the update validators run before the lookup (500), then an unknown id answers
   * 404, then the unique index refuses a number another flight holds (500). The accepted
   * body overwrites a sent `createdAt` and replaces a sent `capacity` or `price` object whole.
   */
  function UpdateSpec(flights: map<Id, Flight>, id: Id, input: FlightInput): (r: Result<Flight, ApiError>)
    ensures UpdateFailures(input) != [] ==> r == Err(ValidationFailed(ValidationError(UpdateFailures(input))))
    ensures UpdateFailures(input) == [] && id !in flights ==> r == Err(FlightNotFound)
    ensures UpdateFailures(input) == [] && id in flights ==>
              (r.Err? <==> UpdateClash(flights, id, input)) && (r.Err? ==> r.error == DuplicateKey)
    ensures r.Ok? ==> id in flights && r.value == ApplyUpdate(flights[id], input)
    ensures r.Ok? ==> r.value.createdAt == input.createdAt.GetOr(flights[id].createdAt)
                      && r.value.capacity == (if input.capacity.Some? then StoredOf(input.capacity.value) else flights[id].capacity)
                      && r.value.price == (if input.price.Some? then StoredOf(input.price.value) else flights[id].price)
  {
    var failures := UpdateFailures(input);
    if failures != [] then Err(ValidationFailed(ValidationError(failures)))
    else if id !in flights then Err(FlightNotFound)
    else if UpdateClash(flights, id, input) then Err(DuplicateKey)
    else Ok(ApplyUpdate(flights[id], input))
  }

  method UpdateFlight(db: Database, id: Id, input: FlightInput) returns (r: Result<Flight, ApiError>)
    modifies db`flights
    ensures r == UpdateSpec(old(db.flights), id, input)
    ensures db.flights == if r.Ok? then old(db.flights)[id := r.value] else old(db.flights)
  {
    r := UpdateSpec(db.flights, id, input);
    if r.Ok? {
      db.flights := db.flights[id := r.value];
    }
  }

  /** An accepted update keeps flight numbers unique and every stored flight normalised. */
  lemma UpdateKeepsRegistry(flights: map<Id, Flight>, id: Id, input: FlightInput)
    requires NumbersUnique(flights) && AllNormalised(flights)
    requires UpdateSpec(flights, id, input).Ok?
    ensures var after := flights[id := UpdateSpec(flights, id, input).value];
            NumbersUnique(after) && AllNormalised(after)
  {
    var g := UpdateSpec(flights, id, input).value;
    UpdateKeepsNormalised(flights[id], input);
    StoreKeepsNormalised(flights, id, g);
    if input.flightNumber.None? {
      forall j | j in NumberHolders(flights, g.flightNumber) ensures j == id { }
    }
    StoreKeepsNumbersUnique(flights, id, g);
  }

  // ---------------------------------------------------------------------------------------
  // deleteFlight

  /**
   * deleteFlight: `findByIdAndDelete` answers as the getFlight lookup (404 for an unknown id)
   * and removes that flight alone; the bookings of the flight are left in place.
   */
  method DeleteFlight(db: Database, id: Id) returns (r: Result<Flight, ApiError>)
    modifies db`flights
    ensures r == GetFlight(old(db.flights), id)
    ensures db.flights == old(db.flights) - {id}
  {
    r := GetFlight(db.flights, id);
    db.flights := db.flights - {id};
  }

  // ---------------------------------------------------------------------------------------
  // updateFlightStatus

  /**
   * updateFlightStatus: the body's `status` alone is set; a value outside the enum fails its
   * validator (500) before the lookup, an unknown id answers 404, and an absent status leaves
   * the flight unchanged.
   */
  function StatusSpec(flights: map<Id, Flight>, id: Id, status: Option<string>): (r: Result<Flight, ApiError>)
    ensures status.Some? && ParseFlightStatus(status.value).None? ==>
              r == Err(ValidationFailed(ValidationError(["status"])))
    ensures status.None? || ParseFlightStatus(status.value).Some? ==>
              (r.Ok? <==> id in flights) && (r.Err? ==> r.error == FlightNotFound)
    ensures r.Ok? ==> id in flights && r.value.(status := flights[id].status) == flights[id]
    ensures r.Ok? ==> status.Some? ==> FlightStatusName(r.value.status) == status.value
    ensures r.Ok? ==> status.None? ==> r.value == flights[id]
  {
    if status.Some? && ParseFlightStatus(status.value).None? then Err(ValidationFailed(ValidationError(["status"])))
    else if id !in flights then Err(FlightNotFound)
    else if status.None? then Ok(flights[id])
    else Ok(flights[id].(status := ParseFlightStatus(status.value).value))
  }

  method UpdateFlightStatus(db: Database, id: Id, status: Option<string>) returns (r: Result<Flight, ApiError>)
    modifies db`flights
    ensures r == StatusSpec(old(db.flights), id, status)
    ensures db.flights == if r.Ok? then old(db.flights)[id := r.value] else old(db.flights)
  {
    r := StatusSpec(db.flights, id, status);
    if r.Ok? {
      db.flights := db.flights[id := r.value];
    }
  }

  /** The status patch is the general update restricted to the `status` path. */
  lemma StatusPatchIsUpdate(flights: map<Id, Flight>, id: Id, s: string)
    requires NumbersUnique(flights)
    ensures StatusSpec(flights, id, Some(s)).Ok? ==>
              UpdateSpec(flights, id, NoChange.(status := Some(s))) == StatusSpec(flights, id, Some(s))
  {
  }
}
