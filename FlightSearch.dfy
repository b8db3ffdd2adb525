/**
 * The passenger's flight search page (public/js/flight-search.js): the listing request built from
 * the form, the date, origin and destination filters applied to the answer, the results count and
 * the status shown on each card.
 */
module FlightSearch {
  import opened Wrappers
  import opened Text
  import FlightModel
  import FlightController

  /** A listed flight, with `departureTime.toISOString()` as the browser computes it. */
  datatype Listing = Listing(id: string, flight: FlightModel.Flight, departureIso: string)

  /** The query of a listing request. */
  datatype SearchParams = SearchParams(limit: nat, status: string, search: Option<string>)

  /** `loadAllFlights`: the first 50 scheduled flights, with no search. */
  const ListAll := SearchParams(50, "scheduled", None)

  /**
   * `searchFlights` up to the request: trim and upper-case both inputs, push the non-empty ones
   * and send them joined by a space, always for scheduled flights only.
   */
  method SearchParamsOf(originInput: string, destinationInput: string)
    returns (origin: string, destination: string, params: SearchParams)
    ensures origin == ToUpper(Trim(originInput)) && destination == ToUpper(Trim(destinationInput))
    ensures params.limit == 50 && params.status == "scheduled"
    ensures params.search.None? <==> origin == "" && destination == ""
    ensures origin != "" && destination != "" ==> params.search == Some(origin + " " + destination)
    ensures origin != "" && destination == "" ==> params.search == Some(origin)
    ensures origin == "" && destination != "" ==> params.search == Some(destination)
  {
    origin := ToUpper(Trim(originInput));
    destination := ToUpper(Trim(destinationInput));
    params := SearchParams(50, "scheduled", None);
    var searchTerms: seq<string> := [];
    if origin != "" {
      searchTerms := searchTerms + [origin];
    }
    if destination != "" {
      searchTerms := searchTerms + [destination];
    }
    if |searchTerms| > 0 {
      params := params.(search := Some(Join(searchTerms, " ")));
    }
  }

  /** `iso.split("T")[0]`: the text before the first `T`, or all of it. */
  function DatePart(iso: string): (d: string)
    ensures 'T' !in d && IsPrefix(d, iso)
    ensures |d| < |iso| ==> iso[|d|] == 'T'
  {
    var k := IndexOf(iso, 'T');
    if k < 0 then iso else iso[..k]
  }

  predicate OnDate(l: Listing, date: string) { DatePart(l.departureIso) == date }
  predicate FromOrigin(l: Listing, origin: string) { ToUpper(l.flight.origin) == origin }
  predicate ToDestination(l: Listing, destination: string) { ToUpper(l.flight.destination) == destination }

  /** What the three client filters together accept; an empty input applies no filter. */
  predicate Wanted(l: Listing, date: string, origin: string, destination: string) {
    (date != "" ==> OnDate(l, date))
    && (origin != "" ==> FromOrigin(l, origin))
    && (destination != "" ==> ToDestination(l, destination))
  }

  /** `Array.prototype.filter`: the elements that pass, in their order. */
  function Filter(s: seq<Listing>, p: Listing -> bool): (r: seq<Listing>)
    ensures forall l :: l in r <==> l in s && p(l)
    ensures multiset(r) <= multiset(s)
  {
    if s == [] then []
    else
      var init := s[..|s| - 1];
      var last := s[|s| - 1];
      assert s == init + [last];
      var kept := Filter(init, p);
      if p(last) then kept + [last] else kept
  }

  /** The success callback of `searchFlights`: the answer's flights (or none), narrowed by each given filter in turn. */
  method ApplyFilters(response: Option<seq<Listing>>, date: string, origin: string, destination: string)
    returns (flights: seq<Listing>)
    ensures forall l :: l in flights <==> l in response.GetOr([]) && Wanted(l, date, origin, destination)
    ensures multiset(flights) <= multiset(response.GetOr([]))
  {
    flights := response.GetOr([]);
    if date != "" {
      flights := Filter(flights, l => OnDate(l, date));
    }
    if origin != "" {
      flights := Filter(flights, l => FromOrigin(l, origin));
    }
    if destination != "" {
      flights := Filter(flights, l => ToDestination(l, destination));
    }
  }

  /** `updateResultsCount`: "Found N available flight", plural unless N is 1. */
  function ResultsCount(n: nat): string {
    "Found " + NatToDecimal(n) + " available flight" + (if n != 1 then "s" else "")
  }

  /** What a loaded list shows: its cards and count, or the no-results state. */
  datatype Results = Found(cards: seq<Listing>, countText: string) | NoResults(countText: string)

  function ResultsOf(flights: seq<Listing>): (r: Results)
    ensures r.Found? <==> |flights| > 0
    ensures r.Found? ==> r.cards == flights && r.countText == ResultsCount(|flights|)
    ensures r.NoResults? ==> r.countText == "No flights found"
  {
    if |flights| > 0 then Found(flights, ResultsCount(|flights|)) else NoResults("No flights found")
  }

  /** `getStatusClass`: a class for scheduled, boarding and delayed; `status-scheduled` for anything else. */
  function StatusClass(status: string): (c: string)
    ensures status in {"scheduled", "boarding", "delayed"} ==> c == "status-" + status
    ensures status !in {"scheduled", "boarding", "delayed"} ==> c == "status-scheduled"
  {
    if status == "boarding" then "status-boarding"
    else if status == "delayed" then "status-delayed"
    else "status-scheduled"
  }

  /** The card's status text: the status with its first letter upper-cased. */
  function StatusText(status: string): string { CapitalizeFirst(status) }

  // ---------------------------------------------------------------------------------------------

  /** For one flight the count reads "Found 1 available flight", in the singular. */
  lemma ResultsCountSingular()
    ensures ResultsCount(1) == "Found 1 available flight"
  {
    assert NatToDecimal(1) == "1";
  }

  /** For any other number it ends in "s", after "Found N ". */
  lemma ResultsCountPlural(n: nat)
    requires n != 1
    ensures var t := ResultsCount(n); t[|t| - 1] == 's'
    ensures IsPrefix("Found " + NatToDecimal(n) + " ", ResultsCount(n))
  {
    var d := NatToDecimal(n);
    var head := "Found " + d + " ";
    var t := ResultsCount(n);
    assert " available flight" + "s" == " " + "available flights";
    assert t == ("Found " + d) + (" " + "available flights");
    assert t == head + "available flights";
    assert t[..|head|] == head;
  }

  /** The date filter compares the calendar date of the ISO text: a departure at any time that day is kept. */
  lemma DateFilterReadsTheDay(day: string, time: string)
    requires 'T' !in day
    ensures DatePart(day + "T" + time) == day
  {
    var iso := day + "T" + time;
    assert iso[|day|] == 'T';
    assert iso[..|day|] == day;
  }

  /** The card texts of the statuses a listed flight can have. */
  lemma StatusShown(s: FlightModel.FlightStatus)
    ensures StatusText(FlightModel.FlightStatusName(s))[0] == UpperChar(FlightModel.FlightStatusName(s)[0])
    ensures s == FlightModel.Departed || s == FlightModel.Cancelled ==> StatusClass(FlightModel.FlightStatusName(s)) == "status-scheduled"
    ensures s == FlightModel.Scheduled ==> StatusText(FlightModel.FlightStatusName(s)) == "Scheduled"
  {
  }

  // ---------------------------------------------------------------------------------------------
  // The joined search term

  /**
   * As written: with both an origin and a destination, the request's `search` is "ORIGIN DEST",
   * which the server matches as one string against a flight's number, origin and destination. A
   * flight flying exactly that route, with a flight number no longer than the two codes together,
   * fails the server's search, so it never reaches the client filters that would accept it.
   */
  lemma JoinedSearchMissesRoute(l: Listing, origin: string, destination: string)
    requires origin != "" && destination != ""
    requires FromOrigin(l, origin) && ToDestination(l, destination)
    requires |l.flight.flightNumber| <= |origin| + |destination|
    ensures Wanted(l, "", origin, destination)
    ensures !FlightController.SearchMatches(l.flight, Some(origin + " " + destination))
  {
    var term := ToLower(origin + " " + destination);
    if InfixOf(term, l.flight.flightNumber) { InfixNoLonger(term, ToLower(l.flight.flightNumber)); }
    if InfixOf(term, l.flight.origin) { InfixNoLonger(term, ToLower(l.flight.origin)); }
    if InfixOf(term, l.flight.destination) { InfixNoLonger(term, ToLower(l.flight.destination)); }
  }

  predicate InfixOf(lowered: string, field: string) { IsInfix(lowered, ToLower(field)) }

  /** The single term to send: the origin when given, otherwise the destination. */
  function SearchTerm(origin: string, destination: string): (t: Option<string>)
    ensures t.None? <==> origin == "" && destination == ""
    ensures t.Some? ==> t.value == origin || t.value == destination
  {
    if origin != "" then Some(origin) else if destination != "" then Some(destination) else None
  }

  /** With the single term, every flight the client filters accept also passes the server's search. */
  lemma SearchTermKeepsWanted(l: Listing, date: string, origin: string, destination: string)
    requires Wanted(l, date, origin, destination)
    ensures FlightController.SearchMatches(l.flight, SearchTerm(origin, destination))
  {
    if origin != "" {
      LowerOfUpper(l.flight.origin);
      assert IsPrefix(ToLower(origin), ToLower(l.flight.origin));
    } else if destination != "" {
      LowerOfUpper(l.flight.destination);
      assert IsPrefix(ToLower(destination), ToLower(l.flight.destination));
    }
  }
}
