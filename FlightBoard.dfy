/**
 * The public departures and arrivals board (public/js/flight-board.js): the 48-hour window, the
 * in-place sort of the flights in it, the row each flight becomes, and the live update of a row
 * already on the board. Times are instants in milliseconds; the clock is a parameter.
 */
module FlightBoard {
  import opened Wrappers
  import opened Text
  import FlightsPage

  /** The fields of a listed flight the board reads; the two times are already parsed. */
  datatype BoardFlight = BoardFlight(
    id: string, flightNumber: string, origin: string, destination: string,
    departureAt: int, arrivalAt: int, gate: string, status: string)

  /** One table row: `airport` is the destination on departures and the origin on arrivals. */
  datatype Row = Row(flightId: string, flightNumber: string, airport: string, time: int,
                     gate: string, badgeText: string, badgeClass: string)

  /** The request `loadFlights` sends: the first 50 flights by ascending departure. */
  datatype ListRequest = ListRequest(limit: nat, sortBy: string, order: string)

  const LoadRequest := ListRequest(50, "departureTime", "asc")

  /** 48 hours in milliseconds. */
  const Window := 48 * 60 * 60 * 1000

  predicate InWindow(f: BoardFlight, now: int) { now <= f.departureAt <= now + Window }

  /** The flights kept by `displayFlights`, in the order they were listed. */
  function Upcoming(flights: seq<BoardFlight>, now: int): (r: seq<BoardFlight>)
    ensures forall f :: f in r <==> f in flights && InWindow(f, now)
    ensures |r| <= |flights|
  {
    if flights == [] then []
    else
      var init := Upcoming(flights[..|flights| - 1], now);
      var last := flights[|flights| - 1];
      assert flights == flights[..|flights| - 1] + [last];
      if InWindow(last, now) then init + [last] else init
  }

  /** The time a board is sorted and shown by: departure on departures, arrival on arrivals. */
  function Key(f: BoardFlight, byArrival: bool): int { if byArrival then f.arrivalAt else f.departureAt }

  predicate SortedBy(s: seq<BoardFlight>, byArrival: bool) {
    forall k, l :: 0 <= k < l < |s| ==> Key(s[k], byArrival) <= Key(s[l], byArrival)
  }

  /** `getStatusBadge`: the upper-cased status, with the class of a known status or `status-scheduled`. */
  function BadgeText(status: string): string { ToUpper(status) }

  function BadgeClass(status: string): string { FlightsPage.StatusBadgeClass(status) }

  /** `flight.gate || "TBA"`. */
  function GateShown(gate: string): (g: string)
    ensures g == (if gate == "" then "TBA" else gate)
  {
    if gate != "" then gate else "TBA"
  }

  function RowOf(f: BoardFlight, byArrival: bool): Row {
    Row(f.id, f.flightNumber, if byArrival then f.origin else f.destination, Key(f, byArrival),
        GateShown(f.gate), BadgeText(f.status), BadgeClass(f.status))
  }

  function RowsOf(s: seq<BoardFlight>, byArrival: bool): (rows: seq<Row>)
    ensures |rows| == |s|
  {
    if s == [] then [] else RowsOf(s[..|s| - 1], byArrival) + [RowOf(s[|s| - 1], byArrival)]
  }

  predicate ShowsFlight(rows: seq<Row>, id: string) { exists k :: 0 <= k < |rows| && rows[k].flightId == id }

  /** The gate cell of every row of the flight set to `gate`. */
  function WithGate(rows: seq<Row>, id: string, gate: string): (r: seq<Row>)
    ensures |r| == |rows|
  {
    if rows == [] then []
    else
      var last := rows[|rows| - 1];
      WithGate(rows[..|rows| - 1], id, gate) + [if last.flightId == id then last.(gate := gate) else last]
  }

  /**
   * The badge cell of every row of the flight set: `find("td:last")` looks for the last cell
   * within each matched row, so each of the flight's rows gets the new badge.
   */
  function WithBadge(rows: seq<Row>, id: string, text: string, cls: string): (r: seq<Row>)
    ensures |r| == |rows|
  {
    if rows == [] then []
    else
      var last := rows[|rows| - 1];
      WithBadge(rows[..|rows| - 1], id, text, cls)
        + [if last.flightId == id then last.(badgeText := text, badgeClass := cls) else last]
  }

  /** What an update for flight `f` does to one table: its badge on every row of the flight, and its gate when one is given. */
  function UpdatedRows(rows: seq<Row>, f: BoardFlight): seq<Row> {
    var gated := if f.gate != "" then WithGate(rows, f.id, f.gate) else rows;
    WithBadge(gated, f.id, BadgeText(f.status), BadgeClass(f.status))
  }

  /** Sort a board's flights in place, ascending by its time; equal times keep their order. */
  method SortBy(a: array<BoardFlight>, byArrival: bool)
    modifies a
    ensures SortedBy(a[..], byArrival)
    ensures multiset(a[..]) == multiset(old(a[..]))
  {
    for i := 0 to a.Length
      invariant SortedBy(a[..i], byArrival)
      invariant multiset(a[..]) == multiset(old(a[..]))
    {
      InsertLast(a, i, byArrival);
    }
    assert a[..a.Length] == a[..];
  }

  /** One step of the sort: move `a[i]` down past every earlier flight with a later time. */
  method InsertLast(a: array<BoardFlight>, i: nat, byArrival: bool)
    requires i < a.Length && SortedBy(a[..i], byArrival)
    modifies a
    ensures SortedBy(a[..i + 1], byArrival)
    ensures multiset(a[..]) == multiset(old(a[..]))
  {
    var j := i;
    StartInserting(a[..], i, byArrival);
    while j > 0 && Key(a[j - 1], byArrival) > Key(a[j], byArrival)
      invariant 0 <= j <= i
      invariant multiset(a[..]) == multiset(old(a[..]))
      invariant Inserting(a[..], i, j, byArrival)
    {
      SwapKeepsInserting(a[..], i, j, byArrival);
      Swap(a, j);
      j := j - 1;
    }
    DoneInserting(a[..], i, j, byArrival);
  }

  /**
   * While `s[j]` moves down to its place in `s[..i + 1]`: every pair ordered except those whose
   * later member is `s[j]`, and the neighbours of `s[j]` ordered with each other.
   */
  ghost predicate Inserting(s: seq<BoardFlight>, i: nat, j: nat, byArrival: bool) {
    j <= i < |s|
    && (forall k, l :: 0 <= k < l <= i && l != j ==> Key(s[k], byArrival) <= Key(s[l], byArrival))
    && (0 < j < i ==> Key(s[j - 1], byArrival) <= Key(s[j + 1], byArrival))
  }

  lemma StartInserting(s: seq<BoardFlight>, i: nat, byArrival: bool)
    requires i < |s| && SortedBy(s[..i], byArrival)
    ensures Inserting(s, i, i, byArrival)
  {
    forall k, l | 0 <= k < l < i
      ensures Key(s[k], byArrival) <= Key(s[l], byArrival)
    {
      assert s[k] == s[..i][k] && s[l] == s[..i][l];
    }
  }

  lemma SwapKeepsInserting(s: seq<BoardFlight>, i: nat, j: nat, byArrival: bool)
    requires Inserting(s, i, j, byArrival) && 0 < j && Key(s[j - 1], byArrival) > Key(s[j], byArrival)
    ensures Inserting(s[j - 1 := s[j]][j := s[j - 1]], i, j - 1, byArrival)
  {
  }

  lemma DoneInserting(s: seq<BoardFlight>, i: nat, j: nat, byArrival: bool)
    requires Inserting(s, i, j, byArrival) && (j == 0 || Key(s[j - 1], byArrival) <= Key(s[j], byArrival))
    ensures SortedBy(s[..i + 1], byArrival)
  {
  }

  method Swap(a: array<BoardFlight>, j: nat)
    requires 0 < j < a.Length
    modifies a
    ensures a[..] == old(a[..])[j - 1 := old(a[j])][j := old(a[j - 1])]
    ensures multiset(a[..]) == multiset(old(a[..]))
  {
    a[j - 1], a[j] := a[j], a[j - 1];
  }

  class FlightBoard {
    /** "departures", or anything else for arrivals. */
    var currentTab: string
    var allFlights: seq<BoardFlight>
    var departuresBody: seq<Row>
    var arrivalsBody: seq<Row>
    var noFlightsShown: bool

    constructor ()
      ensures currentTab == "departures" && allFlights == []
      ensures departuresBody == [] && arrivalsBody == [] && !noFlightsShown
    {
      currentTab := "departures";
      allFlights := [];
      departuresBody := [];
      arrivalsBody := [];
      noFlightsShown := false;
    }

    /** The success callback of `loadFlights`: keep the flights (or none) and redraw. */
    method FlightsLoaded(flights: Option<seq<BoardFlight>>, now: int) returns (shown: seq<BoardFlight>)
      modifies this
      ensures allFlights == flights.GetOr([]) && currentTab == old(currentTab)
      ensures Displayed(old(departuresBody), old(arrivalsBody), now, shown)
    {
      allFlights := flights.GetOr([]);
      shown := DisplayFlights(now);
    }

    /** `switchTab`: keep the tab and redraw. */
    method SwitchTab(tab: string, now: int) returns (shown: seq<BoardFlight>)
      modifies this
      ensures currentTab == tab && allFlights == old(allFlights)
      ensures Displayed(old(departuresBody), old(arrivalsBody), now, shown)
    {
      currentTab := tab;
      shown := DisplayFlights(now);
    }

    /**
     * What `displayFlights` leaves on the page, given the two tables before it: with no flight in
     * the window, the no-flights state and both tables as they were; otherwise the current tab's
     * table holds `shown`, the window's flights sorted by that tab's time.
     */
    ghost predicate Displayed(departuresBefore: seq<Row>, arrivalsBefore: seq<Row>, now: int, shown: seq<BoardFlight>)
      reads this
    {
      var upcoming := Upcoming(allFlights, now);
      var byArrival := currentTab != "departures";
      if upcoming == [] then
        noFlightsShown && shown == [] && departuresBody == departuresBefore && arrivalsBody == arrivalsBefore
      else
        !noFlightsShown && multiset(shown) == multiset(upcoming) && SortedBy(shown, byArrival)
        && (if byArrival then arrivalsBody == RowsOf(shown, true) && departuresBody == departuresBefore
            else departuresBody == RowsOf(shown, false) && arrivalsBody == arrivalsBefore)
    }

    method DisplayFlights(now: int) returns (shown: seq<BoardFlight>)
      modifies this
      ensures currentTab == old(currentTab) && allFlights == old(allFlights)
      ensures Displayed(old(departuresBody), old(arrivalsBody), now, shown)
    {
      var upcoming := Upcoming(allFlights, now);
      if |upcoming| == 0 {
        noFlightsShown := true;
        return [];
      }
      var byArrival := currentTab != "departures";
      var a := new BoardFlight[|upcoming|](k requires 0 <= k < |upcoming| => upcoming[k]);
      assert a[..] == upcoming;
      SortBy(a, byArrival);
      shown := a[..];
      var rows := AppendRows(a, byArrival);
      if byArrival {
        arrivalsBody := rows;
      } else {
        departuresBody := rows;
      }
      noFlightsShown := false;
    }

    /**
     * A socket event: an update for a flight on the board sets the badge of each of its rows in
     * both tables and, when the new gate is not empty, their gate; an update for any other flight
     * asks for a reload. Other event types change nothing.
     */
    method FlightUpdate(kind: string, f: BoardFlight) returns (reload: bool)
      modifies this
      ensures reload <==> kind == "update" && !ShowsFlight(old(departuresBody) + old(arrivalsBody), f.id)
      ensures reload || kind != "update" ==> departuresBody == old(departuresBody) && arrivalsBody == old(arrivalsBody)
      ensures !reload && kind == "update" ==>
                departuresBody == UpdatedRows(old(departuresBody), f) && arrivalsBody == UpdatedRows(old(arrivalsBody), f)
      ensures currentTab == old(currentTab) && allFlights == old(allFlights) && noFlightsShown == old(noFlightsShown)
    {
      reload := false;
      if kind == "update" {
        if ShowsFlight(departuresBody + arrivalsBody, f.id) {
          departuresBody := UpdatedRows(departuresBody, f);
          arrivalsBody := UpdatedRows(arrivalsBody, f);
        } else {
          reload := true;
        }
      }
    }
  }

  /** The `forEach` that appends one row per sorted flight. */
  method AppendRows(a: array<BoardFlight>, byArrival: bool) returns (rows: seq<Row>)
    ensures rows == RowsOf(a[..], byArrival)
  {
    rows := [];
    for k := 0 to a.Length
      invariant rows == RowsOf(a[..k], byArrival)
    {
      assert a[..k + 1][..k] == a[..k];
      rows := rows + [RowOf(a[k], byArrival)];
    }
    assert a[..a.Length] == a[..];
  }

  // ---------------------------------------------------------------------------------------------

  /** Every flight on the board departs within 48 hours of now, and every such listed flight is on it. */
  lemma ShownIsTheWindow(flights: seq<BoardFlight>, now: int, shown: seq<BoardFlight>)
    requires multiset(shown) == multiset(Upcoming(flights, now))
    ensures forall f :: f in shown <==> f in flights && InWindow(f, now)
  {
    forall f
      ensures f in shown <==> f in Upcoming(flights, now)
    {
      assert f in shown <==> f in multiset(shown);
      assert f in Upcoming(flights, now) <==> f in multiset(Upcoming(flights, now));
    }
  }

  /** The window is closed at both ends: a flight departing now, or exactly 48 hours from now, is shown. */
  lemma WindowInclusive(f: BoardFlight, now: int)
    ensures f.departureAt == now ==> InWindow(f, now)
    ensures f.departureAt == now + 172800000 ==> InWindow(f, now)
    ensures f.departureAt < now || f.departureAt > now + 172800000 ==> !InWindow(f, now)
  {
  }

  /** Row k shows flight k: its number, the far airport of the board, the board's time and its gate or "TBA". */
  lemma {:induction false} RowsShowFlights(s: seq<BoardFlight>, byArrival: bool)
    ensures forall k :: 0 <= k < |s| ==>
              RowsOf(s, byArrival)[k].flightId == s[k].id
              && RowsOf(s, byArrival)[k].airport == (if byArrival then s[k].origin else s[k].destination)
              && RowsOf(s, byArrival)[k].time == (if byArrival then s[k].arrivalAt else s[k].departureAt)
              && RowsOf(s, byArrival)[k].gate == (if s[k].gate == "" then "TBA" else s[k].gate)
  {
    if s != [] {
      var init := s[..|s| - 1];
      RowsShowFlights(init, byArrival);
      forall k | 0 <= k < |s| - 1
        ensures RowsOf(s, byArrival)[k] == RowsOf(init, byArrival)[k]
      {
      }
    }
  }

  /** The rows of a sorted board are in ascending order of their shown time. */
  lemma {:induction false} SortedRowsAscend(s: seq<BoardFlight>, byArrival: bool)
    requires SortedBy(s, byArrival)
    ensures forall k, l :: 0 <= k < l < |s| ==> RowsOf(s, byArrival)[k].time <= RowsOf(s, byArrival)[l].time
  {
    RowsShowFlights(s, byArrival);
  }

  /** The badge is the status upper-cased, with the class of the five known statuses and `status-scheduled` otherwise. */
  lemma BadgeOfStatus(status: string)
    ensures BadgeText(status) == ToUpper(status)
    ensures status in {"scheduled", "boarding", "departed", "delayed", "cancelled"} ==> BadgeClass(status) == "status-" + status
    ensures status !in {"scheduled", "boarding", "departed", "delayed", "cancelled"} ==> BadgeClass(status) == "status-scheduled"
  {
  }

  /** Setting a gate touches only the gate cell of the flight's rows. */
  lemma {:induction false} WithGateOnlyThatFlight(rows: seq<Row>, id: string, gate: string)
    ensures forall k :: 0 <= k < |rows| ==>
              WithGate(rows, id, gate)[k] == (if rows[k].flightId == id then rows[k].(gate := gate) else rows[k])
  {
    if rows != [] {
      var init := rows[..|rows| - 1];
      WithGateOnlyThatFlight(init, id, gate);
      forall k | 0 <= k < |rows| - 1
        ensures WithGate(rows, id, gate)[k] == WithGate(init, id, gate)[k]
      {
      }
    }
  }

  /** Setting a badge touches only the badge of the flight's rows, and every one of them. */
  lemma {:induction false} BadgeOnlyThatFlight(rows: seq<Row>, id: string, text: string, cls: string)
    ensures forall k :: 0 <= k < |rows| ==>
              WithBadge(rows, id, text, cls)[k]
              == (if rows[k].flightId == id then rows[k].(badgeText := text, badgeClass := cls) else rows[k])
  {
    if rows != [] {
      var init := rows[..|rows| - 1];
      BadgeOnlyThatFlight(init, id, text, cls);
      forall k | 0 <= k < |rows| - 1
        ensures WithBadge(rows, id, text, cls)[k] == WithBadge(init, id, text, cls)[k]
      {
      }
    }
  }

  /**
   * After an update, every row of the flight, on either table, shows the new badge (and the new
   * gate when one was sent); every row of another flight is as it was.
   */
  lemma UpdateReachesEveryRow(rows: seq<Row>, f: BoardFlight)
    ensures |UpdatedRows(rows, f)| == |rows|
    ensures forall k :: 0 <= k < |rows| && rows[k].flightId != f.id ==> UpdatedRows(rows, f)[k] == rows[k]
    ensures forall k :: 0 <= k < |rows| && rows[k].flightId == f.id ==>
              UpdatedRows(rows, f)[k].badgeText == BadgeText(f.status)
              && UpdatedRows(rows, f)[k].badgeClass == BadgeClass(f.status)
              && UpdatedRows(rows, f)[k].gate == (if f.gate != "" then f.gate else rows[k].gate)
  {
    var gated := if f.gate != "" then WithGate(rows, f.id, f.gate) else rows;
    WithGateOnlyThatFlight(rows, f.id, f.gate);
    BadgeOnlyThatFlight(gated, f.id, BadgeText(f.status), BadgeClass(f.status));
  }
}
