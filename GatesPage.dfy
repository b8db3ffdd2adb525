/**
 * The gate management page (public/js/gates.js): the gate-to-flight map built from the flight
 * list, the thirty gate cards of terminals A to C, the statistics line, the modal's choice
 * between assigning and clearing a gate, and the update requests it sends.
 */
module GatesPage {
  import opened Wrappers
  import opened Text
  import FlightModel

  /** The fields of a listed flight that the page reads; "" is a flight without a gate. */
  datatype FlightView = FlightView(id: string, flightNumber: string, origin: string, destination: string,
                                   departureTime: int, gate: string, status: string)

  /** What the page remembers about the flight at a gate. */
  datatype Assignment = Assignment(flightNumber: string, destination: string, departureTime: int, status: string,
                                   flightId: string)

  /** A rendered gate card: occupied exactly when it carries an assignment. */
  datatype GateCard = GateCard(gateNumber: string, assignment: Option<Assignment>)

  datatype Stats = Stats(total: int, occupied: int, available: int, maintenance: int)

  /** The modal: the current assignment with the clear button, or the form listing the flights to choose from. */
  datatype Modal = ClearOption(assignment: Assignment) | AssignForm(choices: seq<FlightView>)

  /** `PUT /flights/:id` with the body `{ gate }`. */
  datatype GateRequest = GateRequest(flightId: string, gate: string)

  /** The gate count the statistics assume: ten gates in each of three terminals. */
  const TotalGates := 30

  /** A flight that has neither departed nor been cancelled. */
  predicate Live(f: FlightView) { f.status != "departed" && f.status != "cancelled" }

  /** A flight that occupies its gate: it has one and it is live. */
  predicate HoldsGate(f: FlightView) { f.gate != "" && Live(f) }

  function AssignmentOf(f: FlightView): Assignment {
    Assignment(f.flightNumber, f.destination, f.departureTime, f.status, f.id)
  }

  /** The map `processGateAssignments` builds: each live flight with a gate written under its gate, in list order. */
  function Assignments(flights: seq<FlightView>): map<string, Assignment> {
    if flights == [] then map[]
    else
      var f := flights[|flights| - 1];
      var m := Assignments(flights[..|flights| - 1]);
      if HoldsGate(f) then m[f.gate := AssignmentOf(f)] else m
  }

  /** A gate's number: the terminal letter followed by the decimal gate index. */
  function GateNumber(terminal: char, i: nat): string { [terminal] + NatToDecimal(i) }

  function CardFor(gateNumber: string, assignments: map<string, Assignment>): GateCard {
    GateCard(gateNumber, if gateNumber in assignments then Some(assignments[gateNumber]) else None)
  }

  /** The cards of gates 1 to `count` of one terminal. */
  function TerminalCards(terminal: char, count: nat, assignments: map<string, Assignment>): seq<GateCard> {
    if count == 0 then [] else TerminalCards(terminal, count - 1, assignments) + [CardFor(GateNumber(terminal, count), assignments)]
  }

  /** The flights the assignment form offers, in list order: every live flight, whatever its gate. */
  function Choices(flights: seq<FlightView>): seq<FlightView> {
    if flights == [] then []
    else
      var f := flights[|flights| - 1];
      Choices(flights[..|flights| - 1]) + (if Live(f) then [f] else [])
  }

  /** The body of a gate update as the server reads it: only `gate` is supplied. */
  function GateBody(gate: string): FlightModel.FlightInput {
    FlightModel.NoChange.(gate := Some(gate))
  }

  class GatesPage {
    var allFlights: seq<FlightView>
    var gateAssignments: map<string, Assignment>

    constructor ()
      ensures allFlights == [] && gateAssignments == map[]
    {
      allFlights := [];
      gateAssignments := map[];
    }

    /** The success callback of `loadGatesAndFlights`: keep the list (or none), rebuild the map, render, count. */
    method LoadGatesAndFlights(flights: Option<seq<FlightView>>) returns (cards: seq<GateCard>, stats: Stats)
      modifies this
      ensures allFlights == flights.GetOr([])
      ensures gateAssignments == Assignments(allFlights)
      ensures |cards| == TotalGates
      ensures forall k :: 0 <= k < |cards| ==> cards[k] == CardFor(cards[k].gateNumber, gateAssignments)
      ensures stats.total == TotalGates && stats.occupied == |gateAssignments| && stats.available == TotalGates - stats.occupied
    {
      allFlights := flights.GetOr([]);
      ProcessGateAssignments();
      cards := RenderGates();
      stats := UpdateStatistics();
      CardsShowAssignments(gateAssignments);
    }

    /** Reset the map, then write every live flight with a gate under its gate; a later flight overwrites an earlier one. */
    method ProcessGateAssignments()
      modifies this
      ensures gateAssignments == Assignments(allFlights)
      ensures allFlights == old(allFlights)
    {
      gateAssignments := map[];
      for k := 0 to |allFlights|
        invariant allFlights == old(allFlights)
        invariant gateAssignments == Assignments(allFlights[..k])
      {
        assert allFlights[..k + 1][..k] == allFlights[..k];
        var flight := allFlights[k];
        if flight.gate != "" && flight.status != "departed" && flight.status != "cancelled" {
          gateAssignments := gateAssignments[flight.gate := AssignmentOf(flight)];
        }
      }
      assert allFlights[..|allFlights|] == allFlights;
    }

    /** The loop over gates 1 to `count` of one terminal. */
    method RenderTerminalGates(terminal: char, count: nat) returns (cards: seq<GateCard>)
      ensures cards == TerminalCards(terminal, count, gateAssignments)
    {
      cards := [];
      for i := 1 to count + 1
        invariant cards == TerminalCards(terminal, i - 1, gateAssignments)
      {
        cards := cards + [CardFor(GateNumber(terminal, i), gateAssignments)];
      }
    }

    /** Terminals A, B and C with ten gates each. */
    method RenderGates() returns (cards: seq<GateCard>)
      ensures cards == TerminalCards('A', 10, gateAssignments) + TerminalCards('B', 10, gateAssignments)
                       + TerminalCards('C', 10, gateAssignments)
    {
      var a := RenderTerminalGates('A', 10);
      var b := RenderTerminalGates('B', 10);
      var c := RenderTerminalGates('C', 10);
      cards := a + b + c;
    }

    /** The statistics line: thirty gates, occupied is the number of gates in the map, whatever their names. */
    method UpdateStatistics() returns (stats: Stats)
      ensures stats == Stats(TotalGates, |gateAssignments|, TotalGates - |gateAssignments|, 0)
    {
      var occupiedGates := |gateAssignments|;
      stats := Stats(TotalGates, occupiedGates, TotalGates - occupiedGates, 0);
    }

    /** The modal of a gate: an assigned gate offers only clearing, a free one only the assignment form. */
    method OpenGateModal(gateNumber: string) returns (modal: Modal)
      ensures modal.ClearOption? <==> gateNumber in gateAssignments
      ensures modal.ClearOption? ==> modal.assignment == gateAssignments[gateNumber]
      ensures modal.AssignForm? ==> modal.choices == Choices(allFlights)
    {
      if gateNumber in gateAssignments {
        modal := ClearOption(gateAssignments[gateNumber]);
      } else {
        var choices := LoadAvailableFlights();
        modal := AssignForm(choices);
      }
    }

    /** The options of the flight selector: every flight not departed or cancelled, in list order. */
    method LoadAvailableFlights() returns (choices: seq<FlightView>)
      ensures choices == Choices(allFlights)
    {
      choices := [];
      for k := 0 to |allFlights|
        invariant choices == Choices(allFlights[..k])
      {
        assert allFlights[..k + 1][..k] == allFlights[..k];
        var flight := allFlights[k];
        if flight.status != "departed" && flight.status != "cancelled" {
          choices := choices + [flight];
        }
      }
      assert allFlights[..|allFlights|] == allFlights;
    }

    /** `assignGate`: refused without a selected flight, otherwise a request putting the gate on that flight. */
    method AssignGate(gateNumber: string, flightId: string) returns (r: Option<GateRequest>)
      ensures r.None? <==> flightId == ""
      ensures r.Some? ==> r.value == GateRequest(flightId, gateNumber)
    {
      if flightId == "" {
        return None;
      }
      r := Some(GateRequest(flightId, gateNumber));
    }

    /** `unassignGate`: nothing for a free gate or when the user declines, otherwise clear the gate of its flight. */
    method UnassignGate(gateNumber: string, confirmed: bool) returns (r: Option<GateRequest>)
      ensures r.Some? <==> gateNumber in gateAssignments && confirmed
      ensures r.Some? ==> r.value == GateRequest(gateAssignments[gateNumber].flightId, "")
    {
      if gateNumber !in gateAssignments {
        return None;
      }
      var assignment := gateAssignments[gateNumber];
      if !confirmed {
        return None;
      }
      r := Some(GateRequest(assignment.flightId, ""));
    }
  }

  // ---------------------------------------------------------------------------------------------
  // The assignment map

  /** A gate is in the map exactly when some live flight in the list has it. */
  lemma {:induction false} AssignedExactly(flights: seq<FlightView>, g: string)
    ensures g in Assignments(flights) <==> exists i :: 0 <= i < |flights| && HoldsGate(flights[i]) && flights[i].gate == g
    decreases |flights|
  {
    if flights != [] {
      var n := |flights| - 1;
      var init := flights[..n];
      AssignedExactly(init, g);
      if exists i :: 0 <= i < |flights| && HoldsGate(flights[i]) && flights[i].gate == g {
        var i :| 0 <= i < |flights| && HoldsGate(flights[i]) && flights[i].gate == g;
        if i < n {
          assert init[i] == flights[i];
        }
      }
      if exists i :: 0 <= i < n && HoldsGate(init[i]) && init[i].gate == g {
        var i :| 0 <= i < n && HoldsGate(init[i]) && init[i].gate == g;
        assert flights[i] == init[i];
      }
    }
  }

  /** The flight shown at a gate is the last live flight in the list with that gate. */
  lemma {:induction false} LaterFlightWins(flights: seq<FlightView>, g: string)
    requires g in Assignments(flights)
    ensures exists i :: 0 <= i < |flights| && HoldsGate(flights[i]) && flights[i].gate == g
                        && Assignments(flights)[g] == AssignmentOf(flights[i])
                        && forall j :: i < j < |flights| ==> !(HoldsGate(flights[j]) && flights[j].gate == g)
    decreases |flights|
  {
    var n := |flights| - 1;
    var f := flights[n];
    if HoldsGate(f) && f.gate == g {
      assert Assignments(flights)[g] == AssignmentOf(flights[n]);
    } else {
      var init := flights[..n];
      LaterFlightWins(init, g);
      var i :| 0 <= i < |init| && HoldsGate(init[i]) && init[i].gate == g
               && Assignments(init)[g] == AssignmentOf(init[i])
               && forall j :: i < j < |init| ==> !(HoldsGate(init[j]) && init[j].gate == g);
      assert flights[i] == init[i];
      forall j | i < j < |flights|
        ensures !(HoldsGate(flights[j]) && flights[j].gate == g)
      {
        if j < n {
          assert flights[j] == init[j];
        }
      }
    }
  }

  /** The occupied count is the number of distinct gates held by live flights, including gates no card shows. */
  lemma OccupiedIsDistinctGates(flights: seq<FlightView>)
    ensures Assignments(flights).Keys == set i | 0 <= i < |flights| && HoldsGate(flights[i]) :: flights[i].gate
  {
    var held := set i | 0 <= i < |flights| && HoldsGate(flights[i]) :: flights[i].gate;
    forall g | g in Assignments(flights)
      ensures g in held
    {
      AssignedExactly(flights, g);
    }
    forall g | g in held
      ensures g in Assignments(flights)
    {
      AssignedExactly(flights, g);
    }
  }

  /** A flight at a gate outside the rendered thirty, such as D1, still counts as occupying one of the thirty. */
  lemma OffBoardGateCounted(f: FlightView)
    requires HoldsGate(f) && f.gate == "D1"
    ensures var m := Assignments([f]);
            |m| == 1 && Stats(TotalGates, |m|, TotalGates - |m|, 0).available == 29
    ensures forall t, i :: t in "ABC" ==> GateNumber(t, i) != f.gate
  {
    assert [f][..0] == [];
    assert Assignments([f]) == map[f.gate := AssignmentOf(f)];
    forall t, i | t in "ABC"
      ensures GateNumber(t, i) != f.gate
    {
      assert GateNumber(t, i)[0] == t;
    }
  }

  // ---------------------------------------------------------------------------------------------
  // The gate cards

  /** A terminal's cards are gates 1 to `count` in order, each occupied exactly when its number is in the map. */
  lemma {:induction false} TerminalCardsShape(terminal: char, count: nat, assignments: map<string, Assignment>)
    ensures |TerminalCards(terminal, count, assignments)| == count
    ensures forall k :: 0 <= k < count ==>
              TerminalCards(terminal, count, assignments)[k] == CardFor(GateNumber(terminal, k + 1), assignments)
    decreases count
  {
    if count > 0 {
      TerminalCardsShape(terminal, count - 1, assignments);
    }
  }

  /** Every card of the page shows its gate's assignment, if any. */
  lemma CardsShowAssignments(assignments: map<string, Assignment>)
    ensures var cards := TerminalCards('A', 10, assignments) + TerminalCards('B', 10, assignments)
                         + TerminalCards('C', 10, assignments);
            |cards| == TotalGates && forall k :: 0 <= k < |cards| ==> cards[k] == CardFor(cards[k].gateNumber, assignments)
  {
    TerminalCardsShape('A', 10, assignments);
    TerminalCardsShape('B', 10, assignments);
    TerminalCardsShape('C', 10, assignments);
  }

  /** The rendered gates are exactly A1 to A10, B1 to B10 and C1 to C10, in that order. */
  lemma RenderedGateNumbers(assignments: map<string, Assignment>)
    ensures var cards := TerminalCards('A', 10, assignments) + TerminalCards('B', 10, assignments)
                         + TerminalCards('C', 10, assignments);
            |cards| == 30
            && (forall k :: 0 <= k < 10 ==> cards[k].gateNumber == GateNumber('A', k + 1))
            && (forall k :: 10 <= k < 20 ==> cards[k].gateNumber == GateNumber('B', k - 9))
            && (forall k :: 20 <= k < 30 ==> cards[k].gateNumber == GateNumber('C', k - 19))
  {
    TerminalCardsShape('A', 10, assignments);
    TerminalCardsShape('B', 10, assignments);
    TerminalCardsShape('C', 10, assignments);
  }

  // ---------------------------------------------------------------------------------------------
  // The requests and the server

  /** The form offers exactly the live flights, whether or not they already have a gate. */
  lemma {:induction false} ChoicesAreLive(flights: seq<FlightView>, f: FlightView)
    ensures f in Choices(flights) <==> f in flights && Live(f)
    decreases |flights|
  {
    if flights != [] {
      var init := flights[..|flights| - 1];
      assert flights == init + [flights[|flights| - 1]];
      ChoicesAreLive(init, f);
    }
  }

  /** A gate request changes only the flight's gate on the server, to the trimmed value. */
  lemma GateRequestChangesOnlyGate(f: FlightModel.Flight, gate: string)
    ensures FlightModel.UpdateFailures(GateBody(gate)) == []
    ensures FlightModel.ApplyUpdate(f, GateBody(gate)) == f.(gate := Trim(gate))
  {
  }

  /** Clearing a gate stores the empty gate, so the flight leaves the map at the next load. */
  lemma ClearedGateLeavesMap(f: FlightModel.Flight, v: FlightView)
    requires v.gate == FlightModel.ApplyUpdate(f, GateBody("")).gate
    ensures !HoldsGate(v)
  {
    assert Trim("") == "";
  }
}
