/**
 * The gate agent's boarding page (public/js/boarding.js): the action each queue card offers, the
 * endpoint each action calls, the card's displayed position, status text and class, the
 * statistics panel, and the guard before a queue is loaded.
 */
module BoardingPage {
  import opened Wrappers
  import opened Text
  import opened QueueModel
  import UserModel
  import Routing
  import BoardingRoutes

  /** The button a card offers, named by the handler it runs. */
  datatype Action = CallPassenger | BoardPassenger | MarkBoarded | NoAction

  /** The fields of a queue entry that a card reads; `status` is the stored status name. */
  datatype EntryView = EntryView(id: string, status: string, boardingGroup: string)

  datatype Card = Card(position: nat, statusClass: string, statusText: string, action: Action, entryId: string)

  /** The four counts the panel shows; a count missing from the response is None. */
  datatype StatsView = StatsView(waiting: Option<int>, called: Option<int>, boarding: Option<int>, boarded: Option<int>)

  datatype Panel = Panel(waiting: int, called: int, boarding: int, boarded: int)

  /** The action for a status: waiting is called, called starts boarding, boarding completes; any other status has none. */
  function ActionFor(status: string): Action {
    if status == "waiting" then CallPassenger
    else if status == "called" then BoardPassenger
    else if status == "boarding" then MarkBoarded
    else NoAction
  }

  /** The last path segment of the `PUT /boarding/:id/...` request an action sends. */
  function Endpoint(a: Action): string
    requires a != NoAction
  {
    match a
    case CallPassenger => "call"
    case BoardPassenger => "boarding"
    case MarkBoarded => "boarded"
  }

  /** The handler of the boarding router that an action's request is meant for. */
  function HandlerOf(a: Action): BoardingRoutes.Handler
    requires a != NoAction
  {
    match a
    case CallPassenger => BoardingRoutes.CallPassenger
    case BoardPassenger => BoardingRoutes.MarkBoarding
    case MarkBoarded => BoardingRoutes.MarkBoarded
  }

  /** The status the server stores after an action's request succeeds. */
  function StatusAfter(a: Action): QueueStatus
    requires a != NoAction
  {
    match a
    case CallPassenger => Called
    case BoardPassenger => Boarding
    case MarkBoarded => Boarded
  }

  /** `getStatusClass`: the class of a known status, `status-waiting` for any other. */
  function StatusClass(status: string): (c: string)
    ensures status in {"waiting", "called", "boarding", "boarded"} ==> c == "status-" + status
    ensures status !in {"waiting", "called", "boarding", "boarded"} ==> c == "status-waiting"
  {
    if status == "waiting" then "status-waiting"
    else if status == "called" then "status-called"
    else if status == "boarding" then "status-boarding"
    else if status == "boarded" then "status-boarded"
    else "status-waiting"
  }

  /** The status text: the first hyphen replaced by a space, then upper-cased. */
  function StatusText(status: string): string { ToUpper(ReplaceFirst(status, '-', ' ')) }

  function CardOf(e: EntryView, position: nat): Card {
    Card(position, StatusClass(e.status), StatusText(e.status), ActionFor(e.status), e.id)
  }

  /** The cards `displayBoardingQueue` appends: one per entry in server order, numbered from 1. */
  function Cards(queue: seq<EntryView>): seq<Card> {
    if queue == [] then [] else Cards(queue[..|queue| - 1]) + [CardOf(queue[|queue| - 1], |queue|)]
  }

  /** `stats.x || 0` for each count. */
  function PanelOf(s: StatsView): Panel {
    Panel(s.waiting.GetOr(0), s.called.GetOr(0), s.boarding.GetOr(0), s.boarded.GetOr(0))
  }

  class BoardingPage {
    /** "" while no flight has been loaded. */
    var currentFlightId: string
    var boardingQueue: seq<EntryView>

    constructor ()
      ensures currentFlightId == "" && boardingQueue == []
    {
      currentFlightId := "";
      boardingQueue := [];
    }

    /**
     * `loadBoardingQueue` with the flight chosen in the selector: with none, the empty state and
     * no request; otherwise remember it and request `GET /boarding/flight/:flightId`.
     */
    method LoadBoardingQueue(selected: string) returns (request: Option<seq<string>>)
      modifies this
      ensures request.None? <==> selected == ""
      ensures request.Some? ==> request.value == ["flight", selected] && currentFlightId == selected
      ensures request.None? ==> currentFlightId == old(currentFlightId)
      ensures boardingQueue == old(boardingQueue)
    {
      if selected == "" {
        return None;
      }
      currentFlightId := selected;
      request := Some(["flight", selected]);
    }

    /** The success callback: keep the queue (or none) and draw one card per entry. */
    method QueueLoaded(queue: Option<seq<EntryView>>) returns (cards: seq<Card>)
      modifies this
      ensures boardingQueue == queue.GetOr([])
      ensures cards == Cards(boardingQueue)
      ensures currentFlightId == old(currentFlightId)
    {
      boardingQueue := queue.GetOr([]);
      cards := DisplayBoardingQueue();
    }

    /** The `forEach` over the queue with a 1-based index. */
    method DisplayBoardingQueue() returns (cards: seq<Card>)
      ensures cards == Cards(boardingQueue)
    {
      cards := [];
      for index := 0 to |boardingQueue|
        invariant cards == Cards(boardingQueue[..index])
      {
        assert boardingQueue[..index + 1][..index] == boardingQueue[..index];
        cards := cards + [CardOf(boardingQueue[index], index + 1)];
      }
      assert boardingQueue[..|boardingQueue|] == boardingQueue;
    }

    /** A boarding update from the socket reloads the queue only once a flight has been loaded. */
    method BoardingUpdate(selected: string) returns (request: Option<seq<string>>)
      modifies this
      ensures old(currentFlightId) == "" ==> request.None? && currentFlightId == old(currentFlightId)
      ensures old(currentFlightId) != "" ==> request == (if selected == "" then None else Some(["flight", selected]))
      ensures boardingQueue == old(boardingQueue)
    {
      request := None;
      if currentFlightId != "" {
        request := LoadBoardingQueue(selected);
      }
    }
  }

  // ---------------------------------------------------------------------------------------------

  /** The displayed position is the card's place in the server's order, not the entry's queuePosition. */
  lemma {:induction false} CardsNumberedInOrder(queue: seq<EntryView>)
    ensures |Cards(queue)| == |queue|
    ensures forall k :: 0 <= k < |queue| ==> Cards(queue)[k] == CardOf(queue[k], k + 1)
    decreases |queue|
  {
    if queue != [] {
      var init := queue[..|queue| - 1];
      CardsNumberedInOrder(init);
      assert Cards(queue) == Cards(init) + [CardOf(queue[|queue| - 1], |queue|)];
      forall k | 0 <= k < |queue| - 1
        ensures Cards(queue)[k] == CardOf(queue[k], k + 1)
      {
        assert Cards(queue)[k] == Cards(init)[k];
        assert init[k] == queue[k];
      }
    }
  }

  /** Each stored status offers the action that moves it one step on: waiting, called, boarding, then nothing. */
  lemma ActionsFollowTheQueue(s: QueueStatus)
    ensures ActionFor(QueueStatusName(s)) != NoAction <==> s in {Waiting, Called, Boarding}
    ensures s == Waiting ==> ActionFor(QueueStatusName(s)) == CallPassenger
    ensures s == Called ==> ActionFor(QueueStatusName(s)) == BoardPassenger
    ensures s == Boarding ==> ActionFor(QueueStatusName(s)) == MarkBoarded
  {
  }

  /** After an action succeeds, the reloaded card offers the next action, and a boarded entry offers none. */
  lemma ActionAdvances(a: Action)
    requires a != NoAction
    ensures a == CallPassenger ==> ActionFor(QueueStatusName(StatusAfter(a))) == BoardPassenger
    ensures a == BoardPassenger ==> ActionFor(QueueStatusName(StatusAfter(a))) == MarkBoarded
    ensures a == MarkBoarded ==> ActionFor(QueueStatusName(StatusAfter(a))) == NoAction
  {
  }

  /** Each action's request reaches its own handler for an admin or an agent, and is refused with 403 for staff. */
  lemma ActionReachesItsHandler(a: Action, id: string, role: UserModel.Role)
    requires a != NoAction && id != ""
    ensures Routing.Serve(BoardingRoutes.Mounted, Routing.PUT, [id, Endpoint(a)], Some(role))
            == (if role in BoardingRoutes.Supervisors then Routing.Handled(HandlerOf(a)) else Routing.Refused(403))
  {
    var path := [id, Endpoint(a)];
    match a
    case CallPassenger =>
      Routing.HandleAt(BoardingRoutes.Table, 3, Routing.PUT, path, Some(role));
    case BoardPassenger =>
      assert !Routing.SegmentMatches(Routing.Lit("call"), "boarding") by { assert "boarding"[0] != "call"[0]; }
      assert !Routing.PathMatches(BoardingRoutes.Table[3].pattern, path) by { assert path[1] == "boarding"; }
      Routing.HandleAt(BoardingRoutes.Table, 4, Routing.PUT, path, Some(role));
    case MarkBoarded =>
      assert !Routing.SegmentMatches(Routing.Lit("call"), "boarded") by { assert "boarded"[0] != "call"[0]; }
      assert !Routing.SegmentMatches(Routing.Lit("boarding"), "boarded") by { assert |"boarded"| != |"boarding"|; }
      assert !Routing.PathMatches(BoardingRoutes.Table[3].pattern, path) by { assert path[1] == "boarded"; }
      assert !Routing.PathMatches(BoardingRoutes.Table[4].pattern, path) by { assert path[1] == "boarded"; }
      Routing.HandleAt(BoardingRoutes.Table, 5, Routing.PUT, path, Some(role));
  }

  /** A missing count is shown as 0, a present one as it is. */
  lemma MissingCountsShowZero(s: StatsView)
    ensures PanelOf(s).waiting == (if s.waiting.Some? then s.waiting.value else 0)
    ensures PanelOf(StatsView(None, None, None, None)) == Panel(0, 0, 0, 0)
  {
  }

  /** A status without a hyphen is shown upper-cased; "missed" is shown with the waiting class and no action. */
  lemma StatusDisplay(s: QueueStatus)
    ensures '-' !in QueueStatusName(s)
    ensures StatusText(QueueStatusName(s)) == ToUpper(QueueStatusName(s))
    ensures s == Missed ==> StatusClass(QueueStatusName(s)) == "status-waiting" && ActionFor(QueueStatusName(s)) == NoAction
  {
  }
}
