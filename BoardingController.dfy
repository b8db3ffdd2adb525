/**
 * The boarding-queue handlers (server/controllers/boardingController.js): the per-flight
 * listing, enqueue with its ordered checks, group choice and next position, the three
 * unguarded status setters, removal and the per-status statistics.
 */
module BoardingController {
  import opened Wrappers
  import opened Ids
  import opened QueueModel
  import BookingModel
  import Text
  import opened Store

  const BookingNotFound := ApiError(404, "Booking not found")
  const AlreadyQueued := ApiError(400, "Passenger already in boarding queue")
  const MustCheckInFirst := ApiError(400, "Passenger must check-in first")
  const EntryNotFound := ApiError(404, "Queue entry not found")
  const ServerError := ApiError(500, "Server error")

  // ---------------------------------------------------------------------------------------
  // getBoardingQueue

  /** The sort key `{ boardingGroup: 1, queuePosition: 1 }`, with the group compared by its name's rank. */
  predicate KeyLeq(a: QueueEntry, b: QueueEntry) {
    ListingRank(a.group) < ListingRank(b.group)
    || (ListingRank(a.group) == ListingRank(b.group) && a.position <= b.position)
  }

  /** Comparing ranks is comparing the group names as strings. */
  lemma KeyLeqIsListedBefore(a: QueueEntry, b: QueueEntry)
    ensures KeyLeq(a, b) <==> ListedBefore(a, b)
  {
    GroupNamesOrderedByRank(a.group, b.group);
  }

  predicate SortedByKey(s: seq<QueueEntry>) {
    forall i, j :: 0 <= i < j < |s| ==> KeyLeq(s[i], s[j])
  }

  /** A sorted sequence stays sorted under a head that precedes all of it. */
  lemma ConsSorted(h: QueueEntry, t: seq<QueueEntry>)
    requires SortedByKey(t) && forall k :: 0 <= k < |t| ==> KeyLeq(h, t[k])
    ensures SortedByKey([h] + t)
  {
  }

  function Insert(x: QueueEntry, s: seq<QueueEntry>): (r: seq<QueueEntry>)
    requires SortedByKey(s)
    ensures SortedByKey(r) && multiset(r) == multiset(s) + multiset{x}
  {
    if s == [] then [x]
    else if KeyLeq(x, s[0]) then
      ConsSorted(x, s);
      [x] + s
    else
      var rest := Insert(x, s[1..]);
      assert s == [s[0]] + s[1..];
      forall k | 0 <= k < |rest|
        ensures KeyLeq(s[0], rest[k])
      {
        assert rest[k] in multiset(rest);
      }
      ConsSorted(s[0], rest);
      [s[0]] + rest
  }

  /** The entries in listing order: a permutation of `s`, sorted by group name and position. */
  function SortQueue(s: seq<QueueEntry>): (r: seq<QueueEntry>)
    ensures SortedByKey(r) && multiset(r) == multiset(s)
  {
    if s == [] then [] else
      assert s == [s[0]] + s[1..];
      Insert(s[0], SortQueue(s[1..]))
  }

  /**
   * getBoardingQueue: the flight's entries (`entries` is the collection in any order),
   * ordered by group name as a string and then by position.
   */
  function GetBoardingQueue(entries: seq<QueueEntry>, flightId: Id): (r: seq<QueueEntry>)
    ensures forall e :: e in r <==> e in entries && e.flightId == flightId
    ensures forall i, j :: 0 <= i < j < |r| ==> ListedBefore(r[i], r[j])
    ensures multiset(r) == multiset(FlightEntries(entries, flightId))
  {
    var r := SortQueue(FlightEntries(entries, flightId));
    assert forall e :: e in r <==> e in multiset(r);
    forall i, j | 0 <= i < j < |r|
      ensures ListedBefore(r[i], r[j])
    {
      KeyLeqIsListedBefore(r[i], r[j]);
    }
    r
  }

  function FlightEntries(entries: seq<QueueEntry>, flightId: Id): (r: seq<QueueEntry>)
    ensures forall e :: e in r <==> e in entries && e.flightId == flightId
  {
    if entries == [] then []
    else if entries[0].flightId == flightId then [entries[0]] + FlightEntries(entries[1..], flightId)
    else FlightEntries(entries[1..], flightId)
  }

  /** In the listing every General entry comes before every Priority entry of the flight. */
  lemma PriorityListedAfterGeneral(entries: seq<QueueEntry>, flightId: Id, i: nat, j: nat)
    requires var r := GetBoardingQueue(entries, flightId);
             i < |r| && j < |r| && r[i].group == Priority && r[j].group == General
    ensures j < i
  {
    var r := GetBoardingQueue(entries, flightId);
    KeyLeqIsListedBefore(r[i], r[j]);
    assert !KeyLeq(r[i], r[j]);
  }

  // ---------------------------------------------------------------------------------------
  // addToQueue

  datatype EnqueueRequest = EnqueueRequest(bookingId: Option<Id>, boardingGroup: Option<string>)

  /** The group asked for, or when none is (or it is empty) group-1 for business and group-2 otherwise. */
  function ChosenGroup(requested: Option<string>, seatClass: BookingModel.SeatClass): (g: Option<BoardingGroup>)
    ensures (requested.None? || requested.value == "") ==>
              g == Some(if seatClass == BookingModel.Business then Group1 else Group2)
    ensures requested.Some? && requested.value != "" ==> g == ParseGroup(requested.value)
  {
    if requested.None? || requested.value == "" then
      Some(if seatClass == BookingModel.Business then Group1 else Group2)
    else ParseGroup(requested.value)
  }

  /** Positions already used by the flight's entries in a group. */
  function GroupPositions(queue: map<Id, QueueEntry>, flightId: Id, g: BoardingGroup): set<int> {
    set i | i in queue && queue[i].flightId == flightId && queue[i].group == g :: queue[i].position
  }

  /**
   * The highest position in the group plus one, or 1 for an empty group
   * (`findOne(...).sort({ queuePosition: -1 })`).
   */
  function NextPosition(queue: map<Id, QueueEntry>, flightId: Id, g: BoardingGroup): (p: int)
    ensures forall x :: x in GroupPositions(queue, flightId, g) ==> x < p
    ensures GroupPositions(queue, flightId, g) == {} ==> p == 1
    ensures GroupPositions(queue, flightId, g) != {} ==> p - 1 in GroupPositions(queue, flightId, g)
  {
    var used := GroupPositions(queue, flightId, g);
    if !exists x :: x in used then
      assert used == {};
      1
    else
      MaxOf(used);
      var m :| m in used && forall x :: x in used ==> x <= m;
      m + 1
  }

  predicate InQueue(queue: map<Id, QueueEntry>, bookingId: Id) {
    exists i :: i in queue && queue[i].bookingId == bookingId
  }

  /** The validation answer for a `boardingGroup` outside the enum. */
  function GroupEnumError(group: string): ApiError {
    ApiError(400, "`" + group + "` is not a valid enum value for path `boardingGroup`.")
  }

  /**
   * addToQueue: booking not found, then already queued, then not checked in; a queued
   * booking whose flight or passenger no longer exists makes the handler fail, and a group
   * name outside the enum fails validation. A new entry is waiting, at the next position.
   */
  function EnqueueSpec(bookings: map<Id, BookingModel.Booking>, flights: set<Id>, passengers: set<Id>,
                       queue: map<Id, QueueEntry>, req: EnqueueRequest): (r: Result<QueueEntry, ApiError>)
    ensures (req.bookingId.None? || req.bookingId.value !in bookings) <==> r == Err(BookingNotFound)
    ensures r == Err(AlreadyQueued) <==> req.bookingId.Some? && req.bookingId.value in bookings
                                         && InQueue(queue, req.bookingId.value)
    ensures r == Err(MustCheckInFirst) <==>
              req.bookingId.Some? && req.bookingId.value in bookings && !InQueue(queue, req.bookingId.value)
              && bookings[req.bookingId.value].status !in {BookingModel.CheckedIn, BookingModel.Boarded}
    ensures r.Ok? ==> var b := bookings[req.bookingId.value];
                      !InQueue(queue, req.bookingId.value) && b.status in {BookingModel.CheckedIn, BookingModel.Boarded}
                      && r.value.bookingId == req.bookingId.value && r.value.flightId == b.flightId
                      && r.value.passengerId == b.passengerId && r.value.status == Waiting
                      && Some(r.value.group) == ChosenGroup(req.boardingGroup, b.seatClass)
                      && r.value.position == NextPosition(queue, b.flightId, r.value.group)
                      && r.value.calledAt.None? && r.value.boardedAt.None?
    ensures req.bookingId.Some? && req.bookingId.value in bookings && !InQueue(queue, req.bookingId.value)
            && bookings[req.bookingId.value].status in {BookingModel.CheckedIn, BookingModel.Boarded} ==>
              var b := bookings[req.bookingId.value];
              (r == Err(ServerError) <==> b.flightId !in flights || b.passengerId !in passengers)
              && (b.flightId in flights && b.passengerId in passengers ==>
                    (r.Ok? <==> ChosenGroup(req.boardingGroup, b.seatClass).Some?)
                    && (r.Err? ==> req.boardingGroup.Some? && r.error == GroupEnumError(req.boardingGroup.value)))
  {
    if req.bookingId.None? || req.bookingId.value !in bookings then Err(BookingNotFound)
    else
      var b := bookings[req.bookingId.value];
      if InQueue(queue, req.bookingId.value) then Err(AlreadyQueued)
      else if b.status != BookingModel.CheckedIn && b.status != BookingModel.Boarded then Err(MustCheckInFirst)
      else if b.flightId !in flights || b.passengerId !in passengers then Err(ServerError)
      else
        match ChosenGroup(req.boardingGroup, b.seatClass)
        case None => Err(GroupEnumError(req.boardingGroup.value))
        case Some(g) =>
          Ok(QueueEntry(req.bookingId.value, b.flightId, b.passengerId, g, NextPosition(queue, b.flightId, g),
                        Waiting, None, None))
  }

  method AddToQueue(db: Database, req: EnqueueRequest) returns (r: Result<QueueEntry, ApiError>)
    modifies db`queue
    ensures r == EnqueueSpec(old(db.bookings), old(db.flights).Keys, old(db.passengers).Keys, old(db.queue), req)
    ensures db.queue == if r.Ok? then old(db.queue)[FreshId(old(db.queue).Keys) := r.value] else old(db.queue)
  {
    if req.bookingId.None? || req.bookingId.value !in db.bookings {
      return Err(BookingNotFound);
    }
    var booking := db.bookings[req.bookingId.value];
    if InQueue(db.queue, req.bookingId.value) {
      return Err(AlreadyQueued);
    }
    if booking.status != BookingModel.CheckedIn && booking.status != BookingModel.Boarded {
      return Err(MustCheckInFirst);
    }
    if booking.flightId !in db.flights || booking.passengerId !in db.passengers {
      return Err(ServerError);
    }
    var group := ChosenGroup(req.boardingGroup, booking.seatClass);
    if group.None? {
      return Err(ApiError(400, "`" + req.boardingGroup.value + "` is not a valid enum value for path `boardingGroup`."));
    }
    var position := NextPosition(db.queue, booking.flightId, group.value);
    var entry := QueueEntry(req.bookingId.value, booking.flightId, booking.passengerId, group.value,
                            position, Waiting, None, None);
    db.queue := db.queue[FreshId(db.queue.Keys) := entry];
    r := Ok(entry);
  }

  /**
   * Enqueue keeps the two properties the non-unique indexes do not enforce: one entry per
   * booking, and distinct positions within a flight's group.
   */
  lemma EnqueueKeepsQueueInvariants(bookings: map<Id, BookingModel.Booking>, flights: set<Id>, passengers: set<Id>,
                                    queue: map<Id, QueueEntry>, req: EnqueueRequest)
    requires OneEntryPerBooking(queue) && DistinctPositions(queue)
    requires EnqueueSpec(bookings, flights, passengers, queue, req).Ok?
    ensures var after := queue[FreshId(queue.Keys) := EnqueueSpec(bookings, flights, passengers, queue, req).value];
            OneEntryPerBooking(after) && DistinctPositions(after)
  {
    var e := EnqueueSpec(bookings, flights, passengers, queue, req).value;
    var id := FreshId(queue.Keys);
    var after := queue[id := e];
    forall i, j | i in after && j in after && i != j
      ensures after[i].bookingId != after[j].bookingId
    {
      if i == id || j == id {
        var other := if i == id then j else i;
        assert other in queue && after[other] == queue[other];
        assert !InQueue(queue, e.bookingId);
      }
    }
    forall i, j | i in after && j in after && i != j
                  && after[i].flightId == after[j].flightId && after[i].group == after[j].group
      ensures after[i].position != after[j].position
    {
      if i == id || j == id {
        var other := if i == id then j else i;
        assert other in queue && after[other] == queue[other];
        assert queue[other].position in GroupPositions(queue, e.flightId, e.group);
      }
    }
  }

  // ---------------------------------------------------------------------------------------
  // callPassenger, markBoarding, markBoarded, removeFromQueue

  /** callPassenger: status called and calledAt set, from any prior status. */
  method CallPassenger(db: Database, id: Id, now: Time) returns (r: Result<QueueEntry, ApiError>)
    modifies db`queue
    ensures id !in old(db.queue) <==> r == Err(EntryNotFound)
    ensures r.Ok? ==> r.value == old(db.queue)[id].(status := Called, calledAt := Some(now))
    ensures db.queue == if r.Ok? then old(db.queue)[id := r.value] else old(db.queue)
  {
    if id !in db.queue {
      return Err(EntryNotFound);
    }
    var entry := db.queue[id].(status := Called, calledAt := Some(now));
    db.queue := db.queue[id := entry];
    r := Ok(entry);
  }

  /** markBoarding: status boarding, from any prior status; nothing else changes. */
  method MarkBoarding(db: Database, id: Id) returns (r: Result<QueueEntry, ApiError>)
    modifies db`queue
    ensures id !in old(db.queue) <==> r == Err(EntryNotFound)
    ensures r.Ok? ==> r.value == old(db.queue)[id].(status := Boarding)
    ensures db.queue == if r.Ok? then old(db.queue)[id := r.value] else old(db.queue)
  {
    if id !in db.queue {
      return Err(EntryNotFound);
    }
    var entry := db.queue[id].(status := Boarding);
    db.queue := db.queue[id := entry];
    r := Ok(entry);
  }

  /**
   * markBoarded: the entry becomes boarded with boardedAt, then the linked booking (when it
   * still exists) becomes boarded with boardingTime whatever its status was.
   */
  method MarkBoarded(db: Database, id: Id, now: Time) returns (r: Result<QueueEntry, ApiError>)
    modifies db`bookings, db`queue
    ensures id !in old(db.queue) <==> r == Err(EntryNotFound)
    ensures r.Ok? ==> r.value == old(db.queue)[id].(status := Boarded, boardedAt := Some(now))
    ensures db.queue == if r.Ok? then old(db.queue)[id := r.value] else old(db.queue)
    ensures db.bookings == if r.Ok? && r.value.bookingId in old(db.bookings)
                           then old(db.bookings)[r.value.bookingId :=
                                  old(db.bookings)[r.value.bookingId].(status := BookingModel.Boarded, boardingTime := Some(now))]
                           else old(db.bookings)
  {
    if id !in db.queue {
      return Err(EntryNotFound);
    }
    var entry := db.queue[id].(status := Boarded, boardedAt := Some(now));
    db.queue := db.queue[id := entry];
    if entry.bookingId in db.bookings {
      var booking := db.bookings[entry.bookingId];
      db.bookings := db.bookings[entry.bookingId := booking.(status := BookingModel.Boarded, boardingTime := Some(now))];
    }
    r := Ok(entry);
  }

  /** removeFromQueue: only that entry is deleted; the others keep their positions. */
  method RemoveFromQueue(db: Database, id: Id) returns (r: Result<QueueEntry, ApiError>)
    modifies db`queue
    ensures id !in old(db.queue) <==> r == Err(EntryNotFound)
    ensures r.Ok? ==> r.value == old(db.queue)[id]
    ensures db.queue == if r.Ok? then old(db.queue) - {id} else old(db.queue)
  {
    if id !in db.queue {
      return Err(EntryNotFound);
    }
    r := Ok(db.queue[id]);
    db.queue := db.queue - {id};
  }

  /**
   * Positions are not renumbered: after removing an entry, every other entry keeps its
   * position, and when a later entry of its group remains, the next position handed out is the
   * same as before, so the removed position is left as a gap.
   */
  lemma RemovalLeavesGap(queue: map<Id, QueueEntry>, id: Id)
    requires id in queue
    ensures forall i :: i in queue && i != id ==> i in queue - {id} && (queue - {id})[i].position == queue[i].position
    ensures var e := queue[id];
            (exists j :: j in queue && j != id && queue[j].flightId == e.flightId && queue[j].group == e.group
                         && queue[j].position > e.position)
            ==> NextPosition(queue - {id}, e.flightId, e.group) == NextPosition(queue, e.flightId, e.group)
  {
    var e := queue[id];
    var after := queue - {id};
    if j :| j in queue && j != id && queue[j].flightId == e.flightId && queue[j].group == e.group && queue[j].position > e.position {
      var before := GroupPositions(queue, e.flightId, e.group);
      var left := GroupPositions(after, e.flightId, e.group);
      assert queue[j].position in before;
      var top := NextPosition(queue, e.flightId, e.group) - 1;
      assert top in before;
      var k :| k in queue && queue[k].flightId == e.flightId && queue[k].group == e.group && queue[k].position == top;
      assert k != id by { assert queue[j].position <= top; }
      assert top in left by { assert k in after && after[k] == queue[k]; }
      assert left <= before;
      assert queue[j].position in left by { assert j in after && after[j] == queue[j]; }
    }
  }

  // ---------------------------------------------------------------------------------------
  // getBoardingStats

  datatype Stats = Stats(total: nat, waiting: nat, called: nat, boarding: nat, boarded: nat, missed: nat)

  function StatusCount(s: Stats, st: QueueStatus): nat {
    match st
    case Waiting => s.waiting
    case Called => s.called
    case Boarding => s.boarding
    case Boarded => s.boarded
    case Missed => s.missed
  }

  function SetCount(s: Stats, st: QueueStatus, n: nat): (r: Stats)
    ensures StatusCount(r, st) == n && r.total == s.total
    ensures forall other :: other != st ==> StatusCount(r, other) == StatusCount(s, other)
  {
    match st
    case Waiting => s.(waiting := n)
    case Called => s.(called := n)
    case Boarding => s.(boarding := n)
    case Boarded => s.(boarded := n)
    case Missed => s.(missed := n)
  }

  /** The `$group` stage: one (status, count) pair per status present. */
  datatype Group = Group(status: QueueStatus, count: nat)

  predicate DistinctStatuses(groups: seq<Group>) {
    forall i, j :: 0 <= i < j < |groups| ==> groups[i].status != groups[j].status
  }

  /** The count reported for a status: the group's count, or 0 when no group has it. */
  function ReportedCount(groups: seq<Group>, st: QueueStatus): nat {
    if groups == [] then 0
    else if groups[|groups| - 1].status == st then groups[|groups| - 1].count
    else ReportedCount(groups[..|groups| - 1], st)
  }

  /** The result object filled in by the `forEach` over the groups, every status defaulting to 0. */
  method FillStats(total: nat, groups: seq<Group>) returns (stats: Stats)
    ensures stats.total == total
    ensures forall st :: StatusCount(stats, st) == ReportedCount(groups, st)
  {
    stats := Stats(total, 0, 0, 0, 0, 0);
    for k := 0 to |groups|
      invariant stats.total == total
      invariant forall st :: StatusCount(stats, st) == ReportedCount(groups[..k], st)
    {
      assert groups[..k + 1][..k] == groups[..k];
      stats := SetCount(stats, groups[k].status, groups[k].count);
    }
    assert groups[..|groups|] == groups;
  }

  /** The flight's entries with a given status. */
  function WithStatus(queue: map<Id, QueueEntry>, flightId: Id, st: QueueStatus): set<Id> {
    set i | i in queue && queue[i].flightId == flightId && queue[i].status == st
  }

  /** What `$match` + `$group` produce: a group for each status that has entries. */
  function Aggregate(queue: map<Id, QueueEntry>, flightId: Id): (groups: seq<Group>)
    ensures DistinctStatuses(groups)
    ensures forall st :: ReportedCount(groups, st) == |WithStatus(queue, flightId, st)|
  {
    var all := [Waiting, Called, Boarding, Boarded, Missed];
    var groups := AggregateOver(queue, flightId, all);
    groups
  }

  function AggregateOver(queue: map<Id, QueueEntry>, flightId: Id, statuses: seq<QueueStatus>): (groups: seq<Group>)
    requires forall i, j :: 0 <= i < j < |statuses| ==> statuses[i] != statuses[j]
    ensures DistinctStatuses(groups)
    ensures forall g :: g in groups ==> g.status in statuses
    ensures forall st :: ReportedCount(groups, st) == if st in statuses then |WithStatus(queue, flightId, st)| else 0
  {
    if statuses == [] then []
    else
      var init := statuses[..|statuses| - 1];
      var last := statuses[|statuses| - 1];
      var rest := AggregateOver(queue, flightId, init);
      var n := |WithStatus(queue, flightId, last)|;
      if n == 0 then
        assert forall st :: st in statuses <==> st in init || st == last;
        rest
      else
        var groups := rest + [Group(last, n)];
        assert groups[..|groups| - 1] == rest;
        assert forall st :: st in statuses <==> st in init || st == last;
        groups
  }

  /** The flight's bookings in checked-in or boarded status. */
  function CheckedInOrBoarded(bookings: map<Id, BookingModel.Booking>, flightId: Id): set<Id> {
    set i | i in bookings && bookings[i].flightId == flightId
            && (bookings[i].status == BookingModel.CheckedIn || bookings[i].status == BookingModel.Boarded)
  }

  /**
   * The statistics the handler evidently means to report: `total` counts the flight's
   * checked-in or boarded bookings and each status its entries, 0 when there are none.
   */
  method BoardingStats(db: Database, flightId: Id) returns (stats: Stats)
    ensures stats.total == |CheckedInOrBoarded(db.bookings, flightId)|
    ensures forall st :: StatusCount(stats, st) == |WithStatus(db.queue, flightId, st)|
  {
    stats := FillStats(|CheckedInOrBoarded(db.bookings, flightId)|, Aggregate(db.queue, flightId));
  }

  /**
   * The handler as written: the `$match` stage calls `mongoose.Types.ObjectId`, but the
   * module never requires mongoose, so every request throws and answers 500.
   */
  function GetBoardingStatsAsWritten(queue: map<Id, QueueEntry>, flightId: Id): (r: Result<Stats, ApiError>)
    ensures r == Err(ServerError)
  {
    Err(ServerError)
  }

  lemma DisjointUnionSize(a: set<Id>, b: set<Id>)
    requires forall x :: x in a ==> x !in b
    ensures |a + b| == |a| + |b|
  {
    assert a * b == {};
  }

  /** The flight's entries whose status is one of `sts`. */
  function InStatuses(queue: map<Id, QueueEntry>, flightId: Id, sts: set<QueueStatus>): set<Id> {
    set i | i in queue && queue[i].flightId == flightId && queue[i].status in sts
  }

  lemma AddStatus(queue: map<Id, QueueEntry>, flightId: Id, sts: set<QueueStatus>, st: QueueStatus)
    requires st !in sts
    ensures |InStatuses(queue, flightId, sts + {st})| == |InStatuses(queue, flightId, sts)| + |WithStatus(queue, flightId, st)|
  {
    var a, b := InStatuses(queue, flightId, sts), WithStatus(queue, flightId, st);
    assert InStatuses(queue, flightId, sts + {st}) == a + b;
    DisjointUnionSize(a, b);
  }

  lemma EveryStatusListed(queue: map<Id, QueueEntry>, flightId: Id)
    ensures InStatuses(queue, flightId, {Waiting, Called, Boarding, Boarded, Missed})
            == set i | i in queue && queue[i].flightId == flightId
  {
    var all := {Waiting, Called, Boarding, Boarded, Missed};
    forall st: QueueStatus
      ensures st in all
    {
      match st
      case Waiting =>
      case Called =>
      case Boarding =>
      case Boarded =>
      case Missed =>
    }
  }

  /** The five status counts add up to the flight's entries: every entry is counted once. */
  lemma StatusCountsCoverEntries(queue: map<Id, QueueEntry>, flightId: Id)
    ensures var entries := set i | i in queue && queue[i].flightId == flightId;
            |WithStatus(queue, flightId, Waiting)| + |WithStatus(queue, flightId, Called)|
            + |WithStatus(queue, flightId, Boarding)| + |WithStatus(queue, flightId, Boarded)|
            + |WithStatus(queue, flightId, Missed)| == |entries|
  {
    var none: set<QueueStatus> := {};
    assert InStatuses(queue, flightId, none) == {};
    AddStatus(queue, flightId, none, Waiting);
    AddStatus(queue, flightId, {Waiting}, Called);
    AddStatus(queue, flightId, {Waiting, Called}, Boarding);
    AddStatus(queue, flightId, {Waiting, Called, Boarding}, Boarded);
    AddStatus(queue, flightId, {Waiting, Called, Boarding, Boarded}, Missed);
    assert none + {Waiting} == {Waiting};
    assert {Waiting} + {Called} == {Waiting, Called};
    assert {Waiting, Called} + {Boarding} == {Waiting, Called, Boarding};
    assert {Waiting, Called, Boarding} + {Boarded} == {Waiting, Called, Boarding, Boarded};
    assert {Waiting, Called, Boarding, Boarded} + {Missed} == {Waiting, Called, Boarding, Boarded, Missed};
    EveryStatusListed(queue, flightId);
  }
}
