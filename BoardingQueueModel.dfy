/** The BoardingQueue schema (server/models/BoardingQueue.js). */
module QueueModel {
  import opened Wrappers
  import opened Ids
  import Text

  /** The `boardingGroup` enum; a new entry defaults to General. */
  datatype BoardingGroup = Priority | Group1 | Group2 | Group3 | General

  const DefaultGroup: BoardingGroup := General

  function GroupName(g: BoardingGroup): string {
    match g
    case Priority => "priority"
    case Group1 => "group-1"
    case Group2 => "group-2"
    case Group3 => "group-3"
    case General => "general"
  }

  /** Schema validation of a `boardingGroup` string. */
  function ParseGroup(s: string): (r: Option<BoardingGroup>)
    ensures forall g :: r == Some(g) <==> GroupName(g) == s
  {
    if s == "priority" then Some(Priority)
    else if s == "group-1" then Some(Group1)
    else if s == "group-2" then Some(Group2)
    else if s == "group-3" then Some(Group3)
    else if s == "general" then Some(General)
    else None
  }

  /** The `status` enum of an entry; a new entry defaults to Waiting. */
  datatype QueueStatus = Waiting | Called | Boarding | Boarded | Missed

  const DefaultStatus: QueueStatus := Waiting

  function QueueStatusName(s: QueueStatus): string {
    match s
    case Waiting => "waiting"
    case Called => "called"
    case Boarding => "boarding"
    case Boarded => "boarded"
    case Missed => "missed"
  }

  /** Schema validation of an entry `status` string. */
  function ParseQueueStatus(s: string): (r: Option<QueueStatus>)
    ensures forall st :: r == Some(st) <==> QueueStatusName(st) == s
  {
    if s == "waiting" then Some(Waiting)
    else if s == "called" then Some(Called)
    else if s == "boarding" then Some(Boarding)
    else if s == "boarded" then Some(Boarded)
    else if s == "missed" then Some(Missed)
    else None
  }

  /** A stored queue entry; `queuePosition` is a required number. */
  datatype QueueEntry = QueueEntry(
    bookingId: Id,
    flightId: Id,
    passengerId: Id,
    group: BoardingGroup,
    position: int,
    status: QueueStatus,
    calledAt: Option<Time>,
    boardedAt: Option<Time>)

  /**
   * The invariants the controller maintains. The two indexes on the collection
   * are not unique, so the schema itself enforces neither.
   */
  predicate OneEntryPerBooking(queue: map<Id, QueueEntry>) {
    forall i, j :: i in queue && j in queue && i != j ==> queue[i].bookingId != queue[j].bookingId
  }

  predicate DistinctPositions(queue: map<Id, QueueEntry>) {
    forall i, j :: i in queue && j in queue && i != j
      && queue[i].flightId == queue[j].flightId && queue[i].group == queue[j].group
      ==> queue[i].position != queue[j].position
  }

  /** A collection the schema accepts that breaks both controller invariants. */
  lemma IndexesAreNotUnique()
    ensures exists queue: map<Id, QueueEntry> :: !OneEntryPerBooking(queue) && !DistinctPositions(queue)
  {
    var e := QueueEntry(0, 0, 0, General, 1, Waiting, None, None);
    var queue := map[0 := e, 1 := e];
    assert 0 in queue && 1 in queue && queue[0] == queue[1];
    assert !OneEntryPerBooking(queue);
    assert !DistinctPositions(queue);
  }

  /**
   * The order of the queue listing: by the group NAME as a string, then by position.
   * Strings compare character by character, so this is not the boarding order of the groups.
   */
  predicate ListedBefore(a: QueueEntry, b: QueueEntry) {
    Text.LexLess(GroupName(a.group), GroupName(b.group))
    || (a.group == b.group && a.position <= b.position)
  }

  /** The lexical rank of each group name: general < group-1 < group-2 < group-3 < priority. */
  function ListingRank(g: BoardingGroup): (r: nat)
    ensures r < 5
  {
    match g
    case General => 0
    case Group1 => 1
    case Group2 => 2
    case Group3 => 3
    case Priority => 4
  }

  lemma GroupNamesOrderedByRank(g: BoardingGroup, h: BoardingGroup)
    ensures Text.LexLess(GroupName(g), GroupName(h)) <==> ListingRank(g) < ListingRank(h)
  {
    var a, b := GroupName(g), GroupName(h);
    if g == h {
      Text.LexLessIrreflexive(a);
    } else {
      var numbered := g in {Group1, Group2, Group3} && h in {Group1, Group2, Group3};
      var startsWithG := g in {General, Group1, Group2, Group3} && h in {General, Group1, Group2, Group3};
      var k := if numbered then 6 else if startsWithG then 1 else 0;
      assert a[..k] == b[..k];
      Text.LexLessAtFirstDifference(a, b, k);
    }
  }

  /** Priority entries are listed last, General entries first. */
  lemma PriorityListedLast(g: BoardingGroup)
    ensures g != Priority ==> Text.LexLess(GroupName(g), GroupName(Priority))
    ensures g != General ==> Text.LexLess(GroupName(General), GroupName(g))
  {
    GroupNamesOrderedByRank(g, Priority);
    GroupNamesOrderedByRank(General, g);
  }
}
