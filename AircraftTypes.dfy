/**
 * The aircraft reference table (server/config/aircraftTypes.js): per type its name, seat
 * capacity and default price per class, and the seat layout (row range and column letters)
 * of each class.
 */
module AircraftTypes {
  import opened Wrappers
  import opened FlightModel

  /** A class's `rows`: either `0` (the class does not exist) or an inclusive range `[start, end]`. */
  datatype Rows = NoRows | RowRange(start: nat, end: nat)

  datatype ClassLayout = ClassLayout(rows: Rows, columns: seq<char>)

  datatype SeatLayout = SeatLayout(first: ClassLayout, business: ClassLayout, economy: ClassLayout)

  datatype AircraftType = AircraftType(
    name: string,
    capacity: ClassFigures,
    defaultPrice: ClassFigures,
    seatLayout: SeatLayout)

  const NoFirst := ClassLayout(NoRows, [])
  const FourAbreast := ['A', 'B', 'C', 'D']
  const SixAbreast := ['A', 'B', 'C', 'D', 'E', 'F']
  const TenAbreast := ['A', 'B', 'C', 'D', 'E', 'F', 'G', 'H', 'J', 'K']

  /** The table entry of each aircraft type of the Flight schema's enum. */
  function TypeOf(a: Aircraft): AircraftType {
    match a
    case A320 => AircraftType("Airbus A320", ClassFigures(0, 20, 150), ClassFigures(0, 600, 200),
      SeatLayout(NoFirst, ClassLayout(RowRange(1, 5), FourAbreast), ClassLayout(RowRange(6, 30), SixAbreast)))
    case A330 => AircraftType("Airbus A330", ClassFigures(8, 36, 200), ClassFigures(1500, 800, 300),
      SeatLayout(ClassLayout(RowRange(1, 2), FourAbreast), ClassLayout(RowRange(3, 11), FourAbreast),
                 ClassLayout(RowRange(12, 45), ['A', 'B', 'C', 'D', 'E', 'F', 'G'])))
    case B737 => AircraftType("Boeing 737", ClassFigures(0, 16, 126), ClassFigures(0, 550, 180),
      SeatLayout(NoFirst, ClassLayout(RowRange(1, 4), FourAbreast), ClassLayout(RowRange(5, 25), SixAbreast)))
    case B777 => AircraftType("Boeing 777", ClassFigures(8, 40, 264), ClassFigures(2000, 1000, 400),
      SeatLayout(ClassLayout(RowRange(1, 2), FourAbreast), ClassLayout(RowRange(3, 12), FourAbreast),
                 ClassLayout(RowRange(13, 50), TenAbreast)))
    case B787 => AircraftType("Boeing 787 Dreamliner", ClassFigures(0, 28, 224), ClassFigures(0, 900, 350),
      SeatLayout(NoFirst, ClassLayout(RowRange(1, 7), FourAbreast),
                 ClassLayout(RowRange(8, 35), ['A', 'B', 'C', 'D', 'E', 'F', 'G', 'H', 'J'])))
    case A380 => AircraftType("Airbus A380", ClassFigures(14, 76, 429), ClassFigures(3000, 1500, 500),
      SeatLayout(ClassLayout(RowRange(1, 2), ['A', 'B', 'E', 'F', 'J', 'K']),
                 ClassLayout(RowRange(3, 21), ['A', 'B', 'D', 'E', 'G', 'H']),
                 ClassLayout(RowRange(22, 65), TenAbreast)))
  }

  /** `aircraftTypes[name]`: defined exactly for the six names of the aircraft enum. */
  function Lookup(name: string): (r: Option<AircraftType>)
    ensures r.Some? <==> ParseAircraft(name).Some?
    ensures r.Some? ==> r.value == TypeOf(ParseAircraft(name).value)
  {
    match ParseAircraft(name)
    case None => None
    case Some(a) => Some(TypeOf(a))
  }

  /** The number of seats a class layout describes. */
  function SeatCount(c: ClassLayout): nat {
    match c.rows
    case NoRows => 0
    case RowRange(start, end) => if end < start then 0 else (end - start + 1) * |c.columns|
  }

  /** The row after the last row of a class, or `start` when the class has no rows. */
  function NextRow(c: ClassLayout, start: nat): nat {
    match c.rows
    case NoRows => start
    case RowRange(_, end) => end + 1
  }

  /** Row ranges are ascending and contiguous from row 1: each class starts where the previous one ended. */
  predicate Contiguous(l: SeatLayout) {
    (l.first.rows.RowRange? ==> l.first.rows.start == 1 && l.first.rows.start <= l.first.rows.end)
    && l.business.rows.RowRange? && l.business.rows.start == NextRow(l.first, 1)
    && l.business.rows.start <= l.business.rows.end
    && l.economy.rows.RowRange? && l.economy.rows.start == NextRow(l.business, 1)
    && l.economy.rows.start <= l.economy.rows.end
  }

  /** The row layouts of every type are contiguous. */
  lemma AllLayoutsContiguous(a: Aircraft)
    ensures Contiguous(TypeOf(a).seatLayout)
  {
  }

  /** The types without a first class: capacity, price and layout all say so, and only for them. */
  lemma NoFirstClassTypes(a: Aircraft)
    ensures TypeOf(a).capacity.first == 0 <==> a in {A320, B737, B787}
    ensures TypeOf(a).capacity.first == 0 ==> TypeOf(a).defaultPrice.first == 0 && TypeOf(a).seatLayout.first == NoFirst
  {
  }

  /** For A320 and B737 every class's layout holds exactly its capacity. */
  lemma NarrowBodyLayoutsMatchCapacity(a: Aircraft)
    requires a == A320 || a == B737
    ensures var t := TypeOf(a);
            SeatCount(t.seatLayout.first) == t.capacity.first
            && SeatCount(t.seatLayout.business) == t.capacity.business
            && SeatCount(t.seatLayout.economy) == t.capacity.economy
  {
  }

  /** The A330 economy layout has 34 rows of 7 seats, 238 seats for a capacity of 200. */
  lemma A330EconomyExceedsCapacity()
    ensures SeatCount(TypeOf(A330).seatLayout.economy) == 238
    ensures TypeOf(A330).capacity.economy == 200
  {
  }
}
