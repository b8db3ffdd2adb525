/**
 * The public booking page (public/js/booking.js): the seat grid drawn for the chosen class, the
 * occupied-seat list it marks, seat selection, the class price and the guards on submission.
 * The page's globals are the fields of `BookingPage`; the seat grid the page appends to the DOM
 * is returned as a sequence of cells.
 */
module BookingPage {
  import opened Wrappers
  import opened Text
  import FlightModel
  import AircraftTypes
  import Routing
  import BookingRoutes
  import PassengerRoutes

  /** A cell of the seat grid: a seat with its number and whether it is taken, or an aisle spacer. */
  datatype Cell = Seat(number: string, taken: bool) | Aisle

  /** One class of the aircraft configuration as the page receives it; `rows` is None when falsy. */
  datatype ClientLayout = ClientLayout(rows: Option<seq<int>>, columns: seq<char>)

  /** The `seatLayout` of an aircraft configuration; a class the configuration lacks is None. */
  datatype ClientConfig = ClientConfig(first: Option<ClientLayout>, business: Option<ClientLayout>, economy: Option<ClientLayout>)

  /** The two fields of a listed booking that the page reads; "" is a booking without a seat. */
  datatype BookingView = BookingView(seatNumber: string, status: string)

  /** The passenger fields of the booking form. */
  datatype PassengerForm = PassengerForm(name: string, email: string, phone: string, passportNumber: string,
                                         dateOfBirth: string, nationality: string)

  /** One bag: `parseInt` of the weight field (None for NaN, which is sent as null) and its type. */
  datatype BaggageEntry = BaggageEntry(weight: Option<int>, kind: string)

  /** What a submission sends: the passenger record, then the booking for it. */
  datatype Submission = Submission(passenger: PassengerForm, seatNumber: string, bookingClass: string,
                                   baggage: seq<BaggageEntry>)

  /** A seat's number: the decimal row number followed by the column letter. */
  function SeatLabel(row: int, column: char): string { IntToDecimal(row) + [column] }

  /**
   * The cells of one row for the given columns, with a spacer after the column at index `aisle`;
   * a seat is taken when its number is listed in `occupied`. The page always numbers seats with
   * `SeatLabel`; the grid is stated for any numbering, so that its shape is proved apart from it.
   */
  function RowCells(row: int, columns: seq<char>, occupied: seq<string>, aisle: int, number: (int, char) -> string)
    : seq<Cell>
    decreases |columns|
  {
    if columns == [] then []
    else
      var i := |columns| - 1;
      var seat := number(row, columns[i]);
      RowCells(row, columns[..i], occupied, aisle, number) + [Seat(seat, seat in occupied)] + (if i == aisle then [Aisle] else [])
  }

  /** The cells of rows `start..end` inclusive, row after row. */
  function Grid(start: int, end: int, columns: seq<char>, occupied: seq<string>, aisle: int,
                number: (int, char) -> string): seq<Cell>
    decreases end - start
  {
    if end < start then [] else Grid(start, end - 1, columns, occupied, aisle, number) + RowCells(end, columns, occupied, aisle, number)
  }

  /** Where a configured layout puts its aisle: after the third column with six or more, after the second with four. */
  function ConfigAisle(columns: seq<char>): int {
    if |columns| >= 6 then 2 else if |columns| == 4 then 1 else -1
  }

  /** The grid of a configured class; a missing class, a falsy or short `rows` or no columns give no seats. */
  function ConfigSeats(layout: Option<ClientLayout>, occupied: seq<string>): seq<Cell> {
    match layout
    case None => []
    case Some(l) =>
      if l.rows.None? || |l.rows.value| < 2 || l.columns == [] then []
      else Grid(l.rows.value[0], l.rows.value[1], l.columns, occupied, ConfigAisle(l.columns), SeatLabel)
  }

  /** `seatLayout[travelClass]`. */
  function LayoutFor(c: ClientConfig, travelClass: string): Option<ClientLayout> {
    if travelClass == "first" then c.first
    else if travelClass == "business" then c.business
    else if travelClass == "economy" then c.economy
    else None
  }

  /** The fallback layout of a class: first row, number of rows, columns and aisle position. */
  function DefaultStart(travelClass: string): int {
    if travelClass == "first" then 1 else if travelClass == "business" then 3 else 9
  }
  function DefaultRows(travelClass: string): int {
    if travelClass == "first" then 2 else if travelClass == "business" then 6 else 20
  }
  function DefaultColumns(travelClass: string): seq<char> {
    if travelClass == "first" || travelClass == "business" then ['A', 'B', 'C', 'D'] else ['A', 'B', 'C', 'D', 'E', 'F']
  }
  /** The economy spacer is tied to the name "economy", so any other unknown class gets economy seats and no aisle. */
  function DefaultAisle(travelClass: string): int {
    if travelClass == "economy" then 2 else if travelClass == "business" || travelClass == "first" then 1 else -1
  }

  function DefaultSeats(travelClass: string, occupied: seq<string>): seq<Cell> {
    var start := DefaultStart(travelClass);
    Grid(start, start + DefaultRows(travelClass) - 1, DefaultColumns(travelClass), occupied, DefaultAisle(travelClass), SeatLabel)
  }

  /** The grid `generateSeats` draws: from the aircraft configuration when there is one, else the fallback. */
  function SeatsFor(config: Option<ClientConfig>, travelClass: string, occupied: seq<string>): seq<Cell> {
    match config
    case Some(c) => ConfigSeats(LayoutFor(c, travelClass), occupied)
    case None => DefaultSeats(travelClass, occupied)
  }

  /** The seat numbers the `forEach` collects: bookings with a seat that are not cancelled, in list order. */
  function Occupied(bookings: seq<BookingView>): seq<string> {
    if bookings == [] then []
    else
      var b := bookings[|bookings| - 1];
      Occupied(bookings[..|bookings| - 1]) + (if b.seatNumber != "" && b.status != "cancelled" then [b.seatNumber] else [])
  }

  function CountSeats(cells: seq<Cell>): nat {
    if cells == [] then 0 else CountSeats(cells[..|cells| - 1]) + (if cells[|cells| - 1].Seat? then 1 else 0)
  }

  /** The per-class price of a flight, for the three class names; an absent figure or any other name has none. */
  function PriceOf(price: FlightModel.StoredFigures, travelClass: string): Option<int> {
    if travelClass == "first" then Some(price.first)
    else if travelClass == "business" then price.business
    else if travelClass == "economy" then price.economy
    else None
  }

  /**
   * The layout the configured branch of `generateSeats` would read for a class of the server's
   * aircraft table (`rows: 0` is falsy, a range is a two-element array). The page asks for it at
   * `GET /api/aircraft-types/:type`, which no router serves (see `AircraftConfigNeverServed`), so
   * as written the page always draws the fallback layout.
   */
  function Served(c: AircraftTypes.ClassLayout): ClientLayout {
    match c.rows
    case NoRows => ClientLayout(None, c.columns)
    case RowRange(start, end) => ClientLayout(Some([start as int, end as int]), c.columns)
  }

  class BookingPage {
    var aircraftConfig: Option<ClientConfig>
    var occupiedSeats: seq<string>
    /** "" while no seat is selected. */
    var selectedSeatNumber: string
    var currentPrice: int
    var currentClass: string

    constructor ()
      ensures aircraftConfig == None && occupiedSeats == [] && selectedSeatNumber == ""
      ensures currentPrice == 0 && currentClass == "economy"
    {
      aircraftConfig := None;
      occupiedSeats := [];
      selectedSeatNumber := "";
      currentPrice := 0;
      currentClass := "economy";
    }

    /** The success callback of `loadOccupiedSeats`; None is a response without a `bookings` list. */
    method LoadOccupiedSeats(bookings: Option<seq<BookingView>>)
      modifies this
      ensures occupiedSeats == (if bookings.Some? then Occupied(bookings.value) else [])
      ensures aircraftConfig == old(aircraftConfig) && selectedSeatNumber == old(selectedSeatNumber)
      ensures currentPrice == old(currentPrice) && currentClass == old(currentClass)
    {
      occupiedSeats := [];
      if bookings.Some? {
        var bs := bookings.value;
        for k := 0 to |bs|
          invariant occupiedSeats == Occupied(bs[..k])
          invariant aircraftConfig == old(aircraftConfig) && selectedSeatNumber == old(selectedSeatNumber)
          invariant currentPrice == old(currentPrice) && currentClass == old(currentClass)
        {
          assert bs[..k + 1][..k] == bs[..k];
          if bs[k].seatNumber != "" && bs[k].status != "cancelled" {
            occupiedSeats := occupiedSeats + [bs[k].seatNumber];
          }
        }
        assert bs[..|bs|] == bs;
      }
    }

    /** The seat grid `generateSeats(travelClass)` draws for the current configuration and occupied seats. */
    method GenerateSeats(travelClass: string) returns (cells: seq<Cell>)
      ensures cells == SeatsFor(aircraftConfig, travelClass, occupiedSeats)
    {
      if aircraftConfig.Some? {
        var layout := LayoutFor(aircraftConfig.value, travelClass);
        if layout.None? || layout.value.rows.None? || |layout.value.rows.value| < 2 {
          cells := [];
        } else if layout.value.columns == [] {
          cells := [];
        } else {
          var columns := layout.value.columns;
          cells := AppendGrid(layout.value.rows.value[0], layout.value.rows.value[1], columns, occupiedSeats, ConfigAisle(columns), SeatLabel);
        }
      } else {
        var start := DefaultStart(travelClass);
        cells := AppendGrid(start, start + DefaultRows(travelClass) - 1, DefaultColumns(travelClass), occupiedSeats,
                            DefaultAisle(travelClass), SeatLabel);
      }
    }

    /** A click on a seat cell: only an unoccupied seat has a handler, which selects it. */
    method ClickSeat(cells: seq<Cell>, seat: string)
      modifies this
      ensures selectedSeatNumber == if Seat(seat, false) in cells then seat else old(selectedSeatNumber)
      ensures aircraftConfig == old(aircraftConfig) && occupiedSeats == old(occupiedSeats)
      ensures currentPrice == old(currentPrice) && currentClass == old(currentClass)
    {
      if Seat(seat, false) in cells {
        selectedSeatNumber := seat;
      }
    }

    /** `updatePrice`: the price follows the class only when the flight has a truthy price for it. */
    method UpdatePrice(price: FlightModel.StoredFigures, selectedClass: string)
      modifies this
      ensures currentPrice == match PriceOf(price, selectedClass)
                              case Some(p) => if p != 0 then p else old(currentPrice)
                              case None => old(currentPrice)
      ensures aircraftConfig == old(aircraftConfig) && occupiedSeats == old(occupiedSeats)
      ensures selectedSeatNumber == old(selectedSeatNumber) && currentClass == old(currentClass)
    {
      var p := PriceOf(price, selectedClass);
      if p.Some? && p.value != 0 {
        currentPrice := p.value;
      }
    }

    /** The class radio's change handler: remember the class, update the price, redraw the grid. */
    method ChangeClass(price: FlightModel.StoredFigures, travelClass: string) returns (cells: seq<Cell>)
      modifies this
      ensures currentClass == travelClass
      ensures currentPrice == match PriceOf(price, travelClass)
                              case Some(p) => if p != 0 then p else old(currentPrice)
                              case None => old(currentPrice)
      ensures cells == SeatsFor(aircraftConfig, travelClass, occupiedSeats)
      ensures aircraftConfig == old(aircraftConfig) && occupiedSeats == old(occupiedSeats)
      ensures selectedSeatNumber == old(selectedSeatNumber)
    {
      currentClass := travelClass;
      UpdatePrice(price, travelClass);
      cells := GenerateSeats(travelClass);
    }

    /** `submitBooking`: refused without a selected seat; baggage only when both weight and type are given, the weight read by `parseInt`. */
    method SubmitBooking(form: PassengerForm, bookingClass: string, baggageWeight: string, baggageType: string)
      returns (r: Option<Submission>)
      ensures r.None? <==> selectedSeatNumber == ""
      ensures r.Some? ==> r.value.seatNumber == selectedSeatNumber && r.value.bookingClass == bookingClass
      ensures r.Some? ==> r.value.passenger == TrimmedForm(form)
      ensures r.Some? ==> r.value.baggage == if baggageWeight != "" && baggageType != "" then [BaggageEntry(ParseInt(baggageWeight), baggageType)] else []
    {
      if selectedSeatNumber == "" {
        return None;
      }
      var passenger := TrimmedForm(form);
      var baggage := [];
      if baggageWeight != "" && baggageType != "" {
        baggage := baggage + [BaggageEntry(ParseInt(baggageWeight), baggageType)];
      }
      r := Some(Submission(passenger, selectedSeatNumber, bookingClass, baggage));
    }
  }

  /** Every field but the date of birth is trimmed. */
  function TrimmedForm(form: PassengerForm): PassengerForm {
    PassengerForm(Trim(form.name), Trim(form.email), Trim(form.phone), Trim(form.passportNumber),
                  form.dateOfBirth, Trim(form.nationality))
  }

  /** The row loop around `AppendRow`: the rows from `start` to `end` inclusive, in order. */
  method AppendGrid(start: int, end: int, columns: seq<char>, occupied: seq<string>, aisle: int,
                    number: (int, char) -> string) returns (cells: seq<Cell>)
    ensures cells == Grid(start, end, columns, occupied, aisle, number)
  {
    cells := [];
    if end < start {
      return;
    }
    var row := start;
    while row <= end
      invariant start <= row <= end + 1
      invariant cells == Grid(start, row - 1, columns, occupied, aisle, number)
      decreases end - row
    {
      var rowCells := AppendRow(row, columns, occupied, aisle, number);
      cells := cells + rowCells;
      row := row + 1;
    }
  }

  /** The column loop: one cell per column, marked occupied when its number is listed, and the aisle spacer. */
  method AppendRow(row: int, columns: seq<char>, occupied: seq<string>, aisle: int,
                   number: (int, char) -> string) returns (cells: seq<Cell>)
    ensures cells == RowCells(row, columns, occupied, aisle, number)
  {
    cells := [];
    for i := 0 to |columns|
      invariant cells == RowCells(row, columns[..i], occupied, aisle, number)
    {
      var seat := number(row, columns[i]);
      assert columns[..i + 1][..i] == columns[..i];
      cells := cells + [Seat(seat, seat in occupied)];
      if i == aisle {
        cells := cells + [Aisle];
      }
    }
    assert columns[..|columns|] == columns;
  }

  // ---------------------------------------------------------------------------------------------
  // The occupied-seat list

  /** A seat number is listed exactly when some non-cancelled booking holds it. */
  lemma {:induction false} OccupiedExactly(bookings: seq<BookingView>, s: string)
    ensures s in Occupied(bookings) <==> exists b :: b in bookings && b.seatNumber == s && s != "" && b.status != "cancelled"
    decreases |bookings|
  {
    if bookings != [] {
      var init := bookings[..|bookings| - 1];
      var last := bookings[|bookings| - 1];
      assert bookings == init + [last];
      OccupiedExactly(init, s);
      if s in Occupied(bookings) && s !in Occupied(init) {
        assert last in bookings;
      }
    }
  }

  // ---------------------------------------------------------------------------------------------
  // The seat grid

  /** A seat cell is marked occupied exactly when its seat is in the occupied list. */
  predicate MarksOccupied(cells: seq<Cell>, occupied: seq<string>) {
    forall k :: 0 <= k < |cells| && cells[k].Seat? ==> (cells[k].taken <==> cells[k].number in occupied)
  }

  lemma {:induction false} RowMarksOccupied(row: int, columns: seq<char>, occupied: seq<string>, aisle: int,
                                            number: (int, char) -> string)
    ensures MarksOccupied(RowCells(row, columns, occupied, aisle, number), occupied)
    decreases |columns|
  {
    if columns != [] {
      RowMarksOccupied(row, columns[..|columns| - 1], occupied, aisle, number);
    }
  }

  lemma {:induction false} GridMarksOccupied(start: int, end: int, columns: seq<char>, occupied: seq<string>, aisle: int,
                                             number: (int, char) -> string)
    ensures MarksOccupied(Grid(start, end, columns, occupied, aisle, number), occupied)
    decreases end - start
  {
    if start <= end {
      GridMarksOccupied(start, end - 1, columns, occupied, aisle, number);
      RowMarksOccupied(end, columns, occupied, aisle, number);
    }
  }

  /** Whatever the page draws, a seat shows as occupied exactly when its seat is in `occupiedSeats`. */
  lemma SeatsMarkOccupied(config: Option<ClientConfig>, travelClass: string, occupied: seq<string>)
    ensures MarksOccupied(SeatsFor(config, travelClass, occupied), occupied)
  {
    match config
    case Some(c) =>
      var layout := LayoutFor(c, travelClass);
      if layout.Some? && layout.value.rows.Some? && |layout.value.rows.value| >= 2 && layout.value.columns != [] {
        var l := layout.value;
        GridMarksOccupied(l.rows.value[0], l.rows.value[1], l.columns, occupied, ConfigAisle(l.columns), SeatLabel);
      }
    case None =>
      var start := DefaultStart(travelClass);
      GridMarksOccupied(start, start + DefaultRows(travelClass) - 1, DefaultColumns(travelClass), occupied,
                        DefaultAisle(travelClass), SeatLabel);
  }

  /** Only a free seat can be selected: a click that selects a seat of the drawn grid selects an unoccupied one. */
  lemma OnlyFreeSeatsSelectable(config: Option<ClientConfig>, travelClass: string, occupied: seq<string>, seat: string)
    requires Seat(seat, false) in SeatsFor(config, travelClass, occupied)
    ensures seat !in occupied
  {
    SeatsMarkOccupied(config, travelClass, occupied);
    var cells := SeatsFor(config, travelClass, occupied);
    var k :| 0 <= k < |cells| && cells[k] == Seat(seat, false);
  }

  /** Every row in range holds every column's seat, labelled row then column. */
  lemma {:induction false} RowHasSeat(row: int, columns: seq<char>, occupied: seq<string>, aisle: int, i: nat,
                                      number: (int, char) -> string)
    requires i < |columns|
    ensures Seat(number(row, columns[i]), number(row, columns[i]) in occupied) in RowCells(row, columns, occupied, aisle, number)
    decreases |columns|
  {
    if i < |columns| - 1 {
      var init := columns[..|columns| - 1];
      assert init[i] == columns[i];
      RowHasSeat(row, init, occupied, aisle, i, number);
    }
  }

  lemma {:induction false} GridHasSeat(start: int, end: int, columns: seq<char>, occupied: seq<string>, aisle: int,
                                       row: int, i: nat, number: (int, char) -> string)
    requires start <= row <= end && i < |columns|
    ensures Seat(number(row, columns[i]), number(row, columns[i]) in occupied) in Grid(start, end, columns, occupied, aisle, number)
    decreases end - start
  {
    var seat := number(row, columns[i]);
    var prev := Grid(start, end - 1, columns, occupied, aisle, number);
    var last := RowCells(end, columns, occupied, aisle, number);
    assert Grid(start, end, columns, occupied, aisle, number) == prev + last;
    if row == end {
      RowHasSeat(row, columns, occupied, aisle, i, number);
      assert Seat(seat, seat in occupied) in last;
    } else {
      GridHasSeat(start, end - 1, columns, occupied, aisle, row, i, number);
      assert Seat(seat, seat in occupied) in prev;
    }
  }

  lemma {:induction false} CountSeatsAppend(a: seq<Cell>, b: seq<Cell>)
    ensures CountSeats(a + b) == CountSeats(a) + CountSeats(b)
    decreases |b|
  {
    if b == [] {
      assert a + b == a;
    } else {
      var b' := b[..|b| - 1];
      assert (a + b)[..|a + b| - 1] == a + b';
      assert (a + b)[|a + b| - 1] == b[|b| - 1];
      CountSeatsAppend(a, b');
    }
  }

  /** A row has one seat per column. */
  lemma {:induction false} RowSeatCount(row: int, columns: seq<char>, occupied: seq<string>, aisle: int,
                                        number: (int, char) -> string)
    ensures CountSeats(RowCells(row, columns, occupied, aisle, number)) == |columns|
    decreases |columns|
  {
    if columns != [] {
      var i := |columns| - 1;
      var seat := number(row, columns[i]);
      var prev := RowCells(row, columns[..i], occupied, aisle, number);
      var spacer := if i == aisle then [Aisle] else [];
      RowStep(row, columns, occupied, aisle, number);
      RowSeatCount(row, columns[..i], occupied, aisle, number);
      CountSeatsAppend(prev, [Seat(seat, seat in occupied)]);
      CountSeatsAppend(prev + [Seat(seat, seat in occupied)], spacer);
      assert CountSeats([Seat(seat, seat in occupied)]) == 1 by {
        assert [Seat(seat, seat in occupied)][..0] == [];
      }
      assert CountSeats(spacer) == 0 by {
        if spacer != [] { assert spacer[..0] == []; }
      }
    }
  }

  /** One step of a row: the cells of the columns before the last, its seat, and the spacer when it is the aisle column. */
  lemma RowStep(row: int, columns: seq<char>, occupied: seq<string>, aisle: int, number: (int, char) -> string)
    requires columns != []
    ensures var i := |columns| - 1; var seat := number(row, columns[i]);
            RowCells(row, columns, occupied, aisle, number)
            == RowCells(row, columns[..i], occupied, aisle, number) + [Seat(seat, seat in occupied)] + (if i == aisle then [Aisle] else [])
  {
  }

  /** A row has one cell per column, and one more when the aisle index names one of them. */
  lemma {:induction false} RowLength(row: int, columns: seq<char>, occupied: seq<string>, aisle: int,
                                     number: (int, char) -> string)
    ensures |RowCells(row, columns, occupied, aisle, number)| == |columns| + (if 0 <= aisle < |columns| then 1 else 0)
    decreases |columns|
  {
    if columns != [] {
      RowStep(row, columns, occupied, aisle, number);
      RowLength(row, columns[..|columns| - 1], occupied, aisle, number);
    }
  }

  /** A row holds a spacer exactly when the aisle index names one of its columns, and then right after that seat. */
  lemma {:induction false} RowAisle(row: int, columns: seq<char>, occupied: seq<string>, aisle: int,
                                    number: (int, char) -> string)
    ensures Aisle in RowCells(row, columns, occupied, aisle, number) <==> 0 <= aisle < |columns|
    ensures 0 <= aisle < |columns| ==> |RowCells(row, columns, occupied, aisle, number)| > aisle + 1
                                       && RowCells(row, columns, occupied, aisle, number)[aisle + 1] == Aisle
    decreases |columns|
  {
    if columns != [] {
      var i := |columns| - 1;
      var prev := RowCells(row, columns[..i], occupied, aisle, number);
      RowStep(row, columns, occupied, aisle, number);
      RowAisle(row, columns[..i], occupied, aisle, number);
      if i == aisle {
        RowLength(row, columns[..i], occupied, aisle, number);
        assert |prev| == i;
      }
    }
  }

  /** One more row adds its columns to the seat count. */
  lemma GridStep(start: int, end: int, columns: seq<char>, occupied: seq<string>, aisle: int, number: (int, char) -> string)
    requires start <= end
    ensures CountSeats(Grid(start, end, columns, occupied, aisle, number)) == CountSeats(Grid(start, end - 1, columns, occupied, aisle, number)) + |columns|
  {
    RowSeatCount(end, columns, occupied, aisle, number);
    CountSeatsAppend(Grid(start, end - 1, columns, occupied, aisle, number), RowCells(end, columns, occupied, aisle, number));
  }

  /** A grid of rows `start..end` holds `(end - start + 1) * |columns|` seats. */
  lemma {:induction false} GridSeatCount(start: int, end: int, columns: seq<char>, occupied: seq<string>, aisle: int,
                                         number: (int, char) -> string)
    requires start <= end
    ensures CountSeats(Grid(start, end, columns, occupied, aisle, number)) == (end - start + 1) * |columns|
    decreases end - start
  {
    GridStep(start, end, columns, occupied, aisle, number);
    if start < end {
      GridSeatCount(start, end - 1, columns, occupied, aisle, number);
      assert (end - start + 1) * |columns| == (end - start) * |columns| + |columns|;
    } else {
      assert Grid(start, end - 1, columns, occupied, aisle, number) == [];
    }
  }

  /** A grid holds spacers exactly when the aisle index names one of its columns. */
  lemma {:induction false} GridAisle(start: int, end: int, columns: seq<char>, occupied: seq<string>, aisle: int,
                                     number: (int, char) -> string)
    requires start <= end
    ensures Aisle in Grid(start, end, columns, occupied, aisle, number) <==> 0 <= aisle < |columns|
    decreases end - start
  {
    RowAisle(end, columns, occupied, aisle, number);
    if start < end {
      GridAisle(start, end - 1, columns, occupied, aisle, number);
    }
  }

  /** A configured class draws the seats its row range and columns describe and no others. */
  lemma ServedLayoutSeats(c: AircraftTypes.ClassLayout, occupied: seq<string>)
    ensures CountSeats(ConfigSeats(Some(Served(c)), occupied)) == AircraftTypes.SeatCount(c)
  {
    match c.rows
    case NoRows =>
      assert ConfigSeats(Some(Served(c)), occupied) == [];
    case RowRange(start, end) =>
      assert AircraftTypes.SeatCount(c) == if end < start then 0 else (end - start + 1) * |c.columns|;
      var l := Served(c);
      assert l.rows == Some([start as int, end as int]);
      if c.columns == [] {
        assert ConfigSeats(Some(l), occupied) == [];
        assert AircraftTypes.SeatCount(c) == 0;
      } else if end < start {
        assert ConfigSeats(Some(l), occupied) == Grid(start, end, c.columns, occupied, ConfigAisle(c.columns), SeatLabel) == [];
      } else {
        var cells := Grid(start, end, c.columns, occupied, ConfigAisle(c.columns), SeatLabel);
        assert ConfigSeats(Some(l), occupied) == cells;
        GridSeatCount(start, end, c.columns, occupied, ConfigAisle(c.columns), SeatLabel);
      }
  }

  /** With six or more columns the aisle follows the third seat of each row, with four the second. */
  lemma ConfiguredAisle(row: int, columns: seq<char>, occupied: seq<string>)
    requires |columns| >= 6 || |columns| == 4
    ensures |columns| >= 6 ==> |RowCells(row, columns, occupied, ConfigAisle(columns), SeatLabel)| > 3 &&
                               RowCells(row, columns, occupied, ConfigAisle(columns), SeatLabel)[3] == Aisle
    ensures |columns| == 4 ==> |RowCells(row, columns, occupied, ConfigAisle(columns), SeatLabel)| > 2 &&
                               RowCells(row, columns, occupied, ConfigAisle(columns), SeatLabel)[2] == Aisle
  {
    RowAisle(row, columns, occupied, ConfigAisle(columns), SeatLabel);
  }

  /** The fallback layout: 8 first-class seats, 24 business, 120 economy; a class of any other name gets
   *  the economy seats without an aisle. */
  lemma DefaultLayoutSeats(travelClass: string, occupied: seq<string>)
    ensures travelClass == "first" ==> CountSeats(DefaultSeats(travelClass, occupied)) == 8
    ensures travelClass == "business" ==> CountSeats(DefaultSeats(travelClass, occupied)) == 24
    ensures travelClass == "economy" ==> CountSeats(DefaultSeats(travelClass, occupied)) == 120
    ensures Aisle in DefaultSeats(travelClass, occupied) <==> travelClass in {"first", "business", "economy"}
  {
    var start := DefaultStart(travelClass);
    var end := start + DefaultRows(travelClass) - 1;
    GridSeatCount(start, end, DefaultColumns(travelClass), occupied, DefaultAisle(travelClass), SeatLabel);
    GridAisle(start, end, DefaultColumns(travelClass), occupied, DefaultAisle(travelClass), SeatLabel);
  }

  /** Every fallback economy seat from row 9 to row 28 and column A to F is drawn. */
  lemma DefaultEconomyCovers(occupied: seq<string>, row: int, i: nat)
    requires 9 <= row <= 28 && i < 6
    ensures var seat := SeatLabel(row, "ABCDEF"[i]);
            Seat(seat, seat in occupied) in DefaultSeats("economy", occupied)
  {
    GridHasSeat(9, 28, ['A', 'B', 'C', 'D', 'E', 'F'], occupied, 2, row, i, SeatLabel);
  }

  /** The page posts the passenger and the booking without a token, and both routers refuse that with 401. */
  lemma PublicSubmissionRefused()
    ensures Routing.Serve(PassengerRoutes.Mounted, Routing.POST, [], None) == Routing.Refused(401)
    ensures Routing.Serve(BookingRoutes.Mounted, Routing.POST, [], None) == Routing.Refused(401)
  {
  }

  /**
   * `loadOccupiedSeats` lists the flight's bookings without a token, so the booking router
   * answers 401 and the error branch redraws with the seat list left as it was: on a fresh page
   * that list is empty and no seat of either layout is drawn as occupied.
   */
  lemma OccupiedSeatsRequestRefused(config: Option<ClientConfig>, travelClass: string)
    ensures Routing.Serve(BookingRoutes.Mounted, Routing.GET, [], None) == Routing.Refused(401)
    ensures forall c :: c in SeatsFor(config, travelClass, []) && c.Seat? ==> !c.taken
  {
    SeatsMarkOccupied(config, travelClass, []);
  }

  /**
   * `loadAircraftConfig` asks `/api/aircraft-types/:type`, but no router is mounted there, so
   * the request always fails and the page keeps `aircraftConfig` null: the fallback layout.
   */
  lemma AircraftConfigNeverServed()
    ensures forall m :: m in Routing.MountPoints ==> m != "aircraft-types"
  {
  }
}
