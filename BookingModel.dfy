/** The Booking schema (server/models/Booking.js). */
module BookingModel {
  import opened Wrappers
  import opened Ids
  import Text

  /** The `class` enum. */
  datatype SeatClass = Economy | Business | First

  function SeatClassName(c: SeatClass): string {
    match c
    case Economy => "economy"
    case Business => "business"
    case First => "first"
  }

  /** Schema validation of a `class` string: exactly the three enum names are accepted. */
  function ParseSeatClass(s: string): (r: Option<SeatClass>)
    ensures forall c :: r == Some(c) <==> SeatClassName(c) == s
  {
    if s == "economy" then Some(Economy)
    else if s == "business" then Some(Business)
    else if s == "first" then Some(First)
    else None
  }

  /** The `status` enum; a new booking defaults to Confirmed. */
  datatype BookingStatus = Confirmed | CheckedIn | Boarded | Cancelled

  const DefaultStatus: BookingStatus := Confirmed

  function StatusName(s: BookingStatus): string {
    match s
    case Confirmed => "confirmed"
    case CheckedIn => "checked-in"
    case Boarded => "boarded"
    case Cancelled => "cancelled"
  }

  /** Schema validation of a `status` string. */
  function ParseStatus(s: string): (r: Option<BookingStatus>)
    ensures forall st :: r == Some(st) <==> StatusName(st) == s
  {
    if s == "confirmed" then Some(Confirmed)
    else if s == "checked-in" then Some(CheckedIn)
    else if s == "boarded" then Some(Boarded)
    else if s == "cancelled" then Some(Cancelled)
    else None
  }

  /**
   * The statuses the controllers treat as holding a seat and a unit of capacity
   * (`status: { $in: ["confirmed", "checked-in", "boarded"] }`).
   */
  predicate HoldsSeat(s: BookingStatus) {
    s == Confirmed || s == CheckedIn || s == Boarded
  }

  lemma HoldsSeatIffNotCancelled(s: BookingStatus)
    ensures HoldsSeat(s) <==> s != Cancelled
  {
  }

  /** One baggage sub-document; both fields are optional. */
  datatype BaggageItem = BaggageItem(weight: Option<int>, kind: Option<string>)

  /**
   * A stored booking (`createdAt` comes from the schema's timestamps). `seatNumber` is optional; the empty string stands for "no seat",
   * which every reader of the field treats alike (it is falsy in JavaScript).
   */
  datatype Booking = Booking(
    reference: string,
    flightId: Id,
    passengerId: Id,
    seatNumber: string,
    seatClass: SeatClass,
    status: BookingStatus,
    baggage: seq<BaggageItem>,
    checkInTime: Option<Time>,
    boardingTime: Option<Time>,
    createdAt: Time)

  /** `bookingReference` is required and stored upper-cased. */
  predicate WellFormed(b: Booking) {
    b.reference != "" && Text.ToUpper(b.reference) == b.reference
  }

  /** The unique index on `bookingReference`. */
  predicate ReferencesUnique(bookings: map<Id, Booking>) {
    forall i, j :: i in bookings && j in bookings && i != j ==> bookings[i].reference != bookings[j].reference
  }
}
