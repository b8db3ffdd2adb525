/**
 * The passenger's "my bookings" page (public/js/my-bookings.js): the search that tries a booking
 * reference and falls back to a passport, the card drawn for each booking, and the edit and
 * cancel requests. The page keeps the bookings it last drew in `currentBookings`.
 */
module MyBookings {
  import opened Wrappers
  import opened Text
  import BookingModel
  import Routing
  import BookingRoutes
  import PassengerRoutes

  /** The fields of a populated booking the page reads. */
  datatype BookingView = BookingView(
    id: string, reference: string, status: string, seatNumber: string, seatClass: string,
    flightNumber: string, origin: string, destination: string, gate: string,
    passengerId: string, passengerName: string)

  /** A server answer: a success whose body may lack the expected field, or an error. */
  datatype Answer<T> = Answered(body: Option<T>) | Failed

  datatype Request =
    | ByReference(reference: string)           // GET /bookings/reference/:reference
    | ByPassport(passport: string)             // GET /passengers/search/passport/:passport
    | BookingsOf(passengerId: string)          // GET /bookings?passengerId=...
    | PutBooking(bookingId: string, body: map<string, string>)
    | PutPassenger(passengerId: string, body: map<string, string>)
    | DeleteBooking(bookingId: string)

  datatype Shown = Bookings(bookings: seq<BookingView>) | NoBookings

  /** A search: refused with an alert before any request, or the requests made and what is shown. */
  datatype Search = EmptyTerm | Searched(requests: seq<Request>, shown: Shown)

  /**
   * `searchBookings` and its callbacks, with the answers each request gets: the trimmed term is
   * looked up as a reference; only when that request fails is it looked up as a passport, and then
   * the passenger's bookings are listed.
   */
  function SearchFlow(input: string, byReference: Answer<BookingView>, byPassport: Answer<string>,
                      ofPassenger: Answer<seq<BookingView>>): Search
  {
    var term := Trim(input);
    if term == "" then EmptyTerm
    else match byReference
      case Answered(Some(b)) => Searched([ByReference(term)], Bookings([b]))
      case Answered(None) => Searched([ByReference(term)], NoBookings)
      case Failed =>
        match byPassport
        case Answered(Some(pid)) =>
          var shown := match ofPassenger
            case Answered(Some(bs)) => if |bs| > 0 then Bookings(bs) else NoBookings
            case _ => NoBookings;
          Searched([ByReference(term), ByPassport(term), BookingsOf(pid)], shown)
        case _ => Searched([ByReference(term), ByPassport(term)], NoBookings)
  }

  /** `getStatusClass`: a class for the four booking statuses, `status-confirmed` for anything else. */
  function StatusClass(status: string): string {
    if status == "checked-in" then "status-checked-in"
    else if status == "boarded" then "status-boarded"
    else if status == "cancelled" then "status-cancelled"
    else "status-confirmed"
  }

  /** `status.replace("-", " ").toUpperCase()`. */
  function StatusText(status: string): string { ToUpper(ReplaceFirst(status, '-', ' ')) }

  datatype Card = Card(bookingId: string, reference: string, statusClass: string, statusText: string,
                       seat: string, seatClass: string, gate: string, editable: bool)

  /** `createBookingCard`: a missing seat reads "Not assigned", a missing gate "TBA"; edit and cancel only while confirmed. */
  function CardOf(b: BookingView): Card {
    Card(b.id, b.reference, StatusClass(b.status), StatusText(b.status),
         if b.seatNumber != "" then b.seatNumber else "Not assigned",
         CapitalizeFirst(b.seatClass),
         if b.gate != "" then b.gate else "TBA",
         b.status == "confirmed")
  }

  /** The edit form's fields. */
  datatype EditForm = EditForm(seat: string, seatClass: string, name: string, email: string, phone: string)

  /** `currentBookings.find(b => b._id === id)`: the first booking with that id. */
  function Find(bookings: seq<BookingView>, id: string): (r: Option<BookingView>)
    ensures r.Some? <==> exists k :: 0 <= k < |bookings| && bookings[k].id == id
    ensures r.Some? ==> r.value in bookings && r.value.id == id
  {
    if bookings == [] then None
    else if bookings[0].id == id then Some(bookings[0])
    else
      var r := Find(bookings[1..], id);
      assert forall k :: 1 <= k < |bookings| ==> bookings[k] == bookings[1..][k - 1];
      r
  }

  class MyBookingsPage {
    var currentBookings: seq<BookingView>

    constructor ()
      ensures currentBookings == []
    {
      currentBookings := [];
    }

    /** `displayBookings`: keep the bookings and draw one card each, in order. */
    method DisplayBookings(bookings: seq<BookingView>) returns (cards: seq<Card>)
      modifies this
      ensures currentBookings == bookings
      ensures |cards| == |bookings| && forall k :: 0 <= k < |bookings| ==> cards[k] == CardOf(bookings[k])
    {
      currentBookings := bookings;
      cards := DrawCards(bookings);
    }

    /**
     * `updateBooking`: for a booking on the page, the seat (trimmed) and class go to the booking,
     * and only once that succeeds the trimmed name, email and phone go to its passenger.
     */
    method UpdateBooking(bookingId: string, form: EditForm, bookingUpdated: bool) returns (requests: seq<Request>)
      ensures Find(currentBookings, bookingId).None? ==> requests == []
      ensures Find(currentBookings, bookingId).Some? ==>
                |requests| == (if bookingUpdated then 2 else 1)
                && requests[0] == PutBooking(bookingId, map["seatNumber" := Trim(form.seat), "class" := form.seatClass])
                && (bookingUpdated ==> requests[1] == PutPassenger(Find(currentBookings, bookingId).value.passengerId,
                      map["name" := Trim(form.name), "email" := Trim(form.email), "phone" := Trim(form.phone)]))
    {
      var booking := Find(currentBookings, bookingId);
      if booking.None? {
        return [];
      }
      var updatedBooking := map["seatNumber" := Trim(form.seat), "class" := form.seatClass];
      var updatedPassenger := map["name" := Trim(form.name), "email" := Trim(form.email), "phone" := Trim(form.phone)];
      requests := [PutBooking(bookingId, updatedBooking)];
      if bookingUpdated {
        requests := requests + [PutPassenger(booking.value.passengerId, updatedPassenger)];
      }
    }
  }

  /** The `forEach` that appends one card per booking. */
  method DrawCards(bookings: seq<BookingView>) returns (cards: seq<Card>)
    ensures |cards| == |bookings| && forall k :: 0 <= k < |bookings| ==> cards[k] == CardOf(bookings[k])
  {
    cards := [];
    for k := 0 to |bookings|
      invariant |cards| == k && forall j :: 0 <= j < k ==> cards[j] == CardOf(bookings[j])
    {
      cards := cards + [CardOf(bookings[k])];
    }
  }

  /** `cancelBooking`: the delete is sent only when the visitor confirms. */
  function CancelBooking(bookingId: string, confirmed: bool): (r: Option<Request>)
    ensures r.Some? <==> confirmed
    ensures r.Some? ==> r.value == DeleteBooking(bookingId)
  {
    if confirmed then Some(DeleteBooking(bookingId)) else None
  }

  // ---------------------------------------------------------------------------------------------

  /** An empty or blank term sends nothing; any other term is first looked up as a reference. */
  lemma SearchStartsWithReference(input: string, r: Answer<BookingView>, p: Answer<string>, o: Answer<seq<BookingView>>)
    ensures SearchFlow(input, r, p, o).EmptyTerm? <==> Trim(input) == ""
    ensures SearchFlow(input, r, p, o).Searched? ==> SearchFlow(input, r, p, o).requests[0] == ByReference(Trim(input))
  {
    var s := SearchFlow(input, r, p, o);
    if Trim(input) != "" {
      assert s.Searched? && |s.requests| >= 1 && s.requests[0] == ByReference(Trim(input)) by {
        if r.Failed? {
          if p.Answered? && p.body.Some? {
            assert s.requests == [ByReference(Trim(input)), ByPassport(Trim(input)), BookingsOf(p.body.value)];
          } else {
            assert s.requests == [ByReference(Trim(input)), ByPassport(Trim(input))];
          }
        }
      }
    }
  }

  /** The passport lookup is made exactly when the reference lookup failed; a found reference shows that one booking. */
  lemma PassportOnlyAfterFailure(input: string, r: Answer<BookingView>, p: Answer<string>, o: Answer<seq<BookingView>>)
    requires Trim(input) != ""
    ensures var s := SearchFlow(input, r, p, o);
            ByPassport(Trim(input)) in s.requests <==> r.Failed?
    ensures r.Answered? && r.body.Some? ==> SearchFlow(input, r, p, o) == Searched([ByReference(Trim(input))], Bookings([r.body.value]))
  {
    var s := SearchFlow(input, r, p, o);
    if r.Answered? {
      assert s.requests == [ByReference(Trim(input))];
    }
  }

  /** The bookings of a passenger are listed only for a passenger found by passport, and shown only when there are some. */
  lemma BookingsListedForFoundPassenger(input: string, r: Answer<BookingView>, p: Answer<string>, o: Answer<seq<BookingView>>)
    requires Trim(input) != "" && r.Failed?
    ensures var s := SearchFlow(input, r, p, o);
            (|s.requests| == 3 <==> p.Answered? && p.body.Some?)
            && (s.shown.Bookings? ==> o.Answered? && o.body.Some? && s.shown.bookings == o.body.value && |o.body.value| > 0)
  {
  }

  /**
   * The page sends no token, and both lookups sit behind authentication, so each is refused
   * with 401 and a search by a visitor ends with no bookings shown.
   */
  lemma VisitorSearchFindsNothing(input: string, o: Answer<seq<BookingView>>)
    requires Trim(input) != ""
    ensures Routing.Serve(BookingRoutes.Mounted, Routing.GET, ["reference", Trim(input)], None) == Routing.Refused(401)
    ensures Routing.Serve(PassengerRoutes.Mounted, Routing.GET, ["search", "passport", Trim(input)], None) == Routing.Refused(401)
    ensures SearchFlow(input, Failed, Failed, o) == Searched([ByReference(Trim(input)), ByPassport(Trim(input))], NoBookings)
  {
    ReferenceLookupRefused(Trim(input));
    PassportLookupRefused(Trim(input));
  }

  lemma ReferenceLookupRefused(term: string)
    ensures Routing.Serve(BookingRoutes.Mounted, Routing.GET, ["reference", term], None) == Routing.Refused(401)
  {
  }

  lemma PassportLookupRefused(term: string)
    ensures Routing.Serve(PassengerRoutes.Mounted, Routing.GET, ["search", "passport", term], None) == Routing.Refused(401)
  {
  }

  /** "checked-in" reads "CHECKED IN": only its hyphen becomes a space. */
  lemma CheckedInShown()
    ensures StatusText(BookingModel.StatusName(BookingModel.CheckedIn)) == "CHECKED IN"
  {
    HyphenReplaced();
    SpacedUpper();
  }

  lemma HyphenReplaced()
    ensures ReplaceFirst("checked-in", '-', ' ') == "checked in"
  {
    assert "checked-in" == "checked" + ['-'] + "in";
    ReplaceFirstAfter("checked", "in", '-', ' ');
    assert "checked" + [' '] + "in" == "checked in";
  }

  lemma SpacedUpper()
    ensures ToUpper("checked in") == "CHECKED IN"
  {
    var t := "checked in";
    forall i | 0 <= i < |t|
      ensures ToUpper(t)[i] == "CHECKED IN"[i]
    {
      assert t[i] == ' ' || IsLowerLetter(t[i]);
    }
  }

  /** The other statuses have no hyphen and read upper-cased. */
  lemma OtherStatusesShown(s: BookingModel.BookingStatus)
    requires s != BookingModel.CheckedIn
    ensures StatusText(BookingModel.StatusName(s)) == ToUpper(BookingModel.StatusName(s))
  {
    assert '-' !in BookingModel.StatusName(s);
  }

  /** Each of the four statuses has its own class, and any other status is shown as confirmed. */
  lemma StatusClassShown(s: BookingModel.BookingStatus, other: string)
    requires other !in {"confirmed", "checked-in", "boarded", "cancelled"}
    ensures StatusClass(BookingModel.StatusName(s)) == "status-" + BookingModel.StatusName(s)
    ensures StatusClass(other) == "status-confirmed"
  {
  }

  /** A card shows "Not assigned" for a missing seat and "TBA" for a missing gate, and offers edit and cancel only while confirmed. */
  lemma CardRules(b: BookingView)
    ensures CardOf(b).seat == (if b.seatNumber == "" then "Not assigned" else b.seatNumber)
    ensures CardOf(b).gate == (if b.gate == "" then "TBA" else b.gate)
    ensures CardOf(b).editable <==> b.status == BookingModel.StatusName(BookingModel.Confirmed)
    ensures CardOf(b).seatClass == CapitalizeFirst(b.seatClass)
  {
  }

  /** `capitalizeFirst` upper-cases the first character alone: "economy" reads "Economy". */
  lemma CapitalizeFirstShown(s: string)
    ensures CapitalizeFirst("economy") == "Economy" && CapitalizeFirst("business") == "Business"
    ensures CapitalizeFirst("") == ""
    ensures s != "" ==> CapitalizeFirst(s)[1..] == s[1..] && CapitalizeFirst(CapitalizeFirst(s)) == CapitalizeFirst(s)
  {
    if s != "" {
      var c := CapitalizeFirst(s);
      assert c[0] == UpperChar(s[0]) && UpperChar(c[0]) == c[0];
      assert CapitalizeFirst(c) == [UpperChar(c[0])] + c[1..];
      assert c == [c[0]] + c[1..];
    }
  }
}
