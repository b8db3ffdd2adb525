/**
 * The flight management page (public/js/flights.js): the form check before a create or an update,
 * the pager's state and buttons, the query of each listing request, the status badge and the
 * value written into a date-time input.
 */
module FlightsPage {
  import opened Wrappers
  import opened Text

  /**
   * The fields of the create and edit forms that the check reads. The two times are the raw input
   * text and the instant it parses to (None for an invalid date); `economy` is `parseInt` of the
   * capacity field, None when that is NaN.
   */
  datatype FlightForm = FlightForm(
    flightNumber: string, airline: string, origin: string, destination: string,
    departureTime: string, arrivalTime: string, gate: string,
    departureAt: Option<int>, arrivalAt: Option<int>,
    economy: Option<int>)

  const MissingFields := "Please fill in all required fields"
  const CapacityTooSmall := "Capacity must be at least 1"
  const ArrivalNotAfterDeparture := "Arrival time must be after departure time"

  predicate AllFilled(d: FlightForm) {
    d.flightNumber != "" && d.airline != "" && d.origin != "" && d.destination != ""
    && d.departureTime != "" && d.arrivalTime != "" && d.gate != ""
  }

  /** `validateFlightData`: required fields, then capacity, then the order of the two times; the error is the message shown. */
  function ValidateFlightData(d: FlightForm): (r: Result<(), string>)
    ensures r.Ok? <==> AllFilled(d) && !(d.economy.Some? && d.economy.value < 1)
                       && !(d.departureAt.Some? && d.arrivalAt.Some? && d.arrivalAt.value <= d.departureAt.value)
    ensures !AllFilled(d) ==> r == Err(MissingFields)
    ensures AllFilled(d) && d.economy.Some? && d.economy.value < 1 ==> r == Err(CapacityTooSmall)
  {
    if !AllFilled(d) then Err(MissingFields)
    // `NaN < 1` is false, so an unparsable capacity passes
    else if d.economy.Some? && d.economy.value < 1 then Err(CapacityTooSmall)
    // comparisons with an invalid date are false, so an unparsable time passes
    else if d.departureAt.Some? && d.arrivalAt.Some? && d.arrivalAt.value <= d.departureAt.value then Err(ArrivalNotAfterDeparture)
    else Ok(())
  }

  /** An accepted form with two valid times has the arrival strictly after the departure. */
  lemma AcceptedTimesOrdered(d: FlightForm)
    requires ValidateFlightData(d).Ok? && d.departureAt.Some? && d.arrivalAt.Some?
    ensures d.arrivalAt.value > d.departureAt.value
  {
  }

  /** An empty capacity field parses to NaN and passes the capacity check. */
  lemma UnparsableCapacityPasses(d: FlightForm)
    requires AllFilled(d) && d.economy.None? && d.departureAt.None?
    ensures ValidateFlightData(d) == Ok(())
  {
  }

  // ---------------------------------------------------------------------------------------------
  // The pager

  /** The page after a click on Prev: one back, but never below 1. */
  function AfterPrev(page: int): int { if page > 1 then page - 1 else page }

  /** The page after a click on Next: one on, but never past the last page. */
  function AfterNext(page: int, pages: int): int { if page < pages then page + 1 else page }

  predicate PrevDisabled(page: int) { page <= 1 }
  predicate NextDisabled(page: int, pages: int) { page >= pages }

  /** The pages a listing can show: 1 up to the last page, or page 1 of an empty listing. */
  predicate InRange(page: int, pages: int) { 1 <= page && (page <= pages || page == 1) }

  /** A click moves the page exactly when its button is enabled. */
  lemma ButtonsMatchMoves(page: int, pages: int)
    ensures AfterPrev(page) != page <==> !PrevDisabled(page)
    ensures AfterNext(page, pages) != page <==> !NextDisabled(page, pages)
    ensures !PrevDisabled(page) ==> AfterPrev(page) == page - 1
    ensures !NextDisabled(page, pages) ==> AfterNext(page, pages) == page + 1
  {
  }

  /** Prev and Next keep the page within range. */
  lemma NavigationStaysInRange(page: int, pages: int)
    requires InRange(page, pages)
    ensures InRange(AfterPrev(page), pages) && InRange(AfterNext(page, pages), pages)
  {
  }

  /** The query of a listing request: `search` only for a non-empty search text, `status` only when the filter is not "all". */
  datatype Params = Params(page: int, limit: int, search: Option<string>, status: Option<string>)

  function ParamsOf(page: int, filter: string, query: string): (p: Params)
    ensures p.page == page && p.limit == 10
    ensures p.search.Some? <==> query != ""
    ensures p.search.Some? ==> p.search.value == query
    ensures p.status.Some? <==> filter != "all"
    ensures p.status.Some? ==> p.status.value == filter
  {
    Params(page, 10, if query != "" then Some(query) else None, if filter != "all" then Some(filter) else None)
  }

  class FlightsPage {
    var currentPage: int
    var totalPages: int
    var currentFilter: string
    var searchQuery: string

    constructor ()
      ensures currentPage == 1 && totalPages == 1 && currentFilter == "all" && searchQuery == ""
    {
      currentPage := 1;
      totalPages := 1;
      currentFilter := "all";
      searchQuery := "";
    }

    /** A search keystroke once the debounce fires: keep the trimmed text, back to page 1, reload. */
    method SearchKeyUp(text: string) returns (request: Params)
      modifies this
      ensures searchQuery == Trim(text) && currentPage == 1
      ensures currentFilter == old(currentFilter) && totalPages == old(totalPages)
      ensures request == ParamsOf(1, currentFilter, Trim(text))
    {
      searchQuery := Trim(text);
      currentPage := 1;
      request := LoadFlights();
    }

    /** A filter button: keep its status, back to page 1, reload. */
    method FilterClick(status: string) returns (request: Params)
      modifies this
      ensures currentFilter == status && currentPage == 1
      ensures searchQuery == old(searchQuery) && totalPages == old(totalPages)
      ensures request == ParamsOf(1, status, searchQuery)
    {
      currentFilter := status;
      currentPage := 1;
      request := LoadFlights();
    }

    /** Prev: when past the first page, go one back and reload; otherwise nothing. */
    method PrevClick() returns (request: Option<Params>)
      modifies this
      ensures currentPage == AfterPrev(old(currentPage))
      ensures request.Some? <==> old(currentPage) > 1
      ensures request.Some? ==> request.value == ParamsOf(currentPage, currentFilter, searchQuery)
      ensures totalPages == old(totalPages) && currentFilter == old(currentFilter) && searchQuery == old(searchQuery)
    {
      request := None;
      if currentPage > 1 {
        currentPage := currentPage - 1;
        var p := LoadFlights();
        request := Some(p);
      }
    }

    /** Next: when before the last page, go one on and reload; otherwise nothing. */
    method NextClick() returns (request: Option<Params>)
      modifies this
      ensures currentPage == AfterNext(old(currentPage), old(totalPages))
      ensures request.Some? <==> old(currentPage) < old(totalPages)
      ensures request.Some? ==> request.value == ParamsOf(currentPage, currentFilter, searchQuery)
      ensures totalPages == old(totalPages) && currentFilter == old(currentFilter) && searchQuery == old(searchQuery)
    {
      request := None;
      if currentPage < totalPages {
        currentPage := currentPage + 1;
        var p := LoadFlights();
        request := Some(p);
      }
    }

    /** The request `loadFlights` sends for the current state. */
    method LoadFlights() returns (request: Params)
      ensures request == ParamsOf(currentPage, currentFilter, searchQuery)
    {
      request := Params(currentPage, 10, None, None);
      if searchQuery != "" {
        request := request.(search := Some(searchQuery));
      }
      if currentFilter != "all" {
        request := request.(status := Some(currentFilter));
      }
    }

    /** `updatePagination` with the server's page and page count: store both and set the two buttons. */
    method UpdatePagination(page: int, pages: int) returns (prevDisabled: bool, nextDisabled: bool)
      modifies this
      ensures currentPage == page && totalPages == pages
      ensures prevDisabled == PrevDisabled(page) && nextDisabled == NextDisabled(page, pages)
      ensures currentFilter == old(currentFilter) && searchQuery == old(searchQuery)
    {
      currentPage := page;
      totalPages := pages;
      prevDisabled := currentPage <= 1;
      nextDisabled := currentPage >= totalPages;
    }
  }

  // ---------------------------------------------------------------------------------------------
  // Display helpers

  /** `getStatusBadge`: the class of a known status, `status-scheduled` for any other. */
  function StatusBadgeClass(status: string): (c: string)
    ensures status in {"scheduled", "boarding", "departed", "delayed", "cancelled"} ==> c == "status-" + status
    ensures status !in {"scheduled", "boarding", "departed", "delayed", "cancelled"} ==> c == "status-scheduled"
  {
    if status == "scheduled" then "status-scheduled"
    else if status == "boarding" then "status-boarding"
    else if status == "departed" then "status-departed"
    else if status == "delayed" then "status-delayed"
    else if status == "cancelled" then "status-cancelled"
    else "status-scheduled"
  }

  /**
   * `formatDateForInput` on the local date components (`getMonth()` is 0-based):
   * `YYYY-MM-DDTHH:MM` with month, day, hour and minute padded to two digits.
   */
  function FormatDateForInput(year: nat, month0: nat, day: nat, hours: nat, minutes: nat): string {
    NatToDecimal(year) + "-" + PadTwo(month0 + 1) + "-" + PadTwo(day) + "T" + PadTwo(hours) + ":" + PadTwo(minutes)
  }

  /** For a four-digit year, the value has the input's fixed layout and each field reads back as the component. */
  lemma FormatDateForInputLayout(year: nat, month0: nat, day: nat, hours: nat, minutes: nat)
    requires 1000 <= year <= 9999 && month0 < 12 && 1 <= day <= 31 && hours < 24 && minutes < 60
    ensures var s := FormatDateForInput(year, month0, day, hours, minutes);
            |s| == 16 && s[4] == '-' && s[7] == '-' && s[10] == 'T' && s[13] == ':'
            && AllDigits(s[..4]) && DecimalValue(s[..4]) == year
            && AllDigits(s[5..7]) && DecimalValue(s[5..7]) == month0 + 1
            && AllDigits(s[8..10]) && DecimalValue(s[8..10]) == day
            && AllDigits(s[11..13]) && DecimalValue(s[11..13]) == hours
            && AllDigits(s[14..16]) && DecimalValue(s[14..16]) == minutes
  {
    var y := NatToDecimal(year);
    FourDigits(year);
    DecimalRoundTrip(year);
    InputFields(y, PadTwo(month0 + 1), PadTwo(day), PadTwo(hours), PadTwo(minutes));
  }

  /** Where the five fields sit in `Y-MM-DDTHH:MM` for a four-character year and two-character fields. */
  lemma InputFields(y: string, mo: string, d: string, h: string, mi: string)
    requires |y| == 4 && |mo| == 2 && |d| == 2 && |h| == 2 && |mi| == 2
    ensures var s := y + "-" + mo + "-" + d + "T" + h + ":" + mi;
            |s| == 16 && s[4] == '-' && s[7] == '-' && s[10] == 'T' && s[13] == ':'
            && s[..4] == y && s[5..7] == mo && s[8..10] == d && s[11..13] == h && s[14..16] == mi
  {
  }

  lemma FourDigits(n: nat)
    requires 1000 <= n <= 9999
    ensures |NatToDecimal(n)| == 4
  {
    assert NatToDecimal(n) == NatToDecimal(n / 10) + [DigitChar(n % 10)];
    assert NatToDecimal(n / 10) == NatToDecimal(n / 100) + [DigitChar(n / 10 % 10)];
    assert NatToDecimal(n / 100) == NatToDecimal(n / 1000) + [DigitChar(n / 100 % 10)];
  }
}
