/** The booking router (server/routes/bookings.js), mounted at `/api/bookings`. */
module BookingRoutes {
  import opened UserModel
  import opened Wrappers
  import opened Routing

  datatype Handler = GetBookings | CreateBooking | GetBookingByReference | GetBooking
                   | UpdateBooking | DeleteBooking | CheckInBooking | BoardBooking

  /** `authorize("admin", "agent", "staff")`. */
  const Desk: set<Role> := {Admin, Agent, Staff}
  /** `authorize("admin", "agent")`. */
  const Supervisors: set<Role> := {Admin, Agent}

  /** The routes in registration order; `router.use(protect)` guards every one of them. */
  const Table: seq<Route<Handler>> := [
    Route(GET, [], Protected(Desk), GetBookings),
    Route(POST, [], Protected(Desk), CreateBooking),
    Route(GET, [Lit("reference"), Param("reference")], Protected(Desk), GetBookingByReference),
    Route(GET, [Param("id")], Protected(Desk), GetBooking),
    Route(PUT, [Param("id")], Protected(Desk), UpdateBooking),
    Route(DELETE, [Param("id")], Protected(Supervisors), DeleteBooking),
    Route(PUT, [Param("id"), Lit("checkin")], Protected(Desk), CheckInBooking),
    Route(PUT, [Param("id"), Lit("board")], Protected(Supervisors), BoardBooking)]

  /** The router as mounted: `router.use(protect)` runs before any of its routes is matched. */
  const Mounted: Router<Handler> := Router(true, Table)

  /**
   * `router.use(protect)` runs before route matching, so a request without a token is refused
   * with 401 on every path under the mount point, including one that matches no route.
   */
  lemma EveryBookingRouteProtected(verb: Verb, path: seq<string>)
    ensures AllProtected(Table)
    ensures Serve(Mounted, verb, path, None) == Refused(401)
  {
    UnauthenticatedRefused(Mounted, verb, path);
  }

  /** Listing and creating bookings are open to admin, agent and staff; a passenger gets 403. */
  lemma WhoMayListAndCreate(role: Role)
    ensures Serve(Mounted, GET, [], Some(role)) == Handled(GetBookings) <==> role in Desk
    ensures Serve(Mounted, POST, [], Some(role)) == Handled(CreateBooking) <==> role in Desk
    ensures Serve(Mounted, POST, [], Some(PassengerRole)) == Refused(403)
  {
    HandleAt(Table, 0, GET, [], Some(role));
    HandleAt(Table, 1, POST, [], Some(role));
    HandleAt(Table, 1, POST, [], Some(PassengerRole));
  }

  /** The look-ups and the update are open to admin, agent and staff. */
  lemma WhoMayReadAndUpdate(role: Role, id: string, reference: string)
    requires id != "" && reference != ""
    ensures Serve(Mounted, GET, ["reference", reference], Some(role)) == Handled(GetBookingByReference) <==> role in Desk
    ensures Serve(Mounted, GET, [id], Some(role)) == Handled(GetBooking) <==> role in Desk
    ensures Serve(Mounted, PUT, [id], Some(role)) == Handled(UpdateBooking) <==> role in Desk
  {
    HandleAt(Table, 2, GET, ["reference", reference], Some(role));
    HandleAt(Table, 3, GET, [id], Some(role));
    HandleAt(Table, 4, PUT, [id], Some(role));
  }

  /** Cancelling is for admin and agent only; check-in is also open to staff; boarding is not. */
  lemma WhoMayCancelCheckInAndBoard(role: Role, id: string)
    requires id != ""
    ensures Serve(Mounted, DELETE, [id], Some(role)) == Handled(DeleteBooking) <==> role in Supervisors
    ensures Serve(Mounted, PUT, [id, "checkin"], Some(role)) == Handled(CheckInBooking) <==> role in Desk
    ensures Serve(Mounted, PUT, [id, "board"], Some(role)) == Handled(BoardBooking) <==> role in Supervisors
  {
    HandleAt(Table, 5, DELETE, [id], Some(role));
    HandleAt(Table, 6, PUT, [id, "checkin"], Some(role));
    assert !SegmentMatches(Lit("checkin"), "board") by { assert "board"[0] != "checkin"[0]; }
    assert !PathMatches(Table[6].pattern, [id, "board"]) by { assert [id, "board"][1] == "board"; }
    HandleAt(Table, 7, PUT, [id, "board"], Some(role));
  }
}
