/** The flight router (server/routes/flights.js), mounted at `/api/flights`. */
module FlightRoutes {
  import opened UserModel
  import opened Wrappers
  import opened Routing

  datatype Handler = GetFlights | GetFlight | CreateFlight | UpdateFlight | DeleteFlight | UpdateFlightStatus

  /** The routes in registration order: the two reads are public, the writes run `protect` then `authorize`. */
  const Table: seq<Route<Handler>> := [
    Route(GET, [], Public, GetFlights),
    Route(GET, [Param("id")], Public, GetFlight),
    Route(POST, [], Protected({Admin}), CreateFlight),
    Route(PUT, [Param("id")], Protected({Admin}), UpdateFlight),
    Route(DELETE, [Param("id")], Protected({Admin}), DeleteFlight),
    Route(PATCH, [Param("id"), Lit("status")], Protected({Admin, Agent}), UpdateFlightStatus)]

  /** The router as mounted: no router-level `protect`, only the guards of the write routes. */
  const Mounted: Router<Handler> := Router(false, Table)

  /** Anyone, with or without a token, may list flights and read one. */
  lemma ReadsArePublic(caller: Option<Role>, id: string)
    requires id != ""
    ensures Serve(Mounted, GET, [], caller) == Handled(GetFlights)
    ensures Serve(Mounted, GET, [id], caller) == Handled(GetFlight)
  {
    HandleAt(Table, 0, GET, [], caller);
    HandleAt(Table, 1, GET, [id], caller);
  }

  /** Creating and updating a flight are for admin only. */
  lemma WhoMayCreateAndUpdate(role: Role, id: string)
    requires id != ""
    ensures Serve(Mounted, POST, [], Some(role)) == Handled(CreateFlight) <==> role == Admin
    ensures Serve(Mounted, PUT, [id], Some(role)) == Handled(UpdateFlight) <==> role == Admin
  {
    HandleAt(Table, 2, POST, [], Some(role));
    HandleAt(Table, 3, PUT, [id], Some(role));
  }

  /** Deleting a flight is for admin only; the status patch is also open to agent. */
  lemma WhoMayDeleteAndPatch(role: Role, id: string)
    requires id != ""
    ensures Serve(Mounted, DELETE, [id], Some(role)) == Handled(DeleteFlight) <==> role == Admin
    ensures Serve(Mounted, PATCH, [id, "status"], Some(role)) == Handled(UpdateFlightStatus) <==> role in {Admin, Agent}
  {
    HandleAt(Table, 4, DELETE, [id], Some(role));
    HandleAt(Table, 5, PATCH, [id, "status"], Some(role));
  }

  /** Authentication comes first: a write without a token is refused with 401, never 403. */
  lemma WritesAuthenticateFirst(verb: Verb, path: seq<string>)
    requires verb != GET
    ensures Serve(Mounted, verb, path, None) == NoRoute || Serve(Mounted, verb, path, None) == Refused(401)
  {
  }
}
