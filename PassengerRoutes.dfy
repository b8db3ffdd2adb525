/** The passenger router (server/routes/passengers.js), mounted at `/api/passengers`. */
module PassengerRoutes {
  import opened UserModel
  import opened Wrappers
  import opened Routing

  datatype Handler = GetPassengers | CreatePassenger | SearchByPassport
                   | GetPassenger | UpdatePassenger | DeletePassenger

  /** `authorize("admin", "agent", "staff")`. */
  const Desk: set<Role> := {Admin, Agent, Staff}

  /** The routes in registration order; `router.use(protect)` guards every one of them. */
  const Table: seq<Route<Handler>> := [
    Route(GET, [], Protected(Desk), GetPassengers),
    Route(POST, [], Protected(Desk), CreatePassenger),
    Route(GET, [Lit("search"), Lit("passport"), Param("passportNumber")], Protected(Desk), SearchByPassport),
    Route(GET, [Param("id")], Protected(Desk), GetPassenger),
    Route(PUT, [Param("id")], Protected(Desk), UpdatePassenger),
    Route(DELETE, [Param("id")], Protected({Admin}), DeletePassenger)]

  /** The router as mounted: `router.use(protect)` runs before any of its routes is matched. */
  const Mounted: Router<Handler> := Router(true, Table)

  /**
   * `router.use(protect)` runs before route matching, so a request without a token is refused
   * with 401 on every path under the mount point, including one that matches no route.
   */
  lemma EveryPassengerRouteProtected(verb: Verb, path: seq<string>)
    ensures AllProtected(Table)
    ensures Serve(Mounted, verb, path, None) == Refused(401)
  {
    UnauthenticatedRefused(Mounted, verb, path);
  }

  /** The passport search path reaches the search handler, registered before the `/:id` look-up. */
  lemma PassportSearchRouted(role: Role, passport: string)
    requires passport != ""
    ensures Dispatch(Table, GET, ["search", "passport", passport]) == Some(2)
    ensures Serve(Mounted, GET, ["search", "passport", passport], Some(role)) == Handled(SearchByPassport) <==> role in Desk
  {
    HandleAt(Table, 2, GET, ["search", "passport", passport], Some(role));
  }

  /** Listing and creating passengers are open to admin, agent and staff. */
  lemma WhoMayListAndCreate(role: Role)
    ensures Serve(Mounted, GET, [], Some(role)) == Handled(GetPassengers) <==> role in Desk
    ensures Serve(Mounted, POST, [], Some(role)) == Handled(CreatePassenger) <==> role in Desk
  {
    HandleAt(Table, 0, GET, [], Some(role));
    HandleAt(Table, 1, POST, [], Some(role));
  }

  /** Reading and updating one passenger are open to admin, agent and staff; deleting to admin only. */
  lemma WhoMayManage(role: Role, id: string)
    requires id != ""
    ensures Serve(Mounted, GET, [id], Some(role)) == Handled(GetPassenger) <==> role in Desk
    ensures Serve(Mounted, PUT, [id], Some(role)) == Handled(UpdatePassenger) <==> role in Desk
    ensures Serve(Mounted, DELETE, [id], Some(role)) == Handled(DeletePassenger) <==> role == Admin
  {
    HandleAt(Table, 3, GET, [id], Some(role));
    HandleAt(Table, 4, PUT, [id], Some(role));
    HandleAt(Table, 5, DELETE, [id], Some(role));
  }
}
