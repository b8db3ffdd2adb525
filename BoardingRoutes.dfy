/** The boarding router (server/routes/boarding.js), mounted at `/api/boarding`. */
module BoardingRoutes {
  import opened UserModel
  import opened Wrappers
  import opened Routing

  datatype Handler = GetBoardingQueue | GetBoardingStats | AddToQueue
                   | CallPassenger | MarkBoarding | MarkBoarded | RemoveFromQueue

  /** `authorize("admin", "agent", "staff")`. */
  const Desk: set<Role> := {Admin, Agent, Staff}
  /** `authorize("admin", "agent")`. */
  const Supervisors: set<Role> := {Admin, Agent}

  /** The routes in registration order; `router.use(protect)` guards every one of them. */
  const Table: seq<Route<Handler>> := [
    Route(GET, [Lit("flight"), Param("flightId")], Protected(Supervisors), GetBoardingQueue),
    Route(GET, [Lit("flight"), Param("flightId"), Lit("stats")], Protected(Supervisors), GetBoardingStats),
    Route(POST, [Lit("queue")], Protected(Desk), AddToQueue),
    Route(PUT, [Param("id"), Lit("call")], Protected(Supervisors), CallPassenger),
    Route(PUT, [Param("id"), Lit("boarding")], Protected(Supervisors), MarkBoarding),
    Route(PUT, [Param("id"), Lit("boarded")], Protected(Supervisors), MarkBoarded),
    Route(DELETE, [Param("id")], Protected(Supervisors), RemoveFromQueue)]

  /** The router as mounted: `router.use(protect)` runs before any of its routes is matched. */
  const Mounted: Router<Handler> := Router(true, Table)

  /**
   * `router.use(protect)` runs before route matching, so a request without a token is refused
   * with 401 on every path under the mount point, including one that matches no route.
   */
  lemma EveryBoardingRouteProtected(verb: Verb, path: seq<string>)
    ensures AllProtected(Table)
    ensures Serve(Mounted, verb, path, None) == Refused(401)
  {
    UnauthenticatedRefused(Mounted, verb, path);
  }

  /** The queue listing and the stats are for admin and agent only. */
  lemma WhoMayView(role: Role, flightId: string)
    requires flightId != ""
    ensures Serve(Mounted, GET, ["flight", flightId], Some(role)) == Handled(GetBoardingQueue) <==> role in Supervisors
    ensures Serve(Mounted, GET, ["flight", flightId, "stats"], Some(role)) == Handled(GetBoardingStats) <==> role in Supervisors
  {
    HandleAt(Table, 0, GET, ["flight", flightId], Some(role));
    HandleAt(Table, 1, GET, ["flight", flightId, "stats"], Some(role));
  }

  /** Staff may add a passenger to the queue; removing one is for admin and agent only. */
  lemma WhoMayAddAndRemove(role: Role, id: string)
    requires id != ""
    ensures Serve(Mounted, POST, ["queue"], Some(role)) == Handled(AddToQueue) <==> role in Desk
    ensures Serve(Mounted, DELETE, [id], Some(role)) == Handled(RemoveFromQueue) <==> role in Supervisors
  {
    HandleAt(Table, 2, POST, ["queue"], Some(role));
    HandleAt(Table, 6, DELETE, [id], Some(role));
  }

  /** Calling a passenger and marking them boarding are for admin and agent only. */
  lemma WhoMayCall(role: Role, id: string)
    requires id != ""
    ensures Serve(Mounted, PUT, [id, "call"], Some(role)) == Handled(CallPassenger) <==> role in Supervisors
    ensures Serve(Mounted, PUT, [id, "boarding"], Some(role)) == Handled(MarkBoarding) <==> role in Supervisors
  {
    assert !SegmentMatches(Lit("call"), "boarding") by { assert "boarding"[0] != "call"[0]; }
    assert !PathMatches(Table[3].pattern, [id, "boarding"]) by { assert [id, "boarding"][1] == "boarding"; }
    HandleAt(Table, 3, PUT, [id, "call"], Some(role));
    HandleAt(Table, 4, PUT, [id, "boarding"], Some(role));
  }

  /** Marking a passenger boarded is for admin and agent only. */
  lemma WhoMayMarkBoarded(role: Role, id: string)
    requires id != ""
    ensures Serve(Mounted, PUT, [id, "boarded"], Some(role)) == Handled(MarkBoarded) <==> role in Supervisors
  {
    assert !SegmentMatches(Lit("call"), "boarded") by { assert "boarded"[0] != "call"[0]; }
    assert !SegmentMatches(Lit("boarding"), "boarded") by { assert |"boarded"| != |"boarding"|; }
    assert !PathMatches(Table[3].pattern, [id, "boarded"]) by { assert [id, "boarded"][1] == "boarded"; }
    assert !PathMatches(Table[4].pattern, [id, "boarded"]) by { assert [id, "boarded"][1] == "boarded"; }
    HandleAt(Table, 5, PUT, [id, "boarded"], Some(role));
  }
}
