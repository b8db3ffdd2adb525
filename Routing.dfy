/**
 * How the route tables are read: a router-level `router.use(protect)` runs first for every
 * request under its mount point; then Express dispatches the request to the first registered route
 * whose verb and path pattern match; a protected route first runs `protect`, which refuses a
 * request without a valid token (401), then `authorize(...roles)`, which refuses a caller whose
 * role is not listed (403). The middleware file itself (server/middleware/auth.js) is not part
 * of this model; only this order and these two outcomes are.
 */
module Routing {
  import opened Wrappers
  import opened UserModel

  /** The prefixes under `/api` at which the server mounts a router, in mounting order. */
  const MountPoints: seq<string> := ["auth", "flights", "passengers", "bookings", "boarding"]

  datatype Verb = GET | POST | PUT | DELETE | PATCH

  /** A path pattern segment: a literal, or a `:param` that matches any non-empty segment. */
  datatype Segment = Lit(text: string) | Param(name: string)

  /** A route's middleware: none, or `protect` followed by `authorize(...allowed)`. */
  datatype Guard = Public | Protected(allowed: set<Role>)

  datatype Route<H> = Route(verb: Verb, pattern: seq<Segment>, guard: Guard, handler: H)

  predicate SegmentMatches(s: Segment, part: string) {
    match s
    case Lit(text) => part == text
    case Param(_) => part != ""
  }

  predicate PathMatches(pattern: seq<Segment>, path: seq<string>) {
    |pattern| == |path| && forall i :: 0 <= i < |path| ==> SegmentMatches(pattern[i], path[i])
  }

  predicate RouteMatches<H>(r: Route<H>, verb: Verb, path: seq<string>) {
    r.verb == verb && PathMatches(r.pattern, path)
  }

  /** The index of the first route, in registration order, that matches the request. */
  function Dispatch<H>(routes: seq<Route<H>>, verb: Verb, path: seq<string>): (r: Option<nat>)
    ensures r.Some? ==> r.value < |routes| && RouteMatches(routes[r.value], verb, path)
                        && forall k :: 0 <= k < r.value ==> !RouteMatches(routes[k], verb, path)
    ensures r.None? ==> forall k :: 0 <= k < |routes| ==> !RouteMatches(routes[k], verb, path)
  {
    if routes == [] then None
    else if RouteMatches(routes[0], verb, path) then Some(0)
    else
      match Dispatch(routes[1..], verb, path)
      case None => None
      case Some(k) => Some(k + 1)
  }

  /** What happens to a request: no route (404), refused by the middleware, or passed to a handler. */
  datatype Outcome<H> = NoRoute | Refused(status: int) | Handled(handler: H)

  /** The middleware's decision for a caller; None is a request without a valid token. */
  function Admit<H>(guard: Guard, caller: Option<Role>, handler: H): (o: Outcome<H>)
    ensures o == Handled(handler) <==> guard.Public? || (caller.Some? && caller.value in guard.allowed)
    ensures guard.Protected? && caller.None? ==> o == Refused(401)
    ensures guard.Protected? && caller.Some? && caller.value !in guard.allowed ==> o == Refused(403)
  {
    match guard
    case Public => Handled(handler)
    case Protected(allowed) =>
      if caller.None? then Refused(401)
      else if caller.value !in allowed then Refused(403)
      else Handled(handler)
  }

  /** A request through a router: dispatch, then the matched route's middleware. */
  function Handle<H>(routes: seq<Route<H>>, verb: Verb, path: seq<string>, caller: Option<Role>): Outcome<H> {
    match Dispatch(routes, verb, path)
    case None => NoRoute
    case Some(k) => Admit(routes[k].guard, caller, routes[k].handler)
  }

  /** Every route of the table is protected. */
  predicate AllProtected<H>(routes: seq<Route<H>>) {
    forall k :: 0 <= k < |routes| ==> routes[k].guard.Protected?
  }

  /**
   * A mounted router: `protectAll` is a `router.use(protect)` registered before its routes,
   * which runs for every request under the mount point, whether or not a route matches it.
   */
  datatype Router<H> = Router(protectAll: bool, routes: seq<Route<H>>)

  /** A request through a mounted router: the router-level `protect`, then dispatch and the route's middleware. */
  function Serve<H>(r: Router<H>, verb: Verb, path: seq<string>, caller: Option<Role>): (o: Outcome<H>)
    ensures caller.Some? ==> o == Handle(r.routes, verb, path, caller)
  {
    if r.protectAll && caller.None? then Refused(401) else Handle(r.routes, verb, path, caller)
  }

  /**
   * A request without a token: behind a router-level `protect` it gets 401 whatever its path;
   * behind per-route guards alone it never reaches a protected route's handler, and a path that
   * matches no route is not found.
   */
  lemma UnauthenticatedRefused<H>(r: Router<H>, verb: Verb, path: seq<string>)
    ensures r.protectAll ==> Serve(r, verb, path, None) == Refused(401)
    ensures !r.protectAll && Dispatch(r.routes, verb, path).None? ==> Serve(r, verb, path, None) == NoRoute
    ensures !r.protectAll && AllProtected(r.routes) ==>
              Serve(r, verb, path, None) == NoRoute || Serve(r, verb, path, None) == Refused(401)
  {
  }

  /** The handler a caller with role `role` reaches for a request that the route at `k` is the first to match. */
  lemma HandleAt<H>(routes: seq<Route<H>>, k: nat, verb: Verb, path: seq<string>, caller: Option<Role>)
    requires k < |routes| && RouteMatches(routes[k], verb, path)
    requires forall j :: 0 <= j < k ==> !RouteMatches(routes[j], verb, path)
    ensures Handle(routes, verb, path, caller) == Admit(routes[k].guard, caller, routes[k].handler)
  {
    var d := Dispatch(routes, verb, path);
    assert d == Some(k);
  }
}
