/**
 What runtime control promises, as a machine with indivisible operations: a log of
 committed values per parameter, a log of accepted routes, and for each log
 how far the controller has picked it up.
 */
module AtomicStaging {
  import opened Words

  const PARAMS := 28
  const MAX_SEGMENTS := 6
  const POINTS := 7
  const COORDS := 21

  /** A staged mission: seven rows of x, y, z, and how many legs of it are used. */
  datatype Route = Route(coords: seq<Double>, segments: nat)

  predicate RouteShape(r: Route) {
    |r.coords| == COORDS && r.segments <= MAX_SEGMENTS
  }

  predicate ValidRoute(r: Route) {
    RouteShape(r) && 1 <= r.segments && forall k | 0 <= k < COORDS :: IsFinite(r.coords[k])
  }

  datatype RouteRequest = RouteRequest(route: Route, expected: Word)

  // -------------------------------------------------------------- versions

  /** Plan versions in use: every 32-bit word except 0. */
  const VERSIONS := TWO_32 - 1

  function NextVersion(v: Word): Word {
    if Increment(v) == 0 then 1 else Increment(v)
  }

  /** The plan version after n accepted routes. */
  function VersionAfter(n: nat): Word {
    1 + n % VERSIONS
  }

  lemma NextAfter(n: nat)
    ensures NextVersion(VersionAfter(n)) == VersionAfter(n + 1) == 1 + (n + 1) % 4_294_967_295
  {
  }

  lemma SameVersion(m: nat, n: nat)
    requires m < n && VersionAfter(m) == VersionAfter(n)
    ensures n - m >= 4_294_967_295
  {
  }

  // ------------------------------------------------------------ the machine

  datatype Spec = Spec(
    log: seq<seq<Double>>,     // committed values of each parameter, oldest first; entry 0 is the initial value
    taken: seq<nat>,           // how many of them the controller has caught up with
    shown: seq<Double>,        // what param_get answers
    routes: seq<RouteRequest>, // accepted route requests, oldest first
    routeTaken: nat,           // how many of them the controller has caught up with
    published: nat             // how many of them the plan version counts
  )

  datatype Event =
    | Quiet
    | CommitParam(index: nat, value: Double)
    | TakeParam(index: nat)
    | Show(index: nat)
    | CommitRoute(request: RouteRequest)
    | TakeRoute
    | Publish
    | Report(index: nat, value: Double)

  predicate SpecShape(a: Spec) {
    && |a.log| == |a.taken| == |a.shown| == PARAMS
    && (forall i | 0 <= i < PARAMS :: 1 <= a.taken[i] <= |a.log[i]|)
    && a.routeTaken <= |a.routes|
    && a.published <= |a.routes| <= a.published + 1
  }

  function Latest(a: Spec, i: nat): Double
    requires SpecShape(a) && i < PARAMS
  {
    a.log[i][|a.log[i]| - 1]
  }

  /** The committed value the controller flies with. */
  function Current(a: Spec, i: nat): Double
    requires SpecShape(a) && i < PARAMS
  {
    a.log[i][a.taken[i] - 1]
  }

  predicate Allowed(a: Spec, e: Event)
    requires SpecShape(a)
  {
    match e
    case Quiet => true
    case CommitParam(i, d) => i < PARAMS && IsFinite(d)
    case TakeParam(i) => i < PARAMS
    case Show(i) => i < PARAMS
    case CommitRoute(q) =>
      && ValidRoute(q.route)
      && a.published == |a.routes|
      && (q.expected == 0 || q.expected == VersionAfter(|a.routes|))
    case TakeRoute => 0 < |a.routes|
    case Publish => a.published < |a.routes|
    case Report(i, d) => i < PARAMS && d == a.shown[i]
  }

  function SpecNext(a: Spec, e: Event): (a': Spec)
    requires SpecShape(a) && Allowed(a, e)
    ensures SpecShape(a')
  {
    match e
    case Quiet => a
    case CommitParam(i, d) => a.(log := a.log[i := a.log[i] + [d]])
    case TakeParam(i) => a.(taken := a.taken[i := |a.log[i]|])
    case Show(i) => a.(shown := a.shown[i := Current(a, i)])
    case CommitRoute(q) => a.(routes := a.routes + [q])
    case TakeRoute => a.(routeTaken := |a.routes|)
    case Publish => a.(published := a.published + 1)
    case Report(_, _) => a
  }

  // -------------------------------------------------- what follows from it

  /** Each accepted request that named a version named the one just before its own. */
  ghost predicate Versioned(a: Spec) {
    forall n | 0 <= n < |a.routes| :: a.routes[n].expected == 0 || a.routes[n].expected == VersionAfter(n)
  }

  /** Of the requests that name the same version, any two accepted ones lie at least 2^32 - 1 acceptances apart. */
  lemma OneWinnerPerVersion(a: Spec, m: nat, n: nat)
    requires Versioned(a) && m < n < |a.routes|
    requires a.routes[m].expected == a.routes[n].expected != 0
    ensures n - m >= 4_294_967_295
  {
    SameVersion(m, n);
  }

  /** Logs only grow, and the controller never goes back in one. */
  ghost predicate Extends(a: Spec, b: Spec) {
    && SpecShape(a) && SpecShape(b)
    && (forall i | 0 <= i < PARAMS :: a.log[i] <= b.log[i] && a.taken[i] <= b.taken[i])
    && a.routes <= b.routes && a.routeTaken <= b.routeTaken && a.published <= b.published
  }

  lemma EventExtends(a: Spec, e: Event)
    requires SpecShape(a) && Allowed(a, e)
    ensures Extends(a, SpecNext(a, e))
  {
  }

  lemma ExtendsTransitive(a: Spec, b: Spec, c: Spec)
    requires Extends(a, b) && Extends(b, c)
    ensures Extends(a, c)
  {
  }
}
