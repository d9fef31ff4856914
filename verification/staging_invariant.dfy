/** How a state of the step machine represents a state of the atomic machine. */
module StagingInvariant {
  import opened Words
  import opened AtomicDouble
  import opened AtomicStaging
  import opened StagingSystem
  import opened Wrappers

  /** The atomic operation that the next operation of thread code at `pc` amounts to. */
  function ThreadEvent(d: Data, pc: Pc): Event
    requires DataShape(d) && PcShape(pc)
  {
    match pc
    case SetStore(i, v, Lower) => CommitParam(i, v)
    case RouteClose(q, _) => CommitRoute(q)
    case RoutePublish(_, _) => Publish
    case Get(i, load) =>
      var r := LoadStep(d.live[i], load);
      if r.Loaded? then Report(i, r.value) else Quiet
    case _ => Quiet
  }

  /** The atomic operation that the next operation of the controller amounts to. */
  function CtrlEvent(d: Data, c: Ctrl): Event
    requires DataShape(d) && CtrlShape(c)
  {
    match c
    case LoadValue(i, load) => if LoadStep(d.pend[i], load).Loaded? then TakeParam(i) else Quiet
    case ShowValue(i, _, Lower) => Show(i)
    case OuterAfter(before, _, _) => if before % TWO_32 == d.missionCount % TWO_32 then TakeRoute else Quiet
    case _ => Quiet
  }

  function EventOf(s: State, l: Label): Event
    requires DataShape(s.data) && CtrlShape(s.ctrl)
    requires l.Thread? ==> l.t in s.threads && PcShape(s.threads[l.t])
  {
    match l
    case Thread(t) => ThreadEvent(s.data, s.threads[t])
    case Control => CtrlEvent(s.data, s.ctrl)
    case _ => Quiet
  }

  function InitSpec(m: Model): (a: Spec)
    requires ModelShape(m)
    ensures SpecShape(a)
  {
    Spec(seq(PARAMS, i requires 0 <= i < PARAMS => [m.leaf[i]]), seq(PARAMS, i => 1), m.leaf, [], 0, 0)
  }

  /** Code position of the thread inside the critical section; RouteBusy when there is none. */
  function Holder(s: State): Pc {
    if s.lock.Some? && s.lock.value in s.threads then s.threads[s.lock.value] else RouteBusy
  }

  /** The code position counts as the holder's only inside the critical section. */
  function Inside(pc: Pc): Pc {
    if Critical(pc) then pc else RouteBusy
  }

  /** command_writer admits one thread at a time. */
  ghost predicate LockInv(s: State) {
    && (forall t | t in s.threads && Critical(s.threads[t]) :: s.lock == Some(t))
    && (s.lock.Some? ==> s.lock.value in s.threads && Critical(s.threads[s.lock.value]))
  }

  ghost predicate Holds(cell: Cell, d: Double) {
    cell.Settled() && cell.Value() == d
  }

  /** A pending value is its latest commit, unless the holder is inside the store. */
  ghost predicate PendCell(cell: Cell, latest: Double, h: Pc, i: nat) {
    if h.SetStore? && h.index == i then Storing(cell, latest, h.value, h.phase) else Holds(cell, latest)
  }

  ghost predicate PendInv(d: Data, a: Spec, h: Pc)
    requires DataShape(d) && SpecShape(a)
  {
    forall i | 0 <= i < PARAMS :: PendCell(d.pend[i], Latest(a, i), h, i)
  }

  /** A live value is what the atomic machine shows, unless the controller is inside the store. */
  ghost predicate LiveCell(cell: Cell, shown: Double, applied: Option<Double>, c: Ctrl, i: nat) {
    if c.ShowValue? && c.i == i then Storing(cell, shown, c.value, c.phase)
    else if c.Restore? && c.i == i && applied.Some? then Storing(cell, shown, applied.value, c.phase)
    else Holds(cell, shown)
  }

  ghost predicate LiveInv(d: Data, a: Spec, c: Ctrl)
    requires DataShape(d) && SpecShape(a)
  {
    forall i | 0 <= i < PARAMS :: LiveCell(d.live[i], a.shown[i], d.applied[i], c, i)
  }

  /** The holder has the mission sequence odd. */
  predicate MidRoute(h: Pc) {
    h.RouteStore? || h.RouteSegments? || h.RouteClose?
  }

  function LastRequest(a: Spec): RouteRequest
    requires 0 < |a.routes|
  {
    a.routes[|a.routes| - 1]
  }

  function LastRoute(a: Spec): Route
    requires 0 < |a.routes|
  {
    LastRequest(a).route
  }

  ghost predicate WayCell(cell: Cell, a: Spec, h: Pc, k: nat)
    requires PcShape(h) && k < COORDS
  {
    match h
    case RouteStore(q, _, j, phase) =>
      if k < j then Holds(cell, q.route.coords[k])
      else if k == j then Storing(cell, cell.Value(), q.route.coords[k], phase)
      else cell.Settled()
    case RouteSegments(q, _) => Holds(cell, q.route.coords[k])
    case RouteClose(q, _) => Holds(cell, q.route.coords[k])
    case _ =>
      && cell.Settled()
      && (0 < |a.routes| ==> |LastRoute(a).coords| == COORDS && cell.Value() == LastRoute(a).coords[k])
  }

  ghost predicate WayInv(d: Data, a: Spec, h: Pc)
    requires DataShape(d) && PcShape(h)
  {
    forall k | 0 <= k < COORDS :: WayCell(d.way[k], a, h, k)
  }

  /** The mission sequence is odd exactly while the holder replaces the route. */
  ghost predicate MissionInv(d: Data, a: Spec, h: Pc) {
    && (forall n | 0 <= n < |a.routes| :: ValidRoute(a.routes[n].route))
    && (d.missionCount % 2 == 1 <==> MidRoute(h))
    && (h.RouteClose? ==> d.segments == h.request.route.segments)
    && (!MidRoute(h) && 0 < |a.routes| ==> d.segments == LastRoute(a).segments)
  }

  /** The staged route is the latest accepted one, unless the holder is replacing it. */
  ghost predicate RouteInv(d: Data, a: Spec, h: Pc)
    requires DataShape(d) && PcShape(h)
  {
    MissionInv(d, a, h) && WayInv(d, a, h)
  }

  ghost predicate VersionInv(d: Data, a: Spec, h: Pc)
    requires SpecShape(a)
  {
    && Versioned(a)
    && d.version == VersionAfter(a.published)
    && (if h.RouteFlag? || h.RoutePublish? then a.published + 1 == |a.routes| else a.published == |a.routes|)
    && (h.RouteFlag? || h.RoutePublish? || h.RouteUnlock? ==> 0 < |a.routes| && LastRequest(a) == h.request)
    && (h.RouteOpen? || h.RouteStore? || h.RouteSegments? || h.RouteClose? ==>
          h.version == d.version && (h.request.expected == 0 || h.request.expected == h.version))
    && (h.RouteFlag? || h.RoutePublish? || h.RouteUnlock? || h.RouteStale? ==> h.version == d.version)
  }

  /** The controller has cleared flag i and has not decided yet. */
  predicate Deciding(c: Ctrl, i: nat) {
    (c.LoadValue? || c.Reflag?) && c.i == i
  }

  predicate DecidingRoute(c: Ctrl) {
    c.OuterBefore? || c.LoadPoint? || c.LoadSegments? || c.OuterAfter? || c.ReflagMission?
  }

  /** A committed value the controller has not taken is flagged, about to be flagged, or in the controller's hands. */
  ghost predicate ValueKept(taken: nat, committed: nat, flag: bool, h: Pc, c: Ctrl, i: nat) {
    taken < committed ==> flag || (h.SetFlag? && h.index == i) || Deciding(c, i)
  }

  /** The same for the latest accepted route; and a flagged route exists. */
  ghost predicate RouteKept(d: Data, a: Spec, h: Pc, c: Ctrl) {
    && (a.routeTaken < |a.routes| ==> d.mission || h.RouteFlag? || DecidingRoute(c))
    && (d.mission || DecidingRoute(c) ==> 0 < |a.routes|)
  }

  ghost predicate NothingLost(d: Data, a: Spec, h: Pc, c: Ctrl)
    requires DataShape(d) && SpecShape(a)
  {
    && (forall i | 0 <= i < PARAMS :: ValueKept(a.taken[i], |a.log[i]|, d.flags[i], h, c, i))
    && RouteKept(d, a, h, c)
  }

  /** The attempt began after the last store to the cell. */
  ghost predicate Unchanged(cell: Cell, phase: LoadPhase) {
    phase.Before? || phase.before == cell.count
  }

  /** What the controller has read of the route is current as long as no trajectory_set opened since. */
  ghost predicate RouteRead(d: Data, a: Spec, before: nat, got: seq<Double>) {
    && before <= d.missionCount && before % 2 == 0
    && |got| <= COORDS
    && (before == d.missionCount ==>
          0 < |a.routes| && |LastRoute(a).coords| == COORDS && got <= LastRoute(a).coords)
  }

  ghost predicate CtrlInv(d: Data, a: Spec, c: Ctrl)
    requires DataShape(d)
  {
    CtrlShape(c) && match c
    case LoadValue(i, load) => Loading(d.pend[i], load)
    case LoadPoint(before, got, load) =>
      && RouteRead(d, a, before, got)
      && Loading(d.way[|got|], load)
      && (before == d.missionCount ==> Unchanged(d.way[|got|], load.phase))
    case LoadSegments(before, got, complete) => complete ==> RouteRead(d, a, before, got)
    case OuterAfter(before, got, segs) =>
      && RouteRead(d, a, before, got)
      && (before == d.missionCount ==> segs == LastRoute(a).segments)
    case _ => true
  }

  /** The part of the model that restore has still to bring back. */
  predicate Unrestored(c: Ctrl, i: nat) {
    c.Restore? && (c.i < i || (c.i == i && c.phase.Raise?))
  }

  /** Leaf, mirror, live value and applied record of a parameter agree with what was taken. */
  ghost predicate ValueOk(d: Data, a: Spec, c: Ctrl, initial: Model, i: nat)
    requires DataShape(d) && SpecShape(a) && ModelShape(initial) && i < PARAMS
  {
    && d.model.leaf[i] == d.model.mirror[i]
    && d.model.leaf[i] == (if Unrestored(c, i) then initial.leaf[i] else Current(a, i))
    && (if c.ShowValue? && c.i == i then c.value == Current(a, i)
        else
          && a.shown[i] == Current(a, i)
          && (if d.applied[i].Some? then d.applied[i].value == Current(a, i) else Current(a, i) == initial.leaf[i]))
  }

  ghost predicate ValuesInv(d: Data, a: Spec, c: Ctrl, initial: Model)
    requires DataShape(d) && SpecShape(a) && ModelShape(initial)
  {
    forall i | 0 <= i < PARAMS :: ValueOk(d, a, c, initial, i)
  }

  /** Both route tables hold the route that was taken. */
  ghost predicate TablesInv(d: Data, a: Spec, c: Ctrl, initial: Model)
    requires DataShape(d) && SpecShape(a) && ModelShape(initial)
  {
    && (d.appliedRoute.Some? <==> 0 < a.routeTaken)
    && (0 < a.routeTaken ==>
          RouteShape(a.routes[a.routeTaken - 1].route) && d.appliedRoute.value == a.routes[a.routeTaken - 1].route)
    && (if c.Restore? || a.routeTaken == 0
        then d.model.route == initial.route && d.model.guidanceRoute == initial.guidanceRoute
        else d.model.route == d.model.guidanceRoute == TableOf(a.routes[a.routeTaken - 1].route))
  }

  /** What param_get threads have read so far. */
  ghost predicate ReaderInv(s: State)
    requires DataShape(s.data)
  {
    forall t | t in s.threads && s.threads[t].Get? ::
      s.threads[t].index < PARAMS && Loading(s.data.live[s.threads[t].index], s.threads[t].load)
  }

  ghost predicate Inv(s: State, a: Spec) {
    && Shape(s) && SpecShape(a)
    && s.initial.leaf == s.initial.mirror
    && LockInv(s)
    && PendInv(s.data, a, Holder(s))
    && LiveInv(s.data, a, s.ctrl)
    && RouteInv(s.data, a, Holder(s))
    && VersionInv(s.data, a, Holder(s))
    && NothingLost(s.data, a, Holder(s), s.ctrl)
    && CtrlInv(s.data, a, s.ctrl)
    && ValuesInv(s.data, a, s.ctrl, s.initial)
    && TablesInv(s.data, a, s.ctrl, s.initial)
    && ReaderInv(s)
  }

  /** Fewer than 2^31 stores, or 2^31 trajectory_set commits, happen while the controller's read is in flight. */
  ghost predicate CtrlNoWrap(d: Data, c: Ctrl)
    requires DataShape(d) && CtrlShape(c)
  {
    && (c.LoadValue? ==> NoWrap(d.pend[c.i], c.load))
    && (c.OuterAfter? ==> d.missionCount < c.before + TWO_32)
  }

  /** The same for the controller and for every param_get in flight. */
  ghost predicate NoWraps(s: State)
    requires Shape(s)
  {
    && CtrlNoWrap(s.data, s.ctrl)
    && (forall t | t in s.threads && s.threads[t].Get? ::
          NoWrap(s.data.live[s.threads[t].index], s.threads[t].load))
  }
}
