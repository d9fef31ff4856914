/**
 Runtime control, one atomic operation at a time: any number of query threads
 run param_set, param_get and trajectory_set while the controller runs
 apply and restore.  Interleavings are sequentially consistent.
 */
module StagingSystem {
  import opened Words
  import opened AtomicDouble
  import opened AtomicStaging
  import opened Wrappers

  // ------------------------------------------------------- the outer-loop model

  /** One of the two copies of the route the generated controller keeps. */
  datatype Table = Table(points: seq<Double>, segments: int)

  /** The fields of the generated model that runtime control writes. */
  datatype Model = Model(
    leaf: seq<Double>, mirror: seq<Double>,
    route: Table, guidanceRoute: Table,
    currentWaypoint: int, guidanceCurrentWaypoint: int,
    guidanceActiveWaypoint: int, previousWaypoint: int,
    segmentEndIndex: int)

  predicate ModelShape(m: Model) {
    |m.leaf| == |m.mirror| == PARAMS && |m.route.points| == |m.guidanceRoute.points| == COORDS
  }

  function Min(a: int, b: int): int {
    if a < b then a else b
  }

  function Clamp(v: int, low: int, high: int): int {
    Min(high, if v < low then low else v)
  }

  /** The route table: rows past the last waypoint repeat it. */
  function TableOf(r: Route): (t: Table)
    requires RouteShape(r)
    ensures |t.points| == COORDS && t.segments == r.segments
  {
    Table(seq(COORDS, k requires 0 <= k < COORDS => r.coords[3 * Min(k / 3, r.segments) + k % 3]), r.segments)
  }

  function ApplyValue(m: Model, i: nat, d: Double): (m': Model)
    requires ModelShape(m) && i < PARAMS
    ensures ModelShape(m')
  {
    m.(leaf := m.leaf[i := d], mirror := m.mirror[i := d])
  }

  function ApplyRoute(m: Model, r: Route): (m': Model)
    requires RouteShape(r)
    ensures ModelShape(m) ==> ModelShape(m')
  {
    var leg := Clamp(m.currentWaypoint, 1, r.segments);
    m.(route := TableOf(r), guidanceRoute := TableOf(r),
       currentWaypoint := leg, guidanceCurrentWaypoint := leg, guidanceActiveWaypoint := leg,
       previousWaypoint := leg, segmentEndIndex := leg + 1)
  }

  /** A step of the generated controller writes neither tunables nor route tables. */
  predicate KeepsTunables(m: Model, m': Model) {
    m'.leaf == m.leaf && m'.mirror == m.mirror && m'.route == m.route && m'.guidanceRoute == m.guidanceRoute
  }

  // ---------------------------------------------------------------- the data

  datatype Data = Data(
    pend: seq<Cell>, flags: seq<bool>, live: seq<Cell>,
    way: seq<Cell>, segments: nat, missionCount: nat, mission: bool,
    version: Word,
    model: Model, applied: seq<Option<Double>>, appliedRoute: Option<Route>)

  predicate DataShape(d: Data) {
    && |d.pend| == |d.flags| == |d.live| == |d.applied| == PARAMS
    && |d.way| == COORDS && d.segments <= MAX_SEGMENTS
    && ModelShape(d.model)
    && (d.appliedRoute.Some? ==> RouteShape(d.appliedRoute.value))
  }

  /** The state cubs2_runtime_control_init leaves behind. */
  function InitData(m: Model): Data
    requires ModelShape(m)
  {
    var cells := seq(PARAMS, i requires 0 <= i < PARAMS => NewCell(m.leaf[i]));
    Data(cells, seq(PARAMS, i => false), cells,
         seq(COORDS, k requires 0 <= k < COORDS => NewCell(m.route.points[k])), 0, 0, false,
         1, m, seq(PARAMS, i => None), None)
  }

  // ------------------------------------------------------------ query threads

  type Tid = nat

  datatype Code = Accepted | TemporarilyRejected

  datatype Reply = Reply(code: Code, detail: int, version: Word, value: Double)

  /** The next operation of a handler whose request passed validation. */
  datatype Pc =
    | SetTry(index: nat, value: Double)                        // test-and-set of command_writer
    | SetStore(index: nat, value: Double, phase: StorePhase)
    | SetFlag(index: nat, value: Double)
    | SetUnlock(value: Double)
    | RouteTry(request: RouteRequest)                          // test-and-set of command_writer
    | RouteBusy                                                // version for the busy reply
    | RouteCheck(request: RouteRequest)                        // version to compare with
    | RouteStale(version: Word)                                // clear and reject
    | RouteOpen(request: RouteRequest, version: Word)
    | RouteStore(request: RouteRequest, version: Word, k: nat, phase: StorePhase)
    | RouteSegments(request: RouteRequest, version: Word)
    | RouteClose(request: RouteRequest, version: Word)
    | RouteFlag(request: RouteRequest, version: Word)
    | RoutePublish(request: RouteRequest, version: Word)
    | RouteUnlock(request: RouteRequest, version: Word)        // clear and accept
    | Get(index: nat, load: Load)
    | Done(reply: Reply)

  /** Between a successful test-and-set and the clear. */
  predicate Critical(pc: Pc) {
    !(pc.SetTry? || pc.RouteTry? || pc.RouteBusy? || pc.Get? || pc.Done?)
  }

  /** The first operation of a handler. */
  predicate Entry(pc: Pc) {
    match pc
    case SetTry(i, d) => i < PARAMS && IsFinite(d)
    case RouteTry(q) => ValidRoute(q.route)
    case Get(i, load) => i < PARAMS && load == FIRST_ATTEMPT
    case _ => false
  }

  predicate PcShape(pc: Pc) {
    match pc
    case SetTry(i, d) => i < PARAMS && IsFinite(d)
    case SetStore(i, d, phase) => i < PARAMS && IsFinite(d) && !phase.Stored?
    case SetFlag(i, d) => i < PARAMS && IsFinite(d)
    case RouteTry(q) => ValidRoute(q.route)
    case RouteCheck(q) => ValidRoute(q.route)
    case RouteOpen(q, _) => ValidRoute(q.route)
    case RouteStore(q, _, k, phase) => ValidRoute(q.route) && k < COORDS && !phase.Stored?
    case RouteSegments(q, _) => ValidRoute(q.route)
    case RouteClose(q, _) => ValidRoute(q.route)
    case RouteFlag(q, _) => ValidRoute(q.route)
    case RoutePublish(q, _) => ValidRoute(q.route)
    case Get(i, load) => i < PARAMS && load.attempt < ATTEMPTS
    case _ => true
  }

  // ------------------------------------------------------------ the controller

  /** The next operation of apply or restore; Off is a cycle boundary. */
  datatype Ctrl =
    | Off
    | TestFlag(i: nat)                                         // exchange of pending_value_set
    | LoadValue(i: nat, load: Load)
    | Reflag(i: nat)
    | ShowValue(i: nat, value: Double, phase: StorePhase)      // store to live_values
    | TestMission                                              // exchange of pending_mission
    | OuterBefore
    | LoadPoint(before: nat, got: seq<Double>, load: Load)
    | LoadSegments(before: nat, got: seq<Double>, complete: bool)
    | OuterAfter(before: nat, got: seq<Double>, segs: nat)
    | ReflagMission
    | Restore(i: nat, phase: StorePhase)                       // store to live_values

  predicate CtrlShape(c: Ctrl) {
    match c
    case TestFlag(i) => i < PARAMS
    case LoadValue(i, load) => i < PARAMS && load.attempt < ATTEMPTS
    case Reflag(i) => i < PARAMS
    case ShowValue(i, _, phase) => i < PARAMS && !phase.Stored?
    case LoadPoint(_, got, load) => |got| < COORDS && load.attempt < ATTEMPTS
    case LoadSegments(_, got, complete) => complete ==> |got| == COORDS
    case OuterAfter(_, got, segs) => |got| == COORDS && segs <= MAX_SEGMENTS
    case Restore(i, phase) => i <= PARAMS && !phase.Stored?
    case _ => true
  }

  // --------------------------------------------------------------- the system

  datatype State = State(
    data: Data,
    lock: Option<Tid>,        // command_writer, with the thread that set it
    threads: map<Tid, Pc>,
    ctrl: Ctrl,
    initial: Model)           // what re-initialising the model gives

  ghost predicate Shape(s: State) {
    && DataShape(s.data) && ModelShape(s.initial) && CtrlShape(s.ctrl)
    && (forall t | t in s.threads :: PcShape(s.threads[t]))
  }

  function InitState(m: Model): State
    requires ModelShape(m)
  {
    State(InitData(m), None, map[], Off, m)
  }

  /** Who moves next. */
  datatype Label =
    | Begin(t: Tid, pc: Pc)    // thread t receives a request
    | Thread(t: Tid)           // one operation of thread t
    | Control                  // one operation of the controller
    | StartApply
    | Reset                    // re-initialise the model, then restore
    | ModelStep(model: Model)

  predicate Enabled(s: State, l: Label) {
    match l
    case Begin(t, pc) => Entry(pc) && (t !in s.threads || s.threads[t].Done?)
    case Thread(t) => t in s.threads && !s.threads[t].Done?
    case Control => !s.ctrl.Off?
    case StartApply => s.ctrl.Off?
    case Reset => s.ctrl.Off?
    case ModelStep(m) => s.ctrl.Off? && ModelShape(m) && KeepsTunables(s.data.model, m)
  }

  // ------------------------------------------------------ one thread operation

  function AfterPoint(q: RouteRequest, version: Word, k: nat, phase: StorePhase): Pc {
    if !AfterStore(phase).Stored? then RouteStore(q, version, k, AfterStore(phase))
    else if k + 1 < COORDS then RouteStore(q, version, k + 1, Raise)
    else RouteSegments(q, version)
  }

  /** The data after thread code at `pc` runs its next operation. */
  function ThreadData(d: Data, pc: Pc): (d': Data)
    requires DataShape(d) && PcShape(pc)
    ensures DataShape(d')
  {
    match pc
    case SetStore(i, v, phase) => d.(pend := d.pend[i := StoreStep(d.pend[i], v, phase)])
    case SetFlag(i, _) => d.(flags := d.flags[i := true])
    case RouteOpen(_, _) => d.(missionCount := d.missionCount + 1)
    case RouteStore(q, _, k, phase) => d.(way := d.way[k := StoreStep(d.way[k], q.route.coords[k], phase)])
    case RouteSegments(q, _) => d.(segments := q.route.segments)
    case RouteClose(_, _) => d.(missionCount := d.missionCount + 1)
    case RouteFlag(_, _) => d.(mission := true)
    case RoutePublish(_, version) => d.(version := NextVersion(version))
    case _ => d
  }

  /** Where thread code at `pc` goes next. */
  function ThreadPc(d: Data, locked: bool, pc: Pc): (pc': Pc)
    requires DataShape(d) && PcShape(pc)
    ensures PcShape(pc')
  {
    match pc
    case SetTry(i, v) =>
      if locked then Done(Reply(TemporarilyRejected, -4, d.version, v)) else SetStore(i, v, Raise)
    case SetStore(i, v, phase) =>
      if AfterStore(phase).Stored? then SetFlag(i, v) else SetStore(i, v, AfterStore(phase))
    case SetFlag(_, v) => SetUnlock(v)
    case SetUnlock(v) => Done(Reply(Accepted, 0, d.version, v))
    case RouteTry(q) => if locked then RouteBusy else RouteCheck(q)
    case RouteBusy => Done(Reply(TemporarilyRejected, -5, d.version, 0))
    case RouteCheck(q) =>
      if q.expected != 0 && q.expected != d.version then RouteStale(d.version) else RouteOpen(q, d.version)
    case RouteStale(version) => Done(Reply(TemporarilyRejected, -4, version, 0))
    case RouteOpen(q, version) => RouteStore(q, version, 0, Raise)
    case RouteStore(q, version, k, phase) => AfterPoint(q, version, k, phase)
    case RouteSegments(q, version) => RouteClose(q, version)
    case RouteClose(q, version) => RouteFlag(q, version)
    case RouteFlag(q, version) => RoutePublish(q, version)
    case RoutePublish(q, version) => RouteUnlock(q, NextVersion(version))
    case RouteUnlock(_, version) => Done(Reply(Accepted, 0, version, 0))
    case Get(i, load) =>
      (match LoadStep(d.live[i], load)
       case Going(next) => Get(i, next)
       case Loaded(v) => Done(Reply(Accepted, 0, d.version, v))
       case GaveUp => Done(Reply(TemporarilyRejected, -3, d.version, 0)))
    case Done(_) => pc
  }

  function ThreadStep(s: State, t: Tid): State
    requires DataShape(s.data) && t in s.threads && PcShape(s.threads[t])
  {
    var pc := s.threads[t];
    var pc' := ThreadPc(s.data, s.lock.Some?, pc);
    s.(data := ThreadData(s.data, pc),
       threads := s.threads[t := pc'],
       lock := if !Critical(pc) && Critical(pc') then Some(t)
               else if Critical(pc) && !Critical(pc') then None
               else s.lock)
  }

  // -------------------------------------------------- one controller operation

  function AfterValue(i: nat): Ctrl {
    if i + 1 < PARAMS then TestFlag(i + 1) else TestMission
  }

  function CtrlData(d: Data, c: Ctrl): (d': Data)
    requires DataShape(d) && CtrlShape(c)
    ensures DataShape(d')
  {
    match c
    case TestFlag(i) => d.(flags := d.flags[i := false])
    case LoadValue(i, load) =>
      var r := LoadStep(d.pend[i], load);
      if r.Loaded? then d.(model := ApplyValue(d.model, i, r.value)) else d
    case Reflag(i) => d.(flags := d.flags[i := true])
    case ShowValue(i, v, phase) =>
      var d' := d.(live := d.live[i := StoreStep(d.live[i], v, phase)]);
      if AfterStore(phase).Stored? then d'.(applied := d.applied[i := Some(v)]) else d'
    case TestMission => d.(mission := false)
    case OuterAfter(before, got, segs) =>
      if before % TWO_32 == d.missionCount % TWO_32 then
        var r := Route(got, segs);
        d.(model := ApplyRoute(d.model, r), appliedRoute := Some(r))
      else d
    case ReflagMission => d.(mission := true)
    case Restore(i, phase) =>
      if i == PARAMS then
        if d.appliedRoute.Some? then d.(model := ApplyRoute(d.model, d.appliedRoute.value)) else d
      else if d.applied[i].Some? then
        var v := d.applied[i].value;
        d.(model := if phase.Raise? then ApplyValue(d.model, i, v) else d.model,
           live := d.live[i := StoreStep(d.live[i], v, phase)])
      else d
    case _ => d
  }

  function CtrlPc(d: Data, c: Ctrl): (c': Ctrl)
    requires DataShape(d) && CtrlShape(c)
    ensures CtrlShape(c')
  {
    match c
    case Off => Off
    case TestFlag(i) => if d.flags[i] then LoadValue(i, FIRST_ATTEMPT) else AfterValue(i)
    case LoadValue(i, load) =>
      (match LoadStep(d.pend[i], load)
       case Going(next) => LoadValue(i, next)
       case Loaded(v) => ShowValue(i, v, Raise)
       case GaveUp => Reflag(i))
    case Reflag(i) => AfterValue(i)
    case ShowValue(i, v, phase) =>
      if AfterStore(phase).Stored? then AfterValue(i) else ShowValue(i, v, AfterStore(phase))
    case TestMission => if d.mission then OuterBefore else Off
    case OuterBefore =>
      if (d.missionCount % TWO_32) % 2 == 0 then LoadPoint(d.missionCount, [], FIRST_ATTEMPT)
      else LoadSegments(d.missionCount, [], false)
    case LoadPoint(before, got, load) =>
      (match LoadStep(d.way[|got|], load)
       case Going(next) => LoadPoint(before, got, next)
       case Loaded(v) =>
         if |got| + 1 < COORDS then LoadPoint(before, got + [v], FIRST_ATTEMPT)
         else LoadSegments(before, got + [v], true)
       case GaveUp => LoadSegments(before, got, false))
    case LoadSegments(before, got, complete) => if complete then OuterAfter(before, got, d.segments) else ReflagMission
    case OuterAfter(before, got, _) => if before % TWO_32 == d.missionCount % TWO_32 then Off else ReflagMission
    case ReflagMission => Off
    case Restore(i, phase) =>
      if i == PARAMS then Off
      else if d.applied[i].Some? && !AfterStore(phase).Stored? then Restore(i, AfterStore(phase))
      else Restore(i + 1, Raise)
  }

  function CtrlStep(s: State): State
    requires DataShape(s.data) && CtrlShape(s.ctrl)
  {
    s.(data := CtrlData(s.data, s.ctrl), ctrl := CtrlPc(s.data, s.ctrl))
  }

  // ------------------------------------------------------------------- a step

  ghost function Next(s: State, l: Label): State
    requires Shape(s) && Enabled(s, l)
  {
    match l
    case Begin(t, pc) => s.(threads := s.threads[t := pc])
    case Thread(t) => ThreadStep(s, t)
    case Control => CtrlStep(s)
    case StartApply => s.(ctrl := TestFlag(0))
    case Reset => s.(data := s.data.(model := s.initial), ctrl := Restore(0, Raise))
    case ModelStep(m) => s.(data := s.data.(model := m))
  }

  ghost predicate Moves(s: State, l: Label, s': State) {
    Shape(s) && Enabled(s, l) && Shape(s') && s' == Next(s, l)
  }

  /** A stretch of a run: states ss joined by steps ls, from any reachable state on. */
  ghost predicate Stretch(ss: seq<State>, ls: seq<Label>) {
    && |ss| == |ls| + 1 && Shape(ss[0])
    && forall k | 0 <= k < |ls| :: Moves(ss[k], ls[k], ss[k + 1])
  }

  lemma Shorter(ss: seq<State>, ls: seq<Label>)
    requires Stretch(ss, ls) && ls != []
    ensures Stretch(ss[..|ls|], ls[..|ls| - 1])
  {
    hide Moves;
    var n := |ls| - 1;
    forall k | 0 <= k < n ensures Moves(ss[..|ls|][k], ls[..n][k], ss[..|ls|][k + 1]) {
      assert Moves(ss[k], ls[k], ss[k + 1]);
    }
  }
}
