/** Whole calls of the try-load inside runs of the step machine: when param_get and apply fail to read. */
module StagingReads {
  import opened Words
  import opened AtomicDouble
  import opened LoadHistory
  import opened AtomicStaging
  import opened StagingSystem
  import opened StagingInvariant
  import opened StagingRefinement
  import opened StagingTheorems
  import opened Wrappers

  lemma CtrlMovesLive(d: Data, shown: Double, c: Ctrl, i: nat)
    requires DataShape(d) && CtrlShape(c) && i < PARAMS && LiveCell(d.live[i], shown, d.applied[i], c, i)
    ensures CellMoves(d.live[i], CtrlData(d, c).live[i]) && CtrlData(d, c).pend == d.pend
  {
    hide ModelShape, LoadStep, ApplyValue, ApplyRoute;
  }

  lemma ThreadMovesPend(d: Data, latest: Double, pc: Pc, i: nat)
    requires DataShape(d) && PcShape(pc) && i < PARAMS && PendCell(d.pend[i], latest, Inside(pc), i)
    ensures CellMoves(d.pend[i], ThreadData(d, pc).pend[i]) && ThreadData(d, pc).live == d.live
  {
    hide ModelShape, IsFinite;
  }

  lemma LiveMoves(s: State, a: Spec, l: Label, i: nat)
    requires Inv(s, a) && Enabled(s, l) && i < PARAMS
    ensures DataShape(Next(s, l).data) && CellMoves(s.data.live[i], Next(s, l).data.live[i])
    ensures !l.Control? ==> Next(s, l).data.live == s.data.live
  {
    hide CtrlData, CtrlPc, ThreadData, ThreadPc, PcShape, LiveCell, ModelShape;
    if l.Control? {
      assert LiveCell(s.data.live[i], a.shown[i], s.data.applied[i], s.ctrl, i);
      CtrlMovesLive(s.data, a.shown[i], s.ctrl, i);
    } else if l.Thread? {
      ThreadKeepsLive(s.data, s.threads[l.t]);
    }
  }

  lemma PendMoves(s: State, a: Spec, l: Label, i: nat)
    requires Inv(s, a) && Enabled(s, l) && i < PARAMS
    ensures DataShape(Next(s, l).data) && CellMoves(s.data.pend[i], Next(s, l).data.pend[i])
    ensures !l.Thread? ==> Next(s, l).data.pend == s.data.pend
  {
    hide CtrlData, CtrlPc, ThreadData, ThreadPc, PcShape, PendCell, LiveCell, ModelShape;
    if l.Control? {
      assert LiveCell(s.data.live[i], a.shown[i], s.data.applied[i], s.ctrl, i);
      CtrlMovesLive(s.data, a.shown[i], s.ctrl, i);
    } else if l.Thread? {
      var pc := s.threads[l.t];
      if Critical(pc) {
        assert PendCell(s.data.pend[i], Latest(a, i), Holder(s), i);
        ThreadMovesPend(s.data, Latest(a, i), pc, i);
      } else {
        OutsideData(s.data, pc);
      }
    }
  }

  // --------------------------------------------------------------- param_get

  ghost predicate Getting(s: State, t: Tid, i: nat) {
    t in s.threads && s.threads[t].Get? && s.threads[t].index == i && DataShape(s.data) && i < PARAMS
  }

  /** Thread t runs one param_get of parameter i from its first load at state j to its last one at state k. */
  ghost predicate GetCall(ss: seq<State>, ls: seq<Label>, j: nat, k: nat, t: Tid, i: nat) {
    && j <= k < |ls| < |ss| && ls[k] == Thread(t)
    && (forall n | j <= n <= k :: Getting(ss[n], t, i))
    && ss[j].threads[t].load == FIRST_ATTEMPT
  }

  function GetHistory(ss: seq<State>, ls: seq<Label>, j: nat, k: nat, t: Tid, i: nat): (h: seq<Moment>)
    requires GetCall(ss, ls, j, k, t, i)
    ensures |h| == k - j + 1
  {
    seq(k - j + 1, n requires 0 <= n <= k - j =>
      assert Getting(ss[j + n], t, i);
      Moment(ss[j + n].data.live[i], ss[j + n].threads[t].load, ls[j + n] == Thread(t)))
  }

  lemma GetJoined(s: State, a: Spec, l: Label, s': State, t: Tid, i: nat)
    requires Inv(s, a) && Enabled(s, l) && s' == Next(s, l) && Getting(s, t, i) && Getting(s', t, i)
    ensures Joined(Moment(s.data.live[i], s.threads[t].load, l == Thread(t)),
                   Moment(s'.data.live[i], s'.threads[t].load, false))
    ensures Joined(Moment(s.data.live[i], s.threads[t].load, l == Thread(t)),
                   Moment(s'.data.live[i], s'.threads[t].load, true))
  {
    LiveMoves(s, a, l, i);
  }

  lemma GetIsCall(m: Model, ss: seq<State>, ls: seq<Label>, specs: seq<Spec>, j: nat, k: nat, t: Tid, i: nat)
    requires IsRun(m, ss, ls) && Mirrors(m, ss, ls, specs) && GetCall(ss, ls, j, k, t, i)
    ensures IsCall(GetHistory(ss, ls, j, k, t, i))
  {
    hide Inv, Joined, Next, Enabled, Mirrors, LoadStep, CellMoves;
    var h := GetHistory(ss, ls, j, k, t, i);
    forall n | 0 <= n < |h| - 1 ensures Joined(h[n], h[n + 1]) {
      var p := j + n;
      InvAt(m, ss, ls, specs, p);
      RunStep(m, ss, ls, p);
      assert Getting(ss[p], t, i) && Getting(ss[p + 1], t, i);
      GetJoined(ss[p], specs[p], ls[p], ss[p + 1], t, i);
    }
  }

  /** The controller is between the first and the last operation of a store to live value i. */
  ghost predicate ControllerInside(s: State, i: nat) {
    (s.ctrl.ShowValue? || s.ctrl.Restore?) && s.ctrl.i == i && !s.ctrl.phase.Raise?
  }

  lemma UnsettledHasController(s: State, a: Spec, i: nat)
    requires Inv(s, a) && i < PARAMS && !s.data.live[i].Settled()
    ensures ControllerInside(s, i)
  {
    assert LiveCell(s.data.live[i], a.shown[i], s.data.applied[i], s.ctrl, i);
  }

  ghost predicate MetStore(ss: seq<State>, j: nat, k: nat, t: Tid, i: nat, a: nat)
    requires k < |ss|
  {
    exists n :: j <= n <= k && Getting(ss[n], t, i) && ss[n].threads[t].load.attempt == a && ControllerInside(ss[n], i)
  }

  /** A param_get is turned away with detail -3 only when the controller was inside its slot during each of its
      three attempts. */
  lemma GetFailsOnlyOnOverlap(m: Model, ss: seq<State>, ls: seq<Label>, j: nat, k: nat, t: Tid, i: nat)
    requires IsRun(m, ss, ls) && Unwrapped(ss) && GetCall(ss, ls, j, k, t, i)
    requires t in ss[k + 1].threads && ss[k + 1].threads[t].Done?
             && ss[k + 1].threads[t].reply.code.TemporarilyRejected?
    ensures MetStore(ss, j, k, t, i, 0) && MetStore(ss, j, k, t, i, 1) && MetStore(ss, j, k, t, i, 2)
  {
    hide Inv, Mirrors, Next, LoadStep, IsCall, Overlapped, MetStore, CellMoves;
    var specs := RunRefines(m, ss, ls);
    var h := GetHistory(ss, ls, j, k, t, i);
    GetIsCall(m, ss, ls, specs, j, k, t, i);
    assert Getting(ss[k], t, i);
    InvAt(m, ss, ls, specs, k);
    RunStep(m, ss, ls, k);
    GetGaveUp(ss[k], t, i);
    FailureMeansStores(h);
    MetStores(m, ss, ls, specs, j, k, t, i, 0);
    MetStores(m, ss, ls, specs, j, k, t, i, 1);
    MetStores(m, ss, ls, specs, j, k, t, i, 2);
  }

  lemma GetGaveUp(s: State, t: Tid, i: nat)
    requires Shape(s) && Getting(s, t, i)
    ensures var s' := Next(s, Thread(t));
            t in s'.threads && s'.threads[t].Done? && s'.threads[t].reply.code.TemporarilyRejected?
            ==> LoadStep(s.data.live[i], s.threads[t].load).GaveUp?
  {
  }

  lemma OverlapPoint(ss: seq<State>, ls: seq<Label>, j: nat, k: nat, t: Tid, i: nat, a: nat) returns (p: nat)
    requires GetCall(ss, ls, j, k, t, i)
    requires var h := GetHistory(ss, ls, j, k, t, i); Overlapped(h, |h| - 1, a)
    ensures j <= p <= k && Getting(ss[p], t, i) && ss[p].threads[t].load.attempt == a && !ss[p].data.live[i].Settled()
  {
    var h := GetHistory(ss, ls, j, k, t, i);
    var n: nat :| n <= |h| - 1 && h[n].load.attempt == a && !h[n].cell.Settled();
    p := j + n;
    assert Getting(ss[p], t, i);
  }

  lemma MetStores(m: Model, ss: seq<State>, ls: seq<Label>, specs: seq<Spec>, j: nat, k: nat, t: Tid, i: nat, a: nat)
    requires ModelShape(m) && Mirrors(m, ss, ls, specs) && GetCall(ss, ls, j, k, t, i)
    requires var h := GetHistory(ss, ls, j, k, t, i); Overlapped(h, |h| - 1, a)
    ensures MetStore(ss, j, k, t, i, a)
  {
    hide Inv, Mirrors, ControllerInside, GetHistory, Overlapped;
    var p := OverlapPoint(ss, ls, j, k, t, i, a);
    InvAt(m, ss, ls, specs, p);
    UnsettledHasController(ss[p], specs[p], i);
  }

  // -------------------------------------------------------------------- apply

  ghost predicate Taking(s: State, i: nat) {
    s.ctrl.LoadValue? && s.ctrl.i == i && DataShape(s.data) && i < PARAMS
  }

  /** The controller reads pending value i from its first load at state j to its last one at state k. */
  ghost predicate TakeCall(ss: seq<State>, ls: seq<Label>, j: nat, k: nat, i: nat) {
    && j <= k < |ls| < |ss| && ls[k] == Control
    && (forall n | j <= n <= k :: Taking(ss[n], i))
    && ss[j].ctrl.load == FIRST_ATTEMPT
  }

  function TakeHistory(ss: seq<State>, ls: seq<Label>, j: nat, k: nat, i: nat): (h: seq<Moment>)
    requires TakeCall(ss, ls, j, k, i)
    ensures |h| == k - j + 1
  {
    seq(k - j + 1, n requires 0 <= n <= k - j =>
      assert Taking(ss[j + n], i);
      Moment(ss[j + n].data.pend[i], ss[j + n].ctrl.load, ls[j + n] == Control))
  }

  lemma TakeJoined(s: State, a: Spec, l: Label, s': State, i: nat)
    requires Inv(s, a) && Enabled(s, l) && s' == Next(s, l) && Taking(s, i) && Taking(s', i)
    ensures Joined(Moment(s.data.pend[i], s.ctrl.load, l == Control), Moment(s'.data.pend[i], s'.ctrl.load, false))
    ensures Joined(Moment(s.data.pend[i], s.ctrl.load, l == Control), Moment(s'.data.pend[i], s'.ctrl.load, true))
  {
    PendMoves(s, a, l, i);
  }

  lemma TakeIsCall(m: Model, ss: seq<State>, ls: seq<Label>, specs: seq<Spec>, j: nat, k: nat, i: nat)
    requires IsRun(m, ss, ls) && Mirrors(m, ss, ls, specs) && TakeCall(ss, ls, j, k, i)
    ensures IsCall(TakeHistory(ss, ls, j, k, i))
  {
    hide Inv, Joined, Next, Enabled, Mirrors, LoadStep, CellMoves;
    var h := TakeHistory(ss, ls, j, k, i);
    forall n | 0 <= n < |h| - 1 ensures Joined(h[n], h[n + 1]) {
      var p := j + n;
      InvAt(m, ss, ls, specs, p);
      RunStep(m, ss, ls, p);
      assert Taking(ss[p], i) && Taking(ss[p + 1], i);
      TakeJoined(ss[p], specs[p], ls[p], ss[p + 1], i);
    }
  }

  ghost predicate MetWriter(ss: seq<State>, j: nat, k: nat, i: nat, a: nat)
    requires k < |ss|
  {
    exists n :: j <= n <= k && Taking(ss[n], i) && ss[n].ctrl.load.attempt == a && WriterInside(ss[n], i)
  }

  /** Some thread that holds command_writer is between the first and the last operation of a store to pending value
      i. */
  ghost predicate WriterInside(s: State, i: nat) {
    Holder(s).SetStore? && Holder(s).index == i && !Holder(s).phase.Raise?
  }

  /** Apply postpones a flagged parameter only when a param_set of that very parameter was inside its store during each
      of the three attempts. */
  lemma ApplyPostponesOnlyOnOverlap(m: Model, ss: seq<State>, ls: seq<Label>, j: nat, k: nat, i: nat)
    requires IsRun(m, ss, ls) && Unwrapped(ss) && TakeCall(ss, ls, j, k, i) && ss[k + 1].ctrl == Reflag(i)
    ensures MetWriter(ss, j, k, i, 0) && MetWriter(ss, j, k, i, 1) && MetWriter(ss, j, k, i, 2)
  {
    hide Inv, Mirrors, Next, LoadStep, IsCall, Overlapped, MetWriter, CellMoves;
    var specs := RunRefines(m, ss, ls);
    var h := TakeHistory(ss, ls, j, k, i);
    TakeIsCall(m, ss, ls, specs, j, k, i);
    assert Taking(ss[k], i);
    InvAt(m, ss, ls, specs, k);
    RunStep(m, ss, ls, k);
    TakeGaveUp(ss[k], i);
    FailureMeansStores(h);
    MetWriters(m, ss, ls, specs, j, k, i, 0);
    MetWriters(m, ss, ls, specs, j, k, i, 1);
    MetWriters(m, ss, ls, specs, j, k, i, 2);
  }

  lemma TakeGaveUp(s: State, i: nat)
    requires Shape(s) && Taking(s, i)
    ensures Next(s, Control).ctrl == Reflag(i) ==> LoadStep(s.data.pend[i], s.ctrl.load).GaveUp?
  {
  }

  lemma UnsettledHasWriter(s: State, a: Spec, i: nat)
    requires Inv(s, a) && i < PARAMS && !s.data.pend[i].Settled()
    ensures WriterInside(s, i)
  {
    assert PendCell(s.data.pend[i], Latest(a, i), Holder(s), i);
  }

  lemma MetWriters(m: Model, ss: seq<State>, ls: seq<Label>, specs: seq<Spec>, j: nat, k: nat, i: nat, a: nat)
    requires ModelShape(m) && Mirrors(m, ss, ls, specs) && TakeCall(ss, ls, j, k, i)
    requires var h := TakeHistory(ss, ls, j, k, i); Overlapped(h, |h| - 1, a)
    ensures MetWriter(ss, j, k, i, a)
  {
    hide Inv;
    var h := TakeHistory(ss, ls, j, k, i);
    var n: nat :| n <= |h| - 1 && h[n].load.attempt == a && !h[n].cell.Settled();
    var p := j + n;
    assert Taking(ss[p], i);
    assert Inv(ss[p], specs[p]);
    UnsettledHasWriter(ss[p], specs[p], i);
  }

  // -------------------------------------------------------------------- route

  predicate ReadingRoute(c: Ctrl) {
    c.OuterBefore? || c.LoadPoint? || c.LoadSegments? || c.OuterAfter?
  }

  /** The controller reads the staged route from state j to state k, where it gives up or applies it. */
  ghost predicate RouteCall(ss: seq<State>, ls: seq<Label>, j: nat, k: nat) {
    && j <= k < |ls| < |ss| && ls[k] == Control && ss[j].ctrl == OuterBefore
    && forall n | j <= n <= k :: ReadingRoute(ss[n].ctrl)
  }

  /** Nothing has disturbed the reading so far. */
  ghost predicate Undisturbed(s: State) {
    CtrlShape(s.ctrl) && DataShape(s.data) && match s.ctrl
    case OuterBefore => true
    case LoadPoint(before, got, load) =>
      before == s.data.missionCount && load.attempt == 0 && Unchanged(s.data.way[|got|], load.phase)
    case LoadSegments(before, _, complete) => before == s.data.missionCount && complete
    case OuterAfter(before, _, _) => before == s.data.missionCount
    case _ => false
  }

  lemma RouteIsQuiet(s: State, a: Spec)
    requires Inv(s, a) && !MidRoute(Holder(s))
    ensures s.data.missionCount % 2 == 0 && forall k | 0 <= k < COORDS :: s.data.way[k].Settled()
  {
    forall k | 0 <= k < COORDS ensures s.data.way[k].Settled() {
      assert WayCell(s.data.way[k], a, Holder(s), k);
    }
  }

  lemma ThreadLeavesRoute(s: State, a: Spec, l: Label)
    requires Inv(s, a) && Enabled(s, l) && !l.Control? && !MidRoute(Holder(s)) && !MidRoute(Holder(Next(s, l)))
    ensures var s' := Next(s, l);
            s'.data.missionCount == s.data.missionCount && s'.data.way == s.data.way
    ensures ReadingRoute(s.ctrl) ==> Next(s, l).ctrl == s.ctrl
  {
    if l.Thread? && Critical(s.threads[l.t]) {
      assert Holder(s) == s.threads[l.t];
    }
  }

  lemma CtrlStaysUndisturbed(d: Data, c: Ctrl)
    requires DataShape(d) && CtrlShape(c) && d.missionCount % 2 == 0 && forall k | 0 <= k < COORDS :: d.way[k].Settled()
    requires Undisturbed(State(d, None, map[], c, d.model))
    ensures CtrlPc(d, c).Off? || Undisturbed(State(CtrlData(d, c), None, map[], CtrlPc(d, c), d.model))
  {
    ParityOfWord(d.missionCount);
    if c.LoadPoint? {
      ParityOfWord(d.way[|c.got|].count);
    }
  }

  lemma StaysUndisturbed(s: State, a: Spec, l: Label)
    requires Inv(s, a) && Enabled(s, l) && Undisturbed(s) && !MidRoute(Holder(s))
    requires l.Control? || !MidRoute(Holder(Next(s, l)))
    ensures Next(s, l).ctrl.Off? || Undisturbed(Next(s, l))
  {
    hide CtrlData, CtrlPc, ThreadData, ThreadPc;
    RouteIsQuiet(s, a);
    if l.Control? {
      CtrlStaysUndisturbed(s.data, s.ctrl);
    } else {
      ThreadLeavesRoute(s, a, l);
      assert Next(s, l).ctrl == s.ctrl;
    }
  }

  lemma {:induction false} ReadingUndisturbed(m: Model, ss: seq<State>, ls: seq<Label>, specs: seq<Spec>, j: nat,
        k: nat, n: nat)
    requires IsRun(m, ss, ls) && Mirrors(m, ss, ls, specs) && RouteCall(ss, ls, j, k) && j <= n <= k
    requires forall p | j <= p <= k :: !MidRoute(Holder(ss[p]))
    ensures Undisturbed(ss[n])
    decreases n
  {
    assert Inv(ss[n], specs[n]);
    InvShape(ss[n], specs[n]);
    if j < n {
      var p := n - 1;
      ReadingUndisturbed(m, ss, ls, specs, j, k, p);
      assert Inv(ss[p], specs[p]);
      InvShape(ss[p], specs[p]);
      hide Inv, Undisturbed, Next, Enabled;
      RunStep(m, ss, ls, p);
      StaysUndisturbed(ss[p], specs[p], ls[p]);
    }
  }

  lemma QuietReadingEnds(m: Model, ss: seq<State>, ls: seq<Label>, specs: seq<Spec>, j: nat, k: nat)
    requires IsRun(m, ss, ls) && Mirrors(m, ss, ls, specs) && RouteCall(ss, ls, j, k)
    requires forall n | j <= n <= k :: !MidRoute(Holder(ss[n]))
    ensures ss[k + 1].ctrl != ReflagMission
  {
    hide Inv, Next, Enabled, Mirrors;
    ReadingUndisturbed(m, ss, ls, specs, j, k, k);
    InvAt(m, ss, ls, specs, k);
    RunStep(m, ss, ls, k);
    StaysUndisturbed(ss[k], specs[k], ls[k]);
  }

  /** Apply postpones a flagged route only when, while it was reading, a trajectory_set had the mission sequence odd. */
  lemma ApplyPostponesRouteOnlyOnOverlap(m: Model, ss: seq<State>, ls: seq<Label>, j: nat, k: nat)
    requires IsRun(m, ss, ls) && Unwrapped(ss) && RouteCall(ss, ls, j, k) && ss[k + 1].ctrl == ReflagMission
    ensures exists n :: j <= n <= k && MidRoute(Holder(ss[n]))
  {
    hide Mirrors;
    var specs := RunRefines(m, ss, ls);
    if forall n | j <= n <= k :: !MidRoute(Holder(ss[n])) {
      QuietReadingEnds(m, ss, ls, specs, j, k);
    }
  }
}
