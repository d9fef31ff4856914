/** The controller or a handler running alone, and the controller beside idle or suspended writers. */
module StagingAlone {
  import opened Words
  import opened AtomicDouble
  import opened AtomicStaging
  import opened StagingSystem
  import opened StagingInvariant
  import opened StagingRefinement
  import opened StagingProgress
  import opened Uninterrupted
  import opened Wrappers

  // --------------------------------------------------- the controller on its own

  /** The data when the controller, running alone, gets back to a cycle boundary. */
  function Finish(d: Data, c: Ctrl): Data
    requires DataShape(d) && CtrlShape(c)
    decreases CtrlLeft(c)
  {
    if c.Off? then d
    else
      ControllerAdvances(d, c);
      Finish(CtrlData(d, c), CtrlPc(d, c))
  }

  lemma FinishStep(d: Data, c: Ctrl)
    requires DataShape(d) && CtrlShape(c) && !c.Off?
    ensures Finish(d, c) == Finish(CtrlData(d, c), CtrlPc(d, c))
  {
    ControllerAdvances(d, c);
  }

  lemma StoreSteps(cell: Cell, v: Double)
    ensures StoreStep(StoreStep(StoreStep(StoreStep(cell, v, Raise), v, PutLow), v, PutHigh), v, Lower)
            == Store(cell, v)
  {
  }

  function WithLive(d: Data, i: nat, cell: Cell): (d': Data)
    requires DataShape(d) && i < PARAMS
    ensures DataShape(d') && d'.live[i] == cell
  {
    d.(live := d.live[i := cell])
  }

  lemma ShowFinishStep(d: Data, i: nat, cell: Cell, v: Double, phase: StorePhase)
    requires DataShape(d) && i < PARAMS && !phase.Stored?
    ensures var e := WithLive(d, i, StoreStep(cell, v, phase));
            Finish(WithLive(d, i, cell), ShowValue(i, v, phase))
            == if phase.Lower? then Finish(e.(applied := d.applied[i := Some(v)]), AfterValue(i))
               else Finish(e, ShowValue(i, v, AfterStore(phase)))
  {
    var e := WithLive(d, i, cell);
    FinishStep(e, ShowValue(i, v, phase));
    assert e.live[i := StoreStep(cell, v, phase)] == d.live[i := StoreStep(cell, v, phase)];
  }

  lemma StoreFinishes(d: Data, i: nat, v: Double)
    requires DataShape(d) && i < PARAMS
    ensures Finish(d, ShowValue(i, v, Raise))
            == Finish(WithLive(d, i, Store(d.live[i], v)).(applied := d.applied[i := Some(v)]), AfterValue(i))
  {
    assert WithLive(d, i, d.live[i]) == d;
    hide Finish, WithLive, StoreStep, Store, ModelShape;
    var c1 := StoreStep(d.live[i], v, Raise);
    var c2 := StoreStep(c1, v, PutLow);
    var c3 := StoreStep(c2, v, PutHigh);
    ShowFinishStep(d, i, d.live[i], v, Raise);
    ShowFinishStep(d, i, c1, v, PutLow);
    ShowFinishStep(d, i, c2, v, PutHigh);
    ShowFinishStep(d, i, c3, v, Lower);
    StoreSteps(d.live[i], v);
  }

  lemma LoadFinishStep(d: Data, i: nat, load: Load)
    requires DataShape(d) && i < PARAMS && load.attempt < ATTEMPTS
    ensures var r := LoadStep(d.pend[i], load);
            Finish(d, LoadValue(i, load))
            == if r.Going? then Finish(d, LoadValue(i, r.load))
               else if r.Loaded? then Finish(d.(model := ApplyValue(d.model, i, r.value)), ShowValue(i, r.value, Raise))
               else Finish(d, Reflag(i))
  {
    FinishStep(d, LoadValue(i, load));
  }

  /** Loading a cell nobody writes to: the first attempt succeeds, or all three fail. */
  lemma LoadFinishes(d: Data, i: nat)
    requires DataShape(d) && i < PARAMS
    ensures Finish(d, LoadValue(i, FIRST_ATTEMPT))
            == if d.pend[i].Settled()
               then Finish(d.(model := ApplyValue(d.model, i, d.pend[i].Value())),
                           ShowValue(i, d.pend[i].Value(), Raise))
               else Finish(d, Reflag(i))
  {
    hide Finish, CtrlData, CtrlPc, CtrlLeft;
    var cell := d.pend[i];
    ParityOfWord(cell.count);
    LoadFinishStep(d, i, Load(0, Before));
    if cell.Settled() {
      LoadFinishStep(d, i, Load(0, ReadLow(cell.count)));
      LoadFinishStep(d, i, Load(0, ReadHigh(cell.count, cell.low)));
      LoadFinishStep(d, i, Load(0, After(cell.count, cell.low, cell.high)));
    } else {
      LoadFinishStep(d, i, Load(1, Before));
      LoadFinishStep(d, i, Load(2, Before));
    }
  }

  lemma TestFinishes(d: Data, i: nat)
    requires DataShape(d) && i < PARAMS
    ensures var e := d.(flags := d.flags[i := false]);
            Finish(d, TestFlag(i)) == Finish(e, if d.flags[i] then LoadValue(i, FIRST_ATTEMPT) else AfterValue(i))
  {
    FinishStep(d, TestFlag(i));
  }

  lemma ReflagFinishes(d: Data, i: nat)
    requires DataShape(d) && i < PARAMS
    ensures Finish(d, Reflag(i)) == Finish(d.(flags := d.flags[i := true]), AfterValue(i))
  {
    FinishStep(d, Reflag(i));
  }

  lemma ValueFinishes(d: Data, i: nat)
    requires DataShape(d) && i < PARAMS
    ensures Finish(d, TestFlag(i)) == Finish(ApplyOne(d, i), AfterValue(i))
  {
    hide Finish, CtrlShape, ModelShape, ApplyValue;
    var e := d.(flags := d.flags[i := false]);
    TestFinishes(d, i);
    if !d.flags[i] {
      assert e == d;
    } else {
      LoadFinishes(e, i);
      if d.pend[i].Settled() {
        var v := d.pend[i].Value();
        StoreFinishes(e.(model := ApplyValue(e.model, i, v)), i, v);
      } else {
        ReflagFinishes(e, i);
        assert e.(flags := e.flags[i := true]) == d;
      }
    }
  }

  lemma {:induction false} ValuesFinish(d: Data, n: nat)
    requires DataShape(d) && n <= PARAMS
    ensures Finish(d, TestFlag(0)) == Finish(ApplyValues(d, n), if n < PARAMS then TestFlag(n) else TestMission)
  {
    if n > 0 {
      ValuesFinish(d, n - 1);
      ValueFinishes(ApplyValues(d, n - 1), n - 1);
    }
  }

  lemma PointFinishStep(d: Data, before: nat, got: seq<Double>, load: Load)
    requires DataShape(d) && |got| < COORDS && load.attempt < ATTEMPTS
    ensures var r := LoadStep(d.way[|got|], load);
            Finish(d, LoadPoint(before, got, load))
            == Finish(d, if r.Going? then LoadPoint(before, got, r.load)
                         else if r.GaveUp? then LoadSegments(before, got, false)
                         else if |got| + 1 < COORDS then LoadPoint(before, got + [r.value], FIRST_ATTEMPT)
                         else LoadSegments(before, got + [r.value], true))
  {
    FinishStep(d, LoadPoint(before, got, load));
  }

  lemma PointFinishes(d: Data, before: nat, got: seq<Double>)
    requires DataShape(d) && |got| < COORDS
    ensures var cell := d.way[|got|];
            Finish(d, LoadPoint(before, got, FIRST_ATTEMPT))
            == Finish(d, if !cell.Settled() then LoadSegments(before, got, false)
                         else if |got| + 1 < COORDS then LoadPoint(before, got + [cell.Value()], FIRST_ATTEMPT)
                         else LoadSegments(before, got + [cell.Value()], true))
  {
    hide Finish, CtrlData, CtrlPc, CtrlLeft;
    var cell := d.way[|got|];
    ParityOfWord(cell.count);
    PointFinishStep(d, before, got, Load(0, Before));
    if cell.Settled() {
      PointFinishStep(d, before, got, Load(0, ReadLow(cell.count)));
      PointFinishStep(d, before, got, Load(0, ReadHigh(cell.count, cell.low)));
      PointFinishStep(d, before, got, Load(0, After(cell.count, cell.low, cell.high)));
    } else {
      PointFinishStep(d, before, got, Load(1, Before));
      PointFinishStep(d, before, got, Load(2, Before));
    }
  }

  lemma {:induction false} PointsFinish(d: Data, n: nat)
    requires DataShape(d) && n <= COORDS && forall k | 0 <= k < n :: d.way[k].Settled()
    ensures var got := StagedRoute(d).coords[..n];
            Finish(d, LoadPoint(d.missionCount, [], FIRST_ATTEMPT))
            == Finish(d, if n < COORDS then LoadPoint(d.missionCount, got, FIRST_ATTEMPT)
                         else LoadSegments(d.missionCount, got, true))
  {
    if n > 0 {
      PointsFinish(d, n - 1);
      var got := StagedRoute(d).coords[..n - 1];
      PointFinishes(d, d.missionCount, got);
      assert got + [d.way[n - 1].Value()] == StagedRoute(d).coords[..n];
    }
  }

  lemma GivesUp(d: Data, before: nat, got: seq<Double>)
    requires DataShape(d) && !d.mission
    ensures Finish(d, LoadSegments(before, got, false)) == d.(mission := true)
  {
    FinishStep(d, LoadSegments(before, got, false));
    FinishStep(d, ReflagMission);
  }

  lemma RouteFinishes(d: Data)
    requires DataShape(d) && !d.mission && d.missionCount % 2 == 0
    ensures Finish(d, OuterBefore)
            == if RouteReadable(d)
               then d.(model := ApplyRoute(d.model, StagedRoute(d)), appliedRoute := Some(StagedRoute(d)))
               else d.(mission := true)
  {
    ParityOfWord(d.missionCount);
    FinishStep(d, OuterBefore);
    var all := StagedRoute(d).coords;
    if RouteReadable(d) {
      PointsFinish(d, COORDS);
      assert all[..COORDS] == all;
      FinishStep(d, LoadSegments(d.missionCount, all, true));
      FinishStep(d, OuterAfter(d.missionCount, all, d.segments));
    } else {
      var k := FirstUnsettled(d, 0);
      PointsFinish(d, k);
      PointFinishes(d, d.missionCount, all[..k]);
      GivesUp(d, d.missionCount, all[..k]);
    }
  }

  function FirstUnsettled(d: Data, from: nat): (k: nat)
    requires DataShape(d) && from <= COORDS && (forall k | 0 <= k < from :: d.way[k].Settled())
    requires exists k :: 0 <= k < COORDS && !d.way[k].Settled()
    ensures k < COORDS && !d.way[k].Settled() && forall j | 0 <= j < k :: d.way[j].Settled()
    decreases COORDS - from
  {
    if from < COORDS && !d.way[from].Settled() then from else FirstUnsettled(d, from + 1)
  }

  lemma MissionFinishes(d: Data)
    requires DataShape(d)
    ensures Finish(d, TestMission) == ApplyMission(d)
  {
    ParityOfWord(d.missionCount);
    FinishStep(d, TestMission);
    if d.mission {
      var e := d.(mission := false);
      if d.missionCount % 2 == 0 {
        RouteFinishes(e);
        assert StagedRoute(e) == StagedRoute(d);
      } else {
        FinishStep(e, OuterBefore);
        GivesUp(e, e.missionCount, []);
      }
    }
  }

  /** The controller running alone computes exactly Apply. */
  lemma AloneIsApply(d: Data)
    requires DataShape(d)
    ensures Finish(d, TestFlag(0)) == Apply(d)
  {
    ValuesFinish(d, PARAMS);
    MissionFinishes(ApplyValues(d, PARAMS));
  }

  // ----------------------------------------------------- a handler on its own

  /** The data when a handler that has the lock, running alone, replies. */
  function FinishHandler(d: Data, pc: Pc): Data
    requires DataShape(d) && PcShape(pc)
    decreases ThreadLeft(pc)
  {
    if pc.Done? then d
    else
      HandlerAdvances(d, false, pc);
      FinishHandler(ThreadData(d, pc), ThreadPc(d, false, pc))
  }

  lemma HandlerStep(d: Data, pc: Pc)
    requires DataShape(d) && PcShape(pc) && !pc.Done?
    ensures FinishHandler(d, pc) == FinishHandler(ThreadData(d, pc), ThreadPc(d, false, pc))
  {
    HandlerAdvances(d, false, pc);
  }

  function WithPend(d: Data, i: nat, cell: Cell): (d': Data)
    requires DataShape(d) && i < PARAMS
    ensures DataShape(d') && d'.pend[i] == cell
  {
    d.(pend := d.pend[i := cell])
  }

  lemma SetStoreStep(d: Data, i: nat, cell: Cell, v: Double, phase: StorePhase)
    requires DataShape(d) && i < PARAMS && IsFinite(v) && !phase.Stored?
    ensures FinishHandler(WithPend(d, i, cell), SetStore(i, v, phase))
            == FinishHandler(WithPend(d, i, StoreStep(cell, v, phase)),
                             if phase.Lower? then SetFlag(i, v) else SetStore(i, v, AfterStore(phase)))
  {
    hide IsFinite;
    var e := WithPend(d, i, cell);
    HandlerStep(e, SetStore(i, v, phase));
    assert e.pend[i := StoreStep(cell, v, phase)] == d.pend[i := StoreStep(cell, v, phase)];
  }

  lemma SetStoresAlone(d: Data, i: nat, v: Double)
    requires DataShape(d) && i < PARAMS && IsFinite(v)
    ensures FinishHandler(d, SetStore(i, v, Raise)) == FinishHandler(WithPend(d, i, Store(d.pend[i], v)), SetFlag(i, v))
  {
    hide FinishHandler, StoreStep, Store, IsFinite, ModelShape;
    assert WithPend(d, i, d.pend[i]) == d;
    assert PcShape(SetStore(i, v, Raise)) && PcShape(SetFlag(i, v));
    hide WithPend, PcShape;
    var c1 := StoreStep(d.pend[i], v, Raise);
    var c2 := StoreStep(c1, v, PutLow);
    var c3 := StoreStep(c2, v, PutHigh);
    SetStoreStep(d, i, d.pend[i], v, Raise);
    SetStoreStep(d, i, c1, v, PutLow);
    SetStoreStep(d, i, c2, v, PutHigh);
    SetStoreStep(d, i, c3, v, Lower);
    StoreSteps(d.pend[i], v);
  }

  lemma SetTryAlone(d: Data, i: nat, v: Double)
    requires DataShape(d) && i < PARAMS && IsFinite(v)
    ensures FinishHandler(d, SetTry(i, v)) == FinishHandler(d, SetStore(i, v, Raise))
  {
    HandlerStep(d, SetTry(i, v));
  }

  /** A param_set that gets the lock and runs alone computes exactly StageValue. */
  lemma AloneIsStageValue(d: Data, i: nat, v: Double)
    requires DataShape(d) && i < PARAMS && IsFinite(v)
    ensures FinishHandler(d, SetTry(i, v)) == StageValue(d, i, v)
  {
    hide FinishHandler;
    SetTryAlone(d, i, v);
    SetStoresAlone(d, i, v);
    SetFlagStep(d.(pend := d.pend[i := Store(d.pend[i], v)]), i, v);
  }

  lemma SetFlagStep(d: Data, i: nat, v: Double)
    requires DataShape(d) && i < PARAMS && IsFinite(v)
    ensures FinishHandler(d, SetFlag(i, v)) == d.(flags := d.flags[i := true])
  {
    HandlerStep(d, SetFlag(i, v));
    HandlerStep(d.(flags := d.flags[i := true]), SetUnlock(v));
  }

  function WithWay(d: Data, k: nat, cell: Cell): (d': Data)
    requires DataShape(d) && k < COORDS
    ensures DataShape(d') && d'.way[k] == cell
  {
    d.(way := d.way[k := cell])
  }

  lemma PointStep(d: Data, q: RouteRequest, version: Word, k: nat, cell: Cell, phase: StorePhase)
    requires DataShape(d) && ValidRoute(q.route) && k < COORDS && !phase.Stored?
    ensures FinishHandler(WithWay(d, k, cell), RouteStore(q, version, k, phase))
            == FinishHandler(WithWay(d, k, StoreStep(cell, q.route.coords[k], phase)), AfterPoint(q, version, k, phase))
  {
    hide IsFinite;
    var e := WithWay(d, k, cell);
    HandlerStep(e, RouteStore(q, version, k, phase));
    assert e.way[k := StoreStep(cell, q.route.coords[k], phase)]
           == d.way[k := StoreStep(cell, q.route.coords[k], phase)];
  }

  function AtPoint(q: RouteRequest, version: Word, k: nat): Pc {
    if k < COORDS then RouteStore(q, version, k, Raise) else RouteSegments(q, version)
  }

  lemma PointAlone(d: Data, q: RouteRequest, version: Word, k: nat)
    requires DataShape(d) && ValidRoute(q.route) && k < COORDS
    ensures FinishHandler(d, AtPoint(q, version, k))
            == FinishHandler(WithWay(d, k, Store(d.way[k], q.route.coords[k])), AtPoint(q, version, k + 1))
  {
    assert WithWay(d, k, d.way[k]) == d;
    hide FinishHandler, WithWay, StoreStep, Store, IsFinite, ModelShape;
    var v := q.route.coords[k];
    var c1 := StoreStep(d.way[k], v, Raise);
    var c2 := StoreStep(c1, v, PutLow);
    var c3 := StoreStep(c2, v, PutHigh);
    PointStep(d, q, version, k, d.way[k], Raise);
    PointStep(d, q, version, k, c1, PutLow);
    PointStep(d, q, version, k, c2, PutHigh);
    PointStep(d, q, version, k, c3, Lower);
    StoreSteps(d.way[k], v);
  }

  /** The first n waypoint coordinates stored. */
  function StoredUpTo(d: Data, r: Route, n: nat): (d': Data)
    requires DataShape(d) && RouteShape(r) && n <= COORDS
    ensures DataShape(d')
  {
    d.(way := seq(COORDS, k requires 0 <= k < COORDS => if k < n then Store(d.way[k], r.coords[k]) else d.way[k]))
  }

  lemma StoredOneMore(d: Data, r: Route, n: nat)
    requires DataShape(d) && RouteShape(r) && 0 < n <= COORDS
    ensures var e := StoredUpTo(d, r, n - 1);
            WithWay(e, n - 1, Store(e.way[n - 1], r.coords[n - 1])) == StoredUpTo(d, r, n)
  {
    var e := StoredUpTo(d, r, n - 1);
    assert e.way[n - 1 := Store(e.way[n - 1], r.coords[n - 1])] == StoredUpTo(d, r, n).way;
  }

  lemma {:induction false} PointsAlone(d: Data, q: RouteRequest, version: Word, n: nat)
    requires DataShape(d) && ValidRoute(q.route) && n <= COORDS
    ensures FinishHandler(d, AtPoint(q, version, 0)) == FinishHandler(StoredUpTo(d, q.route, n), AtPoint(q, version, n))
  {
    if n == 0 {
      assert StoredUpTo(d, q.route, 0).way == d.way;
    } else {
      hide FinishHandler, StoredUpTo, WithWay, Store, PcShape, ModelShape;
      PointsAlone(d, q, version, n - 1);
      var e := StoredUpTo(d, q.route, n - 1);
      PointAlone(e, q, version, n - 1);
      StoredOneMore(d, q.route, n);
    }
  }

  lemma UnlockAlone(d: Data, q: RouteRequest, version: Word)
    requires DataShape(d)
    ensures FinishHandler(d, RouteUnlock(q, version)) == d
  {
    HandlerStep(d, RouteUnlock(q, version));
  }

  lemma PublishAlone(d: Data, q: RouteRequest, version: Word)
    requires DataShape(d) && ValidRoute(q.route)
    ensures FinishHandler(d, RoutePublish(q, version)) == d.(version := NextVersion(version))
  {
    HandlerStep(d, RoutePublish(q, version));
    UnlockAlone(d.(version := NextVersion(version)), q, NextVersion(version));
  }

  lemma FlagAlone(d: Data, q: RouteRequest, version: Word)
    requires DataShape(d) && ValidRoute(q.route)
    ensures FinishHandler(d, RouteFlag(q, version)) == d.(mission := true, version := NextVersion(version))
  {
    HandlerStep(d, RouteFlag(q, version));
    PublishAlone(d.(mission := true), q, version);
  }

  lemma CloseAlone(d: Data, q: RouteRequest, version: Word)
    requires DataShape(d) && ValidRoute(q.route)
    ensures FinishHandler(d, RouteClose(q, version))
            == d.(missionCount := d.missionCount + 1, mission := true, version := NextVersion(version))
  {
    HandlerStep(d, RouteClose(q, version));
    FlagAlone(d.(missionCount := d.missionCount + 1), q, version);
  }

  lemma TailAlone(d: Data, q: RouteRequest, version: Word)
    requires DataShape(d) && ValidRoute(q.route)
    ensures FinishHandler(d, RouteSegments(q, version))
            == d.(segments := q.route.segments, missionCount := d.missionCount + 1, mission := true,
                  version := NextVersion(version))
  {
    HandlerStep(d, RouteSegments(q, version));
    CloseAlone(d.(segments := q.route.segments), q, version);
  }

  lemma OpenAlone(d: Data, q: RouteRequest, version: Word)
    requires DataShape(d) && ValidRoute(q.route)
    ensures FinishHandler(d, RouteOpen(q, version))
            == FinishHandler(d.(missionCount := d.missionCount + 1), AtPoint(q, version, 0))
  {
    HandlerStep(d, RouteOpen(q, version));
  }

  lemma CheckAlone(d: Data, q: RouteRequest)
    requires DataShape(d) && ValidRoute(q.route)
    ensures FinishHandler(d, RouteCheck(q))
            == if q.expected != 0 && q.expected != d.version then FinishHandler(d, RouteStale(d.version))
               else FinishHandler(d, RouteOpen(q, d.version))
  {
    HandlerStep(d, RouteCheck(q));
  }

  lemma StaleAlone(d: Data, version: Word)
    requires DataShape(d)
    ensures FinishHandler(d, RouteStale(version)) == d
  {
    HandlerStep(d, RouteStale(version));
  }

  lemma TryAlone(d: Data, q: RouteRequest)
    requires DataShape(d) && ValidRoute(q.route)
    ensures FinishHandler(d, RouteTry(q)) == FinishHandler(d, RouteCheck(q))
  {
    HandlerStep(d, RouteTry(q));
  }

  lemma HeadAlone(d: Data, q: RouteRequest)
    requires DataShape(d) && ValidRoute(q.route)
    ensures FinishHandler(d, RouteTry(q))
            == if q.expected != 0 && q.expected != d.version then d
               else FinishHandler(d.(missionCount := d.missionCount + 1), AtPoint(q, d.version, 0))
  {
    hide FinishHandler;
    TryAlone(d, q);
    CheckAlone(d, q);
    StaleAlone(d, d.version);
    OpenAlone(d, q, d.version);
  }

  /** A trajectory_set that gets the lock and runs alone computes exactly StageRoute, or nothing if its version is
      stale. */
  lemma AloneIsStageRoute(d: Data, q: RouteRequest)
    requires DataShape(d) && ValidRoute(q.route)
    ensures FinishHandler(d, RouteTry(q))
            == if q.expected != 0 && q.expected != d.version then d else StageRoute(d, q.route)
  {
    hide FinishHandler, ThreadLeft, ThreadData, ThreadPc;
    HeadAlone(d, q);
    if q.expected == 0 || q.expected == d.version {
      var e := d.(missionCount := d.missionCount + 1);
      PointsAlone(e, q, d.version, COORDS);
      TailAlone(StoredUpTo(e, q.route, COORDS), q, d.version);
      assert StoredUpTo(e, q.route, COORDS).way == StageRoute(d, q.route).way;
    }
  }

  // -------------------------------------- apply beside idle or suspended writers

  /** No query thread writes shared data in this stretch: none holds command_writer, or its holder is suspended. */
  ghost predicate WritersSuspended(ss: seq<State>, ls: seq<Label>)
    requires Stretch(ss, ls)
  {
    forall k | 0 <= k < |ls| :: ls[k].Thread? ==> WriterSuspended(ss[k], ls[k], ss[k + 1])
  }

  ghost predicate WriterSuspended(s: State, l: Label, s': State)
    requires Moves(s, l, s') && l.Thread?
  {
    !Critical(s.threads[l.t]) && s'.lock == s.lock
  }

  lemma SuspendedMove(s: State, l: Label, s': State)
    requires Moves(s, l, s') && !s.ctrl.Off? && (l.Thread? ==> WriterSuspended(s, l, s'))
    ensures Finish(s'.data, s'.ctrl) == Finish(s.data, s.ctrl) && s'.lock == s.lock
  {
    if l.Control? {
      FinishStep(s.data, s.ctrl);
    } else if l.Thread? {
      OutsideData(s.data, s.threads[l.t]);
    }
  }

  /** The controller is inside one call from state i up to, not including, state j. */
  ghost predicate Busy(ss: seq<State>, i: nat, j: nat)
    requires i <= j <= |ss|
  {
    forall k | i <= k < j :: !ss[k].ctrl.Off?
  }

  lemma {:induction false} FinishIsStable(ss: seq<State>, ls: seq<Label>, i: nat, j: nat)
    requires Stretch(ss, ls) && WritersSuspended(ss, ls) && i <= j <= |ls| && Busy(ss, i, j)
    ensures Shape(ss[i]) && Shape(ss[j])
    ensures Finish(ss[j].data, ss[j].ctrl) == Finish(ss[i].data, ss[i].ctrl)
    decreases j
  {
    if i < j {
      var n := j - 1;
      FinishIsStable(ss, ls, i, n);
      assert Moves(ss[n], ls[n], ss[n + 1]);
      SuspendedMove(ss[n], ls[n], ss[n + 1]);
    } else if i < |ls| {
      assert Moves(ss[i], ls[i], ss[i + 1]);
    } else if 0 < |ls| {
      assert Moves(ss[i - 1], ls[i - 1], ss[i - 1 + 1]);
    }
  }

  /** One whole apply, with readers interleaved and any writer suspended wherever it is, computes Apply. */
  lemma ApplyBesideSuspended(ss: seq<State>, ls: seq<Label>, i: nat, j: nat)
    requires Stretch(ss, ls) && WritersSuspended(ss, ls) && i <= j <= |ls|
    requires ss[i].ctrl == TestFlag(0) && Busy(ss, i, j) && ss[j].ctrl.Off?
    ensures Shape(ss[i]) && ss[j].data == Apply(ss[i].data)
  {
    FinishIsStable(ss, ls, i, j);
    AloneIsApply(ss[i].data);
  }

  /** One apply with no writer in the critical section makes the model equal to the last commits, for every
      parameter and the route. */
  lemma QuietApplyCatchesUp(ss: seq<State>, ls: seq<Label>, a: Spec)
    requires Stretch(ss, ls) && WritersSuspended(ss, ls) && Inv(ss[0], a) && ss[0].lock.None?
    requires ss[0].ctrl == TestFlag(0) && Busy(ss, 0, |ls|) && ss[|ls|].ctrl.Off?
    ensures var d' := ss[|ls|].data;
            && DataShape(d')
            && (forall i | 0 <= i < PARAMS ::
                  d'.model.leaf[i] == d'.model.mirror[i] == d'.live[i].Value() == Latest(a, i) && !d'.flags[i])
            && (0 < |a.routes| ==> d'.model.route == d'.model.guidanceRoute == TableOf(LastRoute(a)))
            && !d'.mission
  {
    ApplyBesideSuspended(ss, ls, 0, |ls|);
    QuietApply(ss[0].data, a, ss[0].initial);
  }

  lemma QuietApply(d: Data, a: Spec, initial: Model)
    requires DataInv(d, a, RouteBusy, TestFlag(0), initial)
    ensures var d' := Apply(d);
            && (forall i | 0 <= i < PARAMS ::
                  d'.model.leaf[i] == d'.model.mirror[i] == d'.live[i].Value() == Latest(a, i) && !d'.flags[i])
            && (0 < |a.routes| ==> d'.model.route == d'.model.guidanceRoute == TableOf(LastRoute(a)))
            && !d'.mission
  {
    ApplyValuesFields(d, PARAMS);
    var e := ApplyValues(d, PARAMS);
    forall i | 0 <= i < PARAMS
      ensures e.model.leaf[i] == e.model.mirror[i] == Latest(a, i) && e.live[i].Value() == Latest(a, i) && !e.flags[i]
    {
      assert AppliedUpTo(d, e, PARAMS, i);
      QuietValue(d, a, initial, i);
    }
    QuietRoute(d, a, RouteBusy);
    assert StagedRoute(e) == StagedRoute(d);
  }

  lemma QuietValue(d: Data, a: Spec, initial: Model, i: nat)
    requires DataInv(d, a, RouteBusy, TestFlag(0), initial) && i < PARAMS
    ensures d.pend[i].Settled() && d.pend[i].Value() == Latest(a, i)
    ensures !d.flags[i] ==> d.model.leaf[i] == d.model.mirror[i] == Latest(a, i) && d.live[i].Value() == Latest(a, i)
  {
    assert PendCell(d.pend[i], Latest(a, i), RouteBusy, i) && ValueOk(d, a, TestFlag(0), initial, i);
    assert ValueKept(a.taken[i], |a.log[i]|, d.flags[i], RouteBusy, TestFlag(0), i);
    assert LiveCell(d.live[i], a.shown[i], d.applied[i], TestFlag(0), i);
  }

  lemma QuietRoute(d: Data, a: Spec, h: Pc)
    requires DataShape(d) && SpecShape(a) && PcShape(h) && RouteInv(d, a, h) && !MidRoute(h)
    ensures RouteReadable(d)
    ensures 0 < |a.routes| ==> StagedRoute(d) == LastRoute(a)
  {
    forall k | 0 <= k < COORDS
      ensures d.way[k].Settled()
      ensures 0 < |a.routes| ==> |LastRoute(a).coords| == COORDS && StagedRoute(d).coords[k] == LastRoute(a).coords[k]
    {
      assert WayCell(d.way[k], a, h, k);
    }
    if 0 < |a.routes| {
      assert StagedRoute(d).coords == LastRoute(a).coords;
    }
  }

  /** Parameter i is as it was: field, mirror, answer, record and flag. */
  ghost predicate Untouched(d: Data, d': Data, i: nat)
    requires DataShape(d) && DataShape(d') && i < PARAMS
  {
    && d'.model.leaf[i] == d.model.leaf[i] && d'.model.mirror[i] == d.model.mirror[i]
    && d'.live[i] == d.live[i] && d'.applied[i] == d.applied[i] && d'.flags[i] == d.flags[i]
  }

  /** Parameter i flies its latest commit everywhere and is no longer pending. */
  ghost predicate Taken(d': Data, a: Spec, i: nat)
    requires DataShape(d') && SpecShape(a) && i < PARAMS
  {
    && d'.model.leaf[i] == d'.model.mirror[i] == d'.live[i].Value() == Latest(a, i)
    && d'.applied[i] == Some(Latest(a, i)) && !d'.flags[i]
  }

  lemma ValueBesideHolder(d: Data, a: Spec, h: Pc, i: nat)
    requires DataShape(d) && SpecShape(a) && PcShape(h) && i < PARAMS && PendCell(d.pend[i], Latest(a, i), h, i)
    requires AppliedUpTo(d, ApplyValues(d, PARAMS), PARAMS, i)
    ensures var d' := ApplyValues(d, PARAMS);
            if h.SetStore? && h.index == i then !h.phase.Raise? ==> Untouched(d, d', i)
            else if d.flags[i] then Taken(d', a, i)
            else Untouched(d, d', i)
  {
    hide ApplyValues, IsFinite, Join;
    if h.SetStore? && h.index == i && !h.phase.Raise? {
      assert !d.pend[i].Settled();
    }
  }

  /** What apply makes of the parameters beside a holder that may be inside the store to one of them. */
  lemma ValuesBesideHolder(d: Data, a: Spec, h: Pc)
    requires DataShape(d) && SpecShape(a) && PcShape(h) && PendInv(d, a, h)
    ensures var d' := ApplyValues(d, PARAMS);
            forall i | 0 <= i < PARAMS && !(h.SetStore? && h.index == i) ::
              if d.flags[i] then Taken(d', a, i) else Untouched(d, d', i)
    ensures h.SetStore? && !h.phase.Raise? ==> h.index < PARAMS && Untouched(d, ApplyValues(d, PARAMS), h.index)
  {
    hide ApplyValues, AppliedUpTo, Taken, Untouched, PendCell, PcShape;
    ApplyValuesFields(d, PARAMS);
    forall i | 0 <= i < PARAMS
      ensures var d' := ApplyValues(d, PARAMS);
              if h.SetStore? && h.index == i then !h.phase.Raise? ==> Untouched(d, d', i)
              else if d.flags[i] then Taken(d', a, i)
              else Untouched(d, d', i)
    {
      assert AppliedUpTo(d, ApplyValues(d, PARAMS), PARAMS, i) && PendCell(d.pend[i], Latest(a, i), h, i);
      ValueBesideHolder(d, a, h, i);
    }
    if h.SetStore? && !h.phase.Raise? {
      SetIndex(h);
    }
  }

  lemma SetIndex(h: Pc)
    requires PcShape(h) && h.SetStore?
    ensures h.index < PARAMS
  {
  }

  /** A param_set suspended inside a store costs only what it was writing: apply leaves that parameter as it was and
      still pending, and takes every other flagged parameter and a flagged route. */
  lemma SuspendedParamSet(ss: seq<State>, ls: seq<Label>, a: Spec)
    requires Stretch(ss, ls) && WritersSuspended(ss, ls) && Inv(ss[0], a)
    requires Holder(ss[0]).SetStore? && !Holder(ss[0]).phase.Raise?
    requires ss[0].ctrl == TestFlag(0) && Busy(ss, 0, |ls|) && ss[|ls|].ctrl.Off?
    ensures var d, d', held := ss[0].data, ss[|ls|].data, Holder(ss[0]).index;
            && DataShape(d') && held < PARAMS && Untouched(d, d', held)
            && (forall i | 0 <= i < PARAMS && i != held :: if d.flags[i] then Taken(d', a, i) else Untouched(d, d', i))
            && (d.mission ==> 0 < |a.routes| && RouteShape(LastRoute(a)) && d'.appliedRoute == Some(LastRoute(a))
                              && d'.model.route == d'.model.guidanceRoute == TableOf(LastRoute(a)))
            && (!d.mission ==> d'.appliedRoute == d.appliedRoute
                               && d'.model == d.model.(leaf := d'.model.leaf, mirror := d'.model.mirror))
            && !d'.mission
  {
    hide ApplyRoute, ApplyValues, TableOf, PendInv, WayInv;
    ApplyBesideSuspended(ss, ls, 0, |ls|);
    var d, h := ss[0].data, Holder(ss[0]);
    ValuesBesideHolder(d, a, h);
    RouteBesideHolder(d, a, h);
  }

  /** With no trajectory_set in its commit, apply takes a flagged route. */
  lemma RouteBesideHolder(d: Data, a: Spec, h: Pc)
    requires DataShape(d) && SpecShape(a) && PcShape(h) && RouteInv(d, a, h) && !MidRoute(h)
    requires RouteKept(d, a, h, TestFlag(0))
    ensures var e, d' := ApplyValues(d, PARAMS), Apply(d);
            && d'.pend == e.pend && d'.flags == e.flags && d'.live == e.live && d'.applied == e.applied
            && d'.model.leaf == e.model.leaf && d'.model.mirror == e.model.mirror
            && (d.mission ==> 0 < |a.routes| && RouteShape(LastRoute(a)) && d'.appliedRoute == Some(LastRoute(a))
                              && d'.model.route == d'.model.guidanceRoute == TableOf(LastRoute(a)))
            && (!d.mission ==> d'.appliedRoute == d.appliedRoute
                               && d'.model == d.model.(leaf := d'.model.leaf, mirror := d'.model.mirror))
            && !d'.mission
  {
    ApplyValuesFields(d, PARAMS);
    QuietRoute(d, a, h);
    assert StagedRoute(ApplyValues(d, PARAMS)) == StagedRoute(d);
  }

  /** A trajectory_set suspended while it replaces the route leaves tables, legs, record and flag of the route as they
      were; apply still takes every flagged parameter. */
  lemma SuspendedTrajectorySet(ss: seq<State>, ls: seq<Label>, a: Spec)
    requires Stretch(ss, ls) && WritersSuspended(ss, ls) && Inv(ss[0], a) && MidRoute(Holder(ss[0]))
    requires ss[0].ctrl == TestFlag(0) && Busy(ss, 0, |ls|) && ss[|ls|].ctrl.Off?
    ensures var d, d' := ss[0].data, ss[|ls|].data;
            && DataShape(d')
            && d'.model == d.model.(leaf := d'.model.leaf, mirror := d'.model.mirror)
            && d'.mission == d.mission && d'.appliedRoute == d.appliedRoute
            && forall i | 0 <= i < PARAMS :: if d.flags[i] then Taken(d', a, i) else Untouched(d, d', i)
  {
    ApplyBesideSuspended(ss, ls, 0, |ls|);
    ApplyValuesFields(ss[0].data, PARAMS);
    ValuesBesideHolder(ss[0].data, a, Holder(ss[0]));
  }
}
