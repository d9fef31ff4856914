/** Every run of the step machine is a run of the atomic machine. */
module StagingRefinement {
  import opened Words
  import opened AtomicDouble
  import opened AtomicStaging
  import opened StagingSystem
  import opened StagingInvariant

  lemma InitInv(m: Model)
    requires ModelShape(m) && m.leaf == m.mirror
    ensures Inv(InitState(m), InitSpec(m))
  {
    forall i | 0 <= i < PARAMS ensures NewCell(m.leaf[i]).Value() == m.leaf[i] {
      JoinOfSplit(m.leaf[i]);
    }
  }

  // ---------------------------------------- operations inside the critical section

  /** An operation of the holder, or the test-and-set by which a thread becomes it. */
  ghost predicate HolderMove(d: Data, a: Spec, pc: Pc) {
    && DataShape(d) && SpecShape(a) && PcShape(pc)
    && (Critical(pc) || pc.SetTry? || pc.RouteTry?)
    && VersionInv(d, a, Inside(pc))
  }

  lemma HolderPend(d: Data, a: Spec, pc: Pc)
    requires HolderMove(d, a, pc) && PendInv(d, a, Inside(pc))
    ensures Allowed(a, ThreadEvent(d, pc))
    ensures PendInv(ThreadData(d, pc), SpecNext(a, ThreadEvent(d, pc)), Inside(ThreadPc(d, false, pc)))
  {
    if pc.SetStore? {
      StoreAdvances(d.pend[pc.index], Latest(a, pc.index), pc.value, pc.phase);
    }
  }

  lemma HolderWayCell(d: Data, a: Spec, pc: Pc, k: nat)
    requires HolderMove(d, a, pc) && k < COORDS
    requires forall n | 0 <= n < |a.routes| :: ValidRoute(a.routes[n].route)
    requires WayCell(d.way[k], a, Inside(pc), k)
    ensures Allowed(a, ThreadEvent(d, pc))
    ensures WayCell(ThreadData(d, pc).way[k], SpecNext(a, ThreadEvent(d, pc)), Inside(ThreadPc(d, false, pc)), k)
  {
    hide IsFinite, ModelShape, VersionAfter, NextVersion, Join;
    if pc.RouteStore? && pc.k == k {
      StoreAdvances(d.way[k], d.way[k].Value(), pc.request.route.coords[k], pc.phase);
    }
  }

  lemma HolderWay(d: Data, a: Spec, pc: Pc)
    requires HolderMove(d, a, pc) && WayInv(d, a, Inside(pc))
    requires forall n | 0 <= n < |a.routes| :: ValidRoute(a.routes[n].route)
    ensures Allowed(a, ThreadEvent(d, pc)) && PcShape(Inside(ThreadPc(d, false, pc)))
    ensures DataShape(ThreadData(d, pc))
    ensures WayInv(ThreadData(d, pc), SpecNext(a, ThreadEvent(d, pc)), Inside(ThreadPc(d, false, pc)))
  {
    var d', a', h' := ThreadData(d, pc), SpecNext(a, ThreadEvent(d, pc)), Inside(ThreadPc(d, false, pc));
    forall k | 0 <= k < COORDS ensures WayCell(d'.way[k], a', h', k) {
      HolderWayCell(d, a, pc, k);
    }
  }

  lemma HolderMission(d: Data, a: Spec, pc: Pc)
    requires HolderMove(d, a, pc) && RouteInv(d, a, Inside(pc))
    ensures Allowed(a, ThreadEvent(d, pc))
    ensures var d', a', h' := ThreadData(d, pc), SpecNext(a, ThreadEvent(d, pc)), Inside(ThreadPc(d, false, pc));
            MissionInv(d', a', h')
  {
    hide IsFinite, ModelShape, VersionAfter, NextVersion, WayInv, StoreStep;
  }

  lemma HolderVersion(d: Data, a: Spec, pc: Pc)
    requires HolderMove(d, a, pc)
    ensures Allowed(a, ThreadEvent(d, pc))
    ensures VersionInv(ThreadData(d, pc), SpecNext(a, ThreadEvent(d, pc)), Inside(ThreadPc(d, false, pc)))
  {
    NextAfter(a.published);
  }

  lemma HolderKeepsValue(d: Data, a: Spec, pc: Pc, c: Ctrl, i: nat)
    requires HolderMove(d, a, pc) && Allowed(a, ThreadEvent(d, pc)) && i < PARAMS
    requires ValueKept(a.taken[i], |a.log[i]|, d.flags[i], Inside(pc), c, i)
    ensures var d', a' := ThreadData(d, pc), SpecNext(a, ThreadEvent(d, pc));
            ValueKept(a'.taken[i], |a'.log[i]|, d'.flags[i], Inside(ThreadPc(d, false, pc)), c, i)
  {
  }

  lemma HolderKeepsRoute(d: Data, a: Spec, pc: Pc, c: Ctrl)
    requires HolderMove(d, a, pc) && Allowed(a, ThreadEvent(d, pc)) && RouteKept(d, a, Inside(pc), c)
    ensures RouteKept(ThreadData(d, pc), SpecNext(a, ThreadEvent(d, pc)), Inside(ThreadPc(d, false, pc)), c)
  {
  }

  lemma HolderLosesNothing(d: Data, a: Spec, pc: Pc, c: Ctrl)
    requires HolderMove(d, a, pc) && Allowed(a, ThreadEvent(d, pc)) && NothingLost(d, a, Inside(pc), c)
    ensures NothingLost(ThreadData(d, pc), SpecNext(a, ThreadEvent(d, pc)), Inside(ThreadPc(d, false, pc)), c)
  {
    hide ThreadData, ThreadPc, ThreadEvent, SpecNext, ValueKept, RouteKept, VersionInv, Allowed;
    var d', a', h' := ThreadData(d, pc), SpecNext(a, ThreadEvent(d, pc)), Inside(ThreadPc(d, false, pc));
    HolderKeepsRoute(d, a, pc, c);
    forall i | 0 <= i < PARAMS ensures ValueKept(a'.taken[i], |a'.log[i]|, d'.flags[i], h', c, i) {
      HolderKeepsValue(d, a, pc, c, i);
    }
  }

  lemma HolderCtrl(d: Data, a: Spec, pc: Pc, c: Ctrl)
    requires HolderMove(d, a, pc) && PendInv(d, a, Inside(pc)) && RouteInv(d, a, Inside(pc)) && CtrlInv(d, a, c)
    ensures Allowed(a, ThreadEvent(d, pc))
    ensures CtrlInv(ThreadData(d, pc), SpecNext(a, ThreadEvent(d, pc)), c)
  {
    hide IsFinite, ModelShape, VersionAfter, NextVersion, Join;
  }

  lemma HolderLeavesModel(d: Data, a: Spec, pc: Pc)
    requires HolderMove(d, a, pc) && Allowed(a, ThreadEvent(d, pc))
    ensures var d', a' := ThreadData(d, pc), SpecNext(a, ThreadEvent(d, pc));
            && d'.model == d.model && d'.live == d.live && d'.applied == d.applied && d'.appliedRoute == d.appliedRoute
            && a'.taken == a.taken && a'.shown == a.shown && a'.routeTaken == a.routeTaken && a.routes <= a'.routes
            && forall i | 0 <= i < PARAMS :: a.log[i] <= a'.log[i]
  {
    EventExtends(a, ThreadEvent(d, pc));
  }

  lemma HolderModel(d: Data, a: Spec, pc: Pc, c: Ctrl, initial: Model)
    requires HolderMove(d, a, pc) && Allowed(a, ThreadEvent(d, pc)) && ModelShape(initial)
    requires LiveInv(d, a, c) && ValuesInv(d, a, c, initial) && TablesInv(d, a, c, initial)
    ensures var d', a' := ThreadData(d, pc), SpecNext(a, ThreadEvent(d, pc));
            LiveInv(d', a', c) && ValuesInv(d', a', c, initial) && TablesInv(d', a', c, initial)
  {
    hide ThreadData, ThreadPc, ThreadEvent, SpecNext, VersionInv, Allowed;
    var d', a' := ThreadData(d, pc), SpecNext(a, ThreadEvent(d, pc));
    HolderLeavesModel(d, a, pc);
    forall i | 0 <= i < PARAMS ensures ValueOk(d', a', c, initial, i) {
      assert ValueOk(d, a, c, initial, i) && Current(a', i) == Current(a, i);
    }
  }

  /** Everything the invariant says about the data, with the holder's code position as a parameter. */
  ghost predicate DataInv(d: Data, a: Spec, h: Pc, c: Ctrl, initial: Model) {
    && DataShape(d) && SpecShape(a) && PcShape(h) && CtrlShape(c) && ModelShape(initial)
    && PendInv(d, a, h) && RouteInv(d, a, h) && VersionInv(d, a, h)
    && NothingLost(d, a, h, c) && CtrlInv(d, a, c)
    && LiveInv(d, a, c) && ValuesInv(d, a, c, initial) && TablesInv(d, a, c, initial)
  }

  lemma HolderData(d: Data, a: Spec, pc: Pc, c: Ctrl, initial: Model)
    requires PcShape(pc) && (Critical(pc) || pc.SetTry? || pc.RouteTry?)
    requires DataInv(d, a, Inside(pc), c, initial)
    ensures Allowed(a, ThreadEvent(d, pc))
    ensures DataInv(ThreadData(d, pc), SpecNext(a, ThreadEvent(d, pc)), Inside(ThreadPc(d, false, pc)), c, initial)
  {
    hide ThreadData, ThreadPc, ThreadEvent, SpecNext, ValueKept, RouteKept, WayInv, LiveInv, ValuesInv, TablesInv,
         CtrlInv, VersionInv, PendInv, Allowed;
    HolderPend(d, a, pc);
    HolderWay(d, a, pc);
    HolderMission(d, a, pc);
    HolderVersion(d, a, pc);
    HolderLosesNothing(d, a, pc, c);
    HolderCtrl(d, a, pc, c);
    HolderModel(d, a, pc, c, initial);
  }

  // ------------------------------------------------- operations of the controller

  ghost predicate CtrlMove(d: Data, a: Spec, h: Pc, c: Ctrl) {
    && DataShape(d) && SpecShape(a) && PcShape(h) && CtrlShape(c)
    && NothingLost(d, a, h, c) && CtrlInv(d, a, c) && CtrlNoWrap(d, c)
    && PendInv(d, a, h) && RouteInv(d, a, h)
  }

  lemma CtrlEventAllowed(d: Data, a: Spec, h: Pc, c: Ctrl)
    requires DataShape(d) && SpecShape(a) && CtrlShape(c) && RouteKept(d, a, h, c)
    ensures Allowed(a, CtrlEvent(d, c))
  {
  }

  lemma StagedFrame(d: Data, a: Spec, d': Data, a': Spec, h: Pc)
    requires DataShape(d) && SpecShape(a) && DataShape(d') && SpecShape(a') && PcShape(h)
    requires PendInv(d, a, h) && RouteInv(d, a, h) && VersionInv(d, a, h)
    requires d'.pend == d.pend && d'.way == d.way && d'.segments == d.segments
    requires d'.missionCount == d.missionCount && d'.version == d.version
    requires a'.log == a.log && a'.routes == a.routes && a'.published == a.published
    ensures PendInv(d', a', h) && RouteInv(d', a', h) && VersionInv(d', a', h)
  {
    forall i | 0 <= i < PARAMS ensures PendCell(d'.pend[i], Latest(a', i), h, i) {
      assert PendCell(d.pend[i], Latest(a, i), h, i);
    }
    forall k | 0 <= k < COORDS ensures WayCell(d'.way[k], a', h, k) {
      assert WayCell(d.way[k], a, h, k);
    }
  }

  /** The controller never writes what the query threads stage, except the two kinds of flag. */
  lemma CtrlLeavesStaged(d: Data, a: Spec, c: Ctrl)
    requires DataShape(d) && CtrlShape(c) && SpecShape(a) && Allowed(a, CtrlEvent(d, c))
    ensures var d', a' := CtrlData(d, c), SpecNext(a, CtrlEvent(d, c));
            && a'.log == a.log && a'.routes == a.routes && a'.published == a.published
            && DataShape(d') && d'.pend == d.pend && d'.way == d.way && d'.segments == d.segments
            && d'.missionCount == d.missionCount && d'.version == d.version
  {
  }

  lemma CtrlKeepsValue(d: Data, a: Spec, h: Pc, c: Ctrl, i: nat)
    requires DataShape(d) && SpecShape(a) && CtrlShape(c) && Allowed(a, CtrlEvent(d, c)) && i < PARAMS
    requires ValueKept(a.taken[i], |a.log[i]|, d.flags[i], h, c, i)
    ensures var d', a' := CtrlData(d, c), SpecNext(a, CtrlEvent(d, c));
            ValueKept(a'.taken[i], |a'.log[i]|, d'.flags[i], h, CtrlPc(d, c), i)
  {
  }

  lemma CtrlKeepsRoute(d: Data, a: Spec, h: Pc, c: Ctrl)
    requires DataShape(d) && SpecShape(a) && CtrlShape(c) && Allowed(a, CtrlEvent(d, c)) && RouteKept(d, a, h, c)
    ensures RouteKept(CtrlData(d, c), SpecNext(a, CtrlEvent(d, c)), h, CtrlPc(d, c))
  {
  }

  lemma CtrlLosesNothing(d: Data, a: Spec, h: Pc, c: Ctrl)
    requires DataShape(d) && SpecShape(a) && CtrlShape(c) && Allowed(a, CtrlEvent(d, c)) && NothingLost(d, a, h, c)
    ensures NothingLost(CtrlData(d, c), SpecNext(a, CtrlEvent(d, c)), h, CtrlPc(d, c))
  {
    var d', a', c' := CtrlData(d, c), SpecNext(a, CtrlEvent(d, c)), CtrlPc(d, c);
    CtrlKeepsRoute(d, a, h, c);
    hide RouteKept, ValueKept, CtrlData, SpecNext, CtrlPc, CtrlEvent;
    forall i | 0 <= i < PARAMS
      ensures ValueKept(a'.taken[i], |a'.log[i]|, d'.flags[i], h, c', i)
    {
      CtrlKeepsValue(d, a, h, c, i);
    }
  }

  lemma CtrlReadsPoint(d: Data, a: Spec, h: Pc, c: Ctrl)
    requires DataShape(d) && SpecShape(a) && PcShape(h) && c.LoadPoint? && RouteInv(d, a, h) && CtrlInv(d, a, c)
    ensures CtrlInv(CtrlData(d, c), a, CtrlPc(d, c))
  {
    var cell := d.way[|c.got|];
    assert WayCell(cell, a, h, |c.got|);
    PointAdvances(cell, c.load, c.before == d.missionCount);
  }

  lemma CtrlReads(d: Data, a: Spec, h: Pc, c: Ctrl)
    requires CtrlMove(d, a, h, c)
    ensures Allowed(a, CtrlEvent(d, c))
    ensures CtrlInv(CtrlData(d, c), SpecNext(a, CtrlEvent(d, c)), CtrlPc(d, c))
  {
    hide PendInv, WayInv, PcShape;
    ParityOfWord(d.missionCount);
    match c
    case LoadValue(i, load) => LoadAdvances(d.pend[i], load);
    case LoadPoint(_, _, _) => CtrlReadsPoint(d, a, h, c);
    case _ =>
  }

  /** A route coordinate needs no wrap assumption of its own: the outer sequence already says that nothing changed. */
  lemma PointAdvances(cell: Cell, load: Load, same: bool)
    requires Loading(cell, load) && (same ==> Unchanged(cell, load.phase))
    ensures match LoadStep(cell, load)
            case Going(next) => Loading(cell, next) && (same ==> Unchanged(cell, next.phase))
            case Loaded(v) => same ==> v == cell.Value()
            case GaveUp => true
  {
    ParityOfWord(cell.count);
  }

  /** The value the controller is about to fly is the latest commit. */
  lemma TakesLatest(d: Data, a: Spec, h: Pc, c: Ctrl)
    requires CtrlMove(d, a, h, c) && c.LoadValue? && LoadStep(d.pend[c.i], c.load).Loaded?
    ensures LoadStep(d.pend[c.i], c.load).value == Latest(a, c.i)
  {
    LoadAdvances(d.pend[c.i], c.load);
    assert PendCell(d.pend[c.i], Latest(a, c.i), h, c.i);
  }

  lemma CtrlLive(d: Data, a: Spec, c: Ctrl, i: nat)
    requires DataShape(d) && SpecShape(a) && CtrlShape(c) && Allowed(a, CtrlEvent(d, c)) && i < PARAMS
    requires LiveCell(d.live[i], a.shown[i], d.applied[i], c, i)
    requires c.ShowValue? && c.i == i ==> c.value == Current(a, i)
    requires c.Restore? && c.i == i && d.applied[i].Some? ==> d.applied[i].value == a.shown[i]
    ensures var d', a', c' := CtrlData(d, c), SpecNext(a, CtrlEvent(d, c)), CtrlPc(d, c);
            LiveCell(d'.live[i], a'.shown[i], d'.applied[i], c', i)
  {
    if c.ShowValue? && c.i == i {
      StoreAdvances(d.live[i], a.shown[i], c.value, c.phase);
    } else if c.Restore? && c.i == i && d.applied[i].Some? {
      StoreAdvances(d.live[i], a.shown[i], d.applied[i].value, c.phase);
    }
  }

  lemma ApplyValueOk(d: Data, a: Spec, c: Ctrl, initial: Model, i: nat)
    requires DataShape(d) && SpecShape(a) && CtrlShape(c) && ModelShape(initial) && i < PARAMS && !c.Restore?
    requires Allowed(a, CtrlEvent(d, c)) && ValueOk(d, a, c, initial, i)
    requires c.LoadValue? && LoadStep(d.pend[c.i], c.load).Loaded?
             ==> LoadStep(d.pend[c.i], c.load).value == Latest(a, c.i)
    ensures ValueOk(CtrlData(d, c), SpecNext(a, CtrlEvent(d, c)), CtrlPc(d, c), initial, i)
  {
    hide IsFinite, Join, TableOf, Clamp, Min;
  }

  lemma RestoreValueOk(d: Data, a: Spec, c: Ctrl, initial: Model, i: nat)
    requires DataShape(d) && SpecShape(a) && CtrlShape(c) && ModelShape(initial) && i < PARAMS && c.Restore?
    requires ValueOk(d, a, c, initial, i)
    ensures ValueOk(CtrlData(d, c), a, CtrlPc(d, c), initial, i)
  {
    hide IsFinite, Join, TableOf, Clamp, Min, LoadStep;
  }

  lemma CtrlValue(d: Data, a: Spec, c: Ctrl, initial: Model, i: nat)
    requires DataShape(d) && SpecShape(a) && CtrlShape(c) && ModelShape(initial) && i < PARAMS
    requires Allowed(a, CtrlEvent(d, c)) && ValueOk(d, a, c, initial, i)
    requires c.LoadValue? && LoadStep(d.pend[c.i], c.load).Loaded?
             ==> LoadStep(d.pend[c.i], c.load).value == Latest(a, c.i)
    ensures ValueOk(CtrlData(d, c), SpecNext(a, CtrlEvent(d, c)), CtrlPc(d, c), initial, i)
  {
    hide ValueOk, CtrlData, CtrlPc, LoadStep;
    if c.Restore? {
      RestoreValueOk(d, a, c, initial, i);
    } else {
      ApplyValueOk(d, a, c, initial, i);
    }
  }

  /** The route the controller is about to fly is the latest accepted one, every coordinate of it. */
  lemma TakesLatestRoute(d: Data, a: Spec, h: Pc, c: Ctrl)
    requires CtrlMove(d, a, h, c) && c.OuterAfter? && c.before % TWO_32 == d.missionCount % TWO_32
    ensures 0 < |a.routes| && Route(c.got, c.segs) == LastRoute(a)
  {
    SameCount(c.before, d.missionCount);
  }

  lemma CtrlTables(d: Data, a: Spec, c: Ctrl, initial: Model)
    requires DataShape(d) && SpecShape(a) && CtrlShape(c) && ModelShape(initial)
    requires Allowed(a, CtrlEvent(d, c)) && TablesInv(d, a, c, initial)
    requires c.OuterAfter? && c.before % TWO_32 == d.missionCount % TWO_32 ==> Route(c.got, c.segs) == LastRoute(a)
    ensures TablesInv(CtrlData(d, c), SpecNext(a, CtrlEvent(d, c)), CtrlPc(d, c), initial)
  {
    hide IsFinite, ModelShape, Join, StoreStep, LoadStep, Clamp, Min;
  }

  lemma CtrlValues(d: Data, a: Spec, c: Ctrl, initial: Model)
    requires DataShape(d) && SpecShape(a) && CtrlShape(c) && ModelShape(initial) && Allowed(a, CtrlEvent(d, c))
    requires LiveInv(d, a, c) && ValuesInv(d, a, c, initial)
    requires c.LoadValue? && LoadStep(d.pend[c.i], c.load).Loaded?
             ==> LoadStep(d.pend[c.i], c.load).value == Latest(a, c.i)
    ensures var d', a', c' := CtrlData(d, c), SpecNext(a, CtrlEvent(d, c)), CtrlPc(d, c);
            LiveInv(d', a', c') && ValuesInv(d', a', c', initial)
  {
    var d', a', c' := CtrlData(d, c), SpecNext(a, CtrlEvent(d, c)), CtrlPc(d, c);
    hide LiveCell, CtrlData, CtrlPc, CtrlEvent, SpecNext;
    forall i | 0 <= i < PARAMS
      ensures LiveCell(d'.live[i], a'.shown[i], d'.applied[i], c', i) && ValueOk(d', a', c', initial, i)
    {
      assert LiveCell(d.live[i], a.shown[i], d.applied[i], c, i) && ValueOk(d, a, c, initial, i);
      CtrlLive(d, a, c, i);
      CtrlValue(d, a, c, initial, i);
    }
  }

  /** The controller's read succeeds only with the latest committed data. */
  lemma CtrlTakesLatest(d: Data, a: Spec, h: Pc, c: Ctrl)
    requires CtrlMove(d, a, h, c)
    ensures c.LoadValue? && LoadStep(d.pend[c.i], c.load).Loaded?
            ==> LoadStep(d.pend[c.i], c.load).value == Latest(a, c.i)
    ensures c.OuterAfter? && c.before % TWO_32 == d.missionCount % TWO_32 ==>
              0 < |a.routes| && Route(c.got, c.segs) == LastRoute(a)
  {
    if c.LoadValue? && LoadStep(d.pend[c.i], c.load).Loaded? {
      TakesLatest(d, a, h, c);
    }
    if c.OuterAfter? && c.before % TWO_32 == d.missionCount % TWO_32 {
      TakesLatestRoute(d, a, h, c);
    }
  }

  lemma CtrlDataStep(d: Data, a: Spec, h: Pc, c: Ctrl, initial: Model)
    requires DataInv(d, a, h, c, initial) && CtrlNoWrap(d, c)
    ensures Allowed(a, CtrlEvent(d, c))
    ensures DataInv(CtrlData(d, c), SpecNext(a, CtrlEvent(d, c)), h, CtrlPc(d, c), initial)
  {
    hide CtrlData, CtrlPc, CtrlEvent, SpecNext, PendInv, RouteInv, VersionInv, LiveInv, ValuesInv, TablesInv, CtrlInv,
         RouteKept, ValueKept, CtrlNoWrap, Allowed, LoadStep;
    CtrlEventAllowed(d, a, h, c);
    var d', a' := CtrlData(d, c), SpecNext(a, CtrlEvent(d, c));
    CtrlLeavesStaged(d, a, c);
    CtrlReads(d, a, h, c);
    CtrlTakesLatest(d, a, h, c);
    StagedFrame(d, a, d', a', h);
    CtrlLosesNothing(d, a, h, c);
    CtrlTables(d, a, c, initial);
    CtrlValues(d, a, c, initial);
  }

  // ------------------------------------------------------------ steps of the system

  lemma ThreadLock(s: State, t: Tid)
    requires Shape(s) && LockInv(s) && Enabled(s, Thread(t))
    ensures var s', pc := Next(s, Thread(t)), s.threads[t];
            && LockInv(s')
            && (if Critical(pc) || (s.lock.None? && (pc.SetTry? || pc.RouteTry?)) then
                  && Holder(s) == Inside(pc)
                  && ThreadPc(s.data, s.lock.Some?, pc) == ThreadPc(s.data, false, pc)
                  && Holder(s') == Inside(ThreadPc(s.data, false, pc))
                else
                  Holder(s') == Holder(s))
  {
  }

  /** Steps of threads that neither hold nor get the lock leave the data alone. */
  lemma OutsideData(d: Data, pc: Pc)
    requires DataShape(d) && PcShape(pc) && !Critical(pc)
    ensures ThreadData(d, pc) == d
  {
  }

  lemma ThreadKeepsLive(d: Data, pc: Pc)
    requires DataShape(d) && PcShape(pc)
    ensures ThreadData(d, pc).live == d.live
  {
  }

  lemma ThreadReaders(s: State, t: Tid)
    requires Shape(s) && NoWraps(s) && ReaderInv(s) && Enabled(s, Thread(t))
    ensures DataShape(Next(s, Thread(t)).data) && ReaderInv(Next(s, Thread(t)))
  {
    var pc := s.threads[t];
    ThreadKeepsLive(s.data, pc);
    if pc.Get? {
      LoadAdvances(s.data.live[pc.index], pc.load);
    }
  }

  lemma HolderStep(s: State, a: Spec, t: Tid)
    requires Inv(s, a) && NoWraps(s) && Enabled(s, Thread(t))
    requires Critical(s.threads[t]) || (s.lock.None? && (s.threads[t].SetTry? || s.threads[t].RouteTry?))
    ensures Allowed(a, EventOf(s, Thread(t)))
    ensures Inv(Next(s, Thread(t)), SpecNext(a, EventOf(s, Thread(t))))
  {
    hide ValueKept, RouteKept, MissionInv, WayInv, LiveInv, ValuesInv, TablesInv, VersionInv, PendInv, ReaderInv,
         CtrlInv, NoWraps;
    hide ThreadData, ThreadPc, ThreadEvent, SpecNext, Allowed;
    ThreadLock(s, t);
    ThreadReaders(s, t);
    HolderData(s.data, a, s.threads[t], s.ctrl, s.initial);
  }

  lemma OtherEvent(s: State, a: Spec, t: Tid)
    requires Inv(s, a) && NoWraps(s) && Enabled(s, Thread(t)) && !Critical(s.threads[t])
    ensures Allowed(a, EventOf(s, Thread(t))) && SpecNext(a, EventOf(s, Thread(t))) == a
  {
    var pc := s.threads[t];
    if pc.Get? {
      LoadAdvances(s.data.live[pc.index], pc.load);
      assert LiveCell(s.data.live[pc.index], a.shown[pc.index], s.data.applied[pc.index], s.ctrl, pc.index);
    }
  }

  lemma OtherStep(s: State, a: Spec, t: Tid)
    requires Inv(s, a) && NoWraps(s) && Enabled(s, Thread(t))
    requires !Critical(s.threads[t]) && (s.threads[t].SetTry? || s.threads[t].RouteTry? ==> s.lock.Some?)
    ensures Allowed(a, EventOf(s, Thread(t)))
    ensures Inv(Next(s, Thread(t)), SpecNext(a, EventOf(s, Thread(t))))
  {
    hide ValueKept, RouteKept, MissionInv, WayInv, LiveInv, ValuesInv, TablesInv, VersionInv, PendInv, ReaderInv,
         CtrlInv, NoWraps;
    hide ThreadData, ThreadPc, ThreadEvent, SpecNext, Allowed;
    OtherEvent(s, a, t);
    ThreadLock(s, t);
    ThreadReaders(s, t);
    OutsideData(s.data, s.threads[t]);
  }

  /** The controller's stores to live values do not mislead a param_get in flight. */
  lemma CtrlReaders(s: State, a: Spec)
    requires Shape(s) && SpecShape(a) && LiveInv(s.data, a, s.ctrl) && ReaderInv(s)
    ensures ReaderInv(CtrlStep(s))
  {
    var s' := CtrlStep(s);
    forall t | t in s'.threads && s'.threads[t].Get?
      ensures Loading(s'.data.live[s'.threads[t].index], s'.threads[t].load)
    {
      var i := s.threads[t].index;
      assert LiveCell(s.data.live[i], a.shown[i], s.data.applied[i], s.ctrl, i);
    }
  }

  lemma ControlStep(s: State, a: Spec)
    requires Inv(s, a) && NoWraps(s) && Enabled(s, Control)
    ensures Allowed(a, EventOf(s, Control))
    ensures Inv(Next(s, Control), SpecNext(a, EventOf(s, Control)))
  {
    hide ValueKept, RouteKept, MissionInv, WayInv, LiveInv, ValuesInv, TablesInv, VersionInv, PendInv, ReaderInv;
    hide CtrlData, CtrlPc, CtrlEvent, SpecNext, Allowed, CtrlNoWrap;
    CtrlDataStep(s.data, a, Holder(s), s.ctrl, s.initial);
    CtrlReaders(s, a);
    assert Holder(Next(s, Control)) == Holder(s);
  }

  lemma BeginStep(s: State, a: Spec, l: Label)
    requires Inv(s, a) && Enabled(s, l) && l.Begin?
    ensures Inv(Next(s, l), a)
  {
    assert Holder(Next(s, l)) == Holder(s);
  }

  /** What may happen between calls of the controller: apply starts, a reset starts, or the model steps. */
  ghost predicate BoundaryMove(d: Data, initial: Model, model: Model, c': Ctrl) {
    || (c' == TestFlag(0) && model == d.model)
    || (c' == Restore(0, Raise) && model == initial)
    || (c' == Off && KeepsTunables(d.model, model))
  }

  lemma BoundaryValue(d: Data, a: Spec, h: Pc, initial: Model, model: Model, c': Ctrl, i: nat)
    requires DataShape(d) && SpecShape(a) && ModelShape(initial) && ModelShape(model) && i < PARAMS
    requires BoundaryMove(d, initial, model, c') && initial.leaf == initial.mirror
    requires ValueOk(d, a, Off, initial, i) && LiveCell(d.live[i], a.shown[i], d.applied[i], Off, i)
    requires ValueKept(a.taken[i], |a.log[i]|, d.flags[i], h, Off, i)
    ensures ValueOk(d.(model := model), a, c', initial, i) && LiveCell(d.live[i], a.shown[i], d.applied[i], c', i)
    ensures ValueKept(a.taken[i], |a.log[i]|, d.flags[i], h, c', i)
  {
  }

  lemma BoundaryRest(d: Data, a: Spec, h: Pc, initial: Model, model: Model, c': Ctrl)
    requires DataShape(d) && SpecShape(a) && ModelShape(initial) && ModelShape(model)
    requires BoundaryMove(d, initial, model, c') && TablesInv(d, a, Off, initial) && RouteKept(d, a, h, Off)
    ensures var d' := d.(model := model);
            CtrlInv(d', a, c') && TablesInv(d', a, c', initial) && RouteKept(d', a, h, c')
  {
  }

  lemma BoundaryValues(d: Data, a: Spec, h: Pc, initial: Model, model: Model, c': Ctrl)
    requires DataShape(d) && SpecShape(a) && ModelShape(initial) && ModelShape(model)
    requires BoundaryMove(d, initial, model, c') && initial.leaf == initial.mirror
    requires ValuesInv(d, a, Off, initial) && LiveInv(d, a, Off) && NothingLost(d, a, h, Off)
    ensures ValuesInv(d.(model := model), a, c', initial) && LiveInv(d.(model := model), a, c')
    ensures forall i | 0 <= i < PARAMS :: ValueKept(a.taken[i], |a.log[i]|, d.flags[i], h, c', i)
  {
    var d' := d.(model := model);
    hide ValueOk, LiveCell, ValueKept, BoundaryMove;
    forall i | 0 <= i < PARAMS
      ensures ValueOk(d', a, c', initial, i) && LiveCell(d'.live[i], a.shown[i], d'.applied[i], c', i)
      ensures ValueKept(a.taken[i], |a.log[i]|, d.flags[i], h, c', i)
    {
      assert ValueOk(d, a, Off, initial, i) && LiveCell(d.live[i], a.shown[i], d.applied[i], Off, i);
      assert ValueKept(a.taken[i], |a.log[i]|, d.flags[i], h, Off, i);
      BoundaryValue(d, a, h, initial, model, c', i);
    }
  }

  lemma BoundaryData(d: Data, a: Spec, h: Pc, initial: Model, d': Data, c': Ctrl)
    requires DataInv(d, a, h, Off, initial) && initial.leaf == initial.mirror && ModelShape(d'.model)
    requires d' == d.(model := d'.model) && BoundaryMove(d, initial, d'.model, c')
    ensures DataInv(d', a, h, c', initial)
  {
    hide PendInv, RouteInv, VersionInv, CtrlInv, TablesInv, RouteKept, ValueKept, ValuesInv, LiveInv, BoundaryMove;
    StagedFrame(d, a, d', a, h);
    BoundaryRest(d, a, h, initial, d'.model, c');
    BoundaryValues(d, a, h, initial, d'.model, c');
  }

  lemma BoundaryStep(s: State, a: Spec, l: Label)
    requires Inv(s, a) && Enabled(s, l) && !l.Thread? && !l.Control?
    ensures EventOf(s, l) == Quiet && Inv(Next(s, l), a)
  {
    var s' := Next(s, l);
    if l.Begin? {
      BeginStep(s, a, l);
    } else {
      assert Holder(s') == Holder(s);
      BoundaryData(s.data, a, Holder(s), s.initial, s'.data, s'.ctrl);
    }
  }

  /** One step of the code is one step of the atomic machine, or none. */
  lemma Step(s: State, a: Spec, l: Label)
    requires Inv(s, a) && NoWraps(s) && Enabled(s, l)
    ensures Allowed(a, EventOf(s, l))
    ensures Inv(Next(s, l), SpecNext(a, EventOf(s, l)))
  {
    match l
    case Thread(t) =>
      var pc := s.threads[t];
      if Critical(pc) || (s.lock.None? && (pc.SetTry? || pc.RouteTry?)) {
        HolderStep(s, a, t);
      } else {
        OtherStep(s, a, t);
      }
    case Control => ControlStep(s, a);
    case _ => BoundaryStep(s, a, l);
  }
}
