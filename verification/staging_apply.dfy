/** What one whole apply picks up while writers go on running. */
module StagingApply {
  import opened Words
  import opened AtomicDouble
  import opened AtomicStaging
  import opened StagingSystem
  import opened StagingInvariant
  import opened StagingTheorems
  import opened StagingReads
  import opened StagingAlone

  // --------------------------------------------------------------- parameters

  /** The controller has not come to parameter i yet. */
  predicate Before(c: Ctrl, i: nat) {
    (c.TestFlag? && c.i <= i) || ((c.LoadValue? || c.Reflag? || c.ShowValue?) && c.i < i)
  }

  /** Commit n of parameter i was taken, or is flagged ahead of the controller, or is in its hands. */
  ghost predicate WillTake(s: State, a: Spec, i: nat, n: nat)
    requires DataShape(s.data) && SpecShape(a) && i < PARAMS
  {
    || n <= a.taken[i]
    || (n <= |a.log[i]| && s.data.flags[i] && Before(s.ctrl, i))
    || (n <= |a.log[i]| && s.ctrl.LoadValue? && s.ctrl.i == i)
  }

  lemma ThreadKeepsWill(s: State, a: Spec, t: Tid, i: nat, n: nat)
    requires Shape(s) && SpecShape(a) && Enabled(s, Thread(t)) && Allowed(a, EventOf(s, Thread(t)))
    requires i < PARAMS && WillTake(s, a, i, n)
    ensures DataShape(Next(s, Thread(t)).data) && WillTake(Next(s, Thread(t)), SpecNext(a, EventOf(s, Thread(t))), i, n)
  {
    hide IsFinite, ModelShape, LoadStep;
  }

  lemma CtrlKeepsWill(s: State, a: Spec, i: nat, n: nat)
    requires Shape(s) && SpecShape(a) && Allowed(a, EventOf(s, Control))
    requires i < PARAMS && WillTake(s, a, i, n)
    requires CtrlPc(s.data, s.ctrl) != Reflag(i)
    ensures DataShape(CtrlStep(s).data) && WillTake(CtrlStep(s), SpecNext(a, EventOf(s, Control)), i, n)
  {
    hide IsFinite, ModelShape, ApplyValue, ApplyRoute, StoreStep;
  }

  lemma StepKeepsWill(s: State, a: Spec, l: Label, i: nat, n: nat)
    requires Inv(s, a) && Enabled(s, l) && Allowed(a, EventOf(s, l)) && !s.ctrl.Off?
    requires i < PARAMS && WillTake(s, a, i, n) && Next(s, l).ctrl != Reflag(i)
    ensures DataShape(Next(s, l).data) && WillTake(Next(s, l), SpecNext(a, EventOf(s, l)), i, n)
  {
    hide Inv;
    InvShape(s, a);
    hide CtrlData, CtrlPc, ThreadData, ThreadPc;
    if l.Thread? {
      ThreadKeepsWill(s, a, l.t, i, n);
    } else if l.Control? {
      CtrlKeepsWill(s, a, i, n);
    }
  }

  /** Apply passed through the postponement of parameter i between states b and e. */
  ghost predicate Postponed(ss: seq<State>, i: nat, b: nat, e: nat)
    requires b <= e < |ss|
  {
    exists n :: b < n < e && ss[n].ctrl == Reflag(i)
  }

  lemma {:induction false} WillTakeUntil(m: Model, ss: seq<State>, ls: seq<Label>, specs: seq<Spec>,
        b: nat, e: nat, i: nat, n: nat)
    requires IsRun(m, ss, ls) && Mirrors(m, ss, ls, specs) && b <= e <= |ls| && i < PARAMS
    requires Inv(ss[b], specs[b]) && WillTake(ss[b], specs[b], i, n)
    requires Busy(ss, b, e) && forall k | b < k <= e :: ss[k].ctrl != Reflag(i)
    ensures Inv(ss[e], specs[e]) && WillTake(ss[e], specs[e], i, n)
    decreases e
  {
    hide Inv, WillTake, Next, Enabled, EventOf, SpecNext, Allowed;
    if b < e {
      var k := e - 1;
      WillTakeUntil(m, ss, ls, specs, b, k, i, n);
      RunStep(m, ss, ls, k);
      assert Mirrored(ss[k], ls[k], specs[k], specs[k + 1]);
      StepKeepsWill(ss[k], specs[k], ls[k], i, n);
      InvAt(m, ss, ls, specs, e);
    }
  }

  /** The call of apply from state b to the cycle boundary at state e. */
  ghost predicate ApplyCall(ss: seq<State>, ls: seq<Label>, b: nat, e: nat) {
    b < e <= |ls| < |ss| && ss[b].ctrl == TestFlag(0) && Busy(ss, b, e) && ss[e].ctrl.Off?
  }

  lemma StartsFlagged(s: State, a: Spec, i: nat)
    requires Inv(s, a) && s.ctrl == TestFlag(0) && i < PARAMS && s.data.flags[i]
    ensures SpecShape(a) && WillTake(s, a, i, |a.log[i]|)
  {
  }

  lemma EndsTaken(s: State, a: Spec, i: nat, n: nat)
    requires Inv(s, a) && s.ctrl.Off? && i < PARAMS && WillTake(s, a, i, n)
    ensures n <= a.taken[i] <= |a.log[i]|
    ensures s.data.model.leaf[i] == s.data.model.mirror[i] == Current(a, i)
  {
    assert ValueOk(s.data, a, s.ctrl, s.initial, i);
  }

  /** Whatever writers do meanwhile, a parameter flagged when apply starts flies, when apply ends, the latest commit of
      that start or a later one, unless apply postponed it. */
  lemma FlaggedIsPickedUp(m: Model, ss: seq<State>, ls: seq<Label>, specs: seq<Spec>, b: nat, e: nat, i: nat)
    requires IsRun(m, ss, ls) && Mirrors(m, ss, ls, specs) && ApplyCall(ss, ls, b, e) && i < PARAMS
    requires Shape(ss[b]) && ss[b].data.flags[i] && !Postponed(ss, i, b, e)
    ensures Shape(ss[e]) && SpecShape(specs[b]) && SpecShape(specs[e])
    ensures |specs[b].log[i]| <= specs[e].taken[i] && specs[b].log[i] <= specs[e].log[i]
    ensures ss[e].data.model.leaf[i] == ss[e].data.model.mirror[i] == Current(specs[e], i)
  {
    hide Inv, Mirrors, Extends, WillTake, SpecShape, IsRun;
    RunStarts(m, ss, ls);
    InvAt(m, ss, ls, specs, b);
    InvAt(m, ss, ls, specs, e);
    StartsFlagged(ss[b], specs[b], i);
    WillTakeUntil(m, ss, ls, specs, b, e, i, |specs[b].log[i]|);
    InCommitOrder(m, ss, ls, specs, b, e);
    LogsExtend(specs[b], specs[e], i);
    EndsTaken(ss[e], specs[e], i, |specs[b].log[i]|);
  }

  lemma RunStarts(m: Model, ss: seq<State>, ls: seq<Label>)
    requires IsRun(m, ss, ls)
    ensures ModelShape(m)
  {
  }

  lemma LogsExtend(a: Spec, b: Spec, i: nat)
    requires Extends(a, b) && i < PARAMS
    ensures SpecShape(a) && SpecShape(b) && a.log[i] <= b.log[i] && a.routes <= b.routes
  {
  }

  // -------------------------------------------------------------------- route

  /** The controller has not come to the route yet. */
  predicate BeforeRoute(c: Ctrl) {
    c.TestFlag? || c.LoadValue? || c.Reflag? || c.ShowValue? || c.TestMission?
  }

  /** Accepted route n was taken, or is flagged ahead of the controller, or is being read. */
  ghost predicate WillTakeRoute(s: State, a: Spec, n: nat) {
    || n <= a.routeTaken
    || (n <= |a.routes| && s.data.mission && BeforeRoute(s.ctrl))
    || (n <= |a.routes| && DecidingRoute(s.ctrl) && !s.ctrl.ReflagMission?)
  }

  lemma ThreadKeepsWillRoute(s: State, a: Spec, t: Tid, n: nat)
    requires Shape(s) && SpecShape(a) && Enabled(s, Thread(t)) && Allowed(a, EventOf(s, Thread(t)))
    requires WillTakeRoute(s, a, n)
    ensures WillTakeRoute(Next(s, Thread(t)), SpecNext(a, EventOf(s, Thread(t))), n)
  {
    hide IsFinite, ModelShape, LoadStep;
  }

  lemma CtrlKeepsWillRoute(s: State, a: Spec, n: nat)
    requires Shape(s) && SpecShape(a) && Allowed(a, EventOf(s, Control)) && !s.ctrl.Restore?
    requires WillTakeRoute(s, a, n) && !CtrlPc(s.data, s.ctrl).ReflagMission?
    ensures WillTakeRoute(CtrlStep(s), SpecNext(a, EventOf(s, Control)), n)
  {
    hide IsFinite, ModelShape, ApplyValue, ApplyRoute, StoreStep;
  }

  lemma StepKeepsWillRoute(s: State, a: Spec, l: Label, n: nat)
    requires Inv(s, a) && Enabled(s, l) && Allowed(a, EventOf(s, l)) && !s.ctrl.Off? && !s.ctrl.Restore?
    requires WillTakeRoute(s, a, n) && !Next(s, l).ctrl.ReflagMission?
    ensures WillTakeRoute(Next(s, l), SpecNext(a, EventOf(s, l)), n) && !Next(s, l).ctrl.Restore?
  {
    hide Inv;
    InvShape(s, a);
    StaysApply(s.data, s.ctrl);
    hide CtrlData, CtrlPc, ThreadData, ThreadPc;
    if l.Thread? {
      ThreadKeepsWillRoute(s, a, l.t, n);
    } else if l.Control? {
      CtrlKeepsWillRoute(s, a, n);
    }
  }

  lemma StaysApply(d: Data, c: Ctrl)
    requires DataShape(d) && CtrlShape(c) && !c.Restore?
    ensures !CtrlPc(d, c).Restore?
  {
    hide LoadStep;
  }

  ghost predicate PostponedRoute(ss: seq<State>, b: nat, e: nat)
    requires b <= e < |ss|
  {
    exists n :: b < n < e && ss[n].ctrl == ReflagMission
  }

  lemma {:induction false} WillTakeRouteUntil(m: Model, ss: seq<State>, ls: seq<Label>, specs: seq<Spec>,
        b: nat, e: nat, n: nat)
    requires IsRun(m, ss, ls) && Mirrors(m, ss, ls, specs) && b <= e <= |ls|
    requires !ss[b].ctrl.Restore? && WillTakeRoute(ss[b], specs[b], n)
    requires Busy(ss, b, e) && forall k | b < k <= e :: ss[k].ctrl != ReflagMission
    ensures !ss[e].ctrl.Restore? && WillTakeRoute(ss[e], specs[e], n)
    decreases e
  {
    hide Inv, WillTakeRoute, Next, Enabled, EventOf, SpecNext, Allowed;
    if b < e {
      var k := e - 1;
      WillTakeRouteUntil(m, ss, ls, specs, b, k, n);
      RunStep(m, ss, ls, k);
      assert Mirrored(ss[k], ls[k], specs[k], specs[k + 1]);
      StepKeepsWillRoute(ss[k], specs[k], ls[k], n);
    }
  }

  lemma StartsWithRoute(s: State, a: Spec)
    requires Inv(s, a) && s.ctrl == TestFlag(0) && s.data.mission
    ensures 0 < |a.routes| && WillTakeRoute(s, a, |a.routes|)
  {
  }

  lemma EndsWithRoute(s: State, a: Spec, n: nat)
    requires Inv(s, a) && s.ctrl.Off? && 0 < n && WillTakeRoute(s, a, n)
    ensures n <= a.routeTaken <= |a.routes|
    ensures var r := a.routes[a.routeTaken - 1].route;
            RouteShape(r) && s.data.model.route == s.data.model.guidanceRoute == TableOf(r)
  {
  }

  /** The same for the route: one flagged when apply starts is in force when apply ends, or a later one, unless apply
      postponed it. */
  lemma FlaggedRouteIsPickedUp(m: Model, ss: seq<State>, ls: seq<Label>, specs: seq<Spec>, b: nat, e: nat)
    requires IsRun(m, ss, ls) && Mirrors(m, ss, ls, specs) && ApplyCall(ss, ls, b, e)
    requires ss[b].data.mission && !PostponedRoute(ss, b, e)
    ensures 0 < |specs[b].routes| <= specs[e].routeTaken <= |specs[e].routes| && specs[b].routes <= specs[e].routes
    ensures var r := specs[e].routes[specs[e].routeTaken - 1].route;
            RouteShape(r) && ss[e].data.model.route == ss[e].data.model.guidanceRoute == TableOf(r)
  {
    hide Inv, Mirrors, Extends, WillTakeRoute, SpecShape, IsRun, TableOf;
    RunStarts(m, ss, ls);
    InvAt(m, ss, ls, specs, b);
    InvAt(m, ss, ls, specs, e);
    StartsWithRoute(ss[b], specs[b]);
    WillTakeRouteUntil(m, ss, ls, specs, b, e, |specs[b].routes|);
    InCommitOrder(m, ss, ls, specs, b, e);
    LogsExtend(specs[b], specs[e], 0);
    EndsWithRoute(ss[e], specs[e], |specs[b].routes|);
  }

  // ------------------------------------------------------------- what held it up

  lemma Entered(s: State, l: Label, s': State, i: nat)
    requires Moves(s, l, s') && !s.ctrl.Off?
    requires (s'.ctrl.LoadValue? && s'.ctrl.i == i && s'.ctrl.load != FIRST_ATTEMPT) || s'.ctrl == Reflag(i)
    ensures s'.ctrl == s.ctrl || (l == Control && s.ctrl.LoadValue? && s.ctrl.i == i)
  {
    hide ThreadData, ThreadPc, CtrlData, IsFinite;
  }

  /** The state at which the reading under way at state k began. */
  lemma {:induction false} ReadingBegan(m: Model, ss: seq<State>, ls: seq<Label>, b: nat, k: nat, i: nat)
    returns (j: nat)
    requires IsRun(m, ss, ls) && b <= k <= |ls| && ss[b].ctrl == TestFlag(0) && Busy(ss, b, k)
    requires ss[k].ctrl.LoadValue? && ss[k].ctrl.i == i
    ensures b < j <= k && ss[j].ctrl == LoadValue(i, FIRST_ATTEMPT)
    ensures forall n | j <= n <= k :: ss[n].ctrl.LoadValue? && ss[n].ctrl.i == i
    decreases k
  {
    hide Next, Enabled, Shape;
    if ss[k].ctrl.load == FIRST_ATTEMPT {
      j := k;
    } else {
      assert Moves(ss[k - 1], ls[k - 1], ss[k - 1 + 1]);
      Entered(ss[k - 1], ls[k - 1], ss[k], i);
      j := ReadingBegan(m, ss, ls, b, k - 1, i);
    }
  }

  /** The operation that postponed parameter i. */
  lemma {:induction false} PostponedAt(m: Model, ss: seq<State>, ls: seq<Label>, b: nat, n: nat, i: nat)
    returns (k: nat)
    requires IsRun(m, ss, ls) && b <= n <= |ls| && ss[b].ctrl == TestFlag(0) && Busy(ss, b, n)
    requires ss[n].ctrl == Reflag(i)
    ensures b <= k < n && ls[k] == Control && ss[k].ctrl.LoadValue? && ss[k].ctrl.i == i && ss[k + 1].ctrl == Reflag(i)
    decreases n
  {
    hide Next, Enabled, Shape;
    assert Moves(ss[n - 1], ls[n - 1], ss[n - 1 + 1]);
    Entered(ss[n - 1], ls[n - 1], ss[n], i);
    if ss[n - 1].ctrl == Reflag(i) {
      k := PostponedAt(m, ss, ls, b, n - 1, i);
    } else {
      k := n - 1;
    }
  }

  /** Together: a parameter flagged when apply starts is picked up unless, during each of the three attempts of apply to
      read it, a param_set of that very parameter was inside its store. */
  lemma PickedUpUnlessOverlapped(m: Model, ss: seq<State>, ls: seq<Label>, specs: seq<Spec>, b: nat, e: nat, i: nat)
    requires IsRun(m, ss, ls) && Unwrapped(ss) && Mirrors(m, ss, ls, specs) && ApplyCall(ss, ls, b, e) && i < PARAMS
    requires Shape(ss[b]) && ss[b].data.flags[i]
    ensures Shape(ss[e]) && SpecShape(specs[b]) && SpecShape(specs[e])
    ensures || (|specs[b].log[i]| <= specs[e].taken[i]
                && ss[e].data.model.leaf[i] == ss[e].data.model.mirror[i] == Current(specs[e], i))
            || exists j, k ::
                 b < j <= k < e
                 && MetWriter(ss, j, k, i, 0) && MetWriter(ss, j, k, i, 1) && MetWriter(ss, j, k, i, 2)
  {
    hide Mirrors, Shape, SpecShape, IsRun, Unwrapped, MetWriter, Current;
    EndsShaped(m, ss, ls, specs, b, e);
    if n :| b < n < e && ss[n].ctrl == Reflag(i) {
      var k := PostponedAt(m, ss, ls, b, n, i);
      var j := ReadingBegan(m, ss, ls, b, k, i);
      ReadingIsCall(m, ss, ls, j, k, i);
      ApplyPostponesOnlyOnOverlap(m, ss, ls, j, k, i);
    } else {
      FlaggedIsPickedUp(m, ss, ls, specs, b, e, i);
    }
  }

  lemma EndsShaped(m: Model, ss: seq<State>, ls: seq<Label>, specs: seq<Spec>, b: nat, e: nat)
    requires IsRun(m, ss, ls) && Mirrors(m, ss, ls, specs) && b <= e <= |ls|
    ensures |specs| == |ss| == |ls| + 1 && Shape(ss[e]) && SpecShape(specs[b]) && SpecShape(specs[e])
  {
    hide Inv;
    InvAt(m, ss, ls, specs, b);
    InvAt(m, ss, ls, specs, e);
  }

  lemma ReadingIsCall(m: Model, ss: seq<State>, ls: seq<Label>, j: nat, k: nat, i: nat)
    requires IsRun(m, ss, ls) && j <= k < |ls| && ls[k] == Control && i < PARAMS
    requires ss[j].ctrl == LoadValue(i, FIRST_ATTEMPT)
    requires forall n | j <= n <= k :: ss[n].ctrl.LoadValue? && ss[n].ctrl.i == i
    ensures TakeCall(ss, ls, j, k, i)
  {
    forall n | j <= n <= k ensures Taking(ss[n], i) {
      RunStep(m, ss, ls, n);
    }
  }
}
