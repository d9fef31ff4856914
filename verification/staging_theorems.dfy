/** What holds of every interleaving of query threads and controller. */
module StagingTheorems {
  import opened Words
  import opened AtomicDouble
  import opened AtomicStaging
  import opened StagingSystem
  import opened StagingInvariant
  import opened StagingRefinement
  import opened Wrappers

  // ------------------------------------------------------------------- runs

  /** The states ss are reached from an initialised system by the steps ls. */
  ghost predicate IsRun(m: Model, ss: seq<State>, ls: seq<Label>) {
    && ModelShape(m) && m.leaf == m.mirror
    && Stretch(ss, ls) && ss[0] == InitState(m)
  }

  lemma RunStep(m: Model, ss: seq<State>, ls: seq<Label>, k: nat)
    requires IsRun(m, ss, ls) && k < |ls|
    ensures Shape(ss[k]) && Enabled(ss[k], ls[k]) && ss[k + 1] == Next(ss[k], ls[k]) && Shape(ss[k + 1])
  {
    hide Next, Enabled;
    assert Moves(ss[k], ls[k], ss[k + 1]);
  }

  /** No counter comes round to its old value while one read attempt is in flight. */
  ghost predicate Unwrapped(ss: seq<State>) {
    forall k | 0 <= k < |ss| :: Shape(ss[k]) && NoWraps(ss[k])
  }

  /** The atomic run `specs` mirrors the run step by step. */
  ghost predicate Mirrors(m: Model, ss: seq<State>, ls: seq<Label>, specs: seq<Spec>)
    requires ModelShape(m)
  {
    && |specs| == |ss| == |ls| + 1 && specs[0] == InitSpec(m)
    && (forall k | 0 <= k <= |ls| :: Inv(ss[k], specs[k]))
    && (forall k | 0 <= k < |ls| :: Mirrored(ss[k], ls[k], specs[k], specs[k + 1]))
  }

  ghost predicate Mirrored(s: State, l: Label, a: Spec, a': Spec) {
    && Inv(s, a) && Enabled(s, l)
    && Allowed(a, EventOf(s, l)) && a' == SpecNext(a, EventOf(s, l))
  }

  lemma InvShape(s: State, a: Spec)
    requires Inv(s, a)
    ensures Shape(s) && SpecShape(a)
  {
  }

  /** The refinement: every run of the code, under any interleaving, is a run of the atomic machine. */
  lemma {:induction false} RunRefines(m: Model, ss: seq<State>, ls: seq<Label>) returns (specs: seq<Spec>)
    requires IsRun(m, ss, ls) && Unwrapped(ss)
    ensures Mirrors(m, ss, ls, specs)
    decreases |ls|
  {
    hide Inv, EventOf, SpecNext, Allowed;
    if ls == [] {
      InitInv(m);
      return [InitSpec(m)];
    }
    var n := |ls| - 1;
    var sub := ss[..n + 1];
    Shorter(ss, ls);
    RunStep(m, ss, ls, n);
    var init := RunRefines(m, sub, ls[..n]);
    assert Inv(ss[n], init[n]);
    InvShape(ss[n], init[n]);
    Step(ss[n], init[n], ls[n]);
    specs := init + [SpecNext(init[n], EventOf(ss[n], ls[n]))];
    forall k | 0 <= k < n ensures Mirrored(ss[k], ls[k], specs[k], specs[k + 1]) {
      assert Mirrored(sub[k], ls[..n][k], init[k], init[k + 1]);
    }
  }

  lemma InvAt(m: Model, ss: seq<State>, ls: seq<Label>, specs: seq<Spec>, k: nat)
    requires ModelShape(m) && Mirrors(m, ss, ls, specs) && k <= |ls|
    ensures |specs| == |ss| == |ls| + 1 && Inv(ss[k], specs[k]) && Shape(ss[k]) && SpecShape(specs[k])
  {
    assert Inv(ss[k], specs[k]);
  }

  // -------------------------------------------------------- route atomicity

  /** Step k is the last operation of a trajectory_set that writes the staged route: q is committed. */
  predicate RouteCommit(s: State, l: Label, q: RouteRequest) {
    l.Thread? && l.t in s.threads && s.threads[l.t].RouteClose? && s.threads[l.t].request == q
  }

  ghost predicate LatestRouteCommit(ss: seq<State>, ls: seq<Label>, k: nat, j: nat, q: RouteRequest)
    requires k <= |ls| <= |ss|
  {
    && j < k && RouteCommit(ss[j], ls[j], q)
    && forall i, p | j < i < k :: !RouteCommit(ss[i], ls[i], p)
  }

  /** The route log grows exactly by the route commits. */
  lemma StepRoutes(s: State, l: Label, a: Spec, a': Spec)
    requires Mirrored(s, l, a, a')
    ensures if l.Thread? && l.t in s.threads && s.threads[l.t].RouteClose?
            then a'.routes == a.routes + [s.threads[l.t].request]
            else a'.routes == a.routes
  {
  }

  ghost predicate RoutesExplained(ss: seq<State>, ls: seq<Label>, k: nat, a: Spec)
    requires k <= |ls| <= |ss|
  {
    if a.routes == [] then forall i, p | 0 <= i < k :: !RouteCommit(ss[i], ls[i], p)
    else exists j :: LatestRouteCommit(ss, ls, k, j, LastRequest(a))
  }

  lemma LatestRouteGrows(ss: seq<State>, ls: seq<Label>, n: nat, a: Spec, a': Spec)
    requires n < |ls| <= |ss| && RoutesExplained(ss, ls, n, a) && Mirrored(ss[n], ls[n], a, a')
    ensures RoutesExplained(ss, ls, n + 1, a')
  {
    StepRoutes(ss[n], ls[n], a, a');
    hide Mirrored;
    if ls[n].Thread? && ls[n].t in ss[n].threads && ss[n].threads[ls[n].t].RouteClose? {
      assert LatestRouteCommit(ss, ls, n + 1, n, LastRequest(a'));
    } else if a.routes != [] {
      var j :| LatestRouteCommit(ss, ls, n, j, LastRequest(a));
      assert LatestRouteCommit(ss, ls, n + 1, j, LastRequest(a'));
    }
  }

  lemma {:induction false} RoutesAreCommits(m: Model, ss: seq<State>, ls: seq<Label>, specs: seq<Spec>, k: nat)
    requires ModelShape(m) && Mirrors(m, ss, ls, specs) && k <= |ls|
    ensures RoutesExplained(ss, ls, k, specs[k])
  {
    if k > 0 {
      var n := k - 1;
      hide Inv, Mirrored;
      RoutesAreCommits(m, ss, ls, specs, n);
      assert Mirrored(ss[n], ls[n], specs[n], specs[n + 1]);
      LatestRouteGrows(ss, ls, n, specs[n], specs[k]);
    }
  }

  /** The controller's next operation applies the route it has read. */
  predicate AppliesRoute(s: State, l: Label) {
    l.Control? && s.ctrl.OuterAfter? && s.ctrl.before % TWO_32 == s.data.missionCount % TWO_32
  }

  /** Each route that reaches apply_route is, coordinate for coordinate, the route of one validated request: the
      latest committed. */
  lemma RouteAtomicity(m: Model, ss: seq<State>, ls: seq<Label>, k: nat)
    requires IsRun(m, ss, ls) && Unwrapped(ss) && k < |ls| && AppliesRoute(ss[k], ls[k])
    ensures exists j, q :: LatestRouteCommit(ss, ls, k, j, q) && ValidRoute(q.route)
                           && q.route == Route(ss[k].ctrl.got, ss[k].ctrl.segs)
                           && ss[k + 1].data.appliedRoute == Some(q.route)
                           && ss[k + 1].data.model.route == TableOf(q.route) == ss[k + 1].data.model.guidanceRoute
  {
    var specs := RunRefines(m, ss, ls);
    var s, a := ss[k], specs[k];
    assert Inv(s, a);
    SameCount(s.ctrl.before, s.data.missionCount);
    RoutesAreCommits(m, ss, ls, specs, k);
    var q := LastRequest(a);
    var j :| LatestRouteCommit(ss, ls, k, j, q);
    RunStep(m, ss, ls, k);
    assert q.route == Route(s.ctrl.got, s.ctrl.segs);
  }

  // ----------------------------------------------------- linearizable doubles

  predicate ParamCommit(s: State, l: Label, i: nat, d: Double) {
    l.Thread? && l.t in s.threads && s.threads[l.t].SetStore?
    && s.threads[l.t].index == i && s.threads[l.t].phase.Lower? && s.threads[l.t].value == d
  }

  ghost predicate LatestParamCommit(ss: seq<State>, ls: seq<Label>, k: nat, j: nat, i: nat, d: Double)
    requires k <= |ls| <= |ss|
  {
    && j < k && ParamCommit(ss[j], ls[j], i, d)
    && forall n, v | j < n < k :: !ParamCommit(ss[n], ls[n], i, v)
  }

  /** The log of a parameter grows exactly by the commits of that parameter. */
  lemma StepLog(s: State, l: Label, a: Spec, a': Spec, i: nat)
    requires Mirrored(s, l, a, a') && i < PARAMS
    ensures SpecShape(a') && SpecShape(a)
    ensures if l.Thread? && l.t in s.threads && s.threads[l.t].SetStore? && s.threads[l.t].index == i
            && s.threads[l.t].phase.Lower?
            then a'.log[i] == a.log[i] + [s.threads[l.t].value]
            else a'.log[i] == a.log[i]
  {
  }

  ghost predicate LogExplained(m: Model, ss: seq<State>, ls: seq<Label>, k: nat, a: Spec, i: nat)
    requires k <= |ls| <= |ss| && ModelShape(m) && i < PARAMS
  {
    SpecShape(a) &&
    if |a.log[i]| == 1 then
      Latest(a, i) == m.leaf[i] && forall n, v | 0 <= n < k :: !ParamCommit(ss[n], ls[n], i, v)
    else exists j :: LatestParamCommit(ss, ls, k, j, i, Latest(a, i))
  }

  lemma LatestParamGrows(m: Model, ss: seq<State>, ls: seq<Label>, n: nat, a: Spec, a': Spec, i: nat)
    requires ModelShape(m) && i < PARAMS
    requires n < |ls| <= |ss| && LogExplained(m, ss, ls, n, a, i) && Mirrored(ss[n], ls[n], a, a')
    ensures LogExplained(m, ss, ls, n + 1, a', i)
  {
    StepLog(ss[n], ls[n], a, a', i);
    hide Mirrored;
    var l, s := ls[n], ss[n];
    if l.Thread? && l.t in s.threads && s.threads[l.t].SetStore? && s.threads[l.t].index == i
        && s.threads[l.t].phase.Lower? {
      assert LatestParamCommit(ss, ls, n + 1, n, i, Latest(a', i));
    } else if |a.log[i]| != 1 {
      var j :| LatestParamCommit(ss, ls, n, j, i, Latest(a, i));
      assert LatestParamCommit(ss, ls, n + 1, j, i, Latest(a', i));
    }
  }

  lemma {:induction false} LogIsCommits(m: Model, ss: seq<State>, ls: seq<Label>, specs: seq<Spec>, k: nat, i: nat)
    requires ModelShape(m) && Mirrors(m, ss, ls, specs) && k <= |ls| && i < PARAMS
    ensures LogExplained(m, ss, ls, k, specs[k], i)
  {
    if k > 0 {
      var n := k - 1;
      hide Inv, Mirrored, LogExplained;
      LogIsCommits(m, ss, ls, specs, n, i);
      assert Mirrored(ss[n], ls[n], specs[n], specs[n + 1]);
      LatestParamGrows(m, ss, ls, n, specs[n], specs[k], i);
    }
  }

  /** The controller's next operation takes the value it has read. */
  predicate TakesValue(s: State, l: Label, i: nat)
    requires DataShape(s.data)
  {
    l.Control? && s.ctrl.LoadValue? && s.ctrl.i == i && i < PARAMS && LoadStep(s.data.pend[i], s.ctrl.load).Loaded?
  }

  /** d is the value of the latest param_set of parameter i committed before step k, or the initial value if there
      was none. */
  ghost predicate LatestValue(m: Model, ss: seq<State>, ls: seq<Label>, k: nat, i: nat, d: Double)
    requires k <= |ls| <= |ss| && ModelShape(m) && i < PARAMS
  {
    || (exists j :: LatestParamCommit(ss, ls, k, j, i, d))
    || (d == m.leaf[i] && forall n, v | 0 <= n < k :: !ParamCommit(ss[n], ls[n], i, v))
  }

  /** A value the controller takes is the latest committed one, and it reaches both copies in the model. */
  lemma ValueAtomicity(m: Model, ss: seq<State>, ls: seq<Label>, k: nat, i: nat)
    requires IsRun(m, ss, ls) && Unwrapped(ss) && k < |ls| && i < PARAMS
    requires DataShape(ss[k].data) && TakesValue(ss[k], ls[k], i)
    ensures DataShape(ss[k + 1].data) && ss[k + 1].data.model.leaf[i] == ss[k + 1].data.model.mirror[i]
    ensures LatestValue(m, ss, ls, k, i, ss[k + 1].data.model.leaf[i])
  {
    var specs := RunRefines(m, ss, ls);
    var s, a := ss[k], specs[k];
    assert Inv(s, a);
    TakesLatest(s.data, a, Holder(s), s.ctrl);
    LogIsCommits(m, ss, ls, specs, k, i);
    RunStep(m, ss, ls, k);
  }

  lemma GetStep(s: State, a: Spec, t: Tid)
    requires Inv(s, a) && NoWraps(s) && Enabled(s, Thread(t)) && s.threads[t].Get?
    ensures var pc, pc' := s.threads[t], Next(s, Thread(t)).threads[t];
            var cell := s.data.live[pc.index];
            pc'.Done? && pc'.reply.code.Accepted? ==> cell.Settled() && pc'.reply.value == cell.Value()
  {
    LoadAdvances(s.data.live[s.threads[t].index], s.threads[t].load);
  }

  /** A param_get that succeeds answers what its slot holds at that moment, with no store inside the slot. */
  lemma GetIsLinearizable(m: Model, ss: seq<State>, ls: seq<Label>, k: nat, t: Tid)
    requires IsRun(m, ss, ls) && Unwrapped(ss) && k < |ls| && ls[k] == Thread(t)
    requires t in ss[k].threads && ss[k].threads[t].Get? && Shape(ss[k])
    ensures t in ss[k + 1].threads
    ensures var pc, pc' := ss[k].threads[t], ss[k + 1].threads[t];
            var cell := ss[k].data.live[pc.index];
            pc'.Done? && pc'.reply.code.Accepted? ==> cell.Settled() && pc'.reply.value == cell.Value()
  {
    hide Mirrored;
    var specs := RunRefines(m, ss, ls);
    GetStep(ss[k], specs[k], t);
    hide Inv;
    RunStep(m, ss, ls, k);
  }

  // -------------------------------------------------- nothing lost, in order

  /** Parameter i flies its latest commit, or that commit is flagged, about to be flagged by its writer, in the hands of
      a controller that takes it or flags it again, or on record for the restore under way. */
  ghost predicate ValueSafe(s: State, a: Spec, i: nat)
    requires DataShape(s.data) && SpecShape(a) && i < PARAMS
  {
    || s.data.model.leaf[i] == Latest(a, i)
    || s.data.flags[i]
    || (Holder(s).SetFlag? && Holder(s).index == i)
    || Deciding(s.ctrl, i)
    || (Unrestored(s.ctrl, i) && s.data.applied[i] == Some(Latest(a, i)))
  }

  ghost predicate RouteSafe(s: State, a: Spec) {
    a.routes == []
    || (RouteShape(LastRoute(a)) && s.data.model.route == TableOf(LastRoute(a)))
    || s.data.mission
    || Holder(s).RouteFlag?
    || DecidingRoute(s.ctrl)
    || (s.ctrl.Restore? && s.data.appliedRoute == Some(LastRoute(a)))
  }

  /** In every reachable state, between any two operations, no commit is lost. */
  lemma NothingIsLost(m: Model, ss: seq<State>, ls: seq<Label>, specs: seq<Spec>, k: nat)
    requires IsRun(m, ss, ls) && Mirrors(m, ss, ls, specs) && k <= |ls|
    ensures DataShape(ss[k].data) && SpecShape(specs[k])
    ensures (forall i | 0 <= i < PARAMS :: ValueSafe(ss[k], specs[k], i)) && RouteSafe(ss[k], specs[k])
  {
    var s, a := ss[k], specs[k];
    assert Inv(s, a);
    forall i | 0 <= i < PARAMS
      ensures ValueSafe(s, a, i)
    {
      assert ValueOk(s.data, a, s.ctrl, s.initial, i)
             && ValueKept(a.taken[i], |a.log[i]|, s.data.flags[i], Holder(s), s.ctrl, i);
    }
  }

  /** Applied values follow commit order: the log position the controller flies with never goes back. */
  lemma {:induction false} InCommitOrder(m: Model, ss: seq<State>, ls: seq<Label>, specs: seq<Spec>, j: nat, k: nat)
    requires ModelShape(m) && Mirrors(m, ss, ls, specs) && j <= k <= |ls|
    ensures Extends(specs[j], specs[k])
    decreases k
  {
    if j < k {
      var n := k - 1;
      hide Inv, Mirrored, Extends;
      InCommitOrder(m, ss, ls, specs, j, n);
      assert Mirrored(ss[n], ls[n], specs[n], specs[n + 1]);
      StepExtends(ss[n], ls[n], specs[n], specs[k]);
      ExtendsTransitive(specs[j], specs[n], specs[k]);
    } else {
      assert Inv(ss[k], specs[k]);
    }
  }

  lemma StepExtends(s: State, l: Label, a: Spec, a': Spec)
    requires Mirrored(s, l, a, a')
    ensures Extends(a, a')
  {
    EventExtends(a, EventOf(s, l));
  }

  // ---------------------------------------------------------- cache agreement

  /** At every cycle boundary, what param_get would answer is the model leaf and its mirror, for every parameter. */
  lemma CacheAgrees(m: Model, ss: seq<State>, ls: seq<Label>, k: nat)
    requires IsRun(m, ss, ls) && Unwrapped(ss) && k <= |ls| && ss[k].ctrl.Off?
    ensures DataShape(ss[k].data)
    ensures forall i | 0 <= i < PARAMS ::
              Holds(ss[k].data.live[i], ss[k].data.model.leaf[i])
                  && ss[k].data.model.mirror[i] == ss[k].data.model.leaf[i]
  {
    var specs := RunRefines(m, ss, ls);
    var s, a := ss[k], specs[k];
    assert Inv(s, a);
    forall i | 0 <= i < PARAMS
      ensures Holds(s.data.live[i], s.data.model.leaf[i]) && s.data.model.mirror[i] == s.data.model.leaf[i]
    {
      assert ValueOk(s.data, a, s.ctrl, s.initial, i);
      assert LiveCell(s.data.live[i], a.shown[i], s.data.applied[i], s.ctrl, i);
    }
  }

  // ----------------------------------------------------- optimistic versioning

  /** A trajectory_set that replies Accepted stands last in the log of accepted requests, carries the version of its
      place there, never 0, and the version it named, if any, was the one just before. */
  lemma AcceptedVersion(m: Model, ss: seq<State>, ls: seq<Label>, specs: seq<Spec>, k: nat, t: Tid)
    requires IsRun(m, ss, ls) && Mirrors(m, ss, ls, specs) && k < |ls| && ls[k] == Thread(t)
    requires t in ss[k].threads && ss[k].threads[t].RouteUnlock?
    ensures t in ss[k + 1].threads && ss[k + 1].threads[t].Done?
    ensures var n := |specs[k].routes|;
            var q, reply := ss[k].threads[t].request, ss[k + 1].threads[t].reply;
            && 0 < n && LastRequest(specs[k]) == q
            && reply.code.Accepted? && reply.detail == 0
            && reply.version == ss[k].data.version == 1 + n % 4_294_967_295
            && (q.expected == 0 || q.expected == 1 + (n - 1) % 4_294_967_295)
    ensures forall n | 0 <= n < |specs[k].routes| ::
              specs[k].routes[n].expected == 0 || specs[k].routes[n].expected == VersionAfter(n)
  {
    assert Inv(ss[k], specs[k]);
    RunStep(m, ss, ls, k);
    assert Holder(ss[k]) == ss[k].threads[t];
  }

  /** Two requests naming the same version are both accepted only with at least 2^32 - 1 acceptances from the one to
      the other. */
  lemma OneWinner(m: Model, ss: seq<State>, ls: seq<Label>, specs: seq<Spec>, k: nat, i: nat, j: nat)
    requires ModelShape(m) && Mirrors(m, ss, ls, specs) && k <= |ls| && i < j < |specs[k].routes|
    requires specs[k].routes[i].expected == specs[k].routes[j].expected != 0
    ensures j - i >= 4_294_967_295
  {
    assert Inv(ss[k], specs[k]);
    OneWinnerPerVersion(specs[k], i, j);
  }
}
