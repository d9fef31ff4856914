/** The route tables and the active leg, at every step of every run that writes them and at every boundary. */
module StagingRoutes {
  import opened AtomicStaging
  import opened StagingSystem
  import opened StagingInvariant
  import opened StagingTheorems
  import opened Uninterrupted

  /** The last operation of a restore that puts a route back. */
  predicate RestoresRoute(s: State, l: Label) {
    l.Control? && s.ctrl.Restore? && s.ctrl.i == PARAMS && s.data.appliedRoute.Some?
  }

  /** Both tables agree and have the rows of the route, and there are one to six legs. */
  ghost predicate TablesOk(m: Model, r: Route) {
    && ModelShape(m) && ValidRoute(r)
    && m.route == m.guidanceRoute && m.route.segments == r.segments && 1 <= r.segments <= 6
    && RowsOf(m.route.points, r)
  }

  lemma AppliedIsValid(s: State, a: Spec)
    requires Inv(s, a) && s.data.appliedRoute.Some?
    ensures ValidRoute(s.data.appliedRoute.value)
  {
    assert a.routes[a.routeTaken - 1].route == s.data.appliedRoute.value;
  }

  lemma StepWritesRoute(s: State, a: Spec, l: Label)
    requires Inv(s, a) && NoWraps(s) && Enabled(s, l) && (AppliesRoute(s, l) || RestoresRoute(s, l))
    ensures var d' := Next(s, l).data;
            && d'.appliedRoute.Some? && RouteShape(d'.appliedRoute.value)
            && d'.model == ApplyRoute(s.data.model, d'.appliedRoute.value)
  {
  }

  /** Whatever the run, after each apply and each restore of a route the tables are well formed, all copies of the
      active leg agree, it is the leg before, or the first or the last leg of the route if that lies outside of it, the
      end index is the next row, tunables are kept, and applying the same route again would change nothing. */
  lemma RoutesWellFormed(m: Model, ss: seq<State>, ls: seq<Label>, k: nat)
    requires IsRun(m, ss, ls) && Unwrapped(ss) && k < |ls|
    requires AppliesRoute(ss[k], ls[k]) || RestoresRoute(ss[k], ls[k])
    ensures ss[k + 1].data.appliedRoute.Some?
    ensures var r, old', new' := ss[k + 1].data.appliedRoute.value, ss[k].data.model, ss[k + 1].data.model;
            && TablesOk(new', r) && LegOk(new', r.segments)
            && new'.currentWaypoint == (if old'.currentWaypoint < 1 then 1
                                        else if old'.currentWaypoint > r.segments then r.segments
                                        else old'.currentWaypoint)
            && ApplyRoute(new', r) == new'
            && new'.leaf == old'.leaf && new'.mirror == old'.mirror
  {
    var specs := RunRefines(m, ss, ls);
    assert Inv(ss[k], specs[k]) && Inv(ss[k + 1], specs[k + 1]);
    hide Inv, ApplyRoute;
    InvShape(ss[k], specs[k]);
    RunStep(m, ss, ls, k);
    StepWritesRoute(ss[k], specs[k], ls[k]);
    AppliedIsValid(ss[k + 1], specs[k + 1]);
    RouteWellFormed(ss[k].data.model, ss[k + 1].data.appliedRoute.value);
  }

  /** And at every cycle boundary the tables are those of the route applied last, through any number of model steps. */
  lemma TablesStay(m: Model, ss: seq<State>, ls: seq<Label>, k: nat)
    requires IsRun(m, ss, ls) && Unwrapped(ss) && k <= |ls| && ss[k].ctrl.Off? && ss[k].data.appliedRoute.Some?
    ensures TablesOk(ss[k].data.model, ss[k].data.appliedRoute.value)
  {
    var specs := RunRefines(m, ss, ls);
    assert Inv(ss[k], specs[k]);
    var r := ss[k].data.appliedRoute.value;
    AppliedIsValid(ss[k], specs[k]);
    assert ss[k].data.model.route == TableOf(r);
    RouteWellFormed(ss[k].data.model, r);
  }
}
