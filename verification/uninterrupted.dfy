/** What apply, restore and the handlers compute when nobody else writes shared data meanwhile. */
module Uninterrupted {
  import opened Words
  import opened AtomicDouble
  import opened AtomicStaging
  import opened StagingSystem
  import opened Wrappers

  /** A load of a cell nobody is writing to: it fails exactly when a suspended store left the cell odd. */
  function TryLoad(cell: Cell): Option<Double> {
    if cell.Settled() then Some(cell.Value()) else None
  }

  /** A complete store. */
  function Store(cell: Cell, d: Double): Cell {
    Cell(cell.count + 2, Low(d), High(d))
  }

  function TakeValue(d: Data, i: nat, v: Double): (d': Data)
    requires DataShape(d) && i < PARAMS
    ensures DataShape(d')
  {
    d.(flags := d.flags[i := false], model := ApplyValue(d.model, i, v),
       live := d.live[i := Store(d.live[i], v)], applied := d.applied[i := Some(v)])
  }

  function ApplyOne(d: Data, i: nat): (d': Data)
    requires DataShape(d) && i < PARAMS
    ensures DataShape(d')
  {
    if d.flags[i] && d.pend[i].Settled() then TakeValue(d, i, d.pend[i].Value()) else d
  }

  function ApplyValues(d: Data, n: nat): (d': Data)
    requires DataShape(d) && n <= PARAMS
    ensures DataShape(d')
  {
    if n == 0 then d else ApplyOne(ApplyValues(d, n - 1), n - 1)
  }

  predicate RouteReadable(d: Data)
    requires DataShape(d)
  {
    d.missionCount % 2 == 0 && forall k | 0 <= k < COORDS :: d.way[k].Settled()
  }

  function StagedRoute(d: Data): Route
    requires DataShape(d)
  {
    Route(seq(COORDS, k requires 0 <= k < COORDS => d.way[k].Value()), d.segments)
  }

  function ApplyMission(d: Data): (d': Data)
    requires DataShape(d)
    ensures DataShape(d')
  {
    if d.mission && RouteReadable(d) then
      d.(mission := false, model := ApplyRoute(d.model, StagedRoute(d)), appliedRoute := Some(StagedRoute(d)))
    else d
  }

  function Apply(d: Data): (d': Data)
    requires DataShape(d)
    ensures DataShape(d')
  {
    ApplyMission(ApplyValues(d, PARAMS))
  }

  function RestoreOne(d: Data, i: nat): (d': Data)
    requires DataShape(d) && i < PARAMS
    ensures DataShape(d')
  {
    if d.applied[i].Some? then
      d.(model := ApplyValue(d.model, i, d.applied[i].value), live := d.live[i := Store(d.live[i], d.applied[i].value)])
    else d
  }

  function RestoreValues(d: Data, n: nat): (d': Data)
    requires DataShape(d) && n <= PARAMS
    ensures DataShape(d')
  {
    if n == 0 then d else RestoreOne(RestoreValues(d, n - 1), n - 1)
  }

  function RestoreRoute(d: Data): (d': Data)
    requires DataShape(d)
    ensures DataShape(d')
  {
    if d.appliedRoute.Some? then d.(model := ApplyRoute(d.model, d.appliedRoute.value)) else d
  }

  function RestoreAll(d: Data): (d': Data)
    requires DataShape(d)
    ensures DataShape(d')
  {
    RestoreRoute(RestoreValues(d, PARAMS))
  }

  // --------------------------------------------------- what the handlers stage

  function StageValue(d: Data, i: nat, v: Double): (d': Data)
    requires DataShape(d) && i < PARAMS
    ensures DataShape(d')
  {
    d.(pend := d.pend[i := Store(d.pend[i], v)], flags := d.flags[i := true])
  }

  function StageRoute(d: Data, r: Route): (d': Data)
    requires DataShape(d) && RouteShape(r)
    ensures DataShape(d')
  {
    d.(missionCount := d.missionCount + 2,
       way := seq(COORDS, k requires 0 <= k < COORDS => Store(d.way[k], r.coords[k])),
       segments := r.segments, mission := true, version := NextVersion(d.version))
  }

  // ----------------------------------------------- what they do, field by field

  /** Parameter i after the first n parameters were visited: taken if flagged and readable, else untouched and still
      pending. */
  ghost predicate AppliedUpTo(d: Data, d': Data, n: nat, i: nat)
    requires DataShape(d) && DataShape(d') && i < PARAMS
  {
    if i < n && d.flags[i] && d.pend[i].Settled() then
      var v := d.pend[i].Value();
      && !d'.flags[i] && d'.model.leaf[i] == d'.model.mirror[i] == v
      && d'.live[i].Settled() == d.live[i].Settled() && d'.live[i].Value() == v && d'.applied[i] == Some(v)
    else
      && d'.flags[i] == d.flags[i] && d'.model.leaf[i] == d.model.leaf[i] && d'.model.mirror[i] == d.model.mirror[i]
      && d'.live[i] == d.live[i] && d'.applied[i] == d.applied[i]
  }

  lemma {:induction false} ApplyValuesFields(d: Data, n: nat)
    requires DataShape(d) && n <= PARAMS
    ensures var d' := ApplyValues(d, n);
            && d'.pend == d.pend && d'.way == d.way && d'.segments == d.segments && d'.missionCount == d.missionCount
            && d'.mission == d.mission && d'.version == d.version && d'.appliedRoute == d.appliedRoute
            && d'.model == d.model.(leaf := d'.model.leaf, mirror := d'.model.mirror)
            && forall i | 0 <= i < PARAMS :: AppliedUpTo(d, d', n, i)
  {
    if n > 0 {
      ApplyValuesFields(d, n - 1);
      var e := ApplyValues(d, n - 1);
      var d' := ApplyValues(d, n);
      assert AppliedUpTo(d, e, n - 1, n - 1);
      JoinOfSplit(d.pend[n - 1].Value());
      forall i | 0 <= i < PARAMS ensures AppliedUpTo(d, d', n, i) {
        assert AppliedUpTo(d, e, n - 1, i);
      }
    }
  }

  ghost predicate RestoredUpTo(d: Data, d': Data, n: nat, i: nat)
    requires DataShape(d) && DataShape(d') && i < PARAMS
  {
    if i < n && d.applied[i].Some? then
      var v := d.applied[i].value;
      && d'.model.leaf[i] == d'.model.mirror[i] == v
      && d'.live[i].Settled() == d.live[i].Settled() && d'.live[i].Value() == v
    else
      && d'.model.leaf[i] == d.model.leaf[i] && d'.model.mirror[i] == d.model.mirror[i] && d'.live[i] == d.live[i]
  }

  lemma {:induction false} RestoreValuesFields(d: Data, n: nat)
    requires DataShape(d) && n <= PARAMS
    ensures var d' := RestoreValues(d, n);
            && d'.pend == d.pend && d'.flags == d.flags && d'.way == d.way && d'.segments == d.segments
            && d'.missionCount == d.missionCount && d'.mission == d.mission && d'.version == d.version
            && d'.applied == d.applied && d'.appliedRoute == d.appliedRoute
            && d'.model == d.model.(leaf := d'.model.leaf, mirror := d'.model.mirror)
            && forall i | 0 <= i < PARAMS :: RestoredUpTo(d, d', n, i)
  {
    if n > 0 {
      RestoreValuesFields(d, n - 1);
      var e := RestoreValues(d, n - 1);
      var d' := RestoreValues(d, n);
      if d.applied[n - 1].Some? {
        JoinOfSplit(d.applied[n - 1].value);
      }
      forall i | 0 <= i < PARAMS ensures RestoredUpTo(d, d', n, i) {
        assert RestoredUpTo(d, e, n - 1, i);
      }
    }
  }

  /** What a parameter request stages is what the next apply flies and what param_get then answers. */
  lemma SetThenApply(d: Data, i: nat, v: Double)
    requires DataShape(d) && i < PARAMS && d.pend[i].Settled() && d.live[i].Settled()
    ensures var d' := Apply(StageValue(d, i, v));
            && d'.model.leaf[i] == d'.model.mirror[i] == v
            && TryLoad(d'.live[i]) == Some(v)
            && forall j | 0 <= j < PARAMS && j != i && !d.flags[j] :: d'.model.leaf[j] == d.model.leaf[j]
  {
    var e := StageValue(d, i, v);
    ApplyValuesFields(e, PARAMS);
    var a := ApplyValues(e, PARAMS);
    JoinOfSplit(v);
    assert AppliedUpTo(e, a, PARAMS, i);
    forall j | 0 <= j < PARAMS && j != i && !d.flags[j] ensures a.model.leaf[j] == d.model.leaf[j] {
      assert AppliedUpTo(e, a, PARAMS, j);
    }
  }

  /** What a route request stages is the route that the next apply puts in force. */
  lemma SetRouteThenApply(d: Data, r: Route)
    requires DataShape(d) && RouteShape(r) && d.missionCount % 2 == 0
    requires forall k | 0 <= k < COORDS :: d.way[k].Settled()
    ensures var d' := Apply(StageRoute(d, r));
            d'.model.route == d'.model.guidanceRoute == TableOf(r) && d'.appliedRoute == Some(r) && !d'.mission
  {
    var e := StageRoute(d, r);
    ApplyValuesFields(e, PARAMS);
    forall k | 0 <= k < COORDS ensures e.way[k].Settled() && e.way[k].Value() == r.coords[k] {
      JoinOfSplit(r.coords[k]);
    }
    assert StagedRoute(ApplyValues(e, PARAMS)).coords == r.coords;
  }

  // ------------------------------------------------------------ reset refinement

  /** The controller's copies agree: leaf, mirror, live value and applied record, and both route tables. */
  ghost predicate Agrees(d: Data, initial: Model)
    requires DataShape(d) && ModelShape(initial)
  {
    && (forall i | 0 <= i < PARAMS :: ValueAgrees(d, initial, i))
    && (if d.appliedRoute.Some? then d.model.route == d.model.guidanceRoute == TableOf(d.appliedRoute.value)
        else d.model.route == initial.route && d.model.guidanceRoute == initial.guidanceRoute)
  }

  ghost predicate ValueAgrees(d: Data, initial: Model, i: nat)
    requires DataShape(d) && ModelShape(initial) && i < PARAMS
  {
    && d.model.leaf[i] == d.model.mirror[i] == (if d.applied[i].Some? then d.applied[i].value else initial.leaf[i])
    && initial.leaf[i] == initial.mirror[i]
    && d.live[i].Value() == d.model.leaf[i]
  }

  /** Everything a controller step reads of what runtime control writes, except the active leg. */
  ghost predicate SameTunables(m: Model, m': Model) {
    m.leaf == m'.leaf && m.mirror == m'.mirror && m.route == m'.route && m.guidanceRoute == m'.guidanceRoute
  }

  lemma RestoreUndoesReset(d: Data, initial: Model)
    requires DataShape(d) && ModelShape(initial) && Agrees(d, initial)
    ensures var r := RestoreAll(d.(model := initial));
            && SameTunables(r.model, d.model)
            && r == d.(model := r.model, live := r.live)
            && forall i | 0 <= i < PARAMS :: r.live[i].Value() == d.live[i].Value()
  {
    var e := d.(model := initial);
    RestoreValuesFields(e, PARAMS);
    var v := RestoreValues(e, PARAMS);
    forall i | 0 <= i < PARAMS
      ensures v.model.leaf[i] == d.model.leaf[i] && v.model.mirror[i] == d.model.mirror[i]
              && v.live[i].Value() == d.live[i].Value()
    {
      assert RestoredUpTo(e, v, PARAMS, i) && ValueAgrees(d, initial, i);
    }
    assert v.model.leaf == d.model.leaf && v.model.mirror == d.model.mirror;
  }

  /** Re-initialising the model, restoring and applying gives the tunables, route tables and answers of just applying,
      whatever is staged; the active leg is re-clamped to whichever route is in force. */
  lemma ResetRefinement(d: Data, initial: Model)
    requires DataShape(d) && ModelShape(initial) && Agrees(d, initial)
    ensures var kept, reset := Apply(d), Apply(RestoreAll(d.(model := initial)));
            && SameTunables(reset.model, kept.model)
            && reset.flags == kept.flags && reset.mission == kept.mission && reset.version == kept.version
            && reset.applied == kept.applied && reset.appliedRoute == kept.appliedRoute
            && (forall i | 0 <= i < PARAMS :: reset.live[i].Value() == kept.live[i].Value())
    ensures var kept, reset := Apply(d), Apply(RestoreAll(d.(model := initial)));
            kept.appliedRoute.Some? ==>
              LegOk(reset.model, kept.appliedRoute.value.segments)
  {
    RestoreUndoesReset(d, initial);
    var r := RestoreAll(d.(model := initial));
    ApplyValuesFields(d, PARAMS);
    ApplyValuesFields(r, PARAMS);
    var k, x := ApplyValues(d, PARAMS), ApplyValues(r, PARAMS);
    forall i | 0 <= i < PARAMS
      ensures x.model.leaf[i] == k.model.leaf[i] && x.model.mirror[i] == k.model.mirror[i] && x.flags[i] == k.flags[i]
      ensures x.applied[i] == k.applied[i] && x.live[i].Value() == k.live[i].Value()
    {
      assert AppliedUpTo(d, k, PARAMS, i) && AppliedUpTo(r, x, PARAMS, i);
    }
    assert x.model.leaf == k.model.leaf && x.model.mirror == k.model.mirror && x.flags == k.flags
           && x.applied == k.applied;
    assert StagedRoute(k).coords == StagedRoute(x).coords;
  }

  /** All copies of the active leg agree; the end index is the next row. */
  predicate LegOk(m: Model, segments: nat) {
    && m.currentWaypoint == m.guidanceCurrentWaypoint == m.guidanceActiveWaypoint == m.previousWaypoint
    && m.segmentEndIndex == m.currentWaypoint + 1
    && (1 <= segments ==> 1 <= m.currentWaypoint <= segments)
  }

  /** Rows of three columns, kept flat: each row of the table is that of the route, and rows past the last waypoint
      repeat it. */
  ghost predicate RowsOf(points: seq<Double>, r: Route) {
    && |points| == |r.coords| == 21 && r.segments <= 6
    && forall k | 0 <= k < 21 ::
         points[k] == r.coords[if k / 3 <= r.segments then k else 3 * r.segments + k % 3]
  }

  /** After a route is applied both tables agree and have its rows, the active leg is the one before, or the first or
      the last one if that is none of the route's, and applying the route again changes nothing. */
  lemma RouteWellFormed(m: Model, r: Route)
    requires ModelShape(m) && RouteShape(r) && 1 <= r.segments
    ensures var m' := ApplyRoute(m, r);
            && m'.route == m'.guidanceRoute && m'.route.segments == r.segments && RowsOf(m'.route.points, r)
            && LegOk(m', r.segments)
            && m'.currentWaypoint == (if m.currentWaypoint < 1 then 1
                                      else if m.currentWaypoint > r.segments then r.segments
                                      else m.currentWaypoint)
            && ApplyRoute(m', r) == m'
            && m'.leaf == m.leaf && m'.mirror == m.mirror
  {
  }

  /** Restoring onto a model just initialised leaves its own leg, or the first or last one of the applied route if that
      is none of its legs. */
  lemma RestoredLeg(d: Data, initial: Model)
    requires DataShape(d) && ModelShape(initial) && (d.appliedRoute.Some? ==> 1 <= d.appliedRoute.value.segments)
    ensures var leg := RestoreAll(d.(model := initial)).model.currentWaypoint;
            leg == (if d.appliedRoute.None? then initial.currentWaypoint
                    else if initial.currentWaypoint < 1 then 1
                    else if initial.currentWaypoint > d.appliedRoute.value.segments then d.appliedRoute.value.segments
                    else initial.currentWaypoint)
  {
    var e := d.(model := initial);
    RestoreValuesFields(e, PARAMS);
    if d.appliedRoute.Some? {
      RouteWellFormed(RestoreValues(e, PARAMS).model, d.appliedRoute.value);
    }
  }
}
