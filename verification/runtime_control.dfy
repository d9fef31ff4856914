/**
 Runtime control as the controller and a query handler execute it, in place on
 the shared and the model's buffers, each call running without interference.
 */
module RuntimeControl {
  import opened Words
  import opened AtomicDouble
  import opened AtomicStaging
  import opened StagingSystem
  import opened Uninterrupted
  import opened Wrappers

  // ------------------------------------------------------ requests as decoded

  datatype Vec3 = Vec3(x: Double, y: Double, z: Double)

  datatype Frame = LocalEnu | OtherFrame

  /** One leg of a trajectory_set request. */
  datatype Segment = Segment(number: nat, frame: Frame, start: Vec3, end: Vec3)

  datatype Decoded =
    | Legs(route: Route)
    | BadCount             // detail -2
    | BadLeg(failed: nat)  // detail -3

  predicate FiniteVec(v: Vec3) {
    IsFinite(v.x) && IsFinite(v.y) && IsFinite(v.z)
  }

  predicate GoodLeg(s: Segment, i: nat) {
    s.number == i && s.frame == LocalEnu && FiniteVec(s.start) && FiniteVec(s.end)
  }

  function Component(v: Vec3, column: nat): Double
    requires column < 3
  {
    if column == 0 then v.x else if column == 1 then v.y else v.z
  }

  /** Row 0 is where the first leg starts, row r where leg r - 1 ends; unused rows are zero. */
  function Waypoint(segments: seq<Segment>, row: nat): Vec3
    requires segments != []
  {
    if row == 0 then segments[0].start
    else if row <= |segments| then segments[row - 1].end
    else Vec3(0, 0, 0)
  }

  function RouteOf(segments: seq<Segment>): Route
    requires segments != []
  {
    Route(seq(COORDS, k requires 0 <= k < COORDS => Component(Waypoint(segments, k / 3), k % 3)), |segments|)
  }

  /** The first rows of the waypoint buffer are filled in; the others are still zero. */
  ghost predicate RowsDone(w: seq<Double>, segments: seq<Segment>, rows: nat)
    requires segments != []
  {
    |w| == COORDS && forall k | 0 <= k < COORDS ::
      w[k] == if k / 3 < rows then Component(Waypoint(segments, k / 3), k % 3) else 0
  }

  lemma AllFinite(segments: seq<Segment>)
    requires 1 <= |segments| <= MAX_SEGMENTS && forall i | 0 <= i < |segments| :: GoodLeg(segments[i], i)
    ensures ValidRoute(RouteOf(segments))
  {
    forall k | 0 <= k < COORDS ensures IsFinite(RouteOf(segments).coords[k]) {
      var row := k / 3;
      assert GoodLeg(segments[0], 0) && (1 <= row <= |segments| ==> GoodLeg(segments[row - 1], row - 1));
      assert FiniteVec(Waypoint(segments, row));
    }
  }

  /** A double below the pattern of infinity, whatever its sign. */
  predicate Number(d: Double) {
    d % 0x8000_0000_0000_0000 < 0x7FF0_0000_0000_0000
  }

  /** What a leg has to be, field by field. */
  lemma GoodLegFields(s: Segment, i: nat)
    ensures GoodLeg(s, i)
            <==> s.number == i && s.frame == LocalEnu
                 && Number(s.start.x) && Number(s.start.y) && Number(s.start.z)
                 && Number(s.end.x) && Number(s.end.y) && Number(s.end.z)
  {
    FiniteBelowInfinity(s.start.x);
    FiniteBelowInfinity(s.start.y);
    FiniteBelowInfinity(s.start.z);
    FiniteBelowInfinity(s.end.x);
    FiniteBelowInfinity(s.end.y);
    FiniteBelowInfinity(s.end.z);
  }

  /** The points of a route, coordinate by coordinate: where the first leg starts, where each leg ends, then zeros. */
  ghost predicate PointsAre(points: seq<Double>, legs: seq<Segment>) {
    && |points| == 21 && 1 <= |legs| <= 6
    && points[0] == legs[0].start.x && points[1] == legs[0].start.y && points[2] == legs[0].start.z
    && (forall i | 0 <= i < |legs| ::
          && points[3 * i + 3] == legs[i].end.x
          && points[3 * i + 4] == legs[i].end.y
          && points[3 * i + 5] == legs[i].end.z)
    && (forall k | 3 * |legs| + 3 <= k < 21 :: points[k] == 0)
  }

  /** The same of a route table: past the last leg it repeats where that ends. */
  ghost predicate TableIs(points: seq<Double>, legs: seq<Segment>) {
    && |points| == 21 && 1 <= |legs| <= 6
    && points[0] == legs[0].start.x && points[1] == legs[0].start.y && points[2] == legs[0].start.z
    && (forall i | 0 <= i < |legs| ::
          && points[3 * i + 3] == legs[i].end.x
          && points[3 * i + 4] == legs[i].end.y
          && points[3 * i + 5] == legs[i].end.z)
    && (forall i | |legs| <= i < 6 ::
          var end := legs[|legs| - 1].end;
          points[3 * i + 3] == end.x && points[3 * i + 4] == end.y && points[3 * i + 5] == end.z)
  }

  /** The route of a request that passes the checks, coordinate by coordinate. */
  lemma RoutePoints(legs: seq<Segment>)
    requires 1 <= |legs| <= MAX_SEGMENTS
    ensures PointsAre(RouteOf(legs).coords, legs) && RouteOf(legs).segments == |legs|
  {
    var points := RouteOf(legs).coords;
    forall i | 0 <= i < |legs|
      ensures points[3 * i + 3] == legs[i].end.x && points[3 * i + 4] == legs[i].end.y
              && points[3 * i + 5] == legs[i].end.z
    {
      PlaceOf(i);
    }
  }

  lemma PlaceOf(i: nat)
    ensures (3 * i + 3) / 3 == (3 * i + 4) / 3 == (3 * i + 5) / 3 == i + 1
    ensures (3 * i + 3) % 3 == 0 && (3 * i + 4) % 3 == 1 && (3 * i + 5) % 3 == 2
  {
  }

  /** What the next apply reads from the staged cells. */
  function ValuesOf(cells: seq<Cell>): (ds: seq<Double>)
    ensures |ds| == |cells|
  {
    seq(|cells|, k requires 0 <= k < |cells| => cells[k].Value())
  }

  lemma StagedValues(d: Data, r: Route)
    requires DataShape(d) && RouteShape(r)
    ensures ValuesOf(StageRoute(d, r).way) == r.coords
  {
    forall k | 0 <= k < COORDS ensures StageRoute(d, r).way[k].Value() == r.coords[k] {
      JoinOfSplit(r.coords[k]);
    }
  }

  /** And from the request into the model: after the next apply both tables hold the legs of the request. */
  lemma LegsReachTables(d: Data, legs: seq<Segment>)
    requires DataShape(d) && 1 <= |legs| <= MAX_SEGMENTS
    requires d.missionCount % 2 == 0 && forall k | 0 <= k < COORDS :: d.way[k].Settled()
    ensures var m := Apply(StageRoute(d, RouteOf(legs))).model;
            m.route == m.guidanceRoute && m.route.segments == |legs| && TableIs(m.route.points, legs)
  {
    var r := RouteOf(legs);
    SetRouteThenApply(d, r);
    RouteWellFormed(d.model, r);
    RoutePoints(legs);
    hide RouteOf, Apply, StageRoute, ApplyRoute;
    RepeatsLast(TableOf(r).points, r, legs);
  }

  lemma RepeatsLast(points: seq<Double>, r: Route, legs: seq<Segment>)
    requires PointsAre(r.coords, legs) && r.segments == |legs| && RowsOf(points, r)
    ensures TableIs(points, legs)
  {
    forall i | 0 <= i < 6
      ensures var end := legs[if i < |legs| then i else |legs| - 1].end;
              points[3 * i + 3] == end.x && points[3 * i + 4] == end.y && points[3 * i + 5] == end.z
    {
      PlaceOf(i);
    }
  }

  // ----------------------------------------------------------------- in place

  class Control {
    const pend: array<Cell>
    const flags: array<bool>
    const live: array<Cell>
    const way: array<Cell>
    var segments: nat
    var missionCount: nat
    var mission: bool
    var version: Word
    var commandWriter: bool
    // the generated model
    const leaf: array<Double>
    const mirror: array<Double>
    const points: array<Double>
    const guidancePoints: array<Double>
    var routeSegments: int
    var guidanceSegments: int
    var currentWaypoint: int
    var guidanceCurrentWaypoint: int
    var guidanceActiveWaypoint: int
    var previousWaypoint: int
    var segmentEndIndex: int
    // what was applied
    const applied: array<Option<Double>>
    const appliedPoints: array<Double>
    var appliedSegments: nat
    var appliedMission: bool

    ghost predicate Valid()
      reads this
    {
      && pend.Length == flags.Length == live.Length == leaf.Length == mirror.Length == applied.Length == PARAMS
      && way.Length == points.Length == guidancePoints.Length == appliedPoints.Length == COORDS
      && segments <= MAX_SEGMENTS && appliedSegments <= MAX_SEGMENTS
      && pend != live && pend != way && live != way
      && leaf != mirror && leaf != points && leaf != guidancePoints && leaf != appliedPoints
      && mirror != points && mirror != guidancePoints && mirror != appliedPoints
      && points != guidancePoints && points != appliedPoints && guidancePoints != appliedPoints
    }

    ghost function ModelView(): Model
      reads this, leaf, mirror, points, guidancePoints
    {
      Model(leaf[..], mirror[..], Table(points[..], routeSegments), Table(guidancePoints[..], guidanceSegments),
            currentWaypoint, guidanceCurrentWaypoint, guidanceActiveWaypoint, previousWaypoint, segmentEndIndex)
    }

    ghost function View(): (d: Data)
      reads this, pend, flags, live, way, leaf, mirror, points, guidancePoints, applied, appliedPoints
      requires Valid()
      ensures DataShape(d)
    {
      Data(pend[..], flags[..], live[..], way[..], segments, missionCount, mission, version, ModelView(), applied[..],
           if appliedMission then Some(Route(appliedPoints[..], appliedSegments)) else None)
    }

    /** atomic_double_store_value */
    method StoreDouble(cells: array<Cell>, i: nat, d: Double)
      requires i < cells.Length
      modifies cells
      ensures cells[..] == old(cells[..])[i := Store(old(cells[i]), d)]
    {
      cells[i] := StoreStep(cells[i], d, Raise);
      cells[i] := StoreStep(cells[i], d, PutLow);
      cells[i] := StoreStep(cells[i], d, PutHigh);
      cells[i] := StoreStep(cells[i], d, Lower);
    }

    /** atomic_double_try_load */
    method TryLoadDouble(cells: array<Cell>, i: nat) returns (r: Option<Double>)
      requires i < cells.Length
      ensures r == TryLoad(cells[i])
    {
      ParityOfWord(cells[i].count);
      for attempt := 0 to ATTEMPTS
        invariant 0 < attempt ==> !cells[i].Settled()
      {
        var before := cells[i].Sequence();
        if before % 2 != 0 {
          continue;
        }
        var low := cells[i].low;
        var high := cells[i].high;
        var after := cells[i].Sequence();
        if before != after || after % 2 != 0 {
          continue;
        }
        return Some(Join(low, high));
      }
      return None;
    }

    /** apply_value */
    method WriteValue(i: nat, d: Double)
      requires Valid() && i < PARAMS
      modifies leaf, mirror
      ensures Valid() && View() == old(View()).(model := StagingSystem.ApplyValue(old(View()).model, i, d))
    {
      leaf[i] := d;
      mirror[i] := d;
    }

    /** The nested loops of apply_route. */
    method FillTables(waypoints: array<Double>, segs: nat)
      requires waypoints.Length == points.Length == guidancePoints.Length == COORDS && segs <= MAX_SEGMENTS
      requires waypoints != points && waypoints != guidancePoints && points != guidancePoints
      modifies points, guidancePoints
      ensures points[..] == guidancePoints[..] == TableOf(Route(waypoints[..], segs)).points
    {
      ghost var table := TableOf(Route(waypoints[..], segs)).points;
      for row := 0 to POINTS
        invariant forall k | 0 <= k < 3 * row :: points[k] == guidancePoints[k] == table[k]
      {
        var source := Min(row, segs);
        for column := 0 to 3
          invariant forall k | 0 <= k < 3 * row + column :: points[k] == guidancePoints[k] == table[k]
        {
          ghost var k := 3 * row + column;
          assert k / 3 == row && k % 3 == column;
          points[3 * row + column] := waypoints[3 * source + column];
          guidancePoints[3 * row + column] := waypoints[3 * source + column];
        }
      }
    }

    /** apply_route */
    method WriteRoute(waypoints: array<Double>, segs: nat)
      requires Valid() && waypoints.Length == COORDS && segs <= MAX_SEGMENTS
      requires waypoints != points && waypoints != guidancePoints && waypoints != leaf && waypoints != mirror
      modifies points, guidancePoints, this`routeSegments, this`guidanceSegments, this`currentWaypoint,
               this`guidanceCurrentWaypoint, this`guidanceActiveWaypoint, this`previousWaypoint, this`segmentEndIndex
      ensures Valid() && ModelView() == StagingSystem.ApplyRoute(old(ModelView()), Route(waypoints[..], segs))
    {
      hide TableOf, Clamp, Min;
      var leg := Clamp(currentWaypoint, 1, segs);
      routeSegments := segs;
      guidanceSegments := segs;
      FillTables(waypoints, segs);
      currentWaypoint := leg;
      guidanceCurrentWaypoint := leg;
      guidanceActiveWaypoint := leg;
      previousWaypoint := leg;
      segmentEndIndex := leg + 1;
    }

    /** The body of the value loop of apply. */
    method TakePending(i: nat)
      requires Valid() && i < PARAMS
      modifies flags, leaf, mirror, live, applied
      ensures Valid() && View() == ApplyOne(old(View()), i)
    {
      var flagged := flags[i];
      flags[i] := false;
      if flagged {
        var value := TryLoadDouble(pend, i);
        if value.None? {
          flags[i] := true;
        } else {
          WriteValue(i, value.value);
          StoreDouble(live, i, value.value);
          applied[i] := Some(value.value);
        }
      }
      assert flags[..] == ApplyOne(old(View()), i).flags;
    }

    /** The loops of apply that read the staged route; None when a coordinate could not be read. */
    method ReadWaypoints(waypoints: array<Double>) returns (complete: bool)
      requires way.Length == waypoints.Length == COORDS
      modifies waypoints
      ensures complete <==> forall k | 0 <= k < COORDS :: way[k].Settled()
      ensures complete ==> forall k | 0 <= k < COORDS :: waypoints[k] == way[k].Value()
    {
      complete := true;
      var row := 0;
      while complete && row < POINTS
        invariant 0 <= row <= POINTS
        invariant complete ==> forall k | 0 <= k < 3 * row :: way[k].Settled() && waypoints[k] == way[k].Value()
        invariant !complete ==> exists k :: 0 <= k < COORDS && !way[k].Settled()
      {
        for column := 0 to 3
          invariant complete
          invariant forall k | 0 <= k < 3 * row + column :: way[k].Settled() && waypoints[k] == way[k].Value()
        {
          var value := TryLoadDouble(way, 3 * row + column);
          if value.None? {
            complete := false;
            break;
          }
          waypoints[3 * row + column] := value.value;
        }
        row := row + 1;
      }
    }

    /** The route part of apply. */
    method TakeMission()
      requires Valid()
      modifies this, points, guidancePoints, appliedPoints
      ensures Valid() && View() == Uninterrupted.ApplyMission(old(View()))
      ensures commandWriter == old(commandWriter)
    {
      hide TableOf, StagingSystem.ApplyRoute, IsFinite, Join;
      var flagged := mission;
      mission := false;
      if flagged {
        var waypoints := new Double[COORDS];
        var before := missionCount;
        var complete := (before % TWO_32) % 2 == 0;
        ParityOfWord(missionCount);
        if complete {
          complete := ReadWaypoints(waypoints);
        }
        var segs := segments;
        complete := complete && before % TWO_32 == missionCount % TWO_32;
        if !complete {
          mission := true;
          return;
        }
        assert waypoints[..] == StagedRoute(old(View())).coords;
        AdoptRoute(waypoints, segs);
      }
    }

    /** The end of apply: the route goes to the model and into the applied record. */
    method AdoptRoute(waypoints: array<Double>, segs: nat)
      requires Valid() && waypoints.Length == COORDS && segs <= MAX_SEGMENTS
      requires waypoints !in {points, guidancePoints, leaf, mirror, appliedPoints}
      modifies this, points, guidancePoints, appliedPoints
      ensures Valid() && commandWriter == old(commandWriter)
      ensures var r := Route(waypoints[..], segs);
              View() == old(View()).(model := StagingSystem.ApplyRoute(old(View()).model, r), appliedRoute := Some(r))
    {
      hide TableOf, StagingSystem.ApplyRoute;
      WriteRoute(waypoints, segs);
      CopyWaypoints(waypoints);
      appliedSegments := segs;
      appliedMission := true;
    }

    /** memcpy into applied_waypoints */
    method CopyWaypoints(waypoints: array<Double>)
      requires waypoints.Length == appliedPoints.Length && waypoints != appliedPoints
      modifies appliedPoints
      ensures appliedPoints[..] == waypoints[..]
    {
      forall k | 0 <= k < waypoints.Length {
        appliedPoints[k] := waypoints[k];
      }
    }

    /** cubs2_runtime_control_apply */
    method Apply()
      requires Valid()
      modifies this, flags, live, leaf, mirror, points, guidancePoints, applied, appliedPoints
      ensures Valid() && View() == Uninterrupted.Apply(old(View()))
      ensures commandWriter == old(commandWriter)
    {
      for i := 0 to PARAMS
        invariant Valid() && View() == ApplyValues(old(View()), i) && commandWriter == old(commandWriter)
      {
        TakePending(i);
      }
      TakeMission();
    }

    /** The body of the value loop of restore. */
    method PutBack(i: nat)
      requires Valid() && i < PARAMS
      modifies live, leaf, mirror
      ensures Valid() && View() == RestoreOne(old(View()), i)
    {
      if applied[i].Some? {
        WriteValue(i, applied[i].value);
        StoreDouble(live, i, applied[i].value);
      }
    }

    /** The end of restore. */
    method PutBackRoute()
      requires Valid()
      modifies this, points, guidancePoints
      ensures Valid() && View() == RestoreRoute(old(View()))
      ensures commandWriter == old(commandWriter)
    {
      hide StagingSystem.ApplyRoute, TableOf;
      if appliedMission {
        WriteRoute(appliedPoints, appliedSegments);
      }
    }

    /** cubs2_runtime_control_restore */
    method Restore()
      requires Valid()
      modifies this, live, leaf, mirror, points, guidancePoints
      ensures Valid() && View() == RestoreAll(old(View()))
      ensures commandWriter == old(commandWriter)
    {
      hide RestoreRoute, RestoreOne;
      for i := 0 to PARAMS
        invariant Valid() && View() == RestoreValues(old(View()), i) && commandWriter == old(commandWriter)
      {
        PutBack(i);
      }
      PutBackRoute();
    }

    /** cubs2_runtime_control_init, on a model just initialised */
    constructor (model: Model)
      requires ModelShape(model)
      ensures Valid() && View() == InitData(model) && !commandWriter
      ensures fresh(pend) && fresh(flags) && fresh(live) && fresh(way) && fresh(leaf) && fresh(mirror)
      ensures fresh(points) && fresh(guidancePoints) && fresh(applied) && fresh(appliedPoints)
    {
      pend := new Cell[PARAMS](i requires 0 <= i < PARAMS => NewCell(model.leaf[i]));
      live := new Cell[PARAMS](i requires 0 <= i < PARAMS => NewCell(model.leaf[i]));
      flags := new bool[PARAMS](i => false);
      applied := new Option<Double>[PARAMS](i => None);
      way := new Cell[COORDS](k requires 0 <= k < COORDS => NewCell(model.route.points[k]));
      leaf := new Double[PARAMS](i requires 0 <= i < PARAMS => model.leaf[i]);
      mirror := new Double[PARAMS](i requires 0 <= i < PARAMS => model.mirror[i]);
      points := new Double[COORDS](k requires 0 <= k < COORDS => model.route.points[k]);
      guidancePoints := new Double[COORDS](k requires 0 <= k < COORDS => model.guidanceRoute.points[k]);
      appliedPoints := new Double[COORDS](k => 0);
      segments, missionCount, mission, version, commandWriter := 0, 0, false, 1, false;
      routeSegments, guidanceSegments := model.route.segments, model.guidanceRoute.segments;
      currentWaypoint, guidanceCurrentWaypoint := model.currentWaypoint, model.guidanceCurrentWaypoint;
      guidanceActiveWaypoint, previousWaypoint := model.guidanceActiveWaypoint, model.previousWaypoint;
      segmentEndIndex := model.segmentEndIndex;
      appliedSegments, appliedMission := 0, false;
      new;
      assert leaf[..] == model.leaf && mirror[..] == model.mirror;
      assert points[..] == model.route.points && guidancePoints[..] == model.guidanceRoute.points;
      assert pend[..] == InitData(model).pend && live[..] == InitData(model).live && way[..] == InitData(model).way;
      assert flags[..] == InitData(model).flags && applied[..] == InitData(model).applied;
    }

    /** handle_param_set, from a name that resolved to parameter i on */
    method ParamSet(i: nat, number: Double) returns (detail: int)
      requires Valid() && i < PARAMS
      modifies this, pend, flags
      ensures Valid() && commandWriter == old(commandWriter)
      ensures detail == if !IsFinite(number) then -3 else if old(commandWriter) then -4 else 0
      ensures View() == if detail == 0 then StageValue(old(View()), i, number) else old(View())
    {
      if !IsFinite(number) {
        return -3;
      }
      if commandWriter {
        return -4;
      }
      commandWriter := true;
      StoreDouble(pend, i, number);
      flags[i] := true;
      commandWriter := false;
      return 0;
    }

    /** handle_param_get, from a name that resolved to parameter i on; None is the reply with detail -3 */
    method ParamGet(i: nat) returns (number: Option<Double>)
      requires Valid() && i < PARAMS
      ensures number == TryLoad(View().live[i])
    {
      number := TryLoadDouble(live, i);
    }

    /** waypoints[row] = v */
    method PutWaypoint(waypoints: array<Double>, row: nat, v: Vec3)
      requires waypoints.Length == COORDS && row < POINTS
      modifies waypoints
      ensures forall k | 0 <= k < COORDS ::
                waypoints[k] == if k / 3 == row then Component(v, k % 3) else old(waypoints[k])
    {
      waypoints[3 * row], waypoints[3 * row + 1], waypoints[3 * row + 2] := v.x, v.y, v.z;
    }

    /** The validation of handle_trajectory_set. */
    method Decode(legs: seq<Segment>, total: nat) returns (r: Decoded)
      ensures r.BadCount? <==> !(1 <= |legs| <= MAX_SEGMENTS && total == |legs|)
      ensures r.BadLeg? ==> r.failed < |legs| && !GoodLeg(legs[r.failed], r.failed)
                            && forall i | 0 <= i < r.failed :: GoodLeg(legs[i], i)
      ensures r.Legs? ==> legs != [] && (forall i | 0 <= i < |legs| :: GoodLeg(legs[i], i))
                          && r.route == RouteOf(legs) && ValidRoute(r.route)
                          && PointsAre(r.route.coords, legs) && r.route.segments == |legs|
    {
      if legs == [] || |legs| > MAX_SEGMENTS || total != |legs| {
        return BadCount;
      }
      var waypoints := new Double[COORDS](k => 0);
      for i := 0 to |legs|
        invariant forall j | 0 <= j < i :: GoodLeg(legs[j], j)
        invariant RowsDone(waypoints[..], legs, if i == 0 then 0 else i + 1)
      {
        if !GoodLeg(legs[i], i) {
          return BadLeg(i);
        }
        if i == 0 {
          PutWaypoint(waypoints, 0, legs[0].start);
        }
        PutWaypoint(waypoints, i + 1, legs[i].end);
      }
      AllFinite(legs);
      RoutePoints(legs);
      assert waypoints[..] == RouteOf(legs).coords;
      return Legs(Route(waypoints[..], |legs|));
    }

    /** The stores of handle_trajectory_set into the staged waypoints. */
    method StoreWaypoints(coords: seq<Double>)
      requires |coords| == way.Length == COORDS
      modifies way
      ensures forall k | 0 <= k < COORDS :: way[k] == Store(old(way[k]), coords[k])
    {
      for row := 0 to POINTS
        invariant forall k | 0 <= k < 3 * row :: way[k] == Store(old(way[k]), coords[k])
        invariant forall k | 3 * row <= k < COORDS :: way[k] == old(way[k])
      {
        for column := 0 to 3
          invariant forall k | 0 <= k < 3 * row + column :: way[k] == Store(old(way[k]), coords[k])
          invariant forall k | 3 * row + column <= k < COORDS :: way[k] == old(way[k])
        {
          StoreDouble(way, 3 * row + column, coords[3 * row + column]);
        }
      }
    }

    /** handle_trajectory_set, from a decoded request on: the detail of the reply, the plan version and the failed leg
        in it */
    method TrajectorySet(legs: seq<Segment>, total: nat, expected: Word)
      returns (detail: int, replyVersion: Word, failed: nat)
      requires Valid()
      modifies this, way
      ensures Valid() && commandWriter == old(commandWriter)
      ensures detail in {0, -2, -3, -4, -5}
      ensures detail == -2 <==> !(1 <= |legs| <= MAX_SEGMENTS && total == |legs|)
      ensures detail == -3 <==> detail != -2 && exists i :: 0 <= i < |legs| && !GoodLeg(legs[i], i)
      ensures detail == -5 <==> detail !in {-2, -3} && old(commandWriter)
      ensures detail == -4 <==> detail !in {-2, -3, -5} && expected != 0 && expected != old(version)
      ensures if detail == 0
              then legs != [] && ValidRoute(RouteOf(legs)) && View() == StageRoute(old(View()), RouteOf(legs))
                   && PointsAre(ValuesOf(way[..]), legs) && segments == |legs|
              else View() == old(View())
      ensures replyVersion == version
      ensures if detail == -3
              then failed < |legs| && !GoodLeg(legs[failed], failed)
                  && forall i | 0 <= i < failed :: GoodLeg(legs[i], i)
              else failed == 0
    {
      var decoded := Decode(legs, total);
      match decoded
      case BadCount => return -2, version, 0;
      case BadLeg(i) => return -3, version, i;
      case Legs(route) =>
        detail, replyVersion := CommitRoute(route, expected);
        StagedValues(old(View()), route);
        failed := 0;
    }

    /** The critical section of handle_trajectory_set. */
    method CommitRoute(route: Route, expected: Word) returns (detail: int, replyVersion: Word)
      requires Valid() && RouteShape(route)
      modifies this, way
      ensures Valid() && commandWriter == old(commandWriter)
      ensures detail == if old(commandWriter) then -5 else if expected != 0 && expected != old(version) then -4 else 0
      ensures View() == if detail == 0 then StageRoute(old(View()), route) else old(View())
      ensures replyVersion == version
    {
      if commandWriter {
        return -5, version;
      }
      commandWriter := true;
      replyVersion := version;
      if expected != 0 && expected != replyVersion {
        commandWriter := false;
        return -4, replyVersion;
      }
      ReplaceRoute(route);
      replyVersion := Increment(replyVersion);
      if replyVersion == 0 {
        replyVersion := 1;
      }
      version := replyVersion;
      commandWriter := false;
      detail := 0;
    }

    /** The operations of the critical section that replace the staged route. */
    method ReplaceRoute(route: Route)
      requires Valid() && RouteShape(route)
      modifies way, this`missionCount, this`segments, this`mission
      ensures Valid() && View() == StageRoute(old(View()), route).(version := version)
    {
      missionCount := missionCount + 1;
      StoreWaypoints(route.coords);
      segments := route.segments;
      missionCount := missionCount + 1;
      mission := true;
      assert way[..] == StageRoute(old(View()), route).way;
    }
  }
}
