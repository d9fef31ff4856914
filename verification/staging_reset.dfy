/** Re-initialising the model in the middle of a run: restore and apply leave no trace of it. */
module StagingReset {
  import opened AtomicDouble
  import opened AtomicStaging
  import opened StagingSystem
  import opened StagingInvariant
  import opened StagingTheorems
  import opened StagingProgress
  import opened Uninterrupted
  import opened StagingAlone
  import opened StagingRoutes

  // --------------------------------------------- restore, run without interference

  /** The first operation of one parameter of restore: field and mirror, and the counter of the live value. */
  lemma RestoreBegins(d: Data, i: nat)
    requires DataShape(d) && i < PARAMS && d.applied[i].Some?
    ensures var v := d.applied[i].value;
            Finish(d, Restore(i, Raise))
            == Finish(WithLive(d.(model := ApplyValue(d.model, i, v)), i, StoreStep(d.live[i], v, Raise)),
                      Restore(i, PutLow))
  {
    hide Finish, StoreStep, CtrlLeft, ApplyValue;
    FinishStep(d, Restore(i, Raise));
  }

  lemma RestoreContinues(d: Data, i: nat, cell: Cell, phase: StorePhase)
    requires DataShape(d) && i < PARAMS && d.applied[i].Some? && !phase.Raise? && !phase.Stored?
    ensures Finish(WithLive(d, i, cell), Restore(i, phase))
            == Finish(WithLive(d, i, StoreStep(cell, d.applied[i].value, phase)),
                      if phase.Lower? then Restore(i + 1, Raise) else Restore(i, AfterStore(phase)))
  {
    var e := WithLive(d, i, cell);
    var c := StoreStep(cell, d.applied[i].value, phase);
    FinishStep(e, Restore(i, phase));
    assert e.live[i := c] == d.live[i := c];
  }

  lemma OneRestored(d: Data, i: nat)
    requires DataShape(d) && i < PARAMS
    ensures Finish(d, Restore(i, Raise)) == Finish(RestoreOne(d, i), Restore(i + 1, Raise))
  {
    hide Finish, StoreStep, Store, WithLive, ApplyValue, ModelShape;
    if d.applied[i].None? {
      FinishStep(d, Restore(i, Raise));
    } else {
      hide CtrlData, CtrlPc;
      var v := d.applied[i].value;
      var e := d.(model := ApplyValue(d.model, i, v));
      var c1 := StoreStep(d.live[i], v, Raise);
      var c2 := StoreStep(c1, v, PutLow);
      var c3 := StoreStep(c2, v, PutHigh);
      RestoreBegins(d, i);
      RestoreContinues(e, i, c1, PutLow);
      RestoreContinues(e, i, c2, PutHigh);
      RestoreContinues(e, i, c3, Lower);
      StoreSteps(d.live[i], v);
      assert WithLive(e, i, Store(d.live[i], v)) == RestoreOne(d, i) by { WithLiveIs(e, i, Store(d.live[i], v)); }
    }
  }

  lemma WithLiveIs(d: Data, i: nat, cell: Cell)
    requires DataShape(d) && i < PARAMS
    ensures WithLive(d, i, cell) == d.(live := d.live[i := cell])
  {
  }

  lemma {:induction false} ValuesRestored(d: Data, n: nat)
    requires DataShape(d) && n <= PARAMS
    ensures Finish(d, Restore(0, Raise)) == Finish(RestoreValues(d, n), Restore(n, Raise))
  {
    hide Finish, RestoreOne, DataShape;
    if n > 0 {
      ValuesRestored(d, n - 1);
      OneRestored(RestoreValues(d, n - 1), n - 1);
    }
  }

  /** The controller running restore alone computes exactly RestoreAll. */
  lemma AloneIsRestore(d: Data)
    requires DataShape(d)
    ensures Finish(d, Restore(0, Raise)) == RestoreAll(d)
  {
    ValuesRestored(d, PARAMS);
    FinishStep(RestoreValues(d, PARAMS), Restore(PARAMS, Raise));
  }

  /** One whole restore, with readers interleaved and any writer suspended wherever it is, computes RestoreAll. */
  lemma RestoreBesideSuspended(ss: seq<State>, ls: seq<Label>, i: nat, j: nat)
    requires Stretch(ss, ls) && WritersSuspended(ss, ls) && i <= j <= |ls|
    requires ss[i].ctrl == Restore(0, Raise) && Busy(ss, i, j) && ss[j].ctrl.Off?
    ensures Shape(ss[i]) && ss[j].data == RestoreAll(ss[i].data)
  {
    FinishIsStable(ss, ls, i, j);
    AloneIsRestore(ss[i].data);
  }

  // ------------------------------------------------- the boundaries of every run

  lemma InvAgrees(s: State, a: Spec)
    requires Inv(s, a) && s.ctrl.Off?
    ensures Agrees(s.data, s.initial)
  {
    forall i | 0 <= i < PARAMS
      ensures ValueAgrees(s.data, s.initial, i)
    {
      assert ValueOk(s.data, a, s.ctrl, s.initial, i);
      assert LiveCell(s.data.live[i], a.shown[i], s.data.applied[i], s.ctrl, i);
    }
  }

  lemma {:induction false} InitialStays(m: Model, ss: seq<State>, ls: seq<Label>, specs: seq<Spec>, k: nat)
    requires IsRun(m, ss, ls) && Mirrors(m, ss, ls, specs) && k <= |ls|
    ensures ss[k].initial == m
  {
    if k > 0 {
      var n := k - 1;
      InitialStays(m, ss, ls, specs, n);
      assert Inv(ss[n], specs[n]);
      InvShape(ss[n], specs[n]);
      hide Inv, Next, Enabled, Mirrored;
      RunStep(m, ss, ls, n);
      NextKeepsInitial(ss[n], ls[n]);
    }
  }

  lemma NextKeepsInitial(s: State, l: Label)
    requires Shape(s) && Enabled(s, l)
    ensures Next(s, l).initial == s.initial
  {
    hide ThreadData, ThreadPc, CtrlData, CtrlPc;
  }

  /** At every cycle boundary of every run, field, mirror, answer and applied record agree for each parameter, and both
      tables are those of the applied route; where nothing was applied, all is as initialised. */
  lemma BoundaryAgrees(m: Model, ss: seq<State>, ls: seq<Label>, k: nat)
    requires IsRun(m, ss, ls) && Unwrapped(ss) && k <= |ls| && ss[k].ctrl.Off?
    ensures Shape(ss[k]) && ss[k].initial == m && Agrees(ss[k].data, m)
  {
    var specs := RunRefines(m, ss, ls);
    InitialStays(m, ss, ls, specs, k);
    assert Inv(ss[k], specs[k]);
    InvAgrees(ss[k], specs[k]);
  }

  // --------------------------------------------------------------- whole cycles

  /** Between states i and j the controller rests and only query threads move. */
  ghost predicate Resting(ss: seq<State>, ls: seq<Label>, i: nat, j: nat)
    requires Stretch(ss, ls) && i <= j <= |ls|
  {
    && (forall k | i <= k <= j :: ss[k].ctrl.Off?)
    && (forall k | i <= k < j :: ls[k].Thread? || ls[k].Begin?)
  }

  lemma {:induction false} RestingIsStable(ss: seq<State>, ls: seq<Label>, i: nat, j: nat)
    requires Stretch(ss, ls) && WritersSuspended(ss, ls) && i <= j <= |ls| && Resting(ss, ls, i, j)
    ensures ss[j].data == ss[i].data && ss[j].initial == ss[i].initial
    decreases j
  {
    if i < j {
      var n := j - 1;
      RestingIsStable(ss, ls, i, n);
      assert Moves(ss[n], ls[n], ss[n + 1]);
      assert ls[n].Thread? ==> WriterSuspended(ss[n], ls[n], ss[n + 1]);
      RestingMove(ss[n], ls[n], ss[n + 1]);
    }
  }

  lemma RestingMove(s: State, l: Label, s': State)
    requires Moves(s, l, s') && (l.Begin? || (l.Thread? && WriterSuspended(s, l, s')))
    ensures s'.data == s.data && s'.initial == s.initial
  {
  }

  /** A call of the controller that starts with l: rest from state i to b, l, then the call up to state j. */
  ghost predicate Calls(ss: seq<State>, ls: seq<Label>, l: Label, i: nat, b: nat, j: nat)
    requires Stretch(ss, ls)
  {
    && i <= b < j <= |ls| && Resting(ss, ls, i, b) && ls[b] == l && Busy(ss, b + 1, j) && ss[j].ctrl.Off?
  }

  lemma CallOfApply(ss: seq<State>, ls: seq<Label>, i: nat, b: nat, j: nat)
    requires Stretch(ss, ls) && WritersSuspended(ss, ls) && Calls(ss, ls, StartApply, i, b, j)
    ensures DataShape(ss[i].data) && ss[j].data == Apply(ss[i].data)
  {
    RestingIsStable(ss, ls, i, b);
    assert Moves(ss[b], ls[b], ss[b + 1]);
    ApplyBesideSuspended(ss, ls, b + 1, j);
  }

  lemma CallOfReset(ss: seq<State>, ls: seq<Label>, i: nat, b: nat, j: nat)
    requires Stretch(ss, ls) && WritersSuspended(ss, ls) && Calls(ss, ls, Reset, i, b, j)
    ensures DataShape(ss[i].data) && ModelShape(ss[i].initial)
    ensures ss[j].data == RestoreAll(ss[i].data.(model := ss[i].initial))
  {
    RestingIsStable(ss, ls, i, b);
    assert Moves(ss[b], ls[b], ss[b + 1]);
    RestoreBesideSuspended(ss, ls, b + 1, j);
  }

  lemma AppliedHasLegs(m: Model, run: seq<State>, steps: seq<Label>, k: nat)
    requires IsRun(m, run, steps) && Unwrapped(run) && k <= |steps| && run[k].ctrl.Off?
    ensures run[k].data.appliedRoute.Some? ==> 1 <= run[k].data.appliedRoute.value.segments
  {
    if run[k].data.appliedRoute.Some? {
      TablesStay(m, run, steps, k);
    }
  }

  /** Re-initialising the model at any boundary of a run and restoring, beside readers and suspended writers, brings
      back every tunable, both tables and every answer, and touches nothing staged; the leg is the model's own, as far
      as the route in force has it. */
  lemma ResetIsUndone(m: Model, run: seq<State>, steps: seq<Label>, k: nat, ss: seq<State>, ls: seq<Label>, b: nat,
        j: nat)
    requires IsRun(m, run, steps) && Unwrapped(run) && k <= |steps| && run[k].ctrl.Off?
    requires Stretch(ss, ls) && WritersSuspended(ss, ls) && ss[0] == run[k] && Calls(ss, ls, Reset, 0, b, j)
    ensures var d, d' := run[k].data, ss[j].data;
            && DataShape(d) && DataShape(d') && SameTunables(d'.model, d.model)
            && d' == d.(model := d'.model, live := d'.live)
            && forall i | 0 <= i < PARAMS :: d'.live[i].Value() == d.live[i].Value()
    ensures var route, leg := run[k].data.appliedRoute, ss[j].data.model.currentWaypoint;
            leg == (if route.None? then m.currentWaypoint
                    else if m.currentWaypoint < 1 then 1
                    else if m.currentWaypoint > route.value.segments then route.value.segments
                    else m.currentWaypoint)
  {
    hide RestoreAll, Agrees, TablesOk;
    BoundaryAgrees(m, run, steps, k);
    AppliedHasLegs(m, run, steps, k);
    RestoredLeg(run[k].data, m);
    CallOfReset(ss, ls, 0, b, j);
    RestoreUndoesReset(run[k].data, m);
  }

  /** What a cycle can see of a reset: nothing but the active leg. */
  ghost predicate SameButLeg(kept: Data, reset: Data)
    requires DataShape(kept) && DataShape(reset)
  {
    && SameTunables(reset.model, kept.model)
    && reset.flags == kept.flags && reset.mission == kept.mission && reset.version == kept.version
    && reset.applied == kept.applied && reset.appliedRoute == kept.appliedRoute
    && (forall i | 0 <= i < PARAMS :: reset.live[i].Value() == kept.live[i].Value())
    && (kept.appliedRoute.Some? ==> LegOk(reset.model, kept.appliedRoute.value.segments))
  }

  /** From any boundary of a run, a reset, a restore and an apply end with the tunables, tables, flags, records and
      answers of an apply taken there without the reset, whatever is staged and wherever writers are suspended. */
  lemma ResetRefines(m: Model, run: seq<State>, steps: seq<Label>, k: nat,
        ks: seq<State>, kl: seq<Label>, kb: nat, kj: nat,
        rs: seq<State>, rl: seq<Label>, rb: nat, rj: nat, ab: nat, aj: nat)
    requires IsRun(m, run, steps) && Unwrapped(run) && k <= |steps| && run[k].ctrl.Off?
    requires Stretch(ks, kl) && WritersSuspended(ks, kl) && ks[0] == run[k] && Calls(ks, kl, StartApply, 0, kb, kj)
    requires Stretch(rs, rl) && WritersSuspended(rs, rl) && rs[0] == run[k] && Calls(rs, rl, Reset, 0, rb, rj)
    requires Calls(rs, rl, StartApply, rj, ab, aj)
    ensures DataShape(ks[kj].data) && DataShape(rs[aj].data) && SameButLeg(ks[kj].data, rs[aj].data)
  {
    hide RestoreAll, Apply, Agrees, SameTunables, LegOk;
    BoundaryAgrees(m, run, steps, k);
    CallOfApply(ks, kl, 0, kb, kj);
    CallOfReset(rs, rl, 0, rb, rj);
    CallOfApply(rs, rl, rj, ab, aj);
    ResetRefinement(run[k].data, m);
  }
}
