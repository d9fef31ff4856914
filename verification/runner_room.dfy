/** When the record buffer of the runner has room, in exact arithmetic: if and only if the shortfalls of the plant
    fit. */
module RunnerRoom {
  import opened RealNumbers
  import opened RunnerLoop

  const STEP := 0.02
  const TOLERANCE := 0.000000000001

  function Reals(): Arithmetic {
    Arithmetic(STEP, TOLERANCE, x => x)
  }

  function Time(plant: Plant, tEnd: real, k: nat): real {
    TimeOf(Reals(), plant, tEnd, k)
  }

  /** The time that the step from record k asks for. */
  function Asked(plant: Plant, tEnd: real, k: nat): real {
    Least(Time(plant, tEnd, k) + STEP, tEnd)
  }

  /** The loop in exact arithmetic. */
  lemma RealStep(plant: Plant, tEnd: real, k: nat)
    ensures var t, h := Time(plant, tEnd, k), Least(STEP, tEnd - Time(plant, tEnd, k));
            && t + h == Asked(plant, tEnd, k)
            && Time(plant, tEnd, k + 1) == plant(k, t, h).last
            && (StepPasses(Reals(), plant, tEnd, k)
                <==> plant(k, t, h).ok
                     && Magnitude(plant(k, t, h).last - Asked(plant, tEnd, k))
                        <= TOLERANCE * Greatest(1.0, Magnitude(Asked(plant, tEnd, k))))
            && (Due(Reals(), tEnd, t) <==> t < tEnd - TOLERANCE)
    ensures Time(plant, tEnd, 0) == 0.0
  {
  }

  lemma StepsOfReals(tEnd: real)
    requires 0.0 < tEnd
    ensures Steps(Reals(), tEnd) == Ceil(tEnd / STEP) && 1 <= Ceil(tEnd / STEP)
    ensures tEnd <= Times(Ceil(tEnd / STEP), STEP)
    ensures Sensible(Reals())
  {
    var q := tEnd / STEP;
    assert STEP * q == tEnd && 0.0 < q;
    assert -q < 0.0 && (-q).Floor as real <= -q;
  }

  /** The largest shortfall up to e that passes the check of a step that ends by t_end. */
  function Allowed(tEnd: real, e: real): real {
    if tEnd <= 1.0 then Least(e, TOLERANCE) else e
  }

  /** Ceil(t_end / 0.02) shortfalls of this size lose no more than the tolerance and the slack of the last step. */
  predicate RoomFor(tEnd: real, e: real) {
    var n, f := Ceil(tEnd / STEP), Allowed(tEnd, e);
    f <= TOLERANCE && Times(n, f) <= TOLERANCE + (Times(n, STEP) - tEnd)
  }

  /** The plant falls short of the time asked for by at most e on the first n steps. */
  ghost predicate ShortBy(plant: Plant, tEnd: real, e: real, n: int) {
    forall k | 0 <= k < n :: Asked(plant, tEnd, k) - e <= Time(plant, tEnd, k + 1)
  }

  ghost predicate RunsOut(plant: Plant, tEnd: real, exchanged: nat -> bool) {
    GotTo(Reals(), plant, tEnd, exchanged, Capacity(Reals(), tEnd))
  }

  lemma Ordered(k: nat, n: nat, f: real)
    requires k <= n && 0.0 <= f
    ensures Times(k, f) <= Times(n, f)
  {
  }

  lemma SlackIs(n: nat, f: real, tEnd: real)
    ensures Times(n, f) <= TOLERANCE + (Times(n, STEP) - tEnd) <==> tEnd - TOLERANCE <= Times(n, STEP - f)
  {
    assert Times(n, STEP - f) == Times(n, STEP) - Times(n, f);
  }

  // ------------------------------------------------------------- enough room

  lemma {:induction false} Reaches(plant: Plant, tEnd: real, exchanged: nat -> bool, e: real, n: nat)
    requires 0.0 < tEnd && 0.0 <= e && Allowed(tEnd, e) <= TOLERANCE
    requires ShortBy(plant, tEnd, e, n) && GotTo(Reals(), plant, tEnd, exchanged, n)
    ensures var f := Allowed(tEnd, e);
            Least(Times(n, STEP - f), tEnd - f) <= Time(plant, tEnd, n)
  {
    hide Time, StepPasses, GotTo, Ceil, Times, Allowed;
    var f := Allowed(tEnd, e);
    if n == 0 {
      TimesNext(0, STEP - f);
      RealStep(plant, tEnd, 0);
    } else {
      var m := n - 1;
      PrefixOf(plant, tEnd, exchanged, n);
      Reaches(plant, tEnd, exchanged, e, m);
      RealStep(plant, tEnd, m);
      assert Asked(plant, tEnd, m) - e <= Time(plant, tEnd, m + 1);
      TimesNext(m, STEP - f);
      OneStepOn(plant, tEnd, e, m, Times(m, STEP - f));
    }
  }

  /** A step that passes its check, from a time that is not behind, falls short by no more than is allowed. */
  lemma OneStepOn(plant: Plant, tEnd: real, e: real, k: nat, least: real)
    requires 0.0 < tEnd && 0.0 <= e && Allowed(tEnd, e) <= TOLERANCE && 0.0 <= least
    requires Least(least, tEnd - Allowed(tEnd, e)) <= Time(plant, tEnd, k)
    requires StepPasses(Reals(), plant, tEnd, k) && Asked(plant, tEnd, k) - e <= Time(plant, tEnd, k + 1)
    ensures Least(least + (STEP - Allowed(tEnd, e)), tEnd - Allowed(tEnd, e)) <= Time(plant, tEnd, k + 1)
  {
    hide Time, StepPasses;
    RealStep(plant, tEnd, k);
  }

  lemma PrefixOf(plant: Plant, tEnd: real, exchanged: nat -> bool, n: nat)
    requires 0 < n && GotTo(Reals(), plant, tEnd, exchanged, n)
    ensures GotTo(Reals(), plant, tEnd, exchanged, n - 1) && StepPasses(Reals(), plant, tEnd, n - 1)
    ensures Due(Reals(), tEnd, TimeOf(Reals(), plant, tEnd, n - 1))
  {
  }

  lemma EnoughRoom(plant: Plant, tEnd: real, exchanged: nat -> bool, e: real)
    requires 0.0 < tEnd && 0.0 <= e && RoomFor(tEnd, e)
    requires ShortBy(plant, tEnd, e, Ceil(tEnd / STEP))
    ensures !RunsOut(plant, tEnd, exchanged)
  {
    hide TimeOf, StepPasses, GotTo, Ceil, Steps, Times;
    StepsOfReals(tEnd);
    var n: nat := Ceil(tEnd / STEP);
    var f := Allowed(tEnd, e);
    if RunsOut(plant, tEnd, exchanged) {
      assert GotTo(Reals(), plant, tEnd, exchanged, n + 1);
      PrefixOf(plant, tEnd, exchanged, n + 1);
      Reaches(plant, tEnd, exchanged, e, n);
      RealStep(plant, tEnd, n);
      SlackIs(n, f, tEnd);
    }
  }

  // --------------------------------------------------------- too little room

  /** The plant that falls short by e wherever the check lets it. */
  function Laggard(e: real): Plant {
    (k: nat, time: real, h: real) => Answer(true, time + h - Lag(e, time + h))
  }

  function Lag(e: real, expected: real): real {
    Least(e, TOLERANCE * Greatest(1.0, Magnitude(expected)))
  }

  lemma LagBounds(e: real, x: real)
    requires 0.0 <= e
    ensures Least(e, TOLERANCE) <= Lag(e, x) <= e && Lag(e, x) <= TOLERANCE * Greatest(1.0, Magnitude(x))
    ensures 1.0 < x && TOLERANCE < e ==> TOLERANCE < Lag(e, x)
  {
  }

  lemma LaggardPasses(tEnd: real, e: real, k: nat)
    requires 0.0 <= e
    ensures StepPasses(Reals(), Laggard(e), tEnd, k)
    ensures var asked, t' := Asked(Laggard(e), tEnd, k), Time(Laggard(e), tEnd, k + 1);
            && asked - e <= t' <= asked - Least(e, TOLERANCE)
            && (1.0 < asked && TOLERANCE < e ==> t' < asked - TOLERANCE)
  {
    hide Time, StepPasses, Asked, Lag;
    RealStep(Laggard(e), tEnd, k);
    LagBounds(e, Asked(Laggard(e), tEnd, k));
  }

  lemma {:induction false} LaggardLags(tEnd: real, e: real, k: nat)
    requires 0.0 < tEnd && 0.0 <= e
    ensures Time(Laggard(e), tEnd, k) <= Times(k, STEP - Least(e, TOLERANCE))
  {
    hide Time, Laggard, StepPasses, Times;
    var f := STEP - Least(e, TOLERANCE);
    if 0 < k {
      LaggardLags(tEnd, e, k - 1);
      LaggardPasses(tEnd, e, k - 1);
      TimesNext(k - 1, f);
    } else {
      RealStep(Laggard(e), tEnd, 0);
      TimesNext(0, f);
    }
  }

  /** Where the shortfalls do not fit, the laggard is still due on every record that fits. */
  lemma LaggardIsDue(tEnd: real, e: real, k: nat)
    requires 0.0 < tEnd && 0.0 <= e && !RoomFor(tEnd, e) && k <= Ceil(tEnd / STEP)
    ensures Due(Reals(), tEnd, TimeOf(Reals(), Laggard(e), tEnd, k))
  {
    hide Laggard, StepPasses, Ceil, Steps, TimeOf, Times;
    StepsOfReals(tEnd);
    RealStep(Laggard(e), tEnd, k);
    var n: nat := Ceil(tEnd / STEP);
    var f := Least(e, TOLERANCE);
    if Allowed(tEnd, e) <= TOLERANCE {
      LaggardLags(tEnd, e, k);
      SlackIs(n, f, tEnd);
      Ordered(k, n, STEP - f);
    } else if 0 < k {
      LaggardPasses(tEnd, e, k - 1);
    }
  }

  lemma TooLittleRoom(tEnd: real, e: real)
    requires 0.0 < tEnd && 0.0 <= e && !RoomFor(tEnd, e)
    ensures 0 <= Ceil(tEnd / STEP) && ShortBy(Laggard(e), tEnd, e, Ceil(tEnd / STEP))
    ensures RunsOut(Laggard(e), tEnd, _ => true)
  {
    StepsOfReals(tEnd);
    hide Laggard, StepPasses, Ceil, Steps, TimeOf, RoomFor, Due;
    forall k: nat
      ensures StepPasses(Reals(), Laggard(e), tEnd, k)
      ensures Asked(Laggard(e), tEnd, k) - e <= Time(Laggard(e), tEnd, k + 1)
    {
      LaggardPasses(tEnd, e, k);
    }
    forall k: nat | k <= Ceil(tEnd / STEP)
      ensures Due(Reals(), tEnd, TimeOf(Reals(), Laggard(e), tEnd, k))
    {
      LaggardIsDue(tEnd, e, k);
    }
  }

  /** In exact arithmetic the buffer has room for every plant that falls short by at most e a step if and only if the
      shortfalls fit. */
  lemma RoomExactly(tEnd: real, e: real)
    requires 0.0 < tEnd && 0.0 <= e
    ensures 0 <= Ceil(tEnd / STEP)
    ensures RoomFor(tEnd, e)
            <==> forall plant: Plant, exchanged: nat -> bool ::
                   ShortBy(plant, tEnd, e, Ceil(tEnd / STEP)) ==> !RunsOut(plant, tEnd, exchanged)
  {
    StepsOfReals(tEnd);
    hide ShortBy, RunsOut, RoomFor, Ceil;
    if RoomFor(tEnd, e) {
      forall plant: Plant, exchanged: nat -> bool | ShortBy(plant, tEnd, e, Ceil(tEnd / STEP))
        ensures !RunsOut(plant, tEnd, exchanged)
      {
        EnoughRoom(plant, tEnd, exchanged, e);
      }
    } else {
      TooLittleRoom(tEnd, e);
    }
  }

  // ------------------------------------------------------------- no shortfall

  /** The plant returns the requested time. */
  ghost predicate Exact(plant: Plant) {
    forall k, t, h :: plant(k, t, h).last == t + h
  }

  function TimeAt(k: nat, tEnd: real): real {
    Least(STEP * (k as real), tEnd)
  }

  /** With a plant that returns the requested time, record k is at time min(0.02 k, t_end), the simulated time is that
      of the last record, and a run that ends has simulated t_end to within 1e-12. */
  lemma {:induction false} ExactTimes(plant: Plant, tEnd: real, k: nat)
    requires 0.0 < tEnd && Exact(plant)
    ensures Time(plant, tEnd, k) == Simulated(Reals(), plant, tEnd, k) == TimeAt(k, tEnd)
    ensures !Due(Reals(), tEnd, Time(plant, tEnd, k))
            ==> tEnd - TOLERANCE <= Simulated(Reals(), plant, tEnd, k) <= tEnd
  {
    if 0 < k {
      ExactTimes(plant, tEnd, k - 1);
      assert STEP * (k as real) == STEP * ((k - 1) as real) + STEP;
    }
  }

  /** And the buffer never runs out: the case e = 0. */
  lemma ExactHasRoom(plant: Plant, tEnd: real, exchanged: nat -> bool)
    requires 0.0 < tEnd && Exact(plant)
    ensures !RunsOut(plant, tEnd, exchanged)
  {
    StepsOfReals(tEnd);
    hide Ceil, Time, Steps;
    forall k: nat
      ensures Asked(plant, tEnd, k) <= Time(plant, tEnd, k + 1)
    {
      RealStep(plant, tEnd, k);
    }
    EnoughRoom(plant, tEnd, exchanged, 0.0);
  }

  // ------------------------------------------------- how far records can stray

  /** The most that a step may miss by: the tolerance, relative above one second. */
  function Miss(tEnd: real): real {
    if tEnd <= 1.0 then 0.000000000001 else 0.000000000001 * tEnd
  }

  lemma MissIs(tEnd: real, x: real)
    requires 0.0 < tEnd && 0.0 <= x <= tEnd
    ensures TOLERANCE * Greatest(1.0, Magnitude(x)) <= Miss(tEnd)
  {
  }

  lemma NextNominal(k: nat, tEnd: real)
    ensures TimeAt(0, tEnd) == Least(0.0, tEnd) && TimeAt(k + 1, tEnd) == Least(TimeAt(k, tEnd) + STEP, tEnd)
  {
    assert STEP * ((k + 1) as real) == STEP * (k as real) + STEP;
  }

  /** A step that passes the checks, from a time at which it is due, ends no earlier than 0 and near what was asked. */
  lemma PassedStep(plant: Plant, tEnd: real, k: nat)
    requires 0.0 < tEnd && 0.0 <= Time(plant, tEnd, k)
    requires StepPasses(Reals(), plant, tEnd, k) && Due(Reals(), tEnd, Time(plant, tEnd, k))
    ensures Magnitude(Time(plant, tEnd, k + 1) - Asked(plant, tEnd, k)) <= Miss(tEnd)
    ensures 0.0 <= Time(plant, tEnd, k + 1)
    ensures plant(k, Time(plant, tEnd, k), Least(STEP, tEnd - Time(plant, tEnd, k))).ok
  {
    RealStep(plant, tEnd, k);
    hide Time, StepPasses, TimeOf, Due;
    var asked := Asked(plant, tEnd, k);
    assert TOLERANCE <= asked <= tEnd;
    MissIs(tEnd, asked);
    ToleranceBelow(asked);
  }

  lemma ToleranceBelow(x: real)
    requires TOLERANCE <= x
    ensures TOLERANCE * Greatest(1.0, Magnitude(x)) <= x
  {
  }

  /** In exact arithmetic and with any plant: record n of a run is within n tolerances of min(0.02 n, t_end), whichever
      way the plant misses, and every step before it was answered with OK. */
  lemma {:induction false} RecordsStayClose(plant: Plant, tEnd: real, exchanged: nat -> bool, n: nat)
    requires 0.0 < tEnd && GotTo(Reals(), plant, tEnd, exchanged, n)
    ensures 0.0 <= Time(plant, tEnd, n)
    ensures TimeAt(n, tEnd) - Times(n, Miss(tEnd)) <= Time(plant, tEnd, n) <= TimeAt(n, tEnd) + Times(n, Miss(tEnd))
    ensures forall k | 0 <= k < n :: plant(k, Time(plant, tEnd, k), Least(STEP, tEnd - Time(plant, tEnd, k))).ok
  {
    hide StepPasses, Times, Miss, TimeAt, Due, TimeOf, Asked;
    TimesNext(0, Miss(tEnd));
    NextNominal(0, tEnd);
    if n == 0 {
      RealStep(plant, tEnd, 0);
    } else {
      var m := n - 1;
      PrefixOf(plant, tEnd, exchanged, n);
      RecordsStayClose(plant, tEnd, exchanged, m);
      PassedStep(plant, tEnd, m);
      NextNominal(m, tEnd);
      TimesNext(m, Miss(tEnd));
      AskedNear(plant, tEnd, m);
    }
  }

  lemma AskedNear(plant: Plant, tEnd: real, m: nat)
    ensures Magnitude(Asked(plant, tEnd, m) - TimeAt(m + 1, tEnd)) <= Magnitude(Time(plant, tEnd, m) - TimeAt(m, tEnd))
  {
    NextNominal(m, tEnd);
    hide Time, TimeAt;
  }
}
