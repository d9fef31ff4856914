/** The loop of the lockstep runner, in any arithmetic, with any plant whose answers pass its checks or do not. */
module RunnerLoop {
  import opened RealNumbers

  /** The numbers of the machine: the step and the tolerance it holds, and how it rounds the result of an operation. */
  datatype Arithmetic = Arithmetic(step: real, tolerance: real, round: real -> real)

  ghost predicate Sensible(a: Arithmetic) {
    0.0 < a.step && 0.0 <= a.tolerance && forall x: real :: 0.0 <= x ==> 0.0 <= a.round(x)
  }

  function Ceil(x: real): (n: int)
    ensures x <= n as real < x + 1.0
  {
    -((-x).Floor)
  }

  datatype Record = Record(time: real, odometry: nat, pwm: nat, attitude: nat, forwarded: bool)

  datatype Outcome = Finished | ExchangeFailed | StepFailed | CapacityExceeded

  /** What do_step answers: OK with no event, termination or early return, and the time it reached. */
  datatype Answer = Answer(ok: bool, last: real)

  /** The plant's answer to the step from record k, from a time by a step size. */
  type Plant = (nat, real, real) -> Answer

  function StepSize(a: Arithmetic, time: real, tEnd: real): real {
    Least(a.step, a.round(tEnd - time))
  }

  /** The time a step from `time` is expected to reach. */
  function Expected(a: Arithmetic, time: real, tEnd: real): real {
    a.round(time + StepSize(a, time, tEnd))
  }

  predicate Passes(a: Arithmetic, answer: Answer, expected: real) {
    answer.ok
    && Magnitude(a.round(answer.last - expected)) <= a.round(a.tolerance * Greatest(1.0, Magnitude(expected)))
  }

  lemma ExpectedPasses(a: Arithmetic, x: real)
    requires a.round(0.0) == 0.0 && 0.0 <= a.round(a.tolerance * Greatest(1.0, Magnitude(x)))
    ensures Passes(a, Answer(true, x), x)
  {
    assert x - x == 0.0;
  }

  /** The time of record k. */
  function TimeOf(a: Arithmetic, plant: Plant, tEnd: real, k: nat): real {
    if k == 0 then 0.0
    else
      var time := TimeOf(a, plant, tEnd, k - 1);
      plant(k - 1, time, StepSize(a, time, tEnd)).last
  }

  /** Before this time there is a step to take. */
  function Limit(a: Arithmetic, tEnd: real): real {
    a.round(tEnd - a.tolerance)
  }

  predicate Due(a: Arithmetic, tEnd: real, time: real) {
    time < Limit(a, tEnd)
  }

  /** The step from record k passes the checks. */
  predicate StepPasses(a: Arithmetic, plant: Plant, tEnd: real, k: nat) {
    var time := TimeOf(a, plant, tEnd, k);
    Passes(a, plant(k, time, StepSize(a, time, tEnd)), Expected(a, time, tEnd))
  }

  /** What the loop adds up as simulated time by record k. */
  function Simulated(a: Arithmetic, plant: Plant, tEnd: real, k: nat): real {
    if k == 0 then 0.0
    else a.round(Simulated(a, plant, tEnd, k - 1) + StepSize(a, TimeOf(a, plant, tEnd, k - 1), tEnd))
  }

  function RecordAt(a: Arithmetic, plant: Plant, tEnd: real, k: nat): Record {
    var time := TimeOf(a, plant, tEnd, k);
    Record(time, 3 * k + 1, 3 * k + 2, 3 * k + 3, Due(a, tEnd, time))
  }

  /** Whole steps to t_end. */
  function Steps(a: Arithmetic, tEnd: real): int
    requires a.step != 0.0
  {
    Ceil(a.round(tEnd / a.step))
  }

  function Capacity(a: Arithmetic, tEnd: real): int
    requires a.step != 0.0
  {
    Steps(a, tEnd) + 1
  }

  /** Records 0 to n - 1 were exchanged, were due and were stepped from. */
  ghost predicate GotTo(a: Arithmetic, plant: Plant, tEnd: real, exchanged: nat -> bool, n: int) {
    forall k | 0 <= k < n ::
      exchanged(k) && Due(a, tEnd, TimeOf(a, plant, tEnd, k)) && StepPasses(a, plant, tEnd, k)
  }

  lemma NoneYet(a: Arithmetic, plant: Plant, tEnd: real, exchanged: nat -> bool)
    ensures GotTo(a, plant, tEnd, exchanged, 0)
  {
  }

  /** What it takes to get past record n, and that getting to the end takes it. */
  lemma NextOne(a: Arithmetic, plant: Plant, tEnd: real, exchanged: nat -> bool, n: nat, end: nat)
    requires GotTo(a, plant, tEnd, exchanged, n) && n < end
    ensures GotTo(a, plant, tEnd, exchanged, n + 1)
            <==> exchanged(n) && Due(a, tEnd, TimeOf(a, plant, tEnd, n)) && StepPasses(a, plant, tEnd, n)
    ensures GotTo(a, plant, tEnd, exchanged, end) ==> GotTo(a, plant, tEnd, exchanged, n + 1)
  {
  }

  lemma StepIs(a: Arithmetic, plant: Plant, tEnd: real, k: nat)
    ensures var time := TimeOf(a, plant, tEnd, k);
            StepPasses(a, plant, tEnd, k)
            <==> Passes(a, plant(k, time, StepSize(a, time, tEnd)), Expected(a, time, tEnd))
  {
  }

  lemma StepsNotNegative(a: Arithmetic, tEnd: real)
    requires Sensible(a) && 0.0 < tEnd
    ensures 0 <= Steps(a, tEnd)
  {
    var q := tEnd / a.step;
    assert 0.0 <= q;
    assert 0.0 <= a.round(q);
  }

  /** run_loop; exchanged(k) says whether exchange k succeeds. */
  method Run(a: Arithmetic, tEnd: real, plant: Plant, exchanged: nat -> bool)
    returns (outcome: Outcome, records: seq<Record>, simulated: real)
    requires Sensible(a) && 0.0 < tEnd
    ensures |records| <= Capacity(a, tEnd)
    ensures forall k | 0 <= k < |records| :: records[k] == RecordAt(a, plant, tEnd, k)
    ensures outcome == Finished
            ==> 0 < |records| && GotTo(a, plant, tEnd, exchanged, |records| - 1) && exchanged(|records| - 1)
                && !Due(a, tEnd, TimeOf(a, plant, tEnd, |records| - 1))
                && simulated == Simulated(a, plant, tEnd, |records| - 1)
    ensures outcome == ExchangeFailed ==> GotTo(a, plant, tEnd, exchanged, |records|) && !exchanged(|records|)
    ensures outcome == StepFailed
            ==> 0 < |records| && GotTo(a, plant, tEnd, exchanged, |records| - 1) && exchanged(|records| - 1)
                && Due(a, tEnd, TimeOf(a, plant, tEnd, |records| - 1)) && !StepPasses(a, plant, tEnd, |records| - 1)
    ensures outcome == CapacityExceeded <==> GotTo(a, plant, tEnd, exchanged, Capacity(a, tEnd))
  {
    hide Passes, GotTo, StepPasses, StepSize, Limit, Steps, Expected;
    StepsNotNegative(a, tEnd);
    var capacity := Capacity(a, tEnd);
    NoneYet(a, plant, tEnd, exchanged);
    var time, sequence := 0.0, 0;
    records, simulated := [], 0.0;
    while true
      invariant sequence == 3 * |records|
      invariant time == TimeOf(a, plant, tEnd, |records|) && simulated == Simulated(a, plant, tEnd, |records|)
      invariant forall k | 0 <= k < |records| :: records[k] == RecordAt(a, plant, tEnd, k)
      invariant GotTo(a, plant, tEnd, exchanged, |records|) && |records| <= capacity
      decreases capacity - |records|
    {
      ghost var n := |records|;
      var willStep := time < Limit(a, tEnd);
      if |records| >= capacity {
        return CapacityExceeded, records, simulated;
      }
      sequence := sequence + 1;
      var odometry := sequence;
      NextOne(a, plant, tEnd, exchanged, n, capacity);
      if !exchanged(|records|) {
        return ExchangeFailed, records, simulated;
      }
      var pwm := sequence + 1;
      var attitude := sequence + 2;
      sequence := sequence + 2;
      records := records + [Record(time, odometry, pwm, attitude, willStep)];
      if !willStep {
        break;
      }
      var dt := StepSize(a, time, tEnd);
      var answer := plant(|records| - 1, time, dt);
      var expected := Expected(a, time, tEnd);
      assert StepPasses(a, plant, tEnd, n) <==> Passes(a, answer, expected) by { StepIs(a, plant, tEnd, n); }
      if !Passes(a, answer, expected) {
        return StepFailed, records, simulated;
      }
      time := answer.last;
      simulated := a.round(simulated + dt);
    }
    return Finished, records, simulated;
  }

  // ------------------------------------------------------ when there is room

  /** The plant falls short of what is left of a step by at most e, rounding included, on the first n steps. */
  ghost predicate Short(a: Arithmetic, plant: Plant, tEnd: real, e: real, n: nat) {
    forall k | 0 <= k < n ::
      Least(TimeOf(a, plant, tEnd, k) + a.step, tEnd) - e <= TimeOf(a, plant, tEnd, k + 1)
  }

  function Times(n: int, f: real): real {
    (n as real) * f
  }

  lemma TimesNext(m: nat, f: real)
    ensures Times(0, f) == 0.0 && Times(m + 1, f) == Times(m, f) + f && (0.0 <= f ==> 0.0 <= Times(m, f))
  {
  }

  lemma {:induction false} KeepsUp(a: Arithmetic, plant: Plant, tEnd: real, e: real, n: nat)
    requires 0.0 <= e <= a.step && e <= tEnd && Short(a, plant, tEnd, e, n)
    ensures Least(Times(n, a.step - e), tEnd - e) <= TimeOf(a, plant, tEnd, n)
  {
    hide Times;
    if n == 0 {
      TimesNext(0, a.step - e);
    } else {
      KeepsUp(a, plant, tEnd, e, n - 1);
      TimesNext(n - 1, a.step - e);
      assert Least(TimeOf(a, plant, tEnd, n - 1) + a.step, tEnd) - e <= TimeOf(a, plant, tEnd, n);
    }
  }

  /** What can be checked before the run: n steps that each fall short by e still reach the last time that is due. */
  predicate Fits(a: Arithmetic, tEnd: real, e: real)
    requires a.step != 0.0
  {
    Limit(a, tEnd) <= Least(Times(Steps(a, tEnd), a.step - e), tEnd - e)
  }

  /** In any arithmetic: with a plant that falls short by at most e a step, the buffer never runs out if the steps
      fit. */
  lemma RoomLeft(a: Arithmetic, plant: Plant, tEnd: real, exchanged: nat -> bool, e: real)
    requires Sensible(a) && 0.0 < tEnd && 0.0 <= e <= a.step && e <= tEnd && Fits(a, tEnd, e)
    requires 0 <= Steps(a, tEnd) ==> Short(a, plant, tEnd, e, Steps(a, tEnd))
    ensures 0 <= Steps(a, tEnd) && !GotTo(a, plant, tEnd, exchanged, Capacity(a, tEnd))
  {
    StepsNotNegative(a, tEnd);
    hide Steps, Limit, TimeOf, Least, Times;
    var n := Steps(a, tEnd);
    KeepsUp(a, plant, tEnd, e, n);
    assert !Due(a, tEnd, TimeOf(a, plant, tEnd, n));
  }
}
