/** The estimator warm-up counter both loops keep, over whole runs. */
module WarmUp {

  const UINT32_MAX := 0xFFFF_FFFF

  /** What one cycle does to estimator_control_steps, in this order. */
  datatype Mark = Mark(clearFirst: bool, stepped: bool, clearLast: bool)

  function Saturating(n: nat): nat {
    if n < UINT32_MAX then n + 1 else n
  }

  function Advance(steps: nat, m: Mark): nat {
    var cleared := if m.clearFirst then 0 else steps;
    var counted := if m.stepped then Saturating(cleared) else cleared;
    if m.clearLast then 0 else counted
  }

  function Counter(ms: seq<Mark>): nat {
    if ms == [] then 0 else Advance(Counter(ms[..|ms| - 1]), ms[|ms| - 1])
  }

  function Steps(ms: seq<Mark>): nat {
    if ms == [] then 0 else Steps(ms[..|ms| - 1]) + (if ms[|ms| - 1].stepped then 1 else 0)
  }

  /** The first cycle whose step still counts: the last one that cleared first, or the one after the last that
      cleared last. */
  function Origin(ms: seq<Mark>): (o: nat)
    ensures o <= |ms|
  {
    if ms == [] then 0
    else if ms[|ms| - 1].clearLast then |ms|
    else if ms[|ms| - 1].clearFirst then |ms| - 1
    else Origin(ms[..|ms| - 1])
  }

  /** Nothing cleared the counter since cycle o, and o is where it was cleared or the start of the run. */
  ghost predicate SinceReset(ms: seq<Mark>, o: nat) {
    && o <= |ms|
    && (forall k | o <= k < |ms| :: !ms[k].clearLast)
    && (forall k | o < k < |ms| :: !ms[k].clearFirst)
    && (o == 0 || ms[o - 1].clearLast || (o < |ms| && ms[o].clearFirst))
  }

  lemma {:induction false} OriginIsReset(ms: seq<Mark>)
    ensures SinceReset(ms, Origin(ms))
  {
    if ms != [] {
      var n := |ms| - 1;
      OriginIsReset(ms[..n]);
      assert forall k | 0 <= k < n :: ms[..n][k] == ms[k];
    }
  }

  lemma StepsFrom(ms: seq<Mark>, o: nat)
    requires o < |ms|
    ensures Steps(ms[o..]) == Steps(ms[..|ms| - 1][o..]) + (if ms[|ms| - 1].stepped then 1 else 0)
  {
    var n := |ms| - 1;
    assert ms[o..][..n - o] == ms[..n][o..] && ms[o..][n - o] == ms[n];
  }

  /** The counter is the saturated number of model steps since the last reset event. */
  lemma {:induction false} CounterIsHistory(ms: seq<Mark>)
    ensures SinceReset(ms, Origin(ms))
    ensures var n := Steps(ms[Origin(ms)..]); Counter(ms) == (if n < 4_294_967_295 then n else 4_294_967_295)
  {
    OriginIsReset(ms);
    hide SinceReset;
    if ms != [] {
      var n := |ms| - 1;
      var o := Origin(ms);
      CounterIsHistory(ms[..n]);
      if o == |ms| {
        assert ms[o..] == [];
      } else {
        StepsFrom(ms, o);
        if o == n {
          assert ms[..n][o..] == [];
        }
      }
    }
  }

  lemma {:induction false} StepsHaveCycles(ms: seq<Mark>)
    ensures 1 <= Steps(ms) ==> exists b :: 0 <= b < |ms| && ms[b].stepped
    ensures 2 <= Steps(ms) ==> exists a, b :: 0 <= a < b < |ms| && ms[a].stepped && ms[b].stepped
  {
    if ms != [] {
      var n := |ms| - 1;
      StepsHaveCycles(ms[..n]);
      if 2 <= Steps(ms) && ms[n].stepped {
        var a :| 0 <= a < n && ms[..n][a].stepped;
        assert ms[a].stepped;
      } else if 2 <= Steps(ms) {
        var a, b :| 0 <= a < b < n && ms[..n][a].stepped && ms[..n][b].stepped;
        assert ms[a].stepped && ms[b].stepped;
      } else if 1 <= Steps(ms) && !ms[n].stepped {
        var b :| 0 <= b < n && ms[..n][b].stepped;
        assert ms[b].stepped;
      } else if 1 <= Steps(ms) {
        assert ms[n].stepped;
      }
    }
  }

  /** The count is two or more exactly if there were two model steps since the last reset. */
  lemma WarmExactly(ms: seq<Mark>)
    ensures 2 <= Counter(ms) <==> exists a, b :: TwoSteps(ms, a, b)
  {
    if a: nat, b: nat :| TwoSteps(ms, a, b) {
      TwoStepsCount(ms, a, b);
    }
    if 2 <= Counter(ms) {
      CountOfTwo(ms);
    }
  }

  /** And one or more exactly if there was one. */
  lemma CountedExactly(ms: seq<Mark>)
    ensures 1 <= Counter(ms) <==> exists a :: OneStep(ms, a)
  {
    if a: nat :| OneStep(ms, a) {
      OneStepCounts(ms, a);
    }
    if 1 <= Counter(ms) {
      CountOfOne(ms);
    }
  }

  lemma CountOfTwo(ms: seq<Mark>)
    requires 2 <= Counter(ms)
    ensures exists a, b :: TwoSteps(ms, a, b)
  {
    CounterIsHistory(ms);
    var o := Origin(ms);
    StepsHaveCycles(ms[o..]);
    var a, b :| 0 <= a < b < |ms[o..]| && ms[o..][a].stepped && ms[o..][b].stepped;
    assert ms[o + a].stepped && ms[o + b].stepped;
    assert TwoSteps(ms, o + a, o + b);
  }

  lemma CountOfOne(ms: seq<Mark>)
    requires 1 <= Counter(ms)
    ensures exists a :: OneStep(ms, a)
  {
    CounterIsHistory(ms);
    var o := Origin(ms);
    StepsHaveCycles(ms[o..]);
    var a :| 0 <= a < |ms[o..]| && ms[o..][a].stepped;
    assert OneStep(ms, o + a);
  }

  lemma {:induction false} OneStepCounts(ms: seq<Mark>, a: nat)
    requires OneStep(ms, a)
    ensures 1 <= Counter(ms)
  {
    var n := |ms| - 1;
    if a < n {
      assert forall k | 0 <= k < n :: ms[..n][k] == ms[k];
      OneStepCounts(ms[..n], a);
    }
  }

  lemma {:induction false} TwoStepsCount(ms: seq<Mark>, a: nat, b: nat)
    requires TwoSteps(ms, a, b)
    ensures 2 <= Counter(ms)
  {
    var n := |ms| - 1;
    assert forall k | 0 <= k < n :: ms[..n][k] == ms[k];
    if b < n {
      TwoStepsCount(ms[..n], a, b);
    } else {
      OneStepCounts(ms[..n], a);
    }
  }

  ghost predicate OneStep(ms: seq<Mark>, a: nat) {
    && a < |ms| && ms[a].stepped
    && (forall k | a <= k < |ms| :: !ms[k].clearLast)
    && (forall k | a < k < |ms| :: !ms[k].clearFirst)
  }

  ghost predicate TwoSteps(ms: seq<Mark>, a: nat, b: nat) {
    && a < b < |ms| && ms[a].stepped && ms[b].stepped
    && (forall k | a <= k < |ms| :: !ms[k].clearLast)
    && (forall k | a < k < |ms| :: !ms[k].clearFirst)
  }
}

/** Frames of sixteen channels and the choice between manual and automatic flight. */
module Channels {

  const CHANNELS := 16
  /** Channels that drive surfaces and throttle. */
  const DRIVEN := 5

  datatype Config = Config(manualOverride: bool, switchChannel: nat, threshold: int)

  predicate Configured(c: Config) {
    c.switchChannel < CHANNELS && 1000 <= c.threshold <= 2000
  }

  datatype Manual = Manual(valid: bool, rc: seq<int>)

  /** manual_control_valid; its loop checks the driven channels one by one. */
  method ManualControlValid(c: Config, m: Manual) returns (valid: bool, switch: int)
    requires Configured(c) && |m.rc| == CHANNELS
    ensures valid == ManualValid(c, m) && switch == m.rc[c.switchChannel]
  {
    valid := m.valid;
    switch := m.rc[c.switchChannel];
    for i := 0 to DRIVEN
      invariant valid <==> m.valid && forall j | 0 <= j < i :: 900 <= m.rc[j] <= 2100
    {
      valid := valid && 900 <= m.rc[i] && m.rc[i] <= 2100;
    }
    valid := valid && 900 <= switch && switch <= 2100;
  }

  predicate ManualValid(c: Config, m: Manual)
    requires Configured(c) && |m.rc| == CHANNELS
  {
    && m.valid
    && (forall i | 0 <= i < DRIVEN :: 900 <= m.rc[i] <= 2100)
    && 900 <= m.rc[c.switchChannel] <= 2100
  }

  predicate AutoSelected(c: Config, m: Manual)
    requires Configured(c) && |m.rc| == CHANNELS
  {
    !c.manualOverride || !ManualValid(c, m) || c.threshold < m.rc[c.switchChannel]
  }

  /** Manual flight is wanted: the override is configured, the frame is flagged valid, channels 0 to 4 and the switch
      are within range, and the switch is not above the threshold. */
  predicate WantsManual(c: Config, m: Manual)
    requires c.switchChannel < 16 && |m.rc| == 16
  {
    && c.manualOverride && m.valid
    && 900 <= m.rc[0] <= 2100 && 900 <= m.rc[1] <= 2100 && 900 <= m.rc[2] <= 2100 && 900 <= m.rc[3] <= 2100
    && 900 <= m.rc[4] <= 2100 && 900 <= m.rc[c.switchChannel] <= 2100
    && m.rc[c.switchChannel] <= c.threshold
  }

  lemma ManualWhenWanted(c: Config, m: Manual)
    requires Configured(c) && |m.rc| == CHANNELS
    ensures WantsManual(c, m) <==> !AutoSelected(c, m)
    ensures WantsManual(c, m) ==> Safe(m.rc)
  {
  }

  function Idle(): seq<int> {
    [1500, 1500, 1000, 1500, 1000, 0, 0, 0, 0, 0, 0, 0, 0, 0, 0, 0]
  }

  function Unset(): seq<int> {
    [0, 0, 0, 0, 0, 0, 0, 0, 0, 0, 0, 0, 0, 0, 0, 0]
  }

  /** What fixed_wing_map_output gives: the axis helpers and the clamp answer 1000 to 2000. */
  predicate FromModel(rc: seq<int>) {
    |rc| == CHANNELS && forall i | 0 <= i < DRIVEN :: 1000 <= rc[i] <= 2000
  }

  predicate Safe(rc: seq<int>) {
    |rc| == CHANNELS && forall i | 0 <= i < DRIVEN :: 900 <= rc[i] <= 2100
  }
}

/** The control loop of the simulation build. */
module SilLoop {
  import opened StepGate
  import opened WarmUp
  import opened Channels

  /** What a cycle finds: the odometry's time and validity, the manual frame, and what the model would answer if
      stepped. */
  datatype Input = Input(time: Time, odometryOk: bool, manual: Manual, output: seq<int>,
                         attitudeFinite: bool, ratesFinite: bool)

  predicate InputOk(x: Input) {
    |x.manual.rc| == CHANNELS && FromModel(x.output)
  }

  datatype Sil = Sil(rc: seq<int>, next: Time, steps: nat, previousAuto: bool)

  function Begin(): Sil {
    Sil(Unset(), 0, 0, false)
  }

  predicate Stepped(c: Config, s: Sil, x: Input)
    requires Configured(c) && InputOk(x)
  {
    AutoSelected(c, x.manual) && Due(s.next, x.time) && x.odometryOk
  }

  function MarkOf(c: Config, s: Sil, x: Input): Mark
    requires Configured(c) && InputOk(x)
  {
    var auto := AutoSelected(c, x.manual);
    Mark(auto && !s.previousAuto, Stepped(c, s, x), auto && !x.odometryOk)
  }

  /** One cycle of the loop. */
  function Cycle(c: Config, s: Sil, x: Input): Sil
    requires Configured(c) && InputOk(x)
  {
    var auto := AutoSelected(c, x.manual);
    Sil(if !auto then x.manual.rc
        else if !x.odometryOk then Idle()
        else if Due(s.next, x.time) then x.output
        else s.rc,
        After(s.next, x.time),
        Advance(s.steps, MarkOf(c, s, x)),
        auto)
  }

  class Loop {
    const config: Config
    const gate: Gate
    var controlRc: seq<int>
    var estimatorSteps: nat
    var previousAuto: bool

    ghost predicate Valid() {
      Configured(config)
    }

    ghost function View(): Sil
      reads this, gate
    {
      Sil(controlRc, gate.next, estimatorSteps, previousAuto)
    }

    constructor (c: Config)
      requires Configured(c)
      ensures Valid() && config == c && View() == Begin() && fresh(gate)
    {
      config := c;
      gate := new Gate();
      controlRc := Unset();
      estimatorSteps := 0;
      previousAuto := false;
    }

    /** The body of the loop in main. */
    method RunCycle(x: Input)
      requires Valid() && InputOk(x)
      modifies this, gate
      ensures View() == Cycle(config, old(View()), x)
      ensures controlRc == if WantsManual(config, x.manual) then x.manual.rc
                           else if !x.odometryOk then [1500, 1500, 1000, 1500, 1000, 0, 0, 0, 0, 0, 0, 0, 0, 0, 0, 0]
                           else if old(gate.next) <= x.time then x.output
                           else old(controlRc)
    {
      ManualWhenWanted(config, x.manual);
      var valid, switch := ManualControlValid(config, x.manual);
      var auto := !config.manualOverride || !valid || config.threshold < switch;
      if auto && !previousAuto {
        estimatorSteps := 0;
      }
      previousAuto := auto;
      var step := gate.StepDue(x.time);
      if auto {
        if step && x.odometryOk {
          if estimatorSteps < UINT32_MAX {
            estimatorSteps := estimatorSteps + 1;
          }
          controlRc := x.output;
        } else if !x.odometryOk {
          estimatorSteps := 0;
          controlRc := Idle();
        }
      } else {
        controlRc := x.manual.rc;
      }
    }
  }

  // ------------------------------------------------------------------- runs

  predicate RunOk(c: Config, xs: seq<Input>) {
    Configured(c) && forall k | 0 <= k < |xs| :: InputOk(xs[k])
  }

  function StateAfter(c: Config, xs: seq<Input>): Sil
    requires RunOk(c, xs)
  {
    if xs == [] then Begin() else Cycle(c, StateAfter(c, xs[..|xs| - 1]), xs[|xs| - 1])
  }

  function Times(xs: seq<Input>): (ts: seq<Time>)
    ensures |ts| == |xs|
  {
    seq(|xs|, k requires 0 <= k < |xs| => xs[k].time)
  }

  /** Manual flight is wanted in cycle k. */
  predicate Manually(c: Config, xs: seq<Input>, k: nat)
    requires RunOk(c, xs) && k < |xs|
  {
    WantsManual(c, xs[k].manual)
  }

  /** In cycle k the model is stepped. */
  predicate SteppedAt(c: Config, xs: seq<Input>, k: nat)
    requires RunOk(c, xs) && k < |xs|
  {
    !Manually(c, xs, k) && xs[k].odometryOk && Fires(Times(xs), k)
  }

  /** Cycle k is the first of the run or the first after manual flight. */
  predicate EntersAuto(c: Config, xs: seq<Input>, k: nat)
    requires RunOk(c, xs) && k < |xs|
  {
    !Manually(c, xs, k) && (k == 0 || Manually(c, xs, k - 1))
  }

  predicate LosesOdometry(c: Config, xs: seq<Input>, k: nat)
    requires RunOk(c, xs) && k < |xs|
  {
    !Manually(c, xs, k) && !xs[k].odometryOk
  }

  /** The gate of the loop is the gate over the odometry times. */
  lemma {:induction false} GateIsNext(c: Config, xs: seq<Input>)
    requires RunOk(c, xs)
    ensures StateAfter(c, xs).next == NextAfter(Times(xs))
    ensures xs != [] ==> StateAfter(c, xs).previousAuto == !Manually(c, xs, |xs| - 1)
  {
    if xs != [] {
      var n := |xs| - 1;
      assert InputOk(xs[n]);
      GateIsNext(c, xs[..n]);
      assert Times(xs)[..n] == Times(xs[..n]);
      ManualWhenWanted(c, xs[n].manual);
    }
  }

  lemma TimesOfPart(xs: seq<Input>, n: nat)
    requires n <= |xs|
    ensures Times(xs)[..n] == Times(xs[..n])
  {
  }

  /** The frame after every cycle: the manual frame exactly if manual flight is wanted, else the idle frame exactly if
      the odometry is bad, else the model's output exactly if the gate fires, else the frame before. */
  lemma FrameIs(c: Config, xs: seq<Input>)
    requires RunOk(c, xs) && xs != []
    ensures var n := |xs| - 1;
            StateAfter(c, xs).rc == if Manually(c, xs, n) then xs[n].manual.rc
                                    else if !xs[n].odometryOk then
                                      [1500, 1500, 1000, 1500, 1000, 0, 0, 0, 0, 0, 0, 0, 0, 0, 0, 0]
                                    else if Fires(Times(xs), n) then xs[n].output
                                    else StateAfter(c, xs[..n]).rc
  {
    var n := |xs| - 1;
    assert InputOk(xs[n]);
    GateIsNext(c, xs[..n]);
    TimesOfPart(xs, n);
    ManualWhenWanted(c, xs[n].manual);
  }

  /** Where the frame published after cycle n came from: cycle j made it and every cycle since held it. */
  ghost predicate MadeBy(c: Config, xs: seq<Input>, j: nat, rc: seq<int>)
    requires RunOk(c, xs)
  {
    && j < |xs|
    && (|| (Manually(c, xs, j) && rc == xs[j].manual.rc)
        || (LosesOdometry(c, xs, j) && rc == [1500, 1500, 1000, 1500, 1000, 0, 0, 0, 0, 0, 0, 0, 0, 0, 0, 0])
        || (SteppedAt(c, xs, j) && rc == xs[j].output))
    && forall k | j < k < |xs| :: Held(c, xs, k)
  }

  ghost predicate Held(c: Config, xs: seq<Input>, k: nat)
    requires RunOk(c, xs) && k < |xs|
  {
    !Manually(c, xs, k) && xs[k].odometryOk && !Fires(Times(xs), k)
  }

  lemma SamePart(c: Config, xs: seq<Input>, n: nat, k: nat)
    requires RunOk(c, xs) && k < n <= |xs|
    ensures Manually(c, xs[..n], k) == Manually(c, xs, k) && SteppedAt(c, xs[..n], k) == SteppedAt(c, xs, k)
    ensures LosesOdometry(c, xs[..n], k) == LosesOdometry(c, xs, k) && Held(c, xs[..n], k) == Held(c, xs, k)
  {
    assert Times(xs[..n])[..k] == Times(xs)[..k];
  }

  /** After every cycle the published frame is a model output, the idle frame or a validated manual frame, possibly
      held. */
  lemma {:induction false} Provenance(c: Config, xs: seq<Input>)
    requires RunOk(c, xs) && xs != []
    ensures exists j: nat :: MadeBy(c, xs, j, StateAfter(c, xs).rc)
  {
    hide Manually, InputOk, Fires;
    var n := |xs| - 1;
    FrameIs(c, xs);
    if Held(c, xs, n) {
      if n == 0 {
        FirstFires(xs);
        assert false;
      }
      Provenance(c, xs[..n]);
      var j: nat :| MadeBy(c, xs[..n], j, StateAfter(c, xs[..n]).rc);
      SamePart(c, xs, n, j);
      forall k | j < k < |xs| ensures Held(c, xs, k) {
        if k < n {
          SamePart(c, xs, n, k);
          assert Held(c, xs[..n], k);
        }
      }
      assert MadeBy(c, xs, j, StateAfter(c, xs).rc);
    } else {
      assert MadeBy(c, xs, n, StateAfter(c, xs).rc);
    }
  }

  lemma FirstFires(xs: seq<Input>)
    requires xs != []
    ensures Fires(Times(xs), 0)
  {
  }

  /** So channels 0 to 4 stay within 900 to 2100 from the first cycle on. */
  lemma OutputSafe(c: Config, xs: seq<Input>)
    requires RunOk(c, xs) && xs != []
    ensures Safe(StateAfter(c, xs).rc)
  {
    Provenance(c, xs);
    var j: nat :| MadeBy(c, xs, j, StateAfter(c, xs).rc);
    assert InputOk(xs[j]);
    ManualWhenWanted(c, xs[j].manual);
  }

  function Marks(c: Config, xs: seq<Input>): (ms: seq<Mark>)
    requires RunOk(c, xs)
    ensures |ms| == |xs|
  {
    if xs == [] then []
    else Marks(c, xs[..|xs| - 1]) + [MarkOf(c, StateAfter(c, xs[..|xs| - 1]), xs[|xs| - 1])]
  }

  lemma LastMark(c: Config, xs: seq<Input>)
    requires RunOk(c, xs) && xs != []
    ensures var n := |xs| - 1;
            Marks(c, xs)[n] == Mark(EntersAuto(c, xs, n), SteppedAt(c, xs, n), LosesOdometry(c, xs, n))
  {
    hide WantsManual, AutoSelected;
    var n := |xs| - 1;
    assert InputOk(xs[n]);
    GateIsNext(c, xs[..n]);
    TimesOfPart(xs, n);
    ManualWhenWanted(c, xs[n].manual);
  }

  lemma {:induction false} MarkAt(c: Config, xs: seq<Input>, k: nat)
    requires RunOk(c, xs) && k < |xs|
    ensures Marks(c, xs)[k] == Mark(EntersAuto(c, xs, k), SteppedAt(c, xs, k), LosesOdometry(c, xs, k))
  {
    hide Manually, SteppedAt, LosesOdometry, MarkOf, StateAfter, Held;
    var n := |xs| - 1;
    if k < n {
      MarkAt(c, xs[..n], k);
      SamePart(c, xs, n, k);
      if 0 < k {
        SamePart(c, xs, n, k - 1);
      }
    } else {
      LastMark(c, xs);
    }
  }

  /** The step counter is the warm-up counter of the run's automatic entries, model steps and losses of odometry. */
  lemma {:induction false} StepsAreCounter(c: Config, xs: seq<Input>)
    requires RunOk(c, xs)
    ensures StateAfter(c, xs).steps == Counter(Marks(c, xs))
    ensures forall k | 0 <= k < |xs| ::
              Marks(c, xs)[k] == Mark(EntersAuto(c, xs, k), SteppedAt(c, xs, k), LosesOdometry(c, xs, k))
  {
    if xs != [] {
      var n := |xs| - 1;
      StepsAreCounter(c, xs[..n]);
      assert Marks(c, xs)[..n] == Marks(c, xs[..n]);
    }
    forall k | 0 <= k < |xs|
      ensures Marks(c, xs)[k] == Mark(EntersAuto(c, xs, k), SteppedAt(c, xs, k), LosesOdometry(c, xs, k))
    {
      MarkAt(c, xs, k);
    }
  }

  /** attitude_estimate_flags */
  predicate AttitudeValid(s: Sil, x: Input) {
    x.odometryOk && 1 <= s.steps && x.attitudeFinite
  }

  predicate RatesValid(s: Sil, x: Input) {
    x.odometryOk && 2 <= s.steps && x.ratesFinite
  }

  /** Since the step of cycle a automatic flight was not entered anew and the odometry was never bad. */
  ghost predicate KeptSince(c: Config, xs: seq<Input>, a: nat)
    requires RunOk(c, xs) && a < |xs|
  {
    && SteppedAt(c, xs, a)
    && (forall k | a <= k < |xs| :: !LosesOdometry(c, xs, k))
    && (forall k | a < k < |xs| :: !EntersAuto(c, xs, k))
  }

  /** The attitude is flagged valid exactly if it is finite, the odometry is good now, and a model step lies behind it
      since automatic flight was entered or the odometry was bad. */
  lemma AttitudeValidExactly(c: Config, xs: seq<Input>)
    requires RunOk(c, xs) && xs != []
    ensures var x := xs[|xs| - 1];
            AttitudeValid(StateAfter(c, xs), x)
            <==> x.odometryOk && x.attitudeFinite && exists a :: 0 <= a < |xs| && KeptSince(c, xs, a)
  {
    hide AttitudeValid, EntersAuto, SteppedAt, LosesOdometry;
    StepsAreCounter(c, xs);
    var ms := Marks(c, xs);
    CountedExactly(ms);
    if a: nat :| OneStep(ms, a) {
      assert KeptSince(c, xs, a);
    }
    if a :| 0 <= a < |xs| && KeptSince(c, xs, a) {
      assert OneStep(ms, a);
    }
    FlagsAre(StateAfter(c, xs), xs[|xs| - 1]);
  }

  /** And the rates exactly if they are finite and two such steps do. */
  lemma RatesValidExactly(c: Config, xs: seq<Input>)
    requires RunOk(c, xs) && xs != []
    ensures var x := xs[|xs| - 1];
            RatesValid(StateAfter(c, xs), x)
            <==> x.odometryOk && x.ratesFinite
                 && exists a, b :: 0 <= a < b < |xs| && KeptSince(c, xs, a) && SteppedAt(c, xs, b)
  {
    hide RatesValid, EntersAuto, SteppedAt, LosesOdometry;
    StepsAreCounter(c, xs);
    var ms := Marks(c, xs);
    WarmExactly(ms);
    if a: nat, b: nat :| TwoSteps(ms, a, b) {
      assert KeptSince(c, xs, a) && SteppedAt(c, xs, b);
    }
    if a, b :| 0 <= a < b < |xs| && KeptSince(c, xs, a) && SteppedAt(c, xs, b) {
      assert TwoSteps(ms, a, b);
    }
    FlagsAre(StateAfter(c, xs), xs[|xs| - 1]);
  }

  lemma FlagsAre(s: Sil, x: Input)
    ensures AttitudeValid(s, x) <==> x.odometryOk && 1 <= s.steps && x.attitudeFinite
    ensures RatesValid(s, x) <==> x.odometryOk && 2 <= s.steps && x.ratesFinite
  {
  }
}

/** The control loop of the realtime and FastDyn builds. */
module RealtimeLoop {
  import opened WarmUp
  import opened Channels

  /** What a cycle finds; due is always true except behind the FastDyn gate, and a recent pose is a valid one. */
  datatype Input = Input(due: bool, poseValid: bool, recent: bool, manual: Manual, output: seq<int>,
                         attitudeFinite: bool, ratesFinite: bool)

  predicate InputOk(x: Input) {
    |x.manual.rc| == CHANNELS && FromModel(x.output) && (x.recent ==> x.poseValid)
  }

  datatype Realtime = Realtime(rc: seq<int>, steps: nat)

  function Begin(): Realtime {
    Realtime(Unset(), 0)
  }

  function MarkOf(x: Input): Mark {
    Mark(false, x.due && x.poseValid, !x.poseValid)
  }

  function Cycle(c: Config, s: Realtime, x: Input): Realtime
    requires Configured(c) && InputOk(x)
  {
    Realtime(if !AutoSelected(c, x.manual) then x.manual.rc else if x.poseValid then x.output else Idle(),
             Advance(s.steps, MarkOf(x)))
  }

  class Loop {
    const config: Config
    var controlRc: seq<int>
    var estimatorSteps: nat

    ghost function View(): Realtime
      reads this
    {
      Realtime(controlRc, estimatorSteps)
    }

    constructor (c: Config)
      ensures config == c && View() == Begin()
    {
      config := c;
      controlRc := Unset();
      estimatorSteps := 0;
    }

    /** The body of the loop in main. */
    method RunCycle(x: Input)
      requires Configured(config) && InputOk(x)
      modifies this
      ensures View() == Cycle(config, old(View()), x)
      ensures controlRc == if WantsManual(config, x.manual) then x.manual.rc
                           else if x.poseValid then x.output
                           else [1500, 1500, 1000, 1500, 1000, 0, 0, 0, 0, 0, 0, 0, 0, 0, 0, 0]
    {
      ManualWhenWanted(config, x.manual);
      var valid, switch := ManualControlValid(config, x.manual);
      var auto := !config.manualOverride || !valid || config.threshold < switch;
      if x.due && x.poseValid {
        if estimatorSteps < UINT32_MAX {
          estimatorSteps := estimatorSteps + 1;
        }
      } else if !x.poseValid {
        estimatorSteps := 0;
      }
      if auto {
        if x.poseValid {
          controlRc := x.output;
        } else {
          controlRc := Idle();
        }
      } else {
        controlRc := x.manual.rc;
      }
    }
  }

  predicate RunOk(c: Config, xs: seq<Input>) {
    Configured(c) && forall k | 0 <= k < |xs| :: InputOk(xs[k])
  }

  function StateAfter(c: Config, xs: seq<Input>): Realtime
    requires RunOk(c, xs)
  {
    if xs == [] then Begin() else Cycle(c, StateAfter(c, xs[..|xs| - 1]), xs[|xs| - 1])
  }

  /** After every cycle the frame is this cycle's manual frame exactly if manual flight is wanted, else this cycle's
      model output exactly if the pose is valid, else the idle frame; it is safe in every case. */
  lemma OutputSafe(c: Config, xs: seq<Input>)
    requires RunOk(c, xs) && xs != []
    ensures var rc, x := StateAfter(c, xs).rc, xs[|xs| - 1];
            && Safe(rc) && |x.manual.rc| == 16
            && rc == if WantsManual(c, x.manual) then x.manual.rc
                     else if x.poseValid then x.output
                     else [1500, 1500, 1000, 1500, 1000, 0, 0, 0, 0, 0, 0, 0, 0, 0, 0, 0]
  {
    assert InputOk(xs[|xs| - 1]);
    ManualWhenWanted(c, xs[|xs| - 1].manual);
  }

  function Marks(xs: seq<Input>): (ms: seq<Mark>)
    ensures |ms| == |xs|
  {
    seq(|xs|, k requires 0 <= k < |xs| => MarkOf(xs[k]))
  }

  /** The step counter is the warm-up counter of the run's steps and invalid poses. */
  lemma {:induction false} StepsAreCounter(c: Config, xs: seq<Input>)
    requires RunOk(c, xs)
    ensures StateAfter(c, xs).steps == Counter(Marks(xs))
    ensures forall k | 0 <= k < |xs| :: Marks(xs)[k] == Mark(false, xs[k].due && xs[k].poseValid, !xs[k].poseValid)
  {
    if xs != [] {
      var n := |xs| - 1;
      StepsAreCounter(c, xs[..n]);
      assert Marks(xs)[..n] == Marks(xs[..n]);
    }
  }

  /** attitude_estimate_flags */
  predicate AttitudeValid(s: Realtime, x: Input) {
    x.recent && 1 <= s.steps && x.attitudeFinite
  }

  predicate RatesValid(s: Realtime, x: Input) {
    x.recent && 2 <= s.steps && x.ratesFinite
  }

  /** A model step in cycle a, and a valid pose ever since. */
  ghost predicate KeptSince(xs: seq<Input>, a: nat)
    requires a < |xs|
  {
    xs[a].due && forall k | a <= k < |xs| :: xs[k].poseValid
  }

  /** The attitude is flagged valid exactly if it is finite, the pose is recent, and a model step lies behind it since
      the pose was last invalid. */
  lemma AttitudeValidExactly(c: Config, xs: seq<Input>)
    requires RunOk(c, xs) && xs != []
    ensures var x := xs[|xs| - 1];
            AttitudeValid(StateAfter(c, xs), x)
            <==> x.recent && x.attitudeFinite && exists a :: 0 <= a < |xs| && KeptSince(xs, a)
  {
    StepsAreCounter(c, xs);
    var ms := Marks(xs);
    CountedExactly(ms);
    if a: nat :| OneStep(ms, a) {
      assert KeptSince(xs, a);
    }
    if a :| 0 <= a < |xs| && KeptSince(xs, a) {
      assert OneStep(ms, a);
    }
  }

  /** And the rates exactly if they are finite and two such steps do. */
  lemma RatesValidExactly(c: Config, xs: seq<Input>)
    requires RunOk(c, xs) && xs != []
    ensures var x := xs[|xs| - 1];
            RatesValid(StateAfter(c, xs), x)
            <==> x.recent && x.ratesFinite
                 && exists a, b :: 0 <= a < b < |xs| && KeptSince(xs, a) && xs[b].due
  {
    StepsAreCounter(c, xs);
    var ms := Marks(xs);
    WarmExactly(ms);
    if a: nat, b: nat :| TwoSteps(ms, a, b) {
      assert KeptSince(xs, a) && xs[b].due;
    }
    if a, b :| 0 <= a < b < |xs| && KeptSince(xs, a) && xs[b].due {
      assert TwoSteps(ms, a, b);
    }
  }
}
