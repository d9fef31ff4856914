/** The record buffer of the runner in binary64, with a plant that reaches the requested time, rounded like any sum. */
module RunnerDoubles {
  import opened RealNumbers
  import opened RunnerLoop
  import opened Binary64
  import opened DoubleSums

  /** The double nearest to 1e-12, in spacings of 2^-92. */
  const TOLERANCE_BITS := 4_951_760_157_141_521

  function Doubles(): Arithmetic {
    Arithmetic(Grid(STEP_BITS, -58), Grid(TOLERANCE_BITS, -92), Round)
  }

  /** The plant that reaches the requested time. */
  function Ideal(): Plant {
    (k: nat, t: real, h: real) => Answer(true, Round(t + h))
  }

  function T(tEnd: real, k: nat): real {
    TimeOf(Doubles(), Ideal(), tEnd, k)
  }

  // -------------------------------------------------------------- numbers

  lemma {:induction false} TwoInverse(n: nat)
    ensures Power(0 - n) * (Two(n) as real) == 1.0
  {
    if 0 < n {
      TwoInverse(n - 1);
      PowerNext(0 - n);
    }
  }

  lemma {:induction false} TwoSum(a: nat, b: nat)
    ensures Two(a + b) == Two(a) * Two(b)
  {
    if b == 0 {
      assert Two(0) == 1;
    } else {
      TwoSum(a, b - 1);
      var x, y := Two(a), Two(b - 1);
      assert Two(a + b) == 2 * Two(a + (b - 1)) && Two(b) == 2 * y;
      assert 2 * (x * y) == x * (2 * y);
    }
  }

  lemma TwoAt()
    ensures Two(40) == 0x100_0000_0000 && Two(46) == 0x4000_0000_0000 && Two(58) == 0x400_0000_0000_0000
    ensures Two(92) == 0x1000_0000_0000_0000_0000_0000
  {
    assert Two(2) == 4 && Two(6) == 64 && Two(10) == 0x400;
    TwoSum(10, 10);
    TwoSum(20, 20);
    TwoSum(40, 6);
    TwoSum(46, 46);
    TwoSum(46, 10);
    TwoSum(56, 2);
  }

  /** The spacings in use, as fractions. */
  lemma Spacings()
    ensures Power(-58) * (0x400_0000_0000_0000 as real) == 1.0
    ensures Power(-92) * (0x1000_0000_0000_0000_0000_0000 as real) == 1.0
    ensures Power(-46) * (0x4000_0000_0000 as real) == 1.0
    ensures Power(-40) * (0x100_0000_0000 as real) == 1.0
  {
    hide Power, Two;
    TwoAt();
    TwoInverse(58);
    TwoInverse(92);
    TwoInverse(46);
    TwoInverse(40);
  }

  lemma Cancel(a: real, b: real, p: real)
    requires 0.0 < p
    ensures a * p < b * p ==> a < b
    ensures a * p <= b * p ==> a <= b
  {
    if b <= a {
      assert b * p <= a * p;
    }
  }

  lemma HalfOff(y: real, c: real, p: real)
    ensures (y - (c - 0.5)) * p == y * p - c * p + 0.5 * p
    ensures ((c + 0.5) - y) * p == c * p + 0.5 * p - y * p
  {
  }

  lemma InHalf(x: real, y: real, c: real, p: real)
    requires 0.0 < p && y * p == x && c * p - p / 2.0 < x < c * p + p / 2.0
    ensures c - 0.5 < y < c + 0.5
  {
    HalfOff(y, c, p);
    Sign(y - (c - 0.5), p);
    Sign((c + 0.5) - y, p);
  }

  lemma NearestIs(x: real, p: real, m: int)
    requires 0.0 < p && (m as real) * p - p / 2.0 < x < (m as real) * p + p / 2.0
    ensures Nearest(x, p) == m
  {
    var y := x / p;
    assert y * p == x;
    InHalf(x, y, m as real, p);
    NearestInteger(y, m);
  }

  lemma NearestInteger(y: real, m: int)
    requires (m as real) - 0.5 < y < (m as real) + 0.5
    ensures var q := y.Floor;
            if y - q as real < 0.5 then q == m else q + 1 == m && y - q as real != 0.5
  {
  }

  lemma RoundsTo(x: real, i: int, m: int)
    requires MIN_EXPONENT <= i && Grid(TWO_52, i) <= x < Grid(TWO_53, i)
    requires Grid(m, i) - Power(i) / 2.0 < x < Grid(m, i) + Power(i) / 2.0
    ensures Round(x) == Grid(m, i)
  {
    hide Power, Nearest, Round;
    calc {
      Round(x);
      { RoundAt(x, i); }
      Grid(Nearest(x, Power(i)), i);
      { NearestIs(x, Power(i), m); }
      Grid(m, i);
    }
  }

  /** The constants of the loop are these doubles. */
  lemma Constants()
    ensures Doubles().step == Round(0.02) && Doubles().tolerance == Round(0.000000000001)
  {
    hide Power, Round;
    Spacings();
    RoundsTo(0.02, -58, STEP_BITS);
    RoundsTo(0.000000000001, -92, TOLERANCE_BITS);
  }

  const SMALL := 1.0 / 0x8000_0000_0000 as real   // 2^-47

  /** The step and the tolerance to within what is needed here. */
  lemma Sizes()
    ensures 0.02 <= Doubles().step <= 0.020000000000000001
    ensures 0.000000000001 - 0.000000000000000001 <= Doubles().tolerance <= 0.000000000001
    ensures Doubles().step * (0x400_0000_0000_0000 as real) == STEP_BITS as real
  {
    hide Power;
    Spacings();
  }

  lemma ErrorBelow128(x: real)
    requires -128.0 < x < 128.0
    ensures -SMALL <= Round(x) - x <= SMALL
    ensures x < 0.0 ==> Round(x) <= 0.0
  {
    hide Power;
    Spacings();
    if x < 0.0 {
      RoundError(-x, -46);
      RoundNotNegative(-x);
    } else {
      RoundError(x, -46);
    }
  }

  lemma SensibleDoubles()
    ensures Sensible(Doubles())
  {
    Sizes();
    forall x: real | 0.0 <= x ensures 0.0 <= Round(x) {
      RoundNotNegative(x);
    }
  }

  // ------------------------------------------------------------- the times

  lemma Next(tEnd: real, k: nat)
    ensures T(tEnd, k + 1) == Round(T(tEnd, k) + Least(Doubles().step, Round(tEnd - T(tEnd, k))))
  {
    hide Round, Grid, Least;
  }

  lemma Product(a: real, b: real)
    requires 0.0 <= a && 0.0 <= b
    ensures 0.0 <= a * b
  {
  }

  lemma ReachedPasses(x: real)
    ensures Passes(Doubles(), Answer(true, x), x)
  {
    SensibleDoubles();
    RoundNotNegative(0.0);
    hide Round, Passes;
    var a := Doubles();
    Product(a.tolerance, Greatest(1.0, Magnitude(x)));
    ExpectedPasses(a, x);
  }

  lemma IdealPasses(tEnd: real, k: nat)
    ensures StepPasses(Doubles(), Ideal(), tEnd, k)
  {
    hide Round, TimeOf, Grid, Passes;
    ReachedPasses(Expected(Doubles(), T(tEnd, k), tEnd));
  }

  lemma GridSum(m: int, n: int, i: int)
    ensures Grid(m, i) + Grid(n, i) == Grid(m + n, i)
  {
  }

  /** As long as no step is cut short by t_end the times are the rounded sums. */
  lemma {:induction false} TimesAreSums(tEnd: real, k: nat)
    requires forall j | 0 <= j < k :: Doubles().step <= Round(tEnd - T(tEnd, j))
    ensures T(tEnd, k) == Grid(Sum(k), -58)
  {
    hide Grid, Round, Rounded;
    if k == 0 {
      assert Grid(0, -58) == 0.0 by { ZeroGrid(); }
    } else {
      TimesAreSums(tEnd, k - 1);
      Next(tEnd, k - 1);
      GridSum(Sum(k - 1), STEP_BITS, -58);
      RoundOnGrid(Sum(k - 1) + STEP_BITS);
    }
  }

  lemma ZeroGrid()
    ensures Grid(0, -58) == 0.0
  {
  }

  /** The time of a record of a run in which no step was cut short. */
  lemma SumBounds(k: nat)
    requires k <= 4600
    ensures Grid(Sum(k), -58) <= (k as real) * Doubles().step + 0.0000000000045
    ensures k <= 4551 ==> (k as real) * Doubles().step - 0.0000000000009723 <= Grid(Sum(k), -58)
    ensures 0.0 <= Grid(Sum(k), -58)
  {
    hide Power, Sum;
    Spacings();
    Drift(k);
    var u := Power(-58);
    GridOrdered(Sum(k), k * STEP_BITS + 1269376, -58);
    GridOrdered(0, Sum(k), -58);
    if k <= 4551 {
      GridOrdered(k * STEP_BITS - 280221, Sum(k), -58);
    }
    Spread(k, u);
  }

  lemma Spread(k: nat, u: real)
    ensures ((k * STEP_BITS + 1269376) as real) * u == (k as real) * ((STEP_BITS as real) * u) + 1269376.0 * u
    ensures ((k * STEP_BITS - 280221) as real) * u == (k as real) * ((STEP_BITS as real) * u) - 280221.0 * u
  {
  }

  // ------------------------------------------------------------------ 92 s

  lemma StepsTo92()
    ensures Steps(Doubles(), 92.0) == 4600
  {
    hide Power, Round;
    Spacings();
    Sizes();
    var q := 92.0 / Doubles().step;
    var m := 4600 * 0x100_0000_0000;
    assert q * Doubles().step == 92.0;
    Cancel(4599.9999999999996, q, Doubles().step);
    Cancel(q, 4600.0000000000004, Doubles().step);
    RoundsTo(q, -40, m);
    assert Round(q) == 4600.0;
  }

  lemma LimitAt92()
    ensures 92.0 - 0.0000000000010072 < Limit(Doubles(), 92.0)
  {
    hide Round;
    Sizes();
    ErrorBelow128(92.0 - Doubles().tolerance);
  }

  lemma SumsTo92(k: nat)
    requires k <= 4600
    ensures Grid(Sum(k), -58) < 92.0 - 0.0000000000011
    ensures k < 4600 ==> Doubles().step <= 92.0 - Grid(Sum(k), -58)
  {
    hide Power, Sum;
    Spacings();
    Sizes();
    if k < 4599 {
      SumBounds(k);
      assert (k as real) * Doubles().step <= 4598.0 * Doubles().step by { Ordered(k, 4598, Doubles().step); }
    } else {
      SumAt4600();
    }
  }

  lemma Ordered(k: nat, n: nat, f: real)
    requires k <= n && 0.0 <= f
    ensures (k as real) * f <= (n as real) * f
  {
  }

  lemma {:induction false} WholeStepsTo92(k: nat)
    requires k <= 4600
    ensures forall j | 0 <= j < k :: Doubles().step <= Round(92.0 - T(92.0, j))
    ensures T(92.0, k) == Grid(Sum(k), -58)
  {
    hide Round, Sum, T, Grid;
    if 0 < k {
      WholeStepsTo92(k - 1);
      SumsTo92(k - 1);
      RoundKeepsBound(92.0 - T(92.0, k - 1), STEP_BITS, -58);
    }
    TimesAreSums(92.0, k);
  }

  /** With t_end = 92 s the buffer runs out, although the plant reaches every requested time: the rounded sum of 4600
      steps is more than 1e-12 short of 92. */
  lemma RunsOutAt92()
    ensures Capacity(Doubles(), 92.0) == 4601
    ensures GotTo(Doubles(), Ideal(), 92.0, _ => true, 4601)
  {
    hide Round, Sum, Grid, StepPasses, Steps, TimeOf, Limit;
    StepsTo92();
    LimitAt92();
    forall k: nat | k < 4601
      ensures Due(Doubles(), 92.0, TimeOf(Doubles(), Ideal(), 92.0, k))
      ensures StepPasses(Doubles(), Ideal(), 92.0, k)
    {
      WholeStepsTo92(k);
      SumsTo92(k);
      IdealPasses(92.0, k);
    }
  }

  // ------------------------------------------------------------ up to 91 s

  lemma StepsUpTo91(tEnd: real)
    requires 0.0 < tEnd <= 91.0
    ensures 0 <= Steps(Doubles(), tEnd) <= 4551
    ensures tEnd - 2.0 * SMALL <= (Steps(Doubles(), tEnd) as real) * Doubles().step
  {
    hide Power, Round;
    Spacings();
    Sizes();
    SensibleDoubles();
    StepsNotNegative(Doubles(), tEnd);
    var q, h := tEnd / Doubles().step, Doubles().step;
    assert q * h == tEnd;
    Cancel(0.0, q, h);
    Cancel(q, 4550.0, h);
    RoundError(q, -40);
    var n := Steps(Doubles(), tEnd);
    assert q - 0.0000000000004548 <= n as real <= q + 1.0000000000004548;
    Lower(q - 0.0000000000004548, n as real, h);
  }

  lemma Lower(a: real, b: real, h: real)
    requires a <= b && 0.0 <= h
    ensures a * h <= b * h
  {
  }

  lemma LimitUpTo91(tEnd: real)
    requires 0.0 < tEnd <= 91.0
    ensures Limit(Doubles(), tEnd) <= tEnd - 0.0000000000009999 + SMALL
    ensures tEnd < Doubles().tolerance ==> Limit(Doubles(), tEnd) <= 0.0
  {
    hide Round;
    Sizes();
    ErrorBelow128(tEnd - Doubles().tolerance);
  }

  /** If a step was cut short by t_end, the next record is not due. */
  lemma CutShortEnds(tEnd: real, k: nat)
    requires 0.0 < tEnd <= 91.0 && 0.0 <= T(tEnd, k) && Due(Doubles(), tEnd, T(tEnd, k))
    requires Round(tEnd - T(tEnd, k)) < Doubles().step
    ensures !Due(Doubles(), tEnd, T(tEnd, k + 1))
  {
    hide Round, T, Limit;
    LimitUpTo91(tEnd);
    var t := T(tEnd, k);
    ErrorBelow128(tEnd - t);
    Next(tEnd, k);
    ErrorBelow128(t + Round(tEnd - t));
  }

  /** While records are due, no step was cut short. */
  lemma {:induction false} DueTimesAreSums(tEnd: real, k: nat)
    requires 0.0 < tEnd <= 91.0 && k <= 4600
    requires forall j: nat | j <= k :: Due(Doubles(), tEnd, T(tEnd, j))
    ensures forall j | 0 <= j < k :: Doubles().step <= Round(tEnd - T(tEnd, j))
    ensures T(tEnd, k) == Grid(Sum(k), -58)
  {
    hide Round, Sum, T, Grid, Due;
    if 0 < k {
      DueTimesAreSums(tEnd, k - 1);
      SumBounds(k - 1);
      assert Due(Doubles(), tEnd, T(tEnd, k - 1)) && Due(Doubles(), tEnd, T(tEnd, k));
      if Round(tEnd - T(tEnd, k - 1)) < Doubles().step {
        CutShortEnds(tEnd, k - 1);
      }
    }
    TimesAreSums(tEnd, k);
  }

  /** Up to 91 s the buffer never runs out. */
  lemma HasRoomUpTo91(tEnd: real, exchanged: nat -> bool)
    requires 0.0 < tEnd <= 91.0
    ensures !GotTo(Doubles(), Ideal(), tEnd, exchanged, Capacity(Doubles(), tEnd))
  {
    hide Round, Sum, Grid, StepPasses, Steps, TimeOf, Limit;
    Sizes();
    StepsUpTo91(tEnd);
    var n: nat := Steps(Doubles(), tEnd);
    if GotTo(Doubles(), Ideal(), tEnd, exchanged, n + 1) {
      forall j: nat | j <= n
        ensures Due(Doubles(), tEnd, T(tEnd, j))
      {
      }
      DueTimesAreSums(tEnd, n);
      SumBounds(n);
      LimitUpTo91(tEnd);
    }
  }

  /** And every record that is due is within 5e-12 s of its nominal time. */
  lemma DueTimesAreNominal(tEnd: real, k: nat)
    requires 0.0 < tEnd <= 91.0 && k <= 4551
    requires forall j: nat | j <= k :: Due(Doubles(), tEnd, T(tEnd, j))
    ensures 0.02 * (k as real) - 0.000000000005 <= T(tEnd, k) <= 0.02 * (k as real) + 0.000000000005
  {
    hide Round, Sum, T, Grid, Due;
    DueTimesAreSums(tEnd, k);
    SumBounds(k);
    Sizes();
    Lower(0.02, Doubles().step, k as real);
    Lower(Doubles().step, 0.020000000000000001, k as real);
  }
}
