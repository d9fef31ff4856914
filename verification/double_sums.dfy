/** Adding the double nearest to 0.02 over and over in binary64, in whole spacings of 2^-58, up to 4600 times. */
module DoubleSums {
  import opened Binary64

  /** The double nearest to 0.02, in spacings of 2^-58. */
  const STEP_BITS := 5_764_607_523_034_235

  function Two(n: nat): nat
  {
    if n == 0 then 1 else 2 * Two(n - 1)
  }

  /** The exponent of the spacing of doubles at v, not below s. */
  function Spacing(v: nat, s: nat): (t: nat)
    ensures s <= t && v < TWO_53 * Two(t) && (s < t ==> TWO_52 * Two(t) <= v)
    decreases v - TWO_53 * Two(s)
  {
    if v < TWO_53 * Two(s) then s else TwoGrows(s, s + 1); Spacing(v, s + 1)
  }

  lemma {:induction false} TwoGrows(s: nat, t: nat)
    requires s <= t
    ensures 1 <= Two(s) <= Two(t) && (s < t ==> 2 * Two(s) <= Two(t))
    decreases t
  {
    if s < t {
      TwoGrows(s, t - 1);
    } else if 0 < s {
      TwoGrows(s - 1, s - 1);
    }
  }

  /** How many times p the multiple of p nearest to v is; of two, the even one. */
  function NearestTimes(v: nat, p: nat): nat
    requires 0 < p
  {
    var q, r := v / p, v % p;
    if 2 * r < p || (2 * r == p && q % 2 == 0) then q else q + 1
  }

  function Rounded(v: nat): nat {
    TwoGrows(0, Spacing(v, 0));
    NearestTimes(v, Two(Spacing(v, 0))) * Two(Spacing(v, 0))
  }

  /** The sum of k steps. */
  function Sum(k: nat): nat {
    if k == 0 then 0 else Rounded(Sum(k - 1) + STEP_BITS)
  }

  lemma SpacingIs(v: nat, s: nat)
    requires TWO_52 * Two(s) <= v < TWO_53 * Two(s)
    ensures Spacing(v, 0) == s
  {
    var t := Spacing(v, 0);
    if t < s {
      TwoGrows(t, s);
    } else if s < t {
      TwoGrows(s, t);
    }
  }

  // --------------------------------------------- the sum is the rounded sum

  lemma {:induction false} PowerShift(s: nat)
    ensures Power(s - 58) == (Two(s) as real) * Power(-58)
  {
    hide Power;
    if 0 < s {
      PowerShift(s - 1);
      PowerNext(s - 1 - 58);
      DoubleFirst(Two(s - 1) as real, Power(-58));
      assert Two(s) as real == 2.0 * (Two(s - 1) as real);
    }
  }

  lemma DoubleFirst(a: real, u: real)
    ensures (2.0 * a) * u == 2.0 * (a * u)
  {
  }

  lemma GridShift(m: nat, s: nat)
    ensures Grid(m, s - 58) == Grid(m * Two(s), -58)
  {
    PowerShift(s);
    hide Power, Two;
    Regroup(m, Two(s), Power(-58));
  }

  lemma Regroup(m: nat, n: nat, u: real)
    ensures (m as real) * ((n as real) * u) == ((m * n) as real) * u
  {
    assert (m * n) as real == (m as real) * (n as real);
  }

  /** v / p and its fraction, over the reals. */
  function Ratio(v: nat, p: nat): real
    requires 0 < p
  {
    (v / p) as real + Fraction(v % p, p)
  }

  function Fraction(r: nat, p: nat): real
    requires 0 < p
  {
    (r as real) / (p as real)
  }

  lemma RatioTimes(v: nat, p: nat, u: real)
    requires 0 < p
    ensures Ratio(v, p) * ((p as real) * u) == (v as real) * u
  {
    var q, r := v / p, v % p;
    assert v == q * p + r;
    assert Fraction(r, p) * (p as real) == r as real;
    calc {
      Ratio(v, p) * ((p as real) * u);
      (q as real) * (p as real) * u + (Fraction(r, p) * (p as real)) * u;
      ((q * p) as real) * u + (r as real) * u;
      (v as real) * u;
    }
  }

  lemma Same(x: real, y: real, b: real)
    requires 0.0 < b && y * b == x
    ensures x / b == y
  {
  }

  lemma GridRatio(v: nat, p: nat, i: int)
    requires 0 < p && Power(i) == (p as real) * Power(-58)
    ensures Grid(v, -58) / Power(i) == Ratio(v, p)
  {
    hide Power, Ratio;
    RatioTimes(v, p, Power(-58));
    Same(Grid(v, -58), Ratio(v, p), Power(i));
  }

  lemma Remainder(r: nat, p: nat)
    requires r < p
    ensures var f := Fraction(r, p);
            0.0 <= f < 1.0 && (f < 0.5 <==> 2 * r < p) && (f == 0.5 <==> 2 * r == p)
  {
    var f := Fraction(r, p);
    var b := p as real;
    assert f * b == r as real;
    Compare(f, 0.0, b, r as real, 0.0);
    Compare(f, 0.5, b, r as real, 0.5 * b);
    Compare(f, 1.0, b, r as real, b);
  }

  lemma Compare(f: real, c: real, p: real, u: real, v: real)
    requires 0.0 < p && u == f * p && v == c * p
    ensures (f < c <==> u < v) && (f == c <==> u == v)
  {
    var d := f - c;
    assert d * p == f * p - c * p;
    Sign(d, p);
  }

  lemma FloorIs(q: int, f: real)
    requires 0.0 <= f < 1.0
    ensures (q as real + f).Floor == q
  {
  }

  lemma RatioNearest(x: real, d: real, v: nat, p: nat)
    requires 0.0 < d && 0 < p && x / d == Ratio(v, p)
    ensures Nearest(x, d) == NearestTimes(v, p)
  {
    hide Fraction;
    Remainder(v % p, p);
    FloorIs(v / p, Fraction(v % p, p));
  }

  lemma NearestOnGrid(v: nat, s: nat)
    ensures 0 < Two(s) && Nearest(Grid(v, -58), Power(s - 58)) == NearestTimes(v, Two(s))
  {
    hide Power, Nearest, NearestTimes, Two, Ratio, Grid;
    TwoGrows(0, s);
    PowerShift(s);
    GridRatio(v, Two(s), s as int - 58);
    RatioNearest(Grid(v, -58), Power(s as int - 58), v, Two(s));
  }

  /** Rounding a value on the grid, from 2^-6 on, is rounding its number of spacings. */
  lemma RoundOnGrid(v: nat)
    requires TWO_52 <= v
    ensures Round(Grid(v, -58)) == Grid(Rounded(v), -58)
  {
    hide Round, Power, Nearest, NearestTimes;
    var s := Spacing(v, 0);
    NearestOnGrid(v, s);
    GridShift(TWO_52, s);
    GridShift(TWO_53, s);
    GridShift(NearestTimes(v, Two(s)), s);
    assert Two(0) == 1;
    GridOrdered(TWO_52 * Two(s), v, -58);
    StrictlyOrdered(v, TWO_53 * Two(s), -58);
    var i: int := s as int - 58;
    RoundAt(Grid(v, -58), i);
  }

  lemma StrictlyOrdered(m: int, n: int, i: int)
    requires m < n
    ensures Grid(m, i) < Grid(n, i)
  {
  }

  // ----------------------------------------------------------- leg by leg

  lemma SumStep(k: nat, s: nat)
    requires TWO_52 * Two(s) <= Sum(k) + STEP_BITS < TWO_53 * Two(s)
    ensures 0 < Two(s) && Sum(k + 1) == NearestTimes(Sum(k) + STEP_BITS, Two(s)) * Two(s)
  {
    TwoGrows(0, s);
    SpacingIs(Sum(k) + STEP_BITS, s);
  }

  lemma MultiplePlus(t: nat, h: nat, p: nat)
    requires 0 < p && t % p == 0 && 2 * (h % p) != p
    ensures NearestTimes(t + h, p) * p == t + NearestTimes(h, p) * p
  {
    var q := t / p;
    assert t == q * p;
    Shifted(q, h, p);
    assert (q + NearestTimes(h, p)) * p == q * p + NearestTimes(h, p) * p;
  }

  lemma Shifted(q: nat, h: nat, p: nat)
    requires 0 < p
    ensures (q * p + h) / p == q + h / p && (q * p + h) % p == h % p
  {
    var a, b := h / p, h % p;
    var x := q * p + h;
    assert h == a * p + b && x == (x / p) * p + x % p;
    assert (q + a) * p == q * p + a * p;
    Unique(x / p, x % p, q + a, b, p);
  }

  lemma Unique(a: int, b: int, c: int, d: int, p: int)
    requires 0 <= b < p && 0 <= d < p && a * p + b == c * p + d
    ensures a == c && b == d
  {
    assert (a - c) * p == d - b && (c - a) * p == b - d;
    if a < c {
      AtLeastOnce(c - a, p);
    } else if c < a {
      AtLeastOnce(a - c, p);
    }
  }

  lemma AtLeastOnce(d: int, p: int)
    requires 1 <= d && 0 < p
    ensures p <= d * p
  {
  }

  function Times(j: int, h: int): int {
    j * h
  }

  lemma TimesNext(j: nat, h: nat)
    ensures Times(0, h) == 0 && Times(j + 1, h) == Times(j, h) + h && 0 <= Times(j, h)
  {
  }

  /** Within one spacing the sum grows by the same amount each time. */
  lemma {:induction false} Along(k: nat, t: nat, s: nat, p: nat, h: nat, j: nat)
    requires Sum(k) == t && p == Two(s) && 0 < p && t % p == 0 && 2 * (STEP_BITS % p) != p
    requires h == NearestTimes(STEP_BITS, p) * p
    requires 0 < j ==> TWO_52 * p <= t + STEP_BITS && t + Times(j - 1, h) + STEP_BITS < TWO_53 * p
    ensures Sum(k + j) == t + Times(j, h) && 0 <= Times(j, h) && (t + Times(j, h)) % p == 0
  {
    hide Times, Sum, NearestTimes;
    if j == 0 {
      TimesNext(0, h);
    } else {
      var i := j - 1;
      if 0 < i {
        TimesNext(i - 1, h);
      }
      TimesNext(i, h);
      Along(k, t, s, p, h, i);
      SumStep(k + i, s);
      MultiplePlus(t + Times(i, h), STEP_BITS, p);
      StillMultiple(t + Times(i, h), NearestTimes(STEP_BITS, p), p);
    }
  }

  lemma StillMultiple(t: nat, n: nat, p: nat)
    requires 0 < p && t % p == 0
    ensures (t + n * p) % p == 0
  {
    Shifted(n, t, p);
  }

  lemma TwosAre()
    ensures Two(0) == 1 && Two(1) == 2 && Two(2) == 4 && Two(3) == 8 && Two(4) == 16 && Two(5) == 32 && Two(6) == 64
    ensures Two(7) == 128 && Two(8) == 256 && Two(9) == 512 && Two(10) == 1024 && Two(11) == 2048 && Two(12) == 4096
  {
  }

  lemma Leg0()
    ensures Sum(0) == 0 && Sum(1) == 5_764_607_523_034_235
  {
    TwosAre();
    SumStep(0, 0);
  }

  lemma Leg1()
    ensures Sum(1) == 5_764_607_523_034_235 && Sum(2) == 11_529_215_046_068_470
  {
    hide Sum;
    TwosAre();
    Leg0();
    SumStep(1, 1);
  }

  lemma Leg2()
    ensures Sum(2) == 11_529_215_046_068_470 && Sum(3) == 17_293_822_569_102_704
  {
    hide Sum;
    TwosAre();
    Leg1();
    SumStep(2, 1);
  }

  lemma Leg3()
    ensures forall k | 3 <= k <= 6 :: Sum(k) == 17_293_822_569_102_704 + (k - 3) * 5_764_607_523_034_236
  {
    hide Sum;
    TwosAre();
    Leg2();
    forall k | 3 <= k <= 6
      ensures Sum(k) == 17_293_822_569_102_704 + (k - 3) * 5_764_607_523_034_236
    {
      var j := k - 3;
      assert 0 < j ==> Times(j - 1, 5_764_607_523_034_236) == (j - 1) * 5_764_607_523_034_236;
      Along(3, 17_293_822_569_102_704, 2, 4, 5_764_607_523_034_236, j);
    }
  }

  lemma Leg4()
    ensures Sum(6) == 34_587_645_138_205_412 && Sum(7) == 40_352_252_661_239_648
  {
    hide Sum;
    TwosAre();
    Leg3();
    SumStep(6, 3);
  }

  lemma Leg5()
    ensures forall k | 7 <= k <= 12 :: Sum(k) == 40_352_252_661_239_648 + (k - 7) * 5_764_607_523_034_232
  {
    hide Sum;
    TwosAre();
    Leg4();
    forall k | 7 <= k <= 12
      ensures Sum(k) == 40_352_252_661_239_648 + (k - 7) * 5_764_607_523_034_232
    {
      var j := k - 7;
      assert 0 < j ==> Times(j - 1, 5_764_607_523_034_232) == (j - 1) * 5_764_607_523_034_232;
      Along(7, 40_352_252_661_239_648, 3, 8, 5_764_607_523_034_232, j);
    }
  }

  lemma Leg6()
    ensures Sum(12) == 69_175_290_276_410_808 && Sum(13) == 74_939_897_799_445_040
  {
    hide Sum;
    TwosAre();
    Leg5();
    SumStep(12, 4);
  }

  lemma Leg7()
    ensures forall k | 13 <= k <= 24 :: Sum(k) == 74_939_897_799_445_040 + (k - 13) * 5_764_607_523_034_240
  {
    hide Sum;
    TwosAre();
    Leg6();
    forall k | 13 <= k <= 24
      ensures Sum(k) == 74_939_897_799_445_040 + (k - 13) * 5_764_607_523_034_240
    {
      var j := k - 13;
      assert 0 < j ==> Times(j - 1, 5_764_607_523_034_240) == (j - 1) * 5_764_607_523_034_240;
      Along(13, 74_939_897_799_445_040, 4, 16, 5_764_607_523_034_240, j);
    }
  }

  lemma Leg8()
    ensures Sum(24) == 138_350_580_552_821_680 && Sum(25) == 144_115_188_075_855_904
  {
    hide Sum;
    TwosAre();
    Leg7();
    SumStep(24, 5);
  }

  lemma Leg9()
    ensures forall k | 25 <= k <= 49 :: Sum(k) == 144_115_188_075_855_904 + (k - 25) * 5_764_607_523_034_240
  {
    hide Sum;
    TwosAre();
    Leg8();
    forall k | 25 <= k <= 49
      ensures Sum(k) == 144_115_188_075_855_904 + (k - 25) * 5_764_607_523_034_240
    {
      var j := k - 25;
      assert 0 < j ==> Times(j - 1, 5_764_607_523_034_240) == (j - 1) * 5_764_607_523_034_240;
      Along(25, 144_115_188_075_855_904, 5, 32, 5_764_607_523_034_240, j);
    }
  }

  lemma Leg10()
    ensures Sum(49) == 282_465_768_628_677_664 && Sum(50) == 288_230_376_151_711_872
  {
    hide Sum;
    TwosAre();
    Leg9();
    SumStep(49, 6);
  }

  lemma Leg11()
    ensures forall k | 50 <= k <= 99 :: Sum(k) == 288_230_376_151_711_872 + (k - 50) * 5_764_607_523_034_240
  {
    hide Sum;
    TwosAre();
    Leg10();
    forall k | 50 <= k <= 99
      ensures Sum(k) == 288_230_376_151_711_872 + (k - 50) * 5_764_607_523_034_240
    {
      var j := k - 50;
      assert 0 < j ==> Times(j - 1, 5_764_607_523_034_240) == (j - 1) * 5_764_607_523_034_240;
      Along(50, 288_230_376_151_711_872, 6, 64, 5_764_607_523_034_240, j);
    }
  }

  lemma Leg12()
    ensures forall k | 99 <= k <= 199 :: Sum(k) == 570_696_144_780_389_632 + (k - 99) * 5_764_607_523_034_240
  {
    hide Sum;
    TwosAre();
    Leg11();
    forall k | 99 <= k <= 199
      ensures Sum(k) == 570_696_144_780_389_632 + (k - 99) * 5_764_607_523_034_240
    {
      var j := k - 99;
      assert 0 < j ==> Times(j - 1, 5_764_607_523_034_240) == (j - 1) * 5_764_607_523_034_240;
      Along(99, 570_696_144_780_389_632, 7, 128, 5_764_607_523_034_240, j);
    }
  }

  lemma Leg13()
    ensures forall k | 199 <= k <= 400 :: Sum(k) == 1_147_156_897_083_813_632 + (k - 199) * 5_764_607_523_034_112
  {
    hide Sum;
    TwosAre();
    Leg12();
    forall k | 199 <= k <= 400
      ensures Sum(k) == 1_147_156_897_083_813_632 + (k - 199) * 5_764_607_523_034_112
    {
      var j := k - 199;
      assert 0 < j ==> Times(j - 1, 5_764_607_523_034_112) == (j - 1) * 5_764_607_523_034_112;
      Along(199, 1_147_156_897_083_813_632, 8, 256, 5_764_607_523_034_112, j);
    }
  }

  lemma Leg14()
    ensures Sum(400) == 2_305_843_009_213_670_144 && Sum(401) == 2_311_607_616_736_704_512
  {
    hide Sum;
    TwosAre();
    Leg13();
    SumStep(400, 9);
  }

  lemma Leg15()
    ensures forall k | 401 <= k <= 800 :: Sum(k) == 2_311_607_616_736_704_512 + (k - 401) * 5_764_607_523_034_112
  {
    hide Sum;
    TwosAre();
    Leg14();
    forall k | 401 <= k <= 800
      ensures Sum(k) == 2_311_607_616_736_704_512 + (k - 401) * 5_764_607_523_034_112
    {
      var j := k - 401;
      assert 0 < j ==> Times(j - 1, 5_764_607_523_034_112) == (j - 1) * 5_764_607_523_034_112;
      Along(401, 2_311_607_616_736_704_512, 9, 512, 5_764_607_523_034_112, j);
    }
  }

  lemma Leg16()
    ensures forall k | 800 <= k <= 1600 :: Sum(k) == 4_611_686_018_427_315_200 + (k - 800) * 5_764_607_523_034_112
  {
    hide Sum;
    TwosAre();
    Leg15();
    forall k | 800 <= k <= 1600
      ensures Sum(k) == 4_611_686_018_427_315_200 + (k - 800) * 5_764_607_523_034_112
    {
      var j := k - 800;
      assert 0 < j ==> Times(j - 1, 5_764_607_523_034_112) == (j - 1) * 5_764_607_523_034_112;
      Along(800, 4_611_686_018_427_315_200, 10, 1024, 5_764_607_523_034_112, j);
    }
  }

  lemma Leg17()
    ensures Sum(1600) == 9_223_372_036_854_604_800 && Sum(1601) == 9_229_136_644_377_638_912
  {
    hide Sum;
    TwosAre();
    Leg16();
    SumStep(1600, 11);
  }

  lemma Leg18()
    ensures forall k | 1601 <= k <= 3199 :: Sum(k) == 9_229_136_644_377_638_912 + (k - 1601) * 5_764_607_523_035_136
  {
    hide Sum;
    TwosAre();
    Leg17();
    forall k | 1601 <= k <= 3199
      ensures Sum(k) == 9_229_136_644_377_638_912 + (k - 1601) * 5_764_607_523_035_136
    {
      var j := k - 1601;
      assert 0 < j ==> Times(j - 1, 5_764_607_523_035_136) == (j - 1) * 5_764_607_523_035_136;
      Along(1601, 9_229_136_644_377_638_912, 11, 2048, 5_764_607_523_035_136, j);
    }
  }

  lemma Leg19()
    ensures Sum(3199) == 18_440_979_466_187_786_240 && Sum(3200) == 18_446_744_073_710_821_376
  {
    hide Sum;
    TwosAre();
    Leg18();
    SumStep(3199, 12);
  }

  lemma Leg20()
    ensures forall k | 3200 <= k <= 4600 :: Sum(k) == 18_446_744_073_710_821_376 + (k - 3200) * 5_764_607_523_033_088
  {
    hide Sum;
    TwosAre();
    Leg19();
    forall k | 3200 <= k <= 4600
      ensures Sum(k) == 18_446_744_073_710_821_376 + (k - 3200) * 5_764_607_523_033_088
    {
      var j := k - 3200;
      assert 0 < j ==> Times(j - 1, 5_764_607_523_033_088) == (j - 1) * 5_764_607_523_033_088;
      Along(3200, 18_446_744_073_710_821_376, 12, 4096, 5_764_607_523_033_088, j);
    }
  }

  /** How far k steps of the double nearest to 0.02 and their sum in binary64 are apart. */
  lemma Drift(k: nat)
    requires k <= 4600
    ensures Sum(k) <= k * STEP_BITS + 1_269_376
    ensures k <= 4551 ==> k * STEP_BITS - 280_221 <= Sum(k)
  {
    hide Sum;
    if k <= 1 {
      Leg0();
    } else if k <= 2 {
      Leg1();
    } else if k <= 3 {
      Leg2();
    } else if k <= 6 {
      Leg3();
    } else if k <= 7 {
      Leg4();
    } else if k <= 12 {
      Leg5();
    } else if k <= 13 {
      Leg6();
    } else if k <= 24 {
      Leg7();
    } else if k <= 25 {
      Leg8();
    } else if k <= 49 {
      Leg9();
    } else if k <= 50 {
      Leg10();
    } else if k <= 99 {
      Leg11();
    } else if k <= 199 {
      Leg12();
    } else if k <= 400 {
      Leg13();
    } else if k <= 401 {
      Leg14();
    } else if k <= 800 {
      Leg15();
    } else if k <= 1600 {
      Leg16();
    } else if k <= 1601 {
      Leg17();
    } else if k <= 3199 {
      Leg18();
    } else if k <= 3200 {
      Leg19();
    } else {
      Leg20();
    }
  }

  lemma SumAt4600()
    ensures Sum(4599) == 26_511_429_998_434_111_488 && Sum(4600) == 26_517_194_605_957_144_576
  {
    hide Sum;
    Leg20();
  }
}
