/** Rounding to binary64, to nearest with ties to even, as section 4.3.1 of IEEE Std 754-2019 has it; overflow is left
    out. */
module Binary64 {
  import opened RealNumbers

  const TWO_52 := 0x10_0000_0000_0000
  const TWO_53 := 0x20_0000_0000_0000
  const MIN_EXPONENT := -1074

  function Power(i: int): (p: real)
    ensures 0.0 < p
    decreases if i < 0 then -i else i
  {
    if i == 0 then 1.0 else if 0 < i then 2.0 * Power(i - 1) else Power(i + 1) / 2.0
  }

  /** m spacings of 2^i. */
  function Grid(m: int, i: int): real {
    (m as real) * Power(i)
  }

  lemma PowerNext(i: int)
    ensures Power(i + 1) == 2.0 * Power(i)
  {
  }

  lemma {:induction false} PowerGrows(i: int, j: int)
    requires i <= j
    ensures Power(i) <= Power(j) && (i < j ==> 2.0 * Power(i) <= Power(j))
    decreases j - i
  {
    if i < j {
      PowerGrows(i, j - 1);
      PowerNext(j - 1);
    }
  }

  lemma Coarser(i: int, j: int)
    requires i < j
    ensures Grid(TWO_53, i) <= Grid(TWO_52, j)
  {
    PowerGrows(i, j);
  }

  lemma Between(m: int, i: int)
    requires TWO_52 <= m <= TWO_53
    ensures 0.0 < Grid(TWO_52, i) <= Grid(m, i) <= Grid(TWO_53, i)
  {
  }

  lemma Halved(x: real, p: real)
    requires 0.0 < p && 1.0 <= x / p
    ensures (x / (2.0 * p)).Floor < (x / p).Floor && 0 <= (x / (2.0 * p)).Floor
  {
    var y := x / p;
    assert x / (2.0 * p) == y / 2.0;
  }

  lemma Quotient(x: real, p: real, c: real)
    requires 0.0 < p
    ensures c <= x / p <==> c * p <= x
  {
    assert x / p * p == x;
  }

  /** The exponent of the spacing of doubles at x, not below i. */
  function ExponentFrom(x: real, i: int): (j: int)
    requires 0.0 <= x
    ensures i <= j && x < Grid(TWO_53, j) && (i < j ==> Grid(TWO_52, j) <= x)
    decreases (x / Power(i)).Floor
  {
    if x < Grid(TWO_53, i) then i
    else
      Quotient(x, Power(i), TWO_53 as real);
      Halved(x, Power(i));
      PowerNext(i);
      ExponentFrom(x, i + 1)
  }

  /** The multiple of p nearest to x; of two, the even one. */
  function Nearest(x: real, p: real): int
    requires 0.0 < p
  {
    var q := (x / p).Floor;
    var r := x / p - q as real;
    if r < 0.5 || (r == 0.5 && q % 2 == 0) then q else q + 1
  }

  function RoundSign(x: real): real
    requires 0.0 <= x
  {
    var j := ExponentFrom(x, MIN_EXPONENT);
    Grid(Nearest(x, Power(j)), j)
  }

  function Round(x: real): real {
    if x < 0.0 then -RoundSign(-x) else RoundSign(x)
  }

  lemma ExponentIs(x: real, i: int)
    requires MIN_EXPONENT <= i && 0.0 <= x && Grid(TWO_52, i) <= x < Grid(TWO_53, i)
    ensures ExponentFrom(x, MIN_EXPONENT) == i
  {
    hide Grid, Power;
    var j := ExponentFrom(x, MIN_EXPONENT);
    if j < i {
      Coarser(j, i);
    } else if i < j {
      Coarser(i, j);
    }
  }

  /** Where x lies between 2^52 and 2^53 spacings, that is the spacing. */
  lemma RoundAt(x: real, i: int)
    requires MIN_EXPONENT <= i && Grid(TWO_52, i) <= x < Grid(TWO_53, i)
    ensures Round(x) == Grid(Nearest(x, Power(i)), i)
  {
    Between(TWO_52, i);
    ExponentIs(x, i);
  }

  lemma NearestWithin(x: real, p: real)
    requires 0.0 < p
    ensures -0.5 <= (Nearest(x, p) as real) - x / p <= 0.5
  {
  }

  lemma ScaleBound(n: real, y: real, p: real)
    requires 0.0 < p && -0.5 <= n - y <= 0.5
    ensures -p / 2.0 <= n * p - y * p <= p / 2.0
  {
    var d := n - y;
    assert d * p == n * p - y * p;
    assert -0.5 * p <= d * p <= 0.5 * p;
  }

  lemma NearestError(x: real, i: int)
    ensures -Power(i) / 2.0 <= Grid(Nearest(x, Power(i)), i) - x <= Power(i) / 2.0
  {
    hide Nearest, Power;
    var p, y := Power(i), x / Power(i);
    NearestWithin(x, p);
    ScaleBound(Nearest(x, p) as real, y, p);
    assert y * p == x;
  }

  /** Below 2^53 spacings the error is at most half a spacing. */
  lemma RoundError(x: real, i: int)
    requires MIN_EXPONENT <= i && 0.0 <= x < Grid(TWO_53, i)
    ensures -Power(i) / 2.0 <= Round(x) - x <= Power(i) / 2.0
  {
    hide Grid, Power, Nearest;
    var j := ExponentFrom(x, MIN_EXPONENT);
    if i < j {
      Coarser(i, j);
    } else {
      PowerGrows(j, i);
    }
    NearestError(x, j);
  }

  lemma RoundNotNegative(x: real)
    requires 0.0 <= x
    ensures 0.0 <= Round(x) && (x == 0.0 ==> Round(x) == 0.0)
  {
    var j := ExponentFrom(x, MIN_EXPONENT);
    Quotient(x, Power(j), 0.0);
    assert 0 <= Nearest(x, Power(j));
  }

  lemma GridOrdered(m: int, n: int, i: int)
    requires m <= n
    ensures Grid(m, i) <= Grid(n, i)
  {
  }

  lemma NearestAtLeast(x: real, m: int, i: int)
    requires Grid(m, i) <= x
    ensures Grid(m, i) <= Grid(Nearest(x, Power(i)), i)
  {
    hide Power;
    Quotient(x, Power(i), m as real);
    assert m <= Nearest(x, Power(i));
    hide Grid, Nearest;
    GridOrdered(m, Nearest(x, Power(i)), i);
  }

  /** Rounding does not go below a double that is a bound. */
  lemma RoundKeepsBound(x: real, m: int, i: int)
    requires MIN_EXPONENT <= i && TWO_52 <= m <= TWO_53 && Grid(m, i) <= x
    ensures Grid(m, i) <= Round(x)
  {
    hide Grid, Power, Nearest;
    Between(m, i);
    var j := ExponentFrom(x, MIN_EXPONENT);
    if j < i {
      Coarser(j, i);
    } else if i == j {
      NearestAtLeast(x, m, i);
    } else {
      Coarser(i, j);
      NearestAtLeast(x, TWO_52, j);
    }
  }

  // --------------------------------------------------- what rounding is for

  lemma NearestOfAll(y: real, n: int, m: int)
    requires var q := y.Floor;
             var r := y - q as real;
             n == if r < 0.5 || (r == 0.5 && q % 2 == 0) then q else q + 1
    ensures Distance(n as real, y) <= Distance(m as real, y)
    ensures m != n && Distance(n as real, y) == Distance(m as real, y) ==> n % 2 == 0
  {
  }

  lemma Sign(d: real, p: real)
    requires 0.0 < p
    ensures (d < 0.0 <==> d * p < 0.0) && (d == 0.0 <==> d * p == 0.0)
  {
  }

  lemma Scaled(a: real, b: real, p: real, u: real, v: real)
    requires 0.0 < p && u == a * p && v == b * p
    ensures Distance(u, v) == Distance(a, b) * p
  {
    assert (a - b) * p == a * p - b * p && (b - a) * p == b * p - a * p;
    if a < b {
      Sign(b - a, p);
    } else {
      Sign(a - b, p);
    }
  }

  lemma Scales(a: real, b: real, p: real, u: real, v: real)
    requires 0.0 < p && u == a * p && v == b * p
    ensures a <= b <==> u <= v
    ensures a == b <==> u == v
  {
    assert (a - b) * p == a * p - b * p && (b - a) * p == b * p - a * p;
    if a < b {
      Sign(b - a, p);
    } else {
      Sign(a - b, p);
    }
  }

  /** Where x lies between 2^52 and 2^53 spacings of 2^i, Round gives a multiple of the spacing than which no other is
      nearer to x, and of two that are equally near the even one. */
  lemma RoundIsNearest(x: real, i: int)
    requires MIN_EXPONENT <= i && Grid(TWO_52, i) <= x < Grid(TWO_53, i)
    ensures exists n: int :: Round(x) == Grid(n, i) && TWO_52 <= n <= TWO_53 && NoneNearer(x, n, i)
    ensures Round(0.0 - x) == 0.0 - Round(x)
  {
    hide Power, Grid;
    RoundAt(x, i);
    Between(TWO_52, i);
    var n := Nearest(x, Power(i));
    InRange(x, i);
    forall m: int ensures NoNearer(x, n, m, i) {
      NearestBeats(x, n, m, i);
    }
    assert NoneNearer(x, n, i);
    hide Nearest, NoneNearer;
  }

  lemma InRange(x: real, i: int)
    requires Grid(TWO_52, i) <= x < Grid(TWO_53, i)
    ensures TWO_52 <= Nearest(x, Power(i)) <= TWO_53
  {
    hide Power;
    Quotient(x, Power(i), TWO_52 as real);
    Quotient(x, Power(i), TWO_53 as real);
  }

  predicate NoNearer(x: real, n: int, m: int, i: int) {
    Distance(Grid(n, i), x) <= Distance(Grid(m, i), x)
    && (m != n && Distance(Grid(n, i), x) == Distance(Grid(m, i), x) ==> n % 2 == 0)
  }

  ghost predicate NoneNearer(x: real, n: int, i: int) {
    forall m: int :: NoNearer(x, n, m, i)
  }

  lemma ScaledOrder(a: real, b: real, y: real, p: real, u: real, v: real, x: real)
    requires 0.0 < p && u == a * p && v == b * p && x == y * p
    ensures Distance(u, x) <= Distance(v, x) <==> Distance(a, y) <= Distance(b, y)
    ensures Distance(u, x) == Distance(v, x) <==> Distance(a, y) == Distance(b, y)
  {
    Scaled(a, y, p, u, x);
    Scaled(b, y, p, v, x);
    Scales(Distance(a, y), Distance(b, y), p, Distance(u, x), Distance(v, x));
  }

  lemma GridBeats(x: real, y: real, n: int, m: int, i: int)
    requires y * Power(i) == x && Distance(n as real, y) <= Distance(m as real, y)
    requires m != n && Distance(n as real, y) == Distance(m as real, y) ==> n % 2 == 0
    ensures NoNearer(x, n, m, i)
  {
    hide Power, Distance;
    ScaledOrder(n as real, m as real, y, Power(i), Grid(n, i), Grid(m, i), x);
  }

  lemma NearestBeats(x: real, n: int, m: int, i: int)
    requires n == Nearest(x, Power(i))
    ensures NoNearer(x, n, m, i)
  {
    hide Power, Distance, NoNearer;
    var y := x / Power(i);
    NearestOfAll(y, n, m);
    hide Nearest;
    Unscaled(x, Power(i));
    GridBeats(x, y, n, m, i);
  }

  lemma Unscaled(x: real, p: real)
    requires 0.0 < p
    ensures x / p * p == x
  {
  }
}
