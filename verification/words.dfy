/** Machine words and IEEE doubles as the bit patterns the code moves around. */
module Words {

  const TWO_32 := 0x1_0000_0000

  /** A 32-bit unsigned word. */
  type Word = w: nat | w < TWO_32

  /** A double, as its 64-bit pattern. */
  type Double = d: nat | d < TWO_32 * TWO_32

  function Low(d: Double): Word {
    d % TWO_32
  }

  function High(d: Double): Word {
    d / TWO_32
  }

  function Join(low: Word, high: Word): Double {
    high * TWO_32 + low
  }

  /** Biased exponent of a double; all ones marks an infinity or a NaN. */
  predicate IsFinite(d: Double) {
    (d / 0x10_0000_0000_0000) % 0x800 != 0x7FF
  }

  /** Adding one to a 32-bit counter. */
  function Increment(w: Word): Word {
    (w + 1) % TWO_32
  }

  /** The finite doubles are those that, without their sign, lie below the pattern of infinity. */
  lemma FiniteBelowInfinity(d: Double)
    ensures IsFinite(d) <==> d % 0x8000_0000_0000_0000 < 0x7FF0_0000_0000_0000
  {
    var m := d % 0x8000_0000_0000_0000;
    var q, r := m / 0x10_0000_0000_0000, d / 0x8000_0000_0000_0000;
    assert d == m + r * 0x8000_0000_0000_0000;
    assert d / 0x10_0000_0000_0000 == q + r * 0x800;
  }

  lemma JoinOfSplit(d: Double)
    ensures Join(Low(d), High(d)) == d
  {
  }

  /** Equal words of two counts that are less than 2^32 apart name the same count. */
  lemma SameCount(early: nat, late: nat)
    requires early <= late < early + TWO_32
    requires early % TWO_32 == late % TWO_32
    ensures early == late
  {
  }

  lemma ParityOfWord(count: nat)
    ensures (count % TWO_32) % 2 == count % 2
  {
  }
}
