/** The 20 ms step gate that both control loops put in front of the fixed-step model. */
module StepGate {

  const PERIOD_US := 20_000
  const TWO_64 := 0x1_0000_0000_0000_0000

  /** A 64-bit timestamp in microseconds. */
  type Time = t: nat | t < TWO_64

  function Cell(t: Time): nat {
    t / PERIOD_US
  }

  /** The last cell is cut short by the width of the timestamp. */
  const LAST_CELL := (TWO_64 - 1) / PERIOD_US

  /** Start of the cell after t's, in 64-bit arithmetic. */
  function NextCell(t: Time): Time {
    ((t / PERIOD_US + 1) * PERIOD_US) % TWO_64
  }

  lemma NextCellStart(t: Time)
    ensures Cell(t) < LAST_CELL ==> NextCell(t) == (Cell(t) + 1) * PERIOD_US
    ensures Cell(t) == LAST_CELL ==> NextCell(t) < PERIOD_US
  {
  }

  predicate Due(next: Time, t: Time) {
    next <= t
  }

  function After(next: Time, t: Time): Time {
    if Due(next, t) then NextCell(t) else next
  }

  class Gate {
    var next: Time

    constructor ()
      ensures next == 0
    {
      next := 0;
    }

    /** control_step_due, fastdyn_control_step_due */
    method StepDue(t: Time) returns (due: bool)
      modifies this
      ensures due == Due(old(next), t) && next == After(old(next), t)
    {
      if t < next {
        return false;
      }
      next := ((t / PERIOD_US + 1) * PERIOD_US) % TWO_64;
      return true;
    }
  }

  // ------------------------------------------------------------------- runs

  /** next_control_time_us after the samples ts. */
  function NextAfter(ts: seq<Time>): Time {
    if ts == [] then 0 else After(NextAfter(ts[..|ts| - 1]), ts[|ts| - 1])
  }

  /** Whether sample k of ts lets the model step. */
  predicate Fires(ts: seq<Time>, k: nat)
    requires k < |ts|
  {
    Due(NextAfter(ts[..k]), ts[k])
  }

  predicate Nondecreasing(ts: seq<Time>) {
    forall i, j | 0 <= i < j < |ts| :: ts[i] <= ts[j]
  }

  /** After nondecreasing samples the gate is shut until the next cell; but a sample in the last cell leaves it open. */
  lemma {:induction false} GateState(ts: seq<Time>)
    requires Nondecreasing(ts) && ts != []
    ensures var last := ts[|ts| - 1];
            if Cell(last) == LAST_CELL then NextAfter(ts) < PERIOD_US else NextAfter(ts) == (Cell(last) + 1) * PERIOD_US
  {
    var n := |ts| - 1;
    NextCellStart(ts[n]);
    if n > 0 {
      GateState(ts[..n]);
      assert ts[n - 1] <= ts[n];
    }
  }

  /** The gate fires exactly on the first sample of each visited cell, except that in the last cell it fires on
      every sample. */
  lemma FiresOncePerCell(ts: seq<Time>, k: nat)
    requires Nondecreasing(ts) && k < |ts|
    ensures Fires(ts, k) <==> k == 0 || Cell(ts[k - 1]) != Cell(ts[k]) || Cell(ts[k]) == LAST_CELL
  {
    if k > 0 {
      assert ts[..k][k - 1] == ts[k - 1] <= ts[k];
      GateState(ts[..k]);
    }
  }

  /** In numbers: before the last 20 ms of the clock, a sample fires exactly if no earlier one has the same number of
      whole 20_000 us in it. */
  lemma FiresInMicroseconds(ts: seq<Time>, k: nat)
    requires Nondecreasing(ts) && k < |ts| && ts[k] < 18_446_744_073_709_540_000
    ensures Fires(ts, k) <==> forall i | 0 <= i < k :: ts[i] / 20_000 < ts[k] / 20_000
  {
    FiresOncePerCell(ts, k);
    if k > 0 {
      forall i | 0 <= i < k ensures ts[i] / 20_000 <= ts[k - 1] / 20_000 <= ts[k] / 20_000 {
        CellsOrdered(ts[i], ts[k - 1]);
        CellsOrdered(ts[k - 1], ts[k]);
      }
    }
  }

  lemma CellsOrdered(a: Time, b: Time)
    requires a <= b
    ensures a / 20_000 <= b / 20_000
  {
  }

  /** So plant samples 10 ms apart let the model step at every second one. */
  lemma EverySecondSample(ts: seq<Time>, k: nat)
    requires k < |ts| && ts[k] < 18_446_744_073_709_540_000 && forall n | 0 <= n < |ts| :: ts[n] == 10_000 * n
    ensures Fires(ts, k) <==> k % 2 == 0
  {
    FiresInMicroseconds(ts, k);
    assert ts[k] / 20_000 == k / 2;
    if k > 0 {
      assert ts[k - 1] / 20_000 == (k - 1) / 2;
    }
    forall i | 0 <= i < k ensures ts[i] / 20_000 == i / 2 {
    }
  }

  /** Sample k fires exactly if it is the first of its cell. */
  predicate FiresAsFirst(ts: seq<Time>, k: nat)
    requires k < |ts|
  {
    Fires(ts, k) <==> k == 0 || Cell(ts[k - 1]) != Cell(ts[k])
  }

  /** Once per cell holds of nondecreasing samples exactly if none but the last one lies in the last cell. */
  lemma OncePerCellExactly(ts: seq<Time>)
    requires Nondecreasing(ts)
    ensures (forall k | 0 <= k < |ts| :: FiresAsFirst(ts, k))
            <==> (forall k | 0 <= k < |ts| - 1 :: Cell(ts[k]) < LAST_CELL)
  {
    forall k | 0 <= k < |ts|
      ensures FiresAsFirst(ts, k) <==> k == 0 || Cell(ts[k - 1]) < LAST_CELL
    {
      FiresOncePerCell(ts, k);
      if k > 0 {
        assert ts[k - 1] <= ts[k];
      }
    }
    forall k | 0 <= k < |ts| - 1
      ensures FiresAsFirst(ts, k + 1) <==> Cell(ts[k]) < LAST_CELL
    {
    }
  }

  /** The wrap is real: two samples of one cell both fire. */
  lemma LastCellFiresTwice()
    ensures var ts := [TWO_64 - 1, TWO_64 - 1];
            Nondecreasing(ts) && Fires(ts, 0) && Fires(ts, 1) && Cell(ts[0]) == Cell(ts[1])
  {
    var ts: seq<Time> := [TWO_64 - 1, TWO_64 - 1];
    FiresOncePerCell(ts, 0);
    FiresOncePerCell(ts, 1);
  }

  function Firings(ts: seq<Time>): nat {
    if ts == [] then 0
    else Firings(ts[..|ts| - 1]) + (if Fires(ts, |ts| - 1) then 1 else 0)
  }

  function CellsOf(ts: seq<Time>): set<nat> {
    set k | 0 <= k < |ts| :: Cell(ts[k])
  }

  lemma CellsGrow(ts: seq<Time>)
    requires ts != []
    ensures CellsOf(ts) == CellsOf(ts[..|ts| - 1]) + {Cell(ts[|ts| - 1])}
  {
    var n := |ts| - 1;
    forall c | c in CellsOf(ts) ensures c in CellsOf(ts[..n]) + {Cell(ts[n])} {
      var k :| 0 <= k < |ts| && Cell(ts[k]) == c;
      assert k < n ==> ts[..n][k] == ts[k];
    }
    forall c | c in CellsOf(ts[..n]) ensures c in CellsOf(ts) {
      var k :| 0 <= k < n && Cell(ts[..n][k]) == c;
      assert ts[k] == ts[..n][k];
    }
  }

  /** The cell of the newest sample was visited before exactly if the sample before it lies in it. */
  lemma SameCellAsBefore(ts: seq<Time>)
    requires Nondecreasing(ts) && ts != []
    ensures var n := |ts| - 1;
            Cell(ts[n]) in CellsOf(ts[..n]) <==> 0 < n && Cell(ts[n - 1]) == Cell(ts[n])
  {
    var n := |ts| - 1;
    if 0 < n && Cell(ts[n - 1]) == Cell(ts[n]) {
      assert Cell(ts[..n][n - 1]) in CellsOf(ts[..n]);
    }
    if Cell(ts[n]) in CellsOf(ts[..n]) {
      var k :| 0 <= k < n && Cell(ts[..n][k]) == Cell(ts[n]);
      assert ts[k] <= ts[n - 1] <= ts[n];
    }
  }

  /** Samples past the first in the clock's last cell. */
  function Repeats(ts: seq<Time>): nat {
    if |ts| < 2 then 0
    else Repeats(ts[..|ts| - 1]) + (if Cell(ts[|ts| - 2]) == LAST_CELL then 1 else 0)
  }

  /** There are as many firings as distinct cells visited, plus one for every further sample in the last cell. */
  lemma {:induction false} FiringsExceedCells(ts: seq<Time>)
    requires Nondecreasing(ts)
    ensures Firings(ts) == |CellsOf(ts)| + Repeats(ts)
  {
    if ts == [] {
      assert CellsOf(ts) == {};
    } else {
      var n := |ts| - 1;
      FiringsExceedCells(ts[..n]);
      FiresOncePerCell(ts, n);
      CellsGrow(ts);
      SameCellAsBefore(ts);
      if 0 < n {
        assert ts[n - 1] <= ts[n];
      }
      if Cell(ts[n]) in CellsOf(ts[..n]) {
        assert CellsOf(ts) == CellsOf(ts[..n]);
      }
    }
  }

  lemma {:induction false} RepeatsAre(ts: seq<Time>)
    ensures Repeats(ts) == 0 <==> forall k | 0 <= k < |ts| - 1 :: Cell(ts[k]) < LAST_CELL
  {
    if |ts| >= 2 {
      var n := |ts| - 1;
      RepeatsAre(ts[..n]);
      assert forall k | 0 <= k < n :: ts[..n][k] == ts[k];
    }
  }

  /** There are exactly as many firings as distinct cells visited if and only if no sample but the last one lies in the
      clock's last cell. */
  lemma FiringsCountCells(ts: seq<Time>)
    requires Nondecreasing(ts)
    ensures Firings(ts) == |CellsOf(ts)| <==> forall k | 0 <= k < |ts| - 1 :: Cell(ts[k]) < LAST_CELL
  {
    FiringsExceedCells(ts);
    RepeatsAre(ts);
  }

  // ------------------------------------------------------ samples in any order

  /** What the gate is left with after a sample in the clock's last cell: the start of the next cell, wrapped. */
  const WRAPPED: Time := NextCell(TWO_64 - 1)

  predicate FiringCellsIncrease(ts: seq<Time>) {
    forall i, j | 0 <= i < j < |ts| && Fires(ts, i) && Fires(ts, j) :: Cell(ts[i]) < Cell(ts[j])
  }

  /** Every sample after one in the clock's last cell comes before the wrapped cell start. */
  predicate QuietAfterLast(ts: seq<Time>) {
    forall i, j | 0 <= i < j < |ts| && Cell(ts[i]) == LAST_CELL :: ts[j] < WRAPPED
  }

  /** The gate is never shut to the clock's last cell. */
  lemma {:induction false} LastCellFires(ts: seq<Time>, k: nat)
    requires k <= |ts|
    ensures NextAfter(ts[..k]) <= LAST_CELL * PERIOD_US
    ensures k < |ts| && Cell(ts[k]) == LAST_CELL ==> Fires(ts, k)
  {
    if k > 0 {
      LastCellFires(ts, k - 1);
      assert ts[..k][..k - 1] == ts[..k - 1] && ts[..k][k - 1] == ts[k - 1];
      NextCellStart(ts[k - 1]);
    }
  }

  lemma {:induction false} StaysShut(ts: seq<Time>, i: nat, j: nat)
    requires i < j <= |ts| && Fires(ts, i) && forall k | i <= k < j :: Cell(ts[k]) < LAST_CELL
    ensures (Cell(ts[i]) + 1) * PERIOD_US <= NextAfter(ts[..j])
    decreases j
  {
    assert ts[..j][..j - 1] == ts[..j - 1] && ts[..j][j - 1] == ts[j - 1];
    NextCellStart(ts[j - 1]);
    if i < j - 1 {
      StaysShut(ts, i, j - 1);
    }
  }

  /** After a sample in the last cell the gate waits for the wrapped start as long as all samples come before it. */
  lemma {:induction false} WaitsForWrapped(ts: seq<Time>, i: nat, j: nat)
    requires i < j <= |ts| && Cell(ts[i]) == LAST_CELL && forall k | i < k < j :: ts[k] < WRAPPED
    ensures NextAfter(ts[..j]) == WRAPPED
    decreases j
  {
    assert ts[..j][..j - 1] == ts[..j - 1] && ts[..j][j - 1] == ts[j - 1];
    if i < j - 1 {
      WaitsForWrapped(ts, i, j - 1);
    } else {
      LastCellFires(ts, i);
    }
  }

  lemma {:induction false} FirstAtOrPast(ts: seq<Time>, i: nat, j: nat) returns (k: nat)
    requires i < j < |ts| && WRAPPED <= ts[j]
    ensures i < k <= j && WRAPPED <= ts[k] && forall n | i < n < k :: ts[n] < WRAPPED
    decreases j
  {
    if n :| i < n < j && WRAPPED <= ts[n] {
      k := FirstAtOrPast(ts, i, n);
    } else {
      k := j;
    }
  }

  /** Over samples in any order the cells that fire strictly increase if and only if every sample after one in the
      clock's last cell comes before the wrapped cell start. */
  lemma FiringCellsIncreaseExactly(ts: seq<Time>)
    ensures FiringCellsIncrease(ts) <==> QuietAfterLast(ts)
  {
    if QuietAfterLast(ts) {
      forall i, j | 0 <= i < j < |ts| && Fires(ts, i) && Fires(ts, j)
        ensures Cell(ts[i]) < Cell(ts[j])
      {
        if k :| i <= k < j && Cell(ts[k]) == LAST_CELL {
          WaitsForWrapped(ts, k, j);
        } else {
          StaysShut(ts, i, j);
        }
      }
    }
    if i, j :| 0 <= i < j < |ts| && Cell(ts[i]) == LAST_CELL && WRAPPED <= ts[j] {
      var k := FirstAtOrPast(ts, i, j);
      LastCellFires(ts, i);
      WaitsForWrapped(ts, i, k);
      assert Fires(ts, i) && Fires(ts, k) && Cell(ts[k]) <= Cell(ts[i]);
    }
  }

  /** Such a sample: after the wrap an early cell fires behind the last one. */
  lemma WrapFiresBackwards()
    ensures var ts := [TWO_64 - 1, PERIOD_US];
            Fires(ts, 0) && Fires(ts, 1) && Cell(ts[1]) < Cell(ts[0]) && !FiringCellsIncrease(ts)
  {
    var ts: seq<Time> := [TWO_64 - 1, PERIOD_US];
    LastCellFires(ts, 0);
    WaitsForWrapped(ts, 0, 1);
  }
}
