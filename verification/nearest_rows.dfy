/** The cursor that pairs each plant row with the nearest recorded row, against a search of all rows. */
module NearestRows {
  import opened RealNumbers
  import opened Wrappers

  /** Row i is nearest to t, and every later row is farther. */
  ghost predicate LastNearest(times: seq<real>, t: real, i: nat) {
    && i < |times|
    && (forall j | 0 <= j < |times| :: Distance(times[i], t) <= Distance(times[j], t))
    && (forall j | i < j < |times| :: Distance(times[i], t) < Distance(times[j], t))
  }

  /** The loop of nearest: step on while the next row is no farther. */
  function Advance(times: seq<real>, i: nat, t: real): nat
    decreases |times| - i
  {
    if i + 1 < |times| && Distance(times[i + 1], t) <= Distance(times[i], t) then Advance(times, i + 1, t) else i
  }

  class Cursor {
    const times: seq<real>
    var idx: nat

    ghost predicate Valid()
      reads this
    {
      times != [] ==> idx < |times|
    }

    constructor (times: seq<real>)
      ensures Valid() && this.times == times && idx == 0
    {
      this.times := times;
      idx := 0;
    }

    method Nearest(t: real) returns (row: Option<nat>)
      requires Valid()
      modifies this
      ensures Valid()
      ensures times == [] ==> row == None && idx == old(idx)
      ensures times != [] ==> row == Some(idx) && idx == Advance(times, old(idx), t)
    {
      if times == [] {
        return None;
      }
      while idx + 1 < |times| && Distance(times[idx + 1], t) <= Distance(times[idx], t)
        invariant idx < |times| && Advance(times, idx, t) == Advance(times, old(idx), t)
        decreases |times| - idx
      {
        idx := idx + 1;
      }
      return Some(idx);
    }
  }

  predicate Sorted(s: seq<real>) {
    forall i, j | 0 <= i < j < |s| :: s[i] <= s[j]
  }

  /** The cursor moves only forward. */
  lemma {:induction false} AdvanceForward(times: seq<real>, i: nat, t: real)
    requires i < |times|
    ensures i <= Advance(times, i, t) < |times|
    decreases |times| - i
  {
    if i + 1 < |times| && Distance(times[i + 1], t) <= Distance(times[i], t) {
      AdvanceForward(times, i + 1, t);
    }
  }

  /** Starting at or before the last nearest row of sorted rows, the loop stops exactly there. */
  lemma {:induction false} AdvanceFindsLastNearest(times: seq<real>, i: nat, t: real, n: nat)
    requires Sorted(times) && LastNearest(times, t, n) && i <= n
    ensures Advance(times, i, t) == n
    decreases n - i
  {
    if i < n {
      assert times[i] <= times[i + 1] && (i + 1 < n ==> times[i + 1] <= times[n]);
      AdvanceFindsLastNearest(times, i + 1, t, n);
    }
  }

  /** The search over all rows. */
  lemma {:induction false} SomeRowIsNearest(times: seq<real>, t: real) returns (n: nat)
    requires times != []
    ensures LastNearest(times, t, n)
    decreases |times|
  {
    var k := |times| - 1;
    if k == 0 {
      return 0;
    }
    var m := SomeRowIsNearest(times[..k], t);
    assert forall j | 0 <= j < k :: times[..k][j] == times[j];
    n := if Distance(times[k], t) <= Distance(times[m], t) then k else m;
    forall j | 0 <= j < |times|
      ensures Distance(times[n], t) <= Distance(times[j], t)
              && (n < j ==> Distance(times[n], t) < Distance(times[j], t))
    {
      if j < k {
        assert Distance(times[..k][m], t) <= Distance(times[..k][j], t);
        assert m < j ==> Distance(times[..k][m], t) < Distance(times[..k][j], t);
      }
    }
  }

  /** Later queries have later last nearest rows. */
  lemma LastNearestMonotone(times: seq<real>, t: real, u: real, m: nat, n: nat)
    requires Sorted(times) && t <= u && LastNearest(times, t, m) && LastNearest(times, u, n)
    ensures m <= n
  {
    assert times[n] <= times[m] || m < n;
  }

  // ------------------------------------------------------------------- runs

  /** The row after the queries ts, starting from row 0. */
  function RowAfter(times: seq<real>, ts: seq<real>): nat {
    if ts == [] then 0 else Advance(times, RowAfter(times, ts[..|ts| - 1]), ts[|ts| - 1])
  }

  /** The cursor refines the search: for time-sorted rows and queries that never go back, each query answers the last
      row nearest to it among all rows. */
  lemma {:induction false} CursorIsSearch(times: seq<real>, ts: seq<real>, n: nat)
    requires Sorted(times) && Sorted(ts) && ts != [] && LastNearest(times, ts[|ts| - 1], n)
    ensures RowAfter(times, ts) == n
    decreases |ts|
  {
    var k := |ts| - 1;
    if k == 0 {
      assert RowAfter(times, ts[..0]) == 0;
      AdvanceFindsLastNearest(times, 0, ts[k], n);
    } else {
      var m := SomeRowIsNearest(times, ts[k - 1]);
      assert ts[..k][k - 1] == ts[k - 1] <= ts[k];
      CursorIsSearch(times, ts[..k], m);
      LastNearestMonotone(times, ts[k - 1], ts[k], m, n);
      AdvanceFindsLastNearest(times, m, ts[k], n);
    }
  }

  /** Rows stepped over by all queries together. */
  function Moves(times: seq<real>, ts: seq<real>): int {
    if ts == [] then 0
    else Moves(times, ts[..|ts| - 1]) + RowAfter(times, ts) - RowAfter(times, ts[..|ts| - 1])
  }

  /** All queries together move the cursor fewer times than there are rows, whatever the queries. */
  lemma {:induction false} TotalMovement(times: seq<real>, ts: seq<real>)
    requires times != []
    ensures 0 <= Moves(times, ts) == RowAfter(times, ts) < |times|
  {
    if ts != [] {
      var k := |ts| - 1;
      TotalMovement(times, ts[..k]);
      AdvanceForward(times, RowAfter(times, ts[..k]), ts[k]);
    }
  }
}
