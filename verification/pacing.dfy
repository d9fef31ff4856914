/** Absolute-period pacing of the realtime loop, with resynchronisation after a stall. */
module Pacing {

  /** The clock readings of one cycle: at the stall test, and again if the stall branch is taken. */
  datatype Readings = Readings(test: int, resync: int)

  predicate Stalled(deadline: int, period: int, r: Readings) {
    deadline + period + 2 * period < r.test
  }

  function NextDeadline(deadline: int, period: int, r: Readings): int {
    if Stalled(deadline, period, r) then r.resync else deadline + period
  }

  class Pacer {
    const period: int
    var nextCycle: int

    constructor (now: int, period: int)
      ensures nextCycle == now && this.period == period
    {
      nextCycle := now;
      this.period := period;
    }

    /** The end of the loop in main: the tick to sleep until. */
    method Advance(r: Readings) returns (deadline: int)
      modifies this
      ensures deadline == nextCycle == NextDeadline(old(nextCycle), period, r)
      ensures deadline == if old(nextCycle) + 3 * period < r.test then r.resync else old(nextCycle) + period
    {
      nextCycle := nextCycle + period;
      if r.test > nextCycle + 2 * period {
        nextCycle := r.resync;
      }
      return nextCycle;
    }
  }

  /**
   A run: deadline k is slept until, cycle k starts at wake k, no earlier than its
   deadline, and reads the clock in reading k.  Cycle 0 starts at once.
   */
  ghost predicate IsRun(period: int, deadlines: seq<int>, wakes: seq<int>, readings: seq<Readings>) {
    && 0 < period && |deadlines| == |wakes| == |readings|
    && (forall k | 0 <= k < |deadlines| ::
          deadlines[k] <= wakes[k] <= readings[k].test <= readings[k].resync)
    && (forall k | 0 <= k < |deadlines| - 1 ::
          deadlines[k + 1] == NextDeadline(deadlines[k], period, readings[k]))
  }

  lemma {:induction false} DeadlinesKeepPeriod(period: int, deadlines: seq<int>, wakes: seq<int>,
        readings: seq<Readings>, i: nat, j: nat)
    requires IsRun(period, deadlines, wakes, readings) && i <= j < |deadlines|
    ensures (j - i) * period <= deadlines[j] - deadlines[i]
    decreases j
  {
    if i < j {
      DeadlinesKeepPeriod(period, deadlines, wakes, readings, i, j - 1);
      assert deadlines[j - 1 + 1] == NextDeadline(deadlines[j - 1], period, readings[j - 1]);
      assert (j - i) * period == (j - 1 - i) * period + period;
    }
  }

  /** For any cycle durations and any late wake-ups, cycles never come faster than one per period plus a burst of
      three. */
  lemma RateBound(period: int, deadlines: seq<int>, wakes: seq<int>, readings: seq<Readings>, i: nat, j: nat)
    requires IsRun(period, deadlines, wakes, readings) && i <= j < |deadlines|
    ensures (j - i) * period <= wakes[j] - wakes[i] + 3 * period
  {
    if i < j {
      DeadlinesKeepPeriod(period, deadlines, wakes, readings, i + 1, j);
      assert deadlines[i + 1] == NextDeadline(deadlines[i], period, readings[i]);
      assert (j - i) * period == (j - (i + 1)) * period + period;
    }
  }

  /** The burst of three is reached: late by less than the stall limit, the loop runs three cycles at one tick. */
  lemma BurstOfThree(period: int)
    requires 0 < period
    ensures var d := [0, period, 2 * period, 3 * period];
            var w := [3 * period, 3 * period, 3 * period, 3 * period];
            IsRun(period, d, w, seq(4, k requires 0 <= k < 4 => Readings(w[k], w[k])))
            && 3 * period == w[3] - w[0] + 3 * period
  {
  }

  /** Without a stall the k-th deadline is exactly k periods after the start. */
  lemma {:induction false} NoDrift(period: int, deadlines: seq<int>, wakes: seq<int>, readings: seq<Readings>, k: nat)
    requires IsRun(period, deadlines, wakes, readings) && k < |deadlines|
    requires forall i | 0 <= i < k :: readings[i].test <= deadlines[i] + 3 * period
    ensures deadlines[k] == deadlines[0] + k * period
  {
    if 0 < k {
      NoDrift(period, deadlines, wakes, readings, k - 1);
      assert deadlines[k - 1 + 1] == NextDeadline(deadlines[k - 1], period, readings[k - 1]);
      assert k * period == (k - 1) * period + period;
    }
  }
}

/** The round-robin broadcast of the mission, one item every ten cycles. */
module MissionBroadcast {

  const BROADCAST_PERIOD := 10

  datatype Broadcast = Broadcast(countdown: nat, seqno: nat)

  datatype Item = Nothing | Leg(number: nat, first: bool, final: bool)

  class Broadcaster {
    var countdown: nat
    var seqno: nat

    ghost function View(): Broadcast
      reads this
    {
      Broadcast(countdown, seqno)
    }

    constructor ()
      ensures View() == Broadcast(0, 0)
    {
      countdown, seqno := 0, 0;
    }

    /** The broadcast part of update_mission_telemetry. */
    method Update(total: nat) returns (item: Item)
      modifies this
      ensures item == Sent(old(View()), total) && View() == After(old(View()), total)
    {
      if countdown > 0 {
        countdown := countdown - 1;
        return Nothing;
      }
      countdown := BROADCAST_PERIOD - 1;
      if total == 0 {
        return Nothing;
      }
      if seqno >= total {
        seqno := 0;
      }
      item := Leg(seqno, seqno == 0, seqno + 1 == total);
      seqno := seqno + 1;
    }
  }

  function Wrapped(b: Broadcast, total: nat): nat {
    if b.seqno >= total then 0 else b.seqno
  }

  function Sent(b: Broadcast, total: nat): Item {
    if b.countdown > 0 || total == 0 then Nothing
    else Leg(Wrapped(b, total), Wrapped(b, total) == 0, Wrapped(b, total) + 1 == total)
  }

  function After(b: Broadcast, total: nat): Broadcast {
    if b.countdown > 0 then b.(countdown := b.countdown - 1)
    else if total == 0 then b.(countdown := BROADCAST_PERIOD - 1)
    else Broadcast(BROADCAST_PERIOD - 1, Wrapped(b, total) + 1)
  }

  /** The state after n more cycles with a route of `total` legs. */
  function AfterCycles(b: Broadcast, total: nat, n: nat): Broadcast {
    if n == 0 then b else After(AfterCycles(b, total, n - 1), total)
  }

  /** The leg whose turn it is n items after a broadcast of leg 0. */
  function Turn(first: nat, total: nat, n: nat): nat
    requires 0 < total
  {
    (first + n) % total
  }

  lemma {:induction false} CountsDown(b: Broadcast, total: nat, n: nat)
    requires n <= b.countdown
    ensures AfterCycles(b, total, n) == b.(countdown := b.countdown - n)
  {
    if 0 < n {
      CountsDown(b, total, n - 1);
    }
  }

  lemma {:induction false} CyclesCompose(b: Broadcast, total: nat, m: nat, n: nat)
    ensures AfterCycles(b, total, m + n) == AfterCycles(AfterCycles(b, total, m), total, n)
  {
    if 0 < n {
      CyclesCompose(b, total, m, n - 1);
    }
  }

  lemma Multiple(d: int, total: int)
    requires 1 <= d && 0 < total
    ensures total <= d * total
  {
  }

  lemma Remainder(x: nat, q: nat, r: nat, total: nat)
    requires r < total && x == q * total + r
    ensures x % total == r
  {
    var p, s := x / total, x % total;
    assert x == p * total + s;
    assert (q - p) * total == s - r && (p - q) * total == r - s;
    if q > p {
      Multiple(q - p, total);
    } else if p > q {
      Multiple(p - q, total);
    }
  }

  lemma NextTurn(first: nat, total: nat, n: nat)
    requires first < total
    ensures Turn(first, total, n + 1) == (if Turn(first, total, n) + 1 >= total then 0 else Turn(first, total, n) + 1)
  {
    var q, r := (first + n) / total, (first + n) % total;
    assert first + n == q * total + r;
    if r + 1 >= total {
      assert first + n + 1 == (q + 1) * total;
      Remainder(first + n + 1, q + 1, 0, total);
    } else {
      Remainder(first + n + 1, q, r + 1, total);
    }
  }

  /** Within one round every leg has exactly one turn. */
  lemma EachLegOnce(first: nat, total: nat, leg: nat)
    requires first < total && leg < total
    ensures exists n: nat :: n < total && Turn(first, total, n) == leg
                             && forall k: nat | k < total && Turn(first, total, k) == leg :: k == n
  {
    forall k: nat | k < total
      ensures Turn(first, total, k) == (if first + k < total then first + k else first + k - total)
    {
      if first + k < total {
        Remainder(first + k, 0, first + k, total);
      } else {
        Remainder(first + k, 1, first + k - total, total);
      }
    }
    var n: nat := if first <= leg then leg - first else leg + total - first;
    assert n < total && Turn(first, total, n) == leg;
  }

  /** With a route of constant length, exactly one item goes out in every ten cycles, and the items are the legs in
      turn: the n-th is leg (first + n) mod total. */
  lemma {:induction false} RoundRobin(b: Broadcast, total: nat, n: nat)
    requires 0 < total && b.countdown == 0
    ensures var s := AfterCycles(b, total, 10 * n);
            && s.countdown == 0
            && Wrapped(s, total) == Turn(Wrapped(b, total), total, n)
            && Sent(s, total).Leg? && Sent(s, total).number == Turn(Wrapped(b, total), total, n)
  {
    if n > 0 {
      RoundRobin(b, total, n - 1);
      var p := AfterCycles(b, total, BROADCAST_PERIOD * (n - 1));
      CyclesCompose(b, total, BROADCAST_PERIOD * (n - 1), BROADCAST_PERIOD);
      CyclesCompose(p, total, 1, BROADCAST_PERIOD - 1);
      assert AfterCycles(p, total, 1) == After(AfterCycles(p, total, 0), total);
      CountsDown(After(p, total), total, BROADCAST_PERIOD - 1);
      NextTurn(Wrapped(b, total), total, n - 1);
    } else {
      Remainder(Wrapped(b, total), 0, Wrapped(b, total), total);
    }
  }

  /** Between two items nothing goes out. */
  lemma SilentBetween(b: Broadcast, total: nat, n: nat, i: nat)
    requires 0 < total && b.countdown == 0 && 0 < i < 10
    ensures Sent(AfterCycles(b, total, 10 * n + i), total) == Nothing
  {
    RoundRobin(b, total, n);
    var p := AfterCycles(b, total, BROADCAST_PERIOD * n);
    CyclesCompose(b, total, BROADCAST_PERIOD * n, i);
    CyclesCompose(p, total, 1, i - 1);
    assert AfterCycles(p, total, 1) == After(AfterCycles(p, total, 0), total);
    CountsDown(After(p, total), total, i - 1);
  }

  // ------------------------------------------- with a route that changes

  /** The state after one cycle for each of these route lengths. */
  function Along(b: Broadcast, totals: seq<nat>): Broadcast {
    if totals == [] then b else After(Along(b, totals[..|totals| - 1]), totals[|totals| - 1])
  }

  /** What cycle k sends. */
  function ItemAt(b: Broadcast, totals: seq<nat>, k: nat): Item
    requires k < |totals|
  {
    Sent(Along(b, totals[..k]), totals[k])
  }

  lemma AlongNone(b: Broadcast, totals: seq<nat>)
    ensures Along(b, totals[..0]) == b
  {
  }

  lemma OneMoreCycle(b: Broadcast, totals: seq<nat>, k: nat)
    requires k < |totals|
    ensures Along(b, totals[..k + 1]) == After(Along(b, totals[..k]), totals[k])
  {
    assert totals[..k + 1][..k] == totals[..k];
  }

  lemma NextRemainder(k: nat)
    requires 0 < k
    ensures k % BROADCAST_PERIOD
            == if (k - 1) % BROADCAST_PERIOD == BROADCAST_PERIOD - 1 then 0 else (k - 1) % BROADCAST_PERIOD + 1
  {
  }

  lemma {:induction false} EveryTenth(b: Broadcast, totals: seq<nat>, k: nat)
    requires b.countdown == 0 && k <= |totals|
    ensures Along(b, totals[..k]).countdown
            == if k % BROADCAST_PERIOD == 0 then 0 else BROADCAST_PERIOD - k % BROADCAST_PERIOD
  {
    hide Along, Wrapped;
    if k == 0 {
      AlongNone(b, totals);
    } else {
      NextRemainder(k);
      EveryTenth(b, totals, k - 1);
      OneMoreCycle(b, totals, k - 1);
    }
  }

  /** After leg p was sent nothing but the next item moves the sequence number. */
  lemma {:induction false} WaitsForNext(b: Broadcast, totals: seq<nat>, i: nat, j: nat)
    requires i < j <= |totals| && ItemAt(b, totals, i).Leg?
    requires forall k | i < k < j :: ItemAt(b, totals, k).Nothing?
    ensures Along(b, totals[..j]).seqno == ItemAt(b, totals, i).number + 1
    decreases j
  {
    OneMoreCycle(b, totals, j - 1);
    if i < j - 1 {
      WaitsForNext(b, totals, i, j - 1);
      assert ItemAt(b, totals, j - 1).Nothing?;
    }
  }

  /** However the length of the route changes from cycle to cycle: an item goes out exactly in every tenth cycle with a
      route, it is a leg of the route of that cycle, flagged first and final as it is, and it is the leg after the one
      sent before, or the first if that is past the end. */
  lemma LegsInTurn(b: Broadcast, totals: seq<nat>, k: nat)
    requires b.countdown == 0 && k < |totals|
    ensures var item := ItemAt(b, totals, k);
            && (item.Leg? <==> k % 10 == 0 && 0 < totals[k])
            && (item.Leg? ==> item.number < totals[k]
                              && item.first == (item.number == 0) && item.final == (item.number + 1 == totals[k]))
    ensures forall i | 0 <= i < k && ItemAt(b, totals, i).Leg? && ItemAt(b, totals, k).Leg?
                       && (forall n | i < n < k :: ItemAt(b, totals, n).Nothing?) ::
              var p := ItemAt(b, totals, i).number;
              ItemAt(b, totals, k).number == if p + 1 < totals[k] then p + 1 else 0
  {
    EveryTenth(b, totals, k);
    forall i | 0 <= i < k && ItemAt(b, totals, i).Leg? && ItemAt(b, totals, k).Leg?
               && (forall n | i < n < k :: ItemAt(b, totals, n).Nothing?)
      ensures var p := ItemAt(b, totals, i).number;
              ItemAt(b, totals, k).number == if p + 1 < totals[k] then p + 1 else 0
    {
      WaitsForNext(b, totals, i, k);
    }
  }
}
