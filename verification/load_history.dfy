/** One whole call of the try-load, among any operations of others on the same cell. */
module LoadHistory {
  import opened Words
  import opened AtomicDouble

  /** What one operation of anyone else may do to the cell: the halves change only while the counter is odd. */
  predicate CellMoves(c: Cell, c': Cell) {
    c' == c || c'.count == c.count + 1 || (c'.count == c.count && !c.Settled())
  }

  /** Moment k of the call: the cell, how far the call is, and whether the next operation is the call's own. */
  datatype Moment = Moment(cell: Cell, load: Load, own: bool)

  ghost predicate Joined(p: Moment, q: Moment) {
    && CellMoves(p.cell, q.cell)
    && (if p.own then LoadStep(p.cell, p.load) == Going(q.load) else q.load == p.load)
    && (p.own ==> q.cell == p.cell)
  }

  /** The moments of a call from its first operation up to the one that ends it. */
  ghost predicate IsCall(h: seq<Moment>) {
    && 0 < |h| && h[0].load == FIRST_ATTEMPT
    && forall k | 0 <= k < |h| - 1 :: Joined(h[k], h[k + 1])
  }

  /** A store was inside the cell at some moment of attempt a, at moment n or before. */
  ghost predicate Overlapped(h: seq<Moment>, n: nat, a: nat)
    requires n < |h|
  {
    exists k: nat :: k <= n && h[k].load.attempt == a && !h[k].cell.Settled()
  }

  ghost predicate Knows(h: seq<Moment>, n: nat)
    requires n < |h|
  {
    var cell, load := h[n].cell, h[n].load;
    && Loading(cell, load)
    && (forall a: nat | a < load.attempt :: Overlapped(h, n, a))
    && (!load.phase.Before? && load.phase.before < cell.count ==> Overlapped(h, n, load.attempt))
  }

  lemma StillOverlapped(h: seq<Moment>, n: nat, a: nat)
    requires n + 1 < |h| && Overlapped(h, n, a)
    ensures Overlapped(h, n + 1, a)
  {
  }

  /** A failing operation proves the overlap of its attempt. */
  lemma AttemptFails(h: seq<Moment>, n: nat)
    requires n < |h| && Knows(h, n) && LoadStep(h[n].cell, h[n].load) == Retry(h[n].load.attempt)
    ensures Overlapped(h, n, h[n].load.attempt)
  {
    FailureMeansOverlap(h[n].cell, h[n].load);
  }

  lemma OwnStep(cell: Cell, load: Load)
    requires Loading(cell, load) && LoadStep(cell, load).Going?
    ensures var next := LoadStep(cell, load).load;
            && Loading(cell, next)
            && (next.attempt != load.attempt ==>
                  next.attempt == load.attempt + 1 && next.phase.Before? && LoadStep(cell, load) == Retry(load.attempt))
            && (next.attempt == load.attempt && !load.phase.Before?
                ==> !next.phase.Before? && next.phase.before == load.phase.before)
            && (load.phase.Before? && !next.phase.Before? ==> next.phase.before == cell.count)
  {
    ParityOfWord(cell.count);
  }

  lemma OtherStep(cell: Cell, cell': Cell, load: Load)
    requires Loading(cell, load) && CellMoves(cell, cell')
    ensures Loading(cell', load)
    ensures !load.phase.Before? && load.phase.before < cell'.count
            ==> load.phase.before < cell.count || !cell'.Settled()
  {
  }

  lemma KnowsMore(h: seq<Moment>, m: nat, n: nat)
    requires n == m + 1 < |h| && Joined(h[m], h[n]) && Knows(h, m)
    ensures Knows(h, n)
  {
    hide LoadStep, Joined;
    var p, q := h[m], h[n];
    forall a: nat | Overlapped(h, m, a) ensures Overlapped(h, n, a) {
      StillOverlapped(h, m, a);
    }
    JoinedMoves(p, q);
    if p.own {
      OwnStep(p.cell, p.load);
      if q.load.attempt != p.load.attempt {
        AttemptFails(h, m);
      }
    } else {
      OtherStep(p.cell, q.cell, p.load);
      if !q.cell.Settled() {
        assert Overlapped(h, n, q.load.attempt);
      }
    }
  }

  lemma JoinedMoves(p: Moment, q: Moment)
    requires Joined(p, q)
    ensures CellMoves(p.cell, q.cell)
    ensures p.own ==> q.cell == p.cell && LoadStep(p.cell, p.load) == Going(q.load)
    ensures !p.own ==> q.load == p.load
  {
  }

  lemma {:induction false} CallKnows(h: seq<Moment>, n: nat)
    requires IsCall(h) && n < |h|
    ensures Knows(h, n)
  {
    hide Knows;
    if n == 0 {
      KnowsAtFirst(h);
    } else {
      CallKnows(h, n - 1);
      assert Joined(h[n - 1], h[n - 1 + 1]);
      KnowsMore(h, n - 1, n);
    }
  }

  lemma KnowsAtFirst(h: seq<Moment>)
    requires IsCall(h)
    ensures Knows(h, 0)
  {
  }

  /** A call that succeeds returns what the cell holds at its last operation, with no store inside. */
  lemma SuccessIsCurrent(h: seq<Moment>)
    requires IsCall(h) && NoWrap(h[|h| - 1].cell, h[|h| - 1].load)
    requires LoadStep(h[|h| - 1].cell, h[|h| - 1].load).Loaded?
    ensures var last := h[|h| - 1];
            last.cell.Settled() && LoadStep(last.cell, last.load).value == last.cell.Value()
  {
    CallKnows(h, |h| - 1);
    LoadAdvances(h[|h| - 1].cell, h[|h| - 1].load);
  }

  /** A call that gives up met a store inside the cell in every one of its three attempts. */
  lemma FailureMeansStores(h: seq<Moment>)
    requires IsCall(h) && LoadStep(h[|h| - 1].cell, h[|h| - 1].load).GaveUp?
    ensures Overlapped(h, |h| - 1, 0) && Overlapped(h, |h| - 1, 1) && Overlapped(h, |h| - 1, 2)
  {
    var n := |h| - 1;
    CallKnows(h, n);
    AttemptFails(h, n);
    assert h[n].load.attempt == ATTEMPTS - 1;
  }
}
