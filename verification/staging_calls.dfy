/** Whole calls of the query handlers inside runs: when they are turned away, and what they do once they are not. */
module StagingCalls {
  import opened Words
  import opened AtomicDouble
  import opened AtomicStaging
  import opened StagingSystem
  import opened StagingInvariant
  import opened StagingTheorems

  /** Thread t receives a request by step j and replies by step k. */
  ghost predicate Call(ss: seq<State>, ls: seq<Label>, j: nat, k: nat, t: Tid) {
    && j < k < |ls| < |ss| && ls[j].Begin? && ls[j].t == t && ls[k] == Thread(t)
    && (forall n | j < n <= k :: t in ss[n].threads && !ss[n].threads[t].Done?)
    && t in ss[k + 1].threads && ss[k + 1].threads[t].Done?
  }

  /** The call as far as state n. */
  ghost predicate Under(ss: seq<State>, ls: seq<Label>, j: nat, n: nat, t: Tid) {
    && j < n <= |ls| < |ss| && ls[j].Begin? && ls[j].t == t
    && (forall i | j < i < n :: t in ss[i].threads && !ss[i].threads[t].Done?)
    && t in ss[n].threads
  }

  predicate Rejected(pc: Pc) {
    pc.Done? && pc.reply.code.TemporarilyRejected?
  }

  /** The next operation of the thread turns its request away: the lock is taken, the version stale, or the slot
      busy. */
  predicate Refused(s: State, t: Tid)
    requires DataShape(s.data) && t in s.threads && PcShape(s.threads[t])
  {
    var pc := s.threads[t];
    || ((pc.SetTry? || pc.RouteTry?) && s.lock.Some?)
    || (pc.RouteCheck? && pc.request.expected != 0 && pc.request.expected != s.data.version)
    || (pc.Get? && LoadStep(s.data.live[pc.index], pc.load).GaveUp?)
  }

  /** Positions of a request that was turned away, and of one that was let in. */
  predicate Losing(pc: Pc) {
    pc.RouteBusy? || pc.RouteStale? || Rejected(pc)
  }

  predicate Winning(pc: Pc) {
    Early(pc) || Late(pc)
  }

  predicate Early(pc: Pc) {
    pc.SetStore? || pc.RouteOpen? || pc.RouteStore? || pc.RouteSegments? || pc.RouteClose?
  }

  predicate Late(pc: Pc) {
    pc.SetFlag? || pc.SetUnlock? || pc.RouteFlag? || pc.RoutePublish? || pc.RouteUnlock?
  }

  predicate IsCommit(e: Event) {
    e.CommitParam? || e.CommitRoute?
  }

  /** What a handler that starts at `start` commits. */
  function Wanted(start: Pc): Event {
    match start
    case SetTry(i, v) => CommitParam(i, v)
    case RouteTry(q) => CommitRoute(q)
    case _ => Quiet
  }

  /** Code at pc belongs to the request received at start. */
  predicate Serves(start: Pc, pc: Pc) {
    match pc
    case SetTry(_, _) => start == pc
    case SetStore(i, v, _) => start == SetTry(i, v)
    case SetFlag(i, v) => start == SetTry(i, v)
    case SetUnlock(v) => start.SetTry? && start.value == v
    case RouteTry(q) => start == pc
    case RouteBusy => start.RouteTry?
    case RouteStale(_) => start.RouteTry?
    case RouteCheck(q) => start == RouteTry(q)
    case RouteOpen(q, _) => start == RouteTry(q)
    case RouteStore(q, _, _, _) => start == RouteTry(q)
    case RouteSegments(q, _) => start == RouteTry(q)
    case RouteClose(q, _) => start == RouteTry(q)
    case RouteFlag(q, _) => start == RouteTry(q)
    case RoutePublish(q, _) => start == RouteTry(q)
    case RouteUnlock(q, _) => start == RouteTry(q)
    case Get(i, _) => start == Get(i, FIRST_ATTEMPT)
    case Done(_) => true
  }

  // ------------------------------------------------------------ one operation

  lemma OwnStep(s: State, t: Tid, start: Pc)
    requires Shape(s) && Enabled(s, Thread(t)) && Serves(start, s.threads[t])
    ensures t in Next(s, Thread(t)).threads
    ensures var pc, pc' := s.threads[t], Next(s, Thread(t)).threads[t];
            && Serves(start, pc')
            && (Losing(pc') <==> Losing(pc) || Refused(s, t))
            && (Winning(pc) ==> !start.Get? && !Losing(pc') && (Winning(pc') || pc'.Done?))
            && (!Winning(pc) ==> Next(s, Thread(t)).data == s.data)
  {
    hide IsFinite, ModelShape, NextVersion, StoreStep;
  }

  lemma OwnCommit(s: State, t: Tid, start: Pc)
    requires Shape(s) && Enabled(s, Thread(t)) && Serves(start, s.threads[t])
    ensures t in Next(s, Thread(t)).threads
    ensures var pc, pc', e := s.threads[t], Next(s, Thread(t)).threads[t], EventOf(s, Thread(t));
            && (IsCommit(e) ==> e == Wanted(start) && Early(pc) && Late(pc'))
            && (!IsCommit(e) ==> (Late(pc) <==> Late(pc') || (pc'.Done? && !Losing(pc') && !start.Get?)))
  {
    hide IsFinite, ModelShape, NextVersion, StoreStep;
  }

  lemma OtherStep(s: State, l: Label, t: Tid)
    requires Shape(s) && Enabled(s, l) && l != Thread(t) && t in s.threads && !s.threads[t].Done?
    ensures t in Next(s, l).threads && Next(s, l).threads[t] == s.threads[t]
  {
  }

  // -------------------------------------------------------------- whole calls

  ghost predicate RefusedBefore(ss: seq<State>, ls: seq<Label>, j: nat, n: nat, t: Tid) {
    exists i :: j < i < n && RefusedAt(ss, ls, i, t)
  }

  ghost predicate RefusedAt(ss: seq<State>, ls: seq<Label>, i: nat, t: Tid) {
    && i < |ls| < |ss| && ls[i] == Thread(t) && Shape(ss[i]) && t in ss[i].threads && Refused(ss[i], t)
  }

  /** Operation i of the run is thread t's own and is a commit. */
  ghost predicate CommitAt(ss: seq<State>, ls: seq<Label>, i: nat, t: Tid, e: Event) {
    && i < |ls| < |ss| && ls[i] == Thread(t) && Shape(ss[i]) && t in ss[i].threads
    && IsCommit(e) && EventOf(ss[i], ls[i]) == e
  }

  ghost predicate NoCommit(ss: seq<State>, ls: seq<Label>, j: nat, n: nat, t: Tid) {
    forall i, e | j < i < n :: !CommitAt(ss, ls, i, t, e)
  }

  /** Exactly one own operation between j and n is a commit, and it commits e. */
  ghost predicate OneCommit(ss: seq<State>, ls: seq<Label>, j: nat, n: nat, t: Tid, e: Event) {
    exists c :: j < c < n && CommitAt(ss, ls, c, t, e)
                && forall i, f | j < i < n && i != c :: !CommitAt(ss, ls, i, t, f)
  }

  ghost predicate LeftData(ss: seq<State>, ls: seq<Label>, j: nat, n: nat, t: Tid)
    requires n < |ss| && n <= |ls|
  {
    forall i | j < i < n && ls[i] == Thread(t) :: ss[i + 1].data == ss[i].data
  }

  ghost predicate SoFar(ss: seq<State>, ls: seq<Label>, j: nat, n: nat, t: Tid)
    requires Under(ss, ls, j, n, t)
  {
    var pc, start := ss[n].threads[t], ls[j].pc;
    && Serves(start, pc)
    && (Losing(pc) <==> RefusedBefore(ss, ls, j, n, t))
    && (Winning(pc) || (pc.Done? && !Losing(pc) && !start.Get?) || LeftData(ss, ls, j, n, t))
    && (if Late(pc) || (pc.Done? && !Losing(pc) && !start.Get?) then OneCommit(ss, ls, j, n, t, Wanted(start))
        else NoCommit(ss, ls, j, n, t))
  }

  lemma RefusedMore(ss: seq<State>, ls: seq<Label>, j: nat, n: nat, t: Tid)
    requires j < n < |ls| < |ss|
    ensures RefusedBefore(ss, ls, j, n + 1, t) <==> RefusedBefore(ss, ls, j, n, t) || RefusedAt(ss, ls, n, t)
  {
  }

  lemma CommitsMore(ss: seq<State>, ls: seq<Label>, j: nat, n: nat, t: Tid, e: Event)
    requires j < n < |ls| < |ss|
    ensures NoCommit(ss, ls, j, n, t) && CommitAt(ss, ls, n, t, e) ==> OneCommit(ss, ls, j, n + 1, t, e)
    ensures (forall f :: !CommitAt(ss, ls, n, t, f)) && OneCommit(ss, ls, j, n, t, e)
            ==> OneCommit(ss, ls, j, n + 1, t, e)
    ensures (forall f :: !CommitAt(ss, ls, n, t, f)) && NoCommit(ss, ls, j, n, t) ==> NoCommit(ss, ls, j, n + 1, t)
  {
    hide CommitAt;
    if (forall f :: !CommitAt(ss, ls, n, t, f)) && OneCommit(ss, ls, j, n, t, e) {
      var c :| j < c < n && CommitAt(ss, ls, c, t, e)
               && forall i, f | j < i < n && i != c :: !CommitAt(ss, ls, i, t, f);
      assert forall i, f | j < i < n + 1 && i != c :: !CommitAt(ss, ls, i, t, f);
    }
    if NoCommit(ss, ls, j, n, t) && CommitAt(ss, ls, n, t, e) {
      assert forall i, f | j < i < n + 1 && i != n :: !CommitAt(ss, ls, i, t, f);
    }
  }

  lemma LeftMore(ss: seq<State>, ls: seq<Label>, j: nat, n: nat, t: Tid)
    requires j < n < |ls| && n + 1 < |ss| && LeftData(ss, ls, j, n, t)
    ensures (ls[n] == Thread(t) ==> ss[n + 1].data == ss[n].data) ==> LeftData(ss, ls, j, n + 1, t)
  {
  }

  lemma RefusedHere(ss: seq<State>, ls: seq<Label>, n: nat, t: Tid)
    requires n < |ls| < |ss| && Shape(ss[n]) && t in ss[n].threads
    ensures RefusedAt(ss, ls, n, t) <==> ls[n] == Thread(t) && Refused(ss[n], t)
    ensures forall e :: CommitAt(ss, ls, n, t, e) <==> ls[n] == Thread(t) && IsCommit(e) && EventOf(ss[n], ls[n]) == e
  {
  }

  lemma SoFarStep(ss: seq<State>, ls: seq<Label>, j: nat, n: nat, t: Tid)
    requires n < |ls| && Under(ss, ls, j, n, t) && SoFar(ss, ls, j, n, t) && !ss[n].threads[t].Done?
    requires Shape(ss[n]) && Enabled(ss[n], ls[n]) && ss[n + 1] == Next(ss[n], ls[n])
    ensures Under(ss, ls, j, n + 1, t) && SoFar(ss, ls, j, n + 1, t)
  {
    hide Next, Enabled, EventOf, Serves, Refused, RefusedAt, CommitAt, OneCommit, NoCommit, RefusedBefore, Shape,
         LeftData;
    var start := ls[j].pc;
    RefusedHere(ss, ls, n, t);
    RefusedMore(ss, ls, j, n, t);
    CommitsMore(ss, ls, j, n, t, Wanted(start));
    if LeftData(ss, ls, j, n, t) {
      LeftMore(ss, ls, j, n, t);
    }
    if ls[n] == Thread(t) {
      OwnStep(ss[n], t, start);
      OwnCommit(ss[n], t, start);
    } else {
      OtherStep(ss[n], ls[n], t);
    }
  }

  lemma SoFarAtStart(ss: seq<State>, ls: seq<Label>, j: nat, t: Tid)
    requires j < |ls| < |ss| && ls[j].Begin? && ls[j].t == t
    requires Shape(ss[j]) && Enabled(ss[j], ls[j]) && ss[j + 1] == Next(ss[j], ls[j])
    ensures Under(ss, ls, j, j + 1, t) && SoFar(ss, ls, j, j + 1, t)
  {
  }

  lemma {:induction false} CallHistory(m: Model, ss: seq<State>, ls: seq<Label>, specs: seq<Spec>, j: nat, k: nat,
        t: Tid, n: nat)
    requires IsRun(m, ss, ls) && Mirrors(m, ss, ls, specs) && Call(ss, ls, j, k, t) && j < n <= k + 1
    ensures Under(ss, ls, j, n, t) && SoFar(ss, ls, j, n, t)
    decreases n
  {
    hide IsRun, Mirrors, Next, Enabled, SoFar, Shape;
    var p := n - 1;
    RunStep(m, ss, ls, p);
    if p == j {
      SoFarAtStart(ss, ls, j, t);
    } else {
      CallHistory(m, ss, ls, specs, j, k, t, p);
      SoFarStep(ss, ls, j, p, t);
    }
  }

  lemma WholeCall(m: Model, ss: seq<State>, ls: seq<Label>, j: nat, k: nat, t: Tid)
    requires IsRun(m, ss, ls) && Unwrapped(ss) && Call(ss, ls, j, k, t)
    ensures Rejected(ss[k + 1].threads[t]) <==> RefusedBefore(ss, ls, j, k + 1, t)
    ensures Rejected(ss[k + 1].threads[t]) ==> LeftData(ss, ls, j, k + 1, t) && NoCommit(ss, ls, j, k + 1, t)
    ensures !Rejected(ss[k + 1].threads[t]) && (ls[j].pc.SetTry? || ls[j].pc.RouteTry?)
            ==> OneCommit(ss, ls, j, k + 1, t, Wanted(ls[j].pc))
  {
    hide IsRun, Unwrapped, Mirrors, Serves, RefusedBefore, LeftData, NoCommit, OneCommit;
    var specs := RunRefines(m, ss, ls);
    CallHistory(m, ss, ls, specs, j, k, t, k + 1);
  }

  /** A call is turned away exactly if one of its own operations found the lock taken, its version stale, or, for a
      param_get, its slot busy three times. */
  lemma RejectedExactlyForCause(m: Model, ss: seq<State>, ls: seq<Label>, j: nat, k: nat, t: Tid)
    requires IsRun(m, ss, ls) && Unwrapped(ss) && Call(ss, ls, j, k, t)
    ensures Rejected(ss[k + 1].threads[t]) <==> exists i :: j < i <= k && RefusedAt(ss, ls, i, t)
  {
    hide IsRun, Unwrapped, RefusedAt;
    WholeCall(m, ss, ls, j, k, t);
  }

  /** A call that is turned away changed nothing staged, no flag and no version by any of its operations, and committed
      nothing. */
  lemma RejectionLeavesNoTrace(m: Model, ss: seq<State>, ls: seq<Label>, j: nat, k: nat, t: Tid)
    requires IsRun(m, ss, ls) && Unwrapped(ss) && Call(ss, ls, j, k, t) && Rejected(ss[k + 1].threads[t])
    ensures forall i | j < i <= k && ls[i] == Thread(t) :: ss[i + 1].data == ss[i].data
    ensures forall i, e | j < i <= k :: !CommitAt(ss, ls, i, t, e)
  {
    hide IsRun, Unwrapped, CommitAt;
    WholeCall(m, ss, ls, j, k, t);
  }

  /** A param_set or trajectory_set that is accepted takes effect exactly once between request and reply, and what it
      commits is its own request. */
  lemma AcceptedTakesEffectOnce(m: Model, ss: seq<State>, ls: seq<Label>, j: nat, k: nat, t: Tid)
    requires IsRun(m, ss, ls) && Unwrapped(ss) && Call(ss, ls, j, k, t) && !Rejected(ss[k + 1].threads[t])
    requires ls[j].pc.SetTry? || ls[j].pc.RouteTry?
    ensures exists c :: j < c <= k && CommitAt(ss, ls, c, t, Wanted(ls[j].pc))
                        && forall i, e | j < i <= k && i != c :: !CommitAt(ss, ls, i, t, e)
  {
    hide IsRun, Unwrapped, CommitAt;
    WholeCall(m, ss, ls, j, k, t);
    var e := Wanted(ls[j].pc);
    var c :| j < c < k + 1 && CommitAt(ss, ls, c, t, e)
             && forall i, f | j < i < k + 1 && i != c :: !CommitAt(ss, ls, i, t, f);
  }
}
