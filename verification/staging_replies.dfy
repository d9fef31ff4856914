/** What the handlers reply, whatever else runs: code, detail, version and value of every reply. */
module StagingReplies {
  import opened Words
  import opened AtomicDouble
  import opened AtomicStaging
  import opened StagingSystem
  import opened StagingInvariant
  import opened StagingTheorems
  import opened StagingCalls

  /** Operation i of the run is thread t's test-and-set of the lock, and finds it taken. */
  ghost predicate MetLock(ss: seq<State>, ls: seq<Label>, i: nat, t: Tid) {
    && i < |ls| < |ss| && ls[i] == Thread(t) && t in ss[i].threads && ss[i].lock.Some?
    && (ss[i].threads[t].SetTry? || ss[i].threads[t].RouteTry?)
  }

  ghost predicate MetLockBefore(ss: seq<State>, ls: seq<Label>, j: nat, n: nat, t: Tid) {
    exists i :: j < i < n && MetLock(ss, ls, i, t)
  }

  /** param_set replies with the number of its request: detail -4 exactly if it met the lock, else 0. */
  predicate SetReply(value: nat, metLock: bool, reply: Reply) {
    && reply.value == value
    && (if metLock then reply.code.TemporarilyRejected? && reply.detail == -4
        else reply.code.Accepted? && reply.detail == 0)
  }

  /** trajectory_set replies with the version in force: detail -5 exactly if it met the lock, -4 only if its request
      names another version, else 0. */
  predicate RouteReply(expected: nat, metLock: bool, version: nat, reply: Reply) {
    && reply.version == version && reply.value == 0
    && (|| (metLock && reply.code.TemporarilyRejected? && reply.detail == -5)
        || (!metLock && reply.code.TemporarilyRejected? && reply.detail == -4
            && expected != 0 && expected != version)
        || (!metLock && reply.code.Accepted? && reply.detail == 0))
  }

  /** param_get replies with the number in its slot and detail 0, or with detail -3 and 0. */
  predicate GetReply(live: Cell, reply: Reply) {
    || (reply.code.Accepted? && reply.detail == 0 && live.count % 2 == 0 && reply.value == live.Value())
    || (reply.code.TemporarilyRejected? && reply.detail == -3 && reply.value == 0)
  }

  /** Where a call stands that started with `start`, and whether it met the lock. */
  predicate Standing(start: Pc, pc: Pc, metLock: bool) {
    match pc
    case RouteBusy => metLock
    case RouteStale(v) => !metLock && start.RouteTry? && start.request.expected != 0 && start.request.expected != v
    case Done(_) => true
    case _ => !metLock
  }

  /** The reply that ends a call. */
  ghost predicate Replies(d: Data, start: Pc, metLock: bool, reply: Reply)
    requires DataShape(d) && Entry(start)
  {
    && (start.SetTry? ==> SetReply(start.value, metLock, reply))
    && (start.RouteTry? ==> RouteReply(start.request.expected, metLock, d.version, reply))
    && (start.Get? ==> GetReply(d.live[start.index], reply))
  }

  lemma OwnStanding(s: State, t: Tid, start: Pc, metLock: bool)
    requires Shape(s) && Enabled(s, Thread(t)) && Serves(start, s.threads[t]) && Standing(start, s.threads[t], metLock)
    ensures t in Next(s, Thread(t)).threads
    ensures var pc := s.threads[t];
            Standing(start, Next(s, Thread(t)).threads[t], metLock || (s.lock.Some? && (pc.SetTry? || pc.RouteTry?)))
  {
    hide IsFinite, ModelShape, NextVersion, StoreStep;
  }

  lemma LastGet(s: State, a: Spec, t: Tid, start: Pc, metLock: bool)
    requires Inv(s, a) && NoWraps(s) && Entry(start) && Enabled(s, Thread(t)) && s.threads[t].Get?
    requires Serves(start, s.threads[t])
    ensures t in Next(s, Thread(t)).threads
    ensures var pc' := Next(s, Thread(t)).threads[t];
            pc'.Done? ==> Replies(s.data, start, metLock, pc'.reply)
  {
    LoadAdvances(s.data.live[s.threads[t].index], s.threads[t].load);
  }

  lemma LastOther(s: State, t: Tid, start: Pc, metLock: bool)
    requires Shape(s) && Entry(start) && Enabled(s, Thread(t)) && !s.threads[t].Get?
    requires Serves(start, s.threads[t]) && Standing(start, s.threads[t], metLock)
    requires s.threads[t].RouteStale? || s.threads[t].RouteUnlock? ==> s.threads[t].version == s.data.version
    ensures t in Next(s, Thread(t)).threads
    ensures var pc, pc' := s.threads[t], Next(s, Thread(t)).threads[t];
            pc'.Done? ==>
              Replies(s.data, start, metLock || (s.lock.Some? && (pc.SetTry? || pc.RouteTry?)), pc'.reply)
  {
    hide IsFinite, ModelShape, NextVersion, StoreStep;
  }

  lemma LastStep(s: State, a: Spec, t: Tid, start: Pc, metLock: bool)
    requires Inv(s, a) && NoWraps(s) && Entry(start) && Enabled(s, Thread(t))
    requires Serves(start, s.threads[t]) && Standing(start, s.threads[t], metLock)
    ensures t in Next(s, Thread(t)).threads
    ensures var pc, pc' := s.threads[t], Next(s, Thread(t)).threads[t];
            pc'.Done? ==>
              Replies(s.data, start, metLock || (s.lock.Some? && (pc.SetTry? || pc.RouteTry?)), pc'.reply)
  {
    hide Next, Serves, Standing, Replies, Entry, Shape;
    HolderIs(s, a, t);
    if s.threads[t].Get? {
      LastGet(s, a, t, start, metLock);
    } else {
      LastOther(s, t, start, metLock);
    }
  }

  lemma HolderIs(s: State, a: Spec, t: Tid)
    requires Inv(s, a) && t in s.threads
    ensures s.threads[t].RouteStale? || s.threads[t].RouteUnlock? ==> s.threads[t].version == s.data.version
    ensures Shape(s)
  {
    if s.threads[t].RouteStale? || s.threads[t].RouteUnlock? {
      assert Holder(s) == s.threads[t];
    }
  }

  lemma {:induction false} StandingAt(m: Model, ss: seq<State>, ls: seq<Label>, specs: seq<Spec>, j: nat, k: nat,
        t: Tid, n: nat)
    requires IsRun(m, ss, ls) && Mirrors(m, ss, ls, specs) && Call(ss, ls, j, k, t) && j < n <= k
    ensures t in ss[n].threads && Standing(ls[j].pc, ss[n].threads[t], MetLockBefore(ss, ls, j, n, t))
    decreases n
  {
    hide IsRun, Mirrors, Next, Enabled, Shape, Standing, Serves, SoFar;
    var p := n - 1;
    RunStep(m, ss, ls, p);
    if p == j {
      StandsAtEntry(ss[j], ls[j]);
      assert !MetLockBefore(ss, ls, j, n, t);
    } else {
      StandingAt(m, ss, ls, specs, j, k, t, p);
      CallHistory(m, ss, ls, specs, j, k, t, p);
      ServesAt(ss, ls, j, p, t);
      MetLockMore(ss, ls, j, p, t);
      if ls[p] == Thread(t) {
        OwnStanding(ss[p], t, ls[j].pc, MetLockBefore(ss, ls, j, p, t));
      } else {
        OtherStep(ss[p], ls[p], t);
      }
    }
  }

  lemma ServesAt(ss: seq<State>, ls: seq<Label>, j: nat, n: nat, t: Tid)
    requires Under(ss, ls, j, n, t) && SoFar(ss, ls, j, n, t)
    ensures Serves(ls[j].pc, ss[n].threads[t])
  {
  }

  lemma StandsAtEntry(s: State, l: Label)
    requires Shape(s) && Enabled(s, l) && l.Begin?
    ensures Entry(l.pc)
    ensures l.t in Next(s, l).threads && Standing(l.pc, Next(s, l).threads[l.t], false)
  {
  }

  lemma MetLockMore(ss: seq<State>, ls: seq<Label>, j: nat, n: nat, t: Tid)
    requires j < n < |ls| < |ss|
    ensures MetLockBefore(ss, ls, j, n + 1, t) <==> MetLockBefore(ss, ls, j, n, t) || MetLock(ss, ls, n, t)
  {
  }

  /** In every run, each call ends with the reply its request and the state call for. */
  lemma EveryReply(m: Model, ss: seq<State>, ls: seq<Label>, j: nat, k: nat, t: Tid)
    requires IsRun(m, ss, ls) && Unwrapped(ss) && Call(ss, ls, j, k, t)
    ensures Shape(ss[k]) && Entry(ls[j].pc)
    ensures var start, reply, d := ls[j].pc, ss[k + 1].threads[t].reply, ss[k].data;
            var metLock := exists i :: j < i <= k && MetLock(ss, ls, i, t);
            && (start.SetTry? ==> SetReply(start.value, metLock, reply))
            && (start.RouteTry? ==> RouteReply(start.request.expected, metLock, d.version, reply))
            && (start.Get? ==> GetReply(d.live[start.index], reply))
  {
    assert ModelShape(m);
    hide IsRun, Next, Enabled, Standing, Serves, SoFar, Inv, MetLock, SetReply, RouteReply, GetReply, ModelShape;
    var specs := RunRefines(m, ss, ls);
    RunStep(m, ss, ls, j);
    StandsAtEntry(ss[j], ls[j]);
    RunStep(m, ss, ls, k);
    InvAt(m, ss, ls, specs, k);
    StandingAt(m, ss, ls, specs, j, k, t, k);
    CallHistory(m, ss, ls, specs, j, k, t, k);
    ServesAt(ss, ls, j, k, t);
    MetLockMore(ss, ls, j, k, t);
    LockMet(ss, ls, k, t);
    LastStep(ss[k], specs[k], t, ls[j].pc, MetLockBefore(ss, ls, j, k, t));
    assert MetLockBefore(ss, ls, j, k + 1, t) <==> exists i :: j < i <= k && MetLock(ss, ls, i, t);
  }

  lemma LockMet(ss: seq<State>, ls: seq<Label>, k: nat, t: Tid)
    requires k < |ls| < |ss| && ls[k] == Thread(t) && t in ss[k].threads
    ensures MetLock(ss, ls, k, t)
            <==> ss[k].lock.Some? && (ss[k].threads[t].SetTry? || ss[k].threads[t].RouteTry?)
  {
  }
}
