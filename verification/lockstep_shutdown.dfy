/** How the three parties end: the runner stores terminate, then one more input number, and leaves. */
module BridgedShutdown {
  import opened Words
  import opened Lockstep
  import opened BridgedLockstep

  datatype Stage = Open | Terminated | Gone

  datatype Closing = Closing(at: Bridged, stage: Stage)

  datatype Act =
    | Op(l: Label)     // an operation of the three parties
    | Terminate        // the runner stores terminate
    | Bump             // the runner adds one to the input number

  /** The runner shuts down from outside an exchange, after its last one or after giving up. */
  predicate Can(c: Closing, x: Act)
    requires BridgedShape(c.at)
  {
    match x
    case Op(l) => Enabled(c.at, l) && (c.stage.Open? || !(l.Start? || l.RunnerOp? || l.Quit?))
    case Terminate => c.stage.Open? && (c.at.runner.pc.Idle? || c.at.runner.pc.Failed?)
    case Bump => c.stage.Terminated?
  }

  function Do(c: Closing, x: Act): (c': Closing)
    requires BridgedShape(c.at) && Can(c, x)
    ensures BridgedShape(c'.at)
  {
    match x
    case Op(l) => c.(at := Next(c.at, l))
    case Terminate => Closing(c.at.(up := c.at.up.(terminate := true)), Terminated)
    case Bump => Closing(c.at.(up := c.at.up.(input := Increment(c.at.up.input))), Gone)
  }

  ghost predicate Acts(c: Closing, x: Act, c': Closing) {
    BridgedShape(c.at) && Can(c, x) && c' == Do(c, x)
  }

  /** A run of the three parties through shutdown and beyond; terminate is the act at index t. */
  ghost predicate IsClosingRun(cs: seq<Closing>, xs: seq<Act>, t: nat) {
    && |cs| == |xs| + 1 && t < |xs| && cs[0] == Closing(Begin(), Open) && xs[t] == Terminate
    && forall k | 0 <= k < |xs| :: Acts(cs[k], xs[k], cs[k + 1])
  }

  // ------------------------------------------------------ up to terminate

  function StatesOf(cs: seq<Closing>): seq<Bridged> {
    seq(|cs|, k requires 0 <= k < |cs| => cs[k].at)
  }

  function LabelsOf(xs: seq<Act>): (ls: seq<Label>)
    requires forall k | 0 <= k < |xs| :: xs[k].Op?
    ensures |ls| == |xs|
  {
    seq(|xs|, k requires 0 <= k < |xs| => xs[k].l)
  }

  lemma {:induction false} StillOpen(cs: seq<Closing>, xs: seq<Act>, t: nat, k: nat)
    requires IsClosingRun(cs, xs, t) && k <= t
    ensures cs[k].stage.Open? && forall n | 0 <= n < k :: xs[n].Op?
    decreases t - k
  {
    if k == t {
      assert Acts(cs[t], xs[t], cs[t + 1]);
      OpenBefore(cs, xs, t, t);
    } else {
      StillOpen(cs, xs, t, k + 1);
      assert Acts(cs[k], xs[k], cs[k + 1]);
    }
  }

  lemma {:induction false} OpenBefore(cs: seq<Closing>, xs: seq<Act>, t: nat, k: nat)
    requires IsClosingRun(cs, xs, t) && k <= t && cs[k].stage.Open?
    ensures forall n | 0 <= n < k :: xs[n].Op?
  {
    if k > 0 {
      assert Acts(cs[k - 1], xs[k - 1], cs[k - 1 + 1]);
      OpenBefore(cs, xs, t, k - 1);
    }
  }

  /** Up to terminate the run is one of those the transparency theorems are about. */
  lemma OpenPart(cs: seq<Closing>, xs: seq<Act>, t: nat)
    requires IsClosingRun(cs, xs, t)
    ensures forall n | 0 <= n < t :: xs[n].Op?
    ensures IsRun(StatesOf(cs[..t + 1]), LabelsOf(xs[..t]))
  {
    StillOpen(cs, xs, t, t);
    var ss, ls := StatesOf(cs[..t + 1]), LabelsOf(xs[..t]);
    forall k | 0 <= k < |ls| ensures Moves(ss[k], ls[k], ss[k + 1]) {
      assert Acts(cs[k], xs[k], cs[k + 1]);
    }
  }

  lemma AtTerminate(cs: seq<Closing>, xs: seq<Act>, t: nat)
    requires IsClosingRun(cs, xs, t)
    ensures var s := cs[t].at;
            && Inv(s) && D.Inv(Seen(s)) && (s.runner.pc.Idle? || s.runner.pc.Failed?)
            && cs[t + 1] == Closing(s.(up := s.up.(terminate := true)), Terminated)
            && (Settled(s) && s.firmware.handled != [] ==>
                  s.firmware.handled[|s.firmware.handled| - 1].odometry == s.up.odometry)
  {
    hide Inv, D.Inv, Next, Enabled;
    OpenPart(cs, xs, t);
    var ss, ls := StatesOf(cs[..t + 1]), LabelsOf(xs[..t]);
    RunInv(ss, ls, t);
    BridgeIsTransparent(ss, ls);
    D.RunHoldsLast(Shadow(ss), t);
    assert Acts(cs[t], xs[t], cs[t + 1]);
  }

  // ------------------------------------------------------- after terminate

  /** The exchanges handled since terminate: none, or one of odometry o. */
  predicate OneMore(handled: seq<Exchange>, before: seq<Exchange>, o: seq<Byte>) {
    || handled == before
    || (|handled| == |before| + 1 && handled[..|before|] == before && handled[|before|].odometry == o)
  }

  /** Nothing is under way downstream. */
  ghost predicate DownIdle(s: Bridged) {
    s.down.input == s.down.response == s.firmware.seen && s.firmware.pc.Waiting?
  }

  /** The firmware has, or is to find, request n with odometry o, and has not answered it. */
  ghost predicate DownBusy(s: Bridged, n: Word, o: seq<Byte>) {
    && s.down.input == n != s.down.response && s.down.odometry == o
    && match s.firmware.pc
       case Waiting => s.firmware.seen == s.down.response
       case Reading(got) => s.firmware.seen == n && got <= o
       case Computing(p) => s.firmware.seen == n && p == o
       case Writing(p, _, _) => s.firmware.seen == n && p == o
       case Responding(p, _) => s.firmware.seen == n && p == o
  }

  /** What holds from terminate on; `before` is what had been handled by then, o the odometry last posted. */
  ghost predicate ClosingInv(s: Bridged, before: seq<Exchange>, o: seq<Byte>) {
    var b := s.bridge;
    && BridgedShape(s) && s.up.terminate && s.up.odometry == o && IsOdometry(o)
    && (b.pc.Stopped? <==> s.down.terminate)
    && OneMore(s.firmware.handled, before, o)
    && match b.pc
       case Joining => DownIdle(s)
       case Gating => DownIdle(s)
       case Listening => DownIdle(s) && b.completed == s.down.input && s.firmware.handled == before
       case Taking(got) => DownIdle(s) && b.sequence != s.down.input && s.firmware.handled == before && got <= o
       case Passing(p, j) =>
         DownIdle(s) && b.sequence != s.down.input && s.firmware.handled == before
         && p == o && o[..j] == s.down.odometry[..j]
       case Forwarding =>
         DownIdle(s) && b.sequence != s.down.input && s.firmware.handled == before && s.down.odometry == o
       case Awaiting =>
         s.down.input == b.sequence
         && (DownIdle(s) || (DownBusy(s, b.sequence, o) && s.firmware.handled == before))
       case Collecting(_) => DownIdle(s)
       case Returning(_, _) => DownIdle(s)
       case Finishing => DownIdle(s)
       case Stopped => DownIdle(s) || (DownBusy(s, s.down.input, o) && s.firmware.handled == before)
  }

  lemma ClosingStarts(s: Bridged)
    requires Inv(s) && D.Inv(Seen(s)) && (s.runner.pc.Idle? || s.runner.pc.Failed?)
    ensures ClosingInv(s.(up := s.up.(terminate := true)), s.firmware.handled, s.up.odometry)
  {
  }

  lemma ClosingStep(c: Closing, x: Act, before: seq<Exchange>, o: seq<Byte>)
    requires ClosingInv(c.at, before, o) && !c.stage.Open? && Can(c, x)
    ensures ClosingInv(Do(c, x).at, before, o) && !Do(c, x).stage.Open?
  {
  }

  lemma {:induction false} ClosingHolds(cs: seq<Closing>, xs: seq<Act>, t: nat, k: nat)
    requires IsClosingRun(cs, xs, t) && t < k <= |xs|
    ensures ClosingInv(cs[k].at, cs[t].at.firmware.handled, cs[t].at.up.odometry) && !cs[k].stage.Open?
    decreases k
  {
    hide ClosingInv, Inv, D.Inv, Can, Do, Settled;
    AtTerminate(cs, xs, t);
    if k == t + 1 {
      ClosingStarts(cs[t].at);
    } else {
      ClosingHolds(cs, xs, t, k - 1);
      assert Acts(cs[k - 1], xs[k - 1], cs[k - 1 + 1]);
      ClosingStep(cs[k - 1], xs[k - 1], cs[t].at.firmware.handled, cs[t].at.up.odometry);
    }
  }

  /** Whatever was under way, after terminate at most one more exchange is handled, with the odometry posted last;
      and if nothing was under way, that is the odometry of the exchange before. */
  lemma AtMostOneMore(cs: seq<Closing>, xs: seq<Act>, t: nat, k: nat)
    requires IsClosingRun(cs, xs, t) && t < k <= |xs|
    ensures var s, was := cs[k].at, cs[t].at;
            && OneMore(s.firmware.handled, was.firmware.handled, was.up.odometry)
            && (Settled(was) && was.firmware.handled != [] ==>
                  was.firmware.handled[|was.firmware.handled| - 1].odometry == was.up.odometry)
  {
    hide Inv, D.Inv;
    AtTerminate(cs, xs, t);
    ClosingHolds(cs, xs, t, k);
  }

  // -------------------------------------------------------------- the replay

  /** Shutdown found nothing under way and the runner has not bumped yet; n is the last input number. */
  ghost predicate BeforeBump(s: Bridged, n: Word, before: seq<Exchange>) {
    && DownIdle(s) && s.up.terminate && s.up.input == n == s.down.input && s.firmware.handled == before
    && (s.bridge.pc.Joining? || s.bridge.pc.Gating? || s.bridge.pc.Listening? || s.bridge.pc.Stopped?)
    && (s.bridge.pc.Listening? ==> s.bridge.completed == n)
  }

  /** The bridge is past the point where it could see the bump. */
  ghost predicate NoReplay(s: Bridged, n: Word, before: seq<Exchange>) {
    && DownIdle(s) && s.up.terminate && s.up.input != n == s.down.input && s.firmware.handled == before
    && (s.bridge.pc.Joining? || s.bridge.pc.Gating? || s.bridge.pc.Stopped?)
  }

  /** The bridge saw the bump, or is about to. */
  ghost predicate Replay(s: Bridged, n: Word, before: seq<Exchange>) {
    var b, m := s.bridge, s.up.input;
    && s.up.terminate && m != n
    && match b.pc
       case Joining => false
       case Listening => b.completed == n == s.down.input
       case Taking(_) => b.sequence == m && s.down.input == n
       case Passing(_, _) => b.sequence == m && s.down.input == n
       case Forwarding => b.sequence == m && s.down.input == n
       case Awaiting => b.sequence == m && s.down.input == m && (DownIdle(s) ==> |s.firmware.handled| == |before| + 1)
       case Stopped => s.down.input == m && (DownIdle(s) ==> |s.firmware.handled| == |before| + 1)
       case _ => s.down.input == m && |s.firmware.handled| == |before| + 1
  }

  lemma BeforeBumpStep(c: Closing, x: Act, n: Word, before: seq<Exchange>, o: seq<Byte>)
    requires ClosingInv(c.at, before, o) && !c.stage.Open? && Can(c, x) && BeforeBump(c.at, n, before)
    ensures !x.Bump? ==> BeforeBump(Do(c, x).at, n, before)
    ensures x.Bump? && c.at.bridge.pc.Listening? ==> Replay(Do(c, x).at, n, before)
    ensures x.Bump? && !c.at.bridge.pc.Listening? ==> NoReplay(Do(c, x).at, n, before)
  {
  }

  lemma AfterBumpStep(c: Closing, x: Act, n: Word, before: seq<Exchange>, o: seq<Byte>)
    requires ClosingInv(c.at, before, o) && c.stage.Gone? && Can(c, x)
    ensures Do(c, x).stage.Gone?
    ensures NoReplay(c.at, n, before) ==> NoReplay(Do(c, x).at, n, before)
    ensures Replay(c.at, n, before) ==> Replay(Do(c, x).at, n, before)
  {
  }

  lemma {:induction false} HoldsBeforeBump(cs: seq<Closing>, xs: seq<Act>, t: nat, u: nat, k: nat)
    requires IsClosingRun(cs, xs, t) && t < k <= u < |xs| && xs[u] == Bump && Settled(cs[t].at)
    ensures BeforeBump(cs[k].at, cs[t].at.up.input, cs[t].at.firmware.handled) && cs[k].stage.Terminated?
    decreases k
  {
    hide ClosingInv, Inv, D.Inv, Can, Do;
    var was := cs[t].at;
    if k == t + 1 {
      AtTerminate(cs, xs, t);
      RestAtTerminate(was);
    } else {
      HoldsBeforeBump(cs, xs, t, u, k - 1);
      ClosingHolds(cs, xs, t, k - 1);
      hide BeforeBump;
      assert Acts(cs[k - 1], xs[k - 1], cs[k - 1 + 1]);
      BeforeBumpStep(cs[k - 1], xs[k - 1], was.up.input, was.firmware.handled, was.up.odometry);
      BumpedOnce(cs, xs, t, k - 1, u);
    }
  }

  lemma RestAtTerminate(s: Bridged)
    requires Inv(s) && D.Inv(Seen(s)) && (s.runner.pc.Idle? || s.runner.pc.Failed?) && Settled(s)
    ensures BeforeBump(s.(up := s.up.(terminate := true)), s.up.input, s.firmware.handled)
  {
  }

  /** The runner bumps once: an act before the bump is no bump. */
  lemma {:induction false} BumpedOnce(cs: seq<Closing>, xs: seq<Act>, t: nat, k: nat, u: nat)
    requires IsClosingRun(cs, xs, t) && k < u < |xs| && xs[u] == Bump && cs[k].stage.Terminated?
    ensures !xs[k].Bump? && cs[k + 1].stage.Terminated?
  {
    assert Acts(cs[k], xs[k], cs[k + 1]) && Acts(cs[u], xs[u], cs[u + 1]);
    if xs[k].Bump? {
      GoneStays(cs, xs, t, k + 1, u);
    }
  }

  lemma {:induction false} GoneStays(cs: seq<Closing>, xs: seq<Act>, t: nat, j: nat, k: nat)
    requires IsClosingRun(cs, xs, t) && j <= k <= |xs| && cs[j].stage.Gone?
    ensures cs[k].stage.Gone?
    decreases k
  {
    if j < k {
      GoneStays(cs, xs, t, j, k - 1);
      assert Acts(cs[k - 1], xs[k - 1], cs[k - 1 + 1]);
    }
  }

  lemma {:induction false} HoldsAfterBump(cs: seq<Closing>, xs: seq<Act>, t: nat, u: nat, k: nat)
    requires IsClosingRun(cs, xs, t) && t < u < k <= |xs| && xs[u] == Bump && Settled(cs[t].at)
    ensures cs[k].stage.Gone?
    ensures if cs[u].at.bridge.pc.Listening? then Replay(cs[k].at, cs[t].at.up.input, cs[t].at.firmware.handled)
            else NoReplay(cs[k].at, cs[t].at.up.input, cs[t].at.firmware.handled)
    decreases k
  {
    hide ClosingInv, Inv, D.Inv, Settled, Replay, NoReplay, BeforeBump;
    var was := cs[t].at;
    var n, h, o := was.up.input, was.firmware.handled, was.up.odometry;
    ClosingHolds(cs, xs, t, k - 1);
    assert Acts(cs[k - 1], xs[k - 1], cs[k - 1 + 1]);
    if k == u + 1 {
      HoldsBeforeBump(cs, xs, t, u, u);
      BeforeBumpStep(cs[u], xs[u], n, h, o);
    } else {
      HoldsAfterBump(cs, xs, t, u, k - 1);
      AfterBumpStep(cs[k - 1], xs[k - 1], n, h, o);
    }
  }

  /** When nothing was under way at terminate, the bridge posts one more request to the firmware before it stops exactly
      if it is past its terminate check, with the input number still to read, when the bump is stored. */
  lemma ReplayExactlyWhenListening(cs: seq<Closing>, xs: seq<Act>, t: nat, u: nat, k: nat)
    requires IsClosingRun(cs, xs, t) && t < u < k <= |xs| && xs[u] == Bump && Settled(cs[t].at)
    requires cs[k].at.bridge.pc.Stopped?
    ensures cs[k].at.down.input != cs[t].at.down.input <==> cs[u].at.bridge.pc.Listening?
    ensures !cs[u].at.bridge.pc.Listening? ==> cs[k].at.firmware.handled == cs[t].at.firmware.handled
  {
    hide ClosingInv, Inv, D.Inv;
    HoldsAfterBump(cs, xs, t, u, k);
  }

  lemma CalmStep(c: Closing, x: Act, before: seq<Exchange>, o: seq<Byte>)
    requires ClosingInv(c.at, before, o) && !c.stage.Open? && Can(c, x) && x != Op(BridgeTimeout)
    requires c.at.bridge.pc.Stopped? ==> DownIdle(c.at)
    ensures Do(c, x).at.bridge.pc.Stopped? ==> DownIdle(Do(c, x).at)
  {
  }

  lemma {:induction false} StopsCalmly(cs: seq<Closing>, xs: seq<Act>, t: nat, k: nat)
    requires IsClosingRun(cs, xs, t) && t < k <= |xs| && Settled(cs[t].at)
    requires forall n | t < n < k :: xs[n] != Op(BridgeTimeout)
    ensures cs[k].at.bridge.pc.Stopped? ==> DownIdle(cs[k].at)
    decreases k
  {
    hide ClosingInv, Inv, D.Inv, Can, Do;
    if k == t + 1 {
      AtTerminate(cs, xs, t);
    } else {
      StopsCalmly(cs, xs, t, k - 1);
      ClosingHolds(cs, xs, t, k - 1);
      assert Acts(cs[k - 1], xs[k - 1], cs[k - 1 + 1]);
      CalmStep(cs[k - 1], xs[k - 1], cs[t].at.firmware.handled, cs[t].at.up.odometry);
    }
  }

  /** And unless the bridge times out, that request is handled: the firmware sees the last odometry a second time,
      once. */
  lemma ReplayIsHandledOnce(cs: seq<Closing>, xs: seq<Act>, t: nat, u: nat, k: nat)
    requires IsClosingRun(cs, xs, t) && t < u < k <= |xs| && xs[u] == Bump && Settled(cs[t].at)
    requires cs[k].at.bridge.pc.Stopped? && forall n | t < n < k :: xs[n] != Op(BridgeTimeout)
    ensures var h, h' := cs[t].at.firmware.handled, cs[k].at.firmware.handled;
            if cs[u].at.bridge.pc.Listening?
            then |h'| == |h| + 1 && h'[..|h|] == h && h'[|h|].odometry == cs[t].at.up.odometry
                 && (h != [] ==> h'[|h|].odometry == h[|h| - 1].odometry)
            else h' == h
  {
    hide ClosingInv, Inv, D.Inv;
    HoldsAfterBump(cs, xs, t, u, k);
    StopsCalmly(cs, xs, t, k);
    AtMostOneMore(cs, xs, t, k);
  }

  // ------------------------------------------------------------ and it stops

  /** The most operations the bridge still has before it stops, not counting polls for the firmware's answer. */
  function Left(b: Bridge): nat
    requires BridgeShape(b)
  {
    match b.pc
    case Stopped => 0
    case Gating => 1
    case Joining => 2
    case Finishing => 2
    case Returning(_, j) => 2 + REPLY_SIZE - j
    case Collecting(got) => 2 + 2 * REPLY_SIZE - |got|
    case Awaiting => 3 + 2 * REPLY_SIZE
    case Forwarding => 4 + 2 * REPLY_SIZE
    case Passing(_, j) => 4 + 2 * REPLY_SIZE + ODOMETRY_SIZE - j
    case Taking(got) => 4 + 2 * REPLY_SIZE + 2 * ODOMETRY_SIZE - |got|
    case Listening => 5 + 2 * REPLY_SIZE + 2 * ODOMETRY_SIZE
  }

  const STOP_BOUND := 5 + 2 * REPLY_SIZE + 2 * ODOMETRY_SIZE

  lemma BridgeWindsDown(c: Closing, x: Act, before: seq<Exchange>, o: seq<Byte>)
    requires ClosingInv(c.at, before, o) && !c.stage.Open? && Can(c, x)
    ensures var b, b' := c.at.bridge, Do(c, x).at.bridge;
            if b' == b then x == Op(BridgeOp) ==> b.pc.Stopped? || (b.pc.Awaiting? && c.at.down.response != b.sequence)
            else Left(b') < Left(b)
  {
  }

  /** Acts from i to j that moved the bridge on. */
  function Moved(cs: seq<Closing>, i: nat, j: nat): nat
    requires i <= j < |cs|
    decreases j
  {
    if i == j then 0 else Moved(cs, i, j - 1) + (if cs[j].at.bridge != cs[j - 1].at.bridge then 1 else 0)
  }

  /** After terminate the bridge moves on at most 341 times more, under any schedule; it stays where it is only at a
      poll for an answer that has not come, or stopped. */
  lemma {:induction false} BridgeStops(cs: seq<Closing>, xs: seq<Act>, t: nat, k: nat)
    requires IsClosingRun(cs, xs, t) && t < k <= |xs|
    ensures BridgeShape(cs[k].at.bridge) && Moved(cs, t + 1, k) + Left(cs[k].at.bridge) <= STOP_BOUND
    ensures k < |xs| && xs[k] == Op(BridgeOp) && cs[k + 1].at.bridge == cs[k].at.bridge
            ==> cs[k].at.bridge.pc.Stopped?
                || (cs[k].at.bridge.pc.Awaiting? && cs[k].at.down.response != cs[k].at.bridge.sequence)
    decreases k
  {
    hide Inv, D.Inv, Can, Do;
    ClosingHolds(cs, xs, t, k);
    if t + 1 < k {
      BridgeStops(cs, xs, t, k - 1);
      ClosingHolds(cs, xs, t, k - 1);
      hide ClosingInv;
      assert Acts(cs[k - 1], xs[k - 1], cs[k - 1 + 1]);
      BridgeWindsDown(cs[k - 1], xs[k - 1], cs[t].at.firmware.handled, cs[t].at.up.odometry);
    }
    if k < |xs| {
      assert Acts(cs[k], xs[k], cs[k + 1]);
      BridgeWindsDown(cs[k], xs[k], cs[t].at.firmware.handled, cs[t].at.up.odometry);
    }
  }

  /** The replay can happen: the bridge joins, passes its terminate check, and then the runner shuts down. */
  lemma ReplayHappens() returns (cs: seq<Closing>, xs: seq<Act>)
    ensures IsClosingRun(cs, xs, 2) && xs == [Op(BridgeOp), Op(BridgeOp), Terminate, Bump]
    ensures Settled(cs[2].at) && cs[3].at.bridge.pc.Listening?
  {
    xs := [Op(BridgeOp), Op(BridgeOp), Terminate, Bump];
    var c0 := Closing(Begin(), Open);
    var c1 := Do(c0, xs[0]);
    var c2 := Do(c1, xs[1]);
    var c3 := Do(c2, xs[2]);
    var c4 := Do(c3, xs[3]);
    cs := [c0, c1, c2, c3, c4];
    forall k | 0 <= k < |xs| ensures Acts(cs[k], xs[k], cs[k + 1]) {
    }
  }
}
