/** That exchanges complete: what each operation of runner and firmware brings nearer, and where it can only wait. */
module DirectProgress {
  import opened Lockstep
  import opened DirectLockstep

  /** Operations to answer one request: read it, compute, write the reply, respond. */
  const ANSWER := 1 + ODOMETRY_SIZE + 1 + REPLY_SIZE + 1

  /** Operations the firmware has before it, when memory m holds what it works for. */
  function FirmwareWork(m: Shared, f: Firmware): nat
    requires FirmwareShape(f)
  {
    match f.pc
    case Waiting => if !m.terminate && m.input != f.seen then ANSWER else 0
    case Reading(got) => ANSWER - 1 - |got|
    case Computing(_) => REPLY_SIZE + 2
    case Writing(_, _, j) => REPLY_SIZE + 1 - j
    case Responding(_, _) => 1
  }

  /** Operations the runner has before it, with those a request still to be posted brings to the others. */
  function RunnerWork(r: Runner, others: nat): nat
    requires RunnerShape(r)
  {
    match r.pc
    case Failed => 0
    case Idle => 1
    case Checking(_, _) => 2
    case Fetching(_, got) => 2 + REPLY_SIZE - |got|
    case Polling(_) => 3 + REPLY_SIZE
    case Bumping(_) => 4 + REPLY_SIZE + others
    case Posting(_, j) => 4 + REPLY_SIZE + others + ODOMETRY_SIZE - j
  }

  function Work(s: Direct): nat
    requires DirectShape(s)
  {
    RunnerWork(s.runner, ANSWER) + FirmwareWork(s.memory, s.firmware)
  }

  /** The party whose turn it is can only wait: it is between exchanges, polls for a number that has not come, or has a
      control cycle to compute. */
  predicate Waits(s: Direct, l: Label) {
    match l
    case RunnerOp =>
      var pc := s.runner.pc;
      pc.Idle? || pc.Failed? || (pc.Polling? && s.memory.response != s.runner.sequence)
    case FirmwareOp =>
      var pc := s.firmware.pc;
      pc.Computing? || (pc.Waiting? && s.memory.input == s.firmware.seen)
    case _ => false
  }

  /** An operation other than the start of an exchange brings its end nearer, or leaves everything as it is. */
  lemma StepProgress(s: Direct, l: Label)
    requires Inv(s) && Enabled(s, l) && !l.Start?
    ensures if Waits(s, l) then Next(s, l) == s else Work(Next(s, l)) < Work(s)
  {
  }

  predicate MidExchange(r: Runner) {
    !r.pc.Idle? && !r.pc.Failed?
  }

  /** Who can move on while an exchange is open; reply is what the control cycle computes if it is its turn. */
  function Mover(s: Direct, reply: seq<Byte>): Label {
    if s.runner.pc.Polling? && s.memory.response != s.runner.sequence then
      if s.firmware.pc.Computing? then Compute(reply) else FirmwareOp
    else RunnerOp
  }

  lemma SomebodyMoves(s: Direct, o: seq<Byte>, reply: seq<Byte>)
    requires Inv(s) && MidExchange(s.runner) && Answers(o, reply) && OfRunner(s.runner, o)
    ensures Enabled(s, Mover(s, reply)) && !Mover(s, reply).Start? && !Waits(s, Mover(s, reply))
  {
  }

  /** The runner is in the exchange of odometry o. */
  predicate OfRunner(r: Runner, o: seq<Byte>) {
    match r.pc
    case Idle => false
    case Failed => false
    case Posting(p, _) => p == o
    case Bumping(p) => p == o
    case Polling(p) => p == o
    case Fetching(p, _) => p == o
    case Checking(p, _) => p == o
  }

  /** Exchange number |done| is open, with odometry o, and the only reply computed for it is `reply`. */
  ghost predicate Toward(s: Direct, o: seq<Byte>, reply: seq<Byte>, done: seq<Exchange>) {
    var f := s.firmware;
    && OfRunner(s.runner, o) && s.runner.done == done
    && (f.pc.Writing? ==> f.pc.r == reply) && (f.pc.Responding? ==> f.pc.r == reply)
    && (!s.runner.pc.Posting? && !s.runner.pc.Bumping? && s.memory.response == s.memory.input
        ==> s.memory.reply == reply)
  }

  ghost predicate Completed(s: Direct, o: seq<Byte>, reply: seq<Byte>, done: seq<Exchange>) {
    s.runner.pc.Idle? && s.runner.done == done + [Exchange(o, reply)]
  }

  lemma TowardStep(s: Direct, l: Label, o: seq<Byte>, reply: seq<Byte>, done: seq<Exchange>)
    requires Inv(s) && Toward(s, o, reply, done) && Answers(o, reply) && Enabled(s, l)
    requires l.RunnerOp? || l.FirmwareOp? || l == Compute(reply)
    ensures Toward(Next(s, l), o, reply, done) || Completed(Next(s, l), o, reply, done)
  {
  }

  // ------------------------------------------------------------------- runs

  function Last(ss: seq<Direct>): Direct
    requires ss != []
  {
    ss[|ss| - 1]
  }

  /** In every run an operation that does not start an exchange either brings its end nearer, by the measure Work, or
      changes nothing; and it changes nothing only where its party has to wait. */
  lemma RunProgress(ss: seq<Direct>, k: nat, l: Label)
    requires IsRun(ss) && k < |ss| && DirectShape(ss[k]) && Enabled(ss[k], l) && !l.Start?
    ensures if Waits(ss[k], l) then Next(ss[k], l) == ss[k] else Work(Next(ss[k], l)) < Work(ss[k])
  {
    hide Next, Enabled, Waits, Work;
    RunInv(ss, k);
    StepProgress(ss[k], l);
  }

  /** While an exchange is open, there is always a party that does not have to wait. */
  lemma NeverStuck(ss: seq<Direct>, k: nat, o: seq<Byte>, reply: seq<Byte>)
    requires IsRun(ss) && k < |ss| && OfRunner(ss[k].runner, o) && Answers(o, reply)
    ensures DirectShape(ss[k])
    ensures exists l :: Enabled(ss[k], l) && !l.Start? && !l.Quit? && !Waits(ss[k], l)
  {
    RunInv(ss, k);
    SomebodyMoves(ss[k], o, reply);
  }

  lemma {:induction false} Finishes(ss: seq<Direct>, o: seq<Byte>, reply: seq<Byte>, done: seq<Exchange>)
    returns (ss': seq<Direct>)
    requires IsRun(ss) && Inv(Last(ss)) && Toward(Last(ss), o, reply, done) && Answers(o, reply)
    ensures IsRun(ss') && ss <= ss' && Completed(Last(ss'), o, reply, done)
    decreases Work(Last(ss))
  {
    hide Inv, Toward, Work, Waits, Next, Enabled, Answers;
    var s := Last(ss);
    TowardIsOpen(s, o, reply, done);
    SomebodyMoves(s, o, reply);
    var l := Mover(s, reply);
    StepProgress(s, l);
    TowardStep(s, l, o, reply, done);
    Step(s, l);
    var more := OneMore(ss, l);
    if Toward(Last(more), o, reply, done) {
      ss' := Finishes(more, o, reply, done);
    } else {
      ss' := more;
    }
  }

  lemma TowardIsOpen(s: Direct, o: seq<Byte>, reply: seq<Byte>, done: seq<Exchange>)
    requires Toward(s, o, reply, done)
    ensures MidExchange(s.runner) && OfRunner(s.runner, o)
  {
  }

  lemma OneMore(ss: seq<Direct>, l: Label) returns (ss': seq<Direct>)
    requires IsRun(ss) && Inv(Last(ss)) && Enabled(Last(ss), l)
    ensures IsRun(ss') && ss' == ss + [Next(Last(ss), l)]
  {
    hide Inv, Next, Enabled;
    InvIsShape(Last(ss));
    ss' := ss + [Next(Last(ss), l)];
    forall k | 0 <= k < |ss'| - 1 ensures Moves(ss'[k], ss'[k + 1]) {
      if k == |ss| - 1 {
        assert Via(ss'[k], l, ss'[k + 1]);
      } else {
        assert Moves(ss[k], ss[k + 1]);
      }
    }
  }

  lemma InvIsShape(s: Direct)
    requires Inv(s)
    ensures DirectShape(s)
  {
  }

  lemma StartsToward(s: Direct, o: seq<Byte>, reply: seq<Byte>)
    requires Inv(s) && s.runner.pc.Idle? && Answers(o, reply)
    ensures Enabled(s, Start(o)) && Toward(Next(s, Start(o)), o, reply, s.runner.done)
  {
  }

  /** From every state of every run in which the runner is idle, any odometry can be exchanged for any reply with its
      stamp: there is a continuation that ends idle with exactly that exchange added. */
  lemma ExchangeCompletes(ss: seq<Direct>, o: seq<Byte>, reply: seq<Byte>) returns (ss': seq<Direct>)
    requires IsRun(ss) && Last(ss).runner.pc.Idle? && Answers(o, reply)
    ensures IsRun(ss') && ss <= ss' && Last(ss').runner.pc.Idle?
    ensures Last(ss').runner.done == Last(ss).runner.done + [Exchange(o, reply)]
    ensures Last(ss').firmware.handled == Last(ss).firmware.handled + [Exchange(o, reply)]
  {
    hide Inv, Next, Enabled, Answers, Toward, Work;
    RunInv(ss, |ss| - 1);
    StartsToward(Last(ss), o, reply);
    Step(Last(ss), Start(o));
    var more := OneMore(ss, Start(o));
    ss' := Finishes(more, o, reply, Last(ss).runner.done);
    ExchangesMatch(ss, |ss| - 1);
    ExchangesMatch(ss', |ss'| - 1);
  }
}

/** The same through the bridge. */
module BridgedProgress {
  import opened Lockstep
  import opened BridgedLockstep
  import P = DirectProgress

  /** Operations of the bridge and the firmware to bring a request down and its answer back, from the bridge's read of
      the input number on. */
  const RELAY := 4 + 2 * REPLY_SIZE + P.ANSWER + 2 * ODOMETRY_SIZE

  /** Operations the bridge has before it, with those the request in its hands still brings to the firmware. */
  function BridgeWork(s: Bridged): nat
    requires BridgedShape(s)
  {
    match s.bridge.pc
    case Stopped => 0
    case Finishing => 1
    case Returning(_, j) => 1 + REPLY_SIZE - j
    case Collecting(got) => 1 + 2 * REPLY_SIZE - |got|
    case Awaiting => 2 + 2 * REPLY_SIZE
    case Forwarding => 3 + 2 * REPLY_SIZE + P.ANSWER
    case Passing(_, j) => 3 + 2 * REPLY_SIZE + P.ANSWER + ODOMETRY_SIZE - j
    case Taking(got) => 3 + 2 * REPLY_SIZE + P.ANSWER + 2 * ODOMETRY_SIZE - |got|
    case Listening => if s.up.input != s.bridge.completed then RELAY else 0
    case Gating => if s.up.input != s.bridge.completed then RELAY + 1 else 0
    case Joining => if s.up.input != s.bridge.completed then RELAY + 2 else 1
  }

  function Work(s: Bridged): nat
    requires BridgedShape(s)
  {
    P.RunnerWork(s.runner, RELAY + 2) + BridgeWork(s) + P.FirmwareWork(s.down, s.firmware)
  }

  /** The bridge looks for a request and there is none. */
  predicate Looking(s: Bridged) {
    (s.bridge.pc.Gating? || s.bridge.pc.Listening?) && s.up.input == s.bridge.completed
  }

  /** The party whose turn it is can only wait. */
  predicate Waits(s: Bridged, l: Label) {
    match l
    case RunnerOp =>
      var pc := s.runner.pc;
      pc.Idle? || pc.Failed? || (pc.Polling? && s.up.response != s.runner.sequence)
    case BridgeOp =>
      var pc := s.bridge.pc;
      pc.Stopped? || (pc.Awaiting? && s.down.response != s.bridge.sequence) || Looking(s)
    case FirmwareOp =>
      var pc := s.firmware.pc;
      pc.Computing? || (pc.Waiting? && (s.down.terminate || s.down.input == s.firmware.seen))
    case _ => false
  }

  ghost predicate Progress(s: Bridged, l: Label)
    requires BridgedShape(s) && Enabled(s, l)
  {
    var s' := Next(s, l);
    if !Waits(s, l) then Work(s') < Work(s)
    else if l.BridgeOp? && Looking(s) then Looking(s') && s' == s.(bridge := s'.bridge)
    else s' == s
  }

  lemma RunnerProgress(s: Bridged)
    requires Inv(s) && D.Inv(Seen(s))
    ensures Progress(s, RunnerOp)
  {
  }

  lemma BridgeProgress(s: Bridged)
    requires Inv(s)
    ensures Progress(s, BridgeOp)
  {
  }

  lemma FirmwareProgress(s: Bridged)
    requires Inv(s)
    ensures Progress(s, FirmwareOp)
  {
  }

  lemma StepProgress(s: Bridged, l: Label)
    requires Inv(s) && D.Inv(Seen(s)) && Enabled(s, l) && !l.Start?
    ensures Progress(s, l)
  {
    match l
    case RunnerOp => RunnerProgress(s);
    case BridgeOp => BridgeProgress(s);
    case FirmwareOp => FirmwareProgress(s);
    case _ =>
  }

  /** Who can move on while an exchange is open. */
  function Mover(s: Bridged, reply: seq<Byte>): Label {
    if !(s.runner.pc.Polling? && s.up.response != s.runner.sequence) then RunnerOp
    else if !(s.bridge.pc.Awaiting? && s.down.response != s.bridge.sequence) then BridgeOp
    else if s.firmware.pc.Computing? then Compute(reply)
    else FirmwareOp
  }

  lemma SomebodyMoves(s: Bridged, o: seq<Byte>, reply: seq<Byte>)
    requires Inv(s) && D.Inv(Seen(s)) && !s.bridge.pc.Stopped?
    requires P.MidExchange(s.runner) && P.OfRunner(s.runner, o) && Answers(o, reply)
    ensures Enabled(s, Mover(s, reply)) && !Mover(s, reply).Start? && !Waits(s, Mover(s, reply))
  {
  }

  ghost predicate Toward(s: Bridged, o: seq<Byte>, reply: seq<Byte>, done: seq<Exchange>) {
    P.Toward(Seen(s), o, reply, done) && !s.bridge.pc.Stopped?
  }

  lemma TowardStep(s: Bridged, l: Label, o: seq<Byte>, reply: seq<Byte>, done: seq<Exchange>)
    requires Inv(s) && D.Inv(Seen(s)) && Toward(s, o, reply, done) && Answers(o, reply) && Enabled(s, l)
    requires l.RunnerOp? || l.BridgeOp? || l.FirmwareOp? || l == Compute(reply)
    ensures !Next(s, l).bridge.pc.Stopped?
    ensures Toward(Next(s, l), o, reply, done) || P.Completed(Seen(Next(s, l)), o, reply, done)
  {
    BridgeStaysUp(s, l);
    P.TowardIsOpen(Seen(s), o, reply, done);
    hide Inv, D.Inv, P.Toward;
    match l
    case BridgeOp => BridgeStep(s);
    case RunnerOp =>
      RunnerStep(s);
      ShapeOf(s);
      P.TowardStep(Seen(s), D.RunnerOp, o, reply, done);
    case FirmwareOp =>
      FirmwareStep(s);
      P.TowardStep(Seen(s), D.FirmwareOp, o, reply, done);
    case Compute(r) =>
      P.TowardStep(Seen(s), D.Compute(r), o, reply, done);
  }

  lemma ShapeOf(s: Bridged)
    requires Inv(s)
    ensures BridgedShape(s)
  {
  }

  lemma BridgeStaysUp(s: Bridged, l: Label)
    requires Inv(s) && Enabled(s, l) && !l.BridgeTimeout? && !s.bridge.pc.Stopped?
    ensures BridgedShape(s) && !Next(s, l).bridge.pc.Stopped?
  {
  }

  // ------------------------------------------------------------------- runs

  function Last(ss: seq<Bridged>): Bridged
    requires ss != []
  {
    ss[|ss| - 1]
  }

  /** In every run an operation that does not start an exchange brings its end nearer, except where its party has to
      wait; then it changes nothing, or the bridge goes on looking for a request. */
  lemma RunProgress(ss: seq<Bridged>, ls: seq<Label>, k: nat, l: Label)
    requires IsRun(ss, ls) && k < |ss| && BridgedShape(ss[k]) && Enabled(ss[k], l) && !l.Start?
    ensures var s, s' := ss[k], Next(ss[k], l);
            if !Waits(s, l) then Work(s') < Work(s)
            else if l.BridgeOp? && Looking(s) then Looking(s') && s' == s.(bridge := s'.bridge)
            else s' == s
  {
    hide Next, Enabled, Waits, Work, Looking, Inv, D.Inv;
    RunInv(ss, ls, k);
    StepProgress(ss[k], l);
  }

  /** While an exchange is open and the bridge has not given up, there is always a party that does not have to wait. */
  lemma NeverStuck(ss: seq<Bridged>, ls: seq<Label>, k: nat, o: seq<Byte>, reply: seq<Byte>)
    requires IsRun(ss, ls) && k < |ss| && P.OfRunner(ss[k].runner, o) && Answers(o, reply)
    requires !ss[k].bridge.pc.Stopped?
    ensures BridgedShape(ss[k])
    ensures exists l :: Enabled(ss[k], l) && !l.Start? && !l.Quit? && !l.BridgeTimeout? && !Waits(ss[k], l)
  {
    RunInv(ss, ls, k);
    SomebodyMoves(ss[k], o, reply);
  }

  lemma OneMore(ss: seq<Bridged>, ls: seq<Label>, l: Label) returns (ss': seq<Bridged>, ls': seq<Label>)
    requires IsRun(ss, ls) && BridgedShape(Last(ss)) && Enabled(Last(ss), l)
    ensures IsRun(ss', ls') && ss' == ss + [Next(Last(ss), l)] && ls' == ls + [l]
  {
    hide Next, Enabled;
    ss', ls' := ss + [Next(Last(ss), l)], ls + [l];
    forall k | 0 <= k < |ls'| ensures Moves(ss'[k], ls'[k], ss'[k + 1]) {
      if k < |ls| {
        assert Moves(ss[k], ls[k], ss[k + 1]);
      }
    }
  }

  lemma {:induction false} Finishes(ss: seq<Bridged>, ls: seq<Label>, o: seq<Byte>, reply: seq<Byte>,
        done: seq<Exchange>)
    returns (ss': seq<Bridged>, ls': seq<Label>)
    requires IsRun(ss, ls) && BridgedShape(Last(ss)) && Toward(Last(ss), o, reply, done) && Answers(o, reply)
    ensures IsRun(ss', ls') && ss <= ss' && ls <= ls' && P.Completed(Seen(Last(ss')), o, reply, done)
    ensures !Last(ss').bridge.pc.Stopped?
    decreases Work(Last(ss))
  {
    hide Inv, D.Inv, P.Toward, Work, Waits, Next, Enabled, Answers, Seen;
    var s := Last(ss);
    RunInv(ss, ls, |ss| - 1);
    P.TowardIsOpen(Seen(s), o, reply, done);
    SameRunner(s);
    SomebodyMoves(s, o, reply);
    var l := Mover(s, reply);
    StepProgress(s, l);
    TowardStep(s, l, o, reply, done);
    var ss1, ls1 := OneMore(ss, ls, l);
    if Toward(Last(ss1), o, reply, done) {
      ss', ls' := Finishes(ss1, ls1, o, reply, done);
    } else {
      ss', ls' := ss1, ls1;
    }
  }

  lemma SameRunner(s: Bridged)
    ensures Seen(s).runner == s.runner && Seen(s).firmware == s.firmware
  {
  }

  lemma StartsToward(s: Bridged, o: seq<Byte>, reply: seq<Byte>)
    requires Inv(s) && D.Inv(Seen(s)) && s.runner.pc.Idle? && !s.bridge.pc.Stopped? && Answers(o, reply)
    ensures Enabled(s, Start(o)) && Toward(Next(s, Start(o)), o, reply, s.runner.done)
  {
    P.StartsToward(Seen(s), o, reply);
  }

  /** From every state of every run in which the runner is idle and the bridge has not given up, any odometry can be
      exchanged for any reply with its stamp. */
  lemma ExchangeCompletes(ss: seq<Bridged>, ls: seq<Label>, o: seq<Byte>, reply: seq<Byte>)
    returns (ss': seq<Bridged>, ls': seq<Label>)
    requires IsRun(ss, ls) && Last(ss).runner.pc.Idle? && !Last(ss).bridge.pc.Stopped? && Answers(o, reply)
    ensures IsRun(ss', ls') && ss <= ss' && ls <= ls' && Last(ss').runner.pc.Idle? && !Last(ss').bridge.pc.Stopped?
    ensures Last(ss').runner.done == Last(ss).runner.done + [Exchange(o, reply)]
    ensures Last(ss').firmware.handled == Last(ss).firmware.handled + [Exchange(o, reply)]
  {
    hide Inv, D.Inv, Next, Enabled, Answers, Toward, Work;
    RunInv(ss, ls, |ss| - 1);
    ShapeOf(Last(ss));
    StartsToward(Last(ss), o, reply);
    var ss1, ls1 := OneMore(ss, ls, Start(o));
    ss', ls' := Finishes(ss1, ls1, o, reply, Last(ss).runner.done);
    BridgedExchangesMatch(ss, ls, |ss| - 1);
    BridgedExchangesMatch(ss', ls', |ss'| - 1);
  }

  // ------------------------------------------------------ under every schedule

  /** Operations from position i to j of the run that were not a wait. */
  function Moved(ss: seq<Bridged>, ls: seq<Label>, i: nat, j: nat): nat
    requires i <= j <= |ls| < |ss|
    decreases j
  {
    if i == j then 0 else Moved(ss, ls, i, j - 1) + (if Waits(ss[j - 1], ls[j - 1]) then 0 else 1)
  }

  lemma LookingIsNoWork(s: Bridged, s': Bridged)
    requires BridgedShape(s) && BridgedShape(s') && Looking(s) && Looking(s') && s' == s.(bridge := s'.bridge)
    ensures Work(s') == Work(s)
  {
  }

  /** Under any schedule: as long as no further exchange is started, the parties make at most as many operations that
      are not waits as Work says, */
  lemma {:induction false} WorkIsBound(ss: seq<Bridged>, ls: seq<Label>, i: nat, j: nat)
    requires IsRun(ss, ls) && i <= j <= |ls| && forall k | i <= k < j :: !ls[k].Start?
    ensures BridgedShape(ss[i]) && BridgedShape(ss[j]) && Moved(ss, ls, i, j) + Work(ss[j]) <= Work(ss[i])
    decreases j
  {
    hide Next, Enabled, Waits, Work, Looking, Inv, D.Inv;
    RunInv(ss, ls, j);
    ShapeOf(ss[j]);
    if i < j {
      WorkIsBound(ss, ls, i, j - 1);
      assert Moves(ss[j - 1], ls[j - 1], ss[j - 1 + 1]);
      RunProgress(ss, ls, j - 1, ls[j - 1]);
      if Looking(ss[j - 1]) && Looking(ss[j]) && ss[j] == ss[j - 1].(bridge := ss[j].bridge) {
        LookingIsNoWork(ss[j - 1], ss[j]);
      }
    }
  }

  /** so an exchange that was just started is over, or given up, after at most 686 of them. */
  lemma ExchangeIsShort(ss: seq<Bridged>, ls: seq<Label>, i: nat, j: nat)
    requires IsRun(ss, ls) && i < j <= |ls| && ls[i].Start? && forall k | i < k < j :: !ls[k].Start?
    ensures Moved(ss, ls, i + 1, j) <= 686
    ensures P.MidExchange(ss[j].runner) ==> Moved(ss, ls, i + 1, j) <= 684
  {
    hide Next, Enabled, Waits, Inv, D.Inv, Moved;
    assert Moves(ss[i], ls[i], ss[i + 1]);
    RunInv(ss, ls, i);
    WorkIsBound(ss, ls, i + 1, j);
    WorkAtStart(ss[i], ls[i]);
  }

  lemma WorkAtStart(s: Bridged, l: Label)
    requires Inv(s) && D.Inv(Seen(s)) && Enabled(s, l) && l.Start?
    ensures BridgedShape(s) && Work(Next(s, l)) <= 686
  {
  }
}
