/**
 The lockstep exchange.  The runner posts an odometry under a sequence number
 and polls for a reply; the firmware waits for a new number, reads, computes,
 writes its reply and echoes the number.  Every copy moves one byte at a time.
 */
module Lockstep {
  import opened Words

  type Byte = b: nat | b < 256

  const ODOMETRY_SIZE := 72
  /** PWM outputs followed by the attitude command, adjacent in the layout. */
  const REPLY_SIZE := 48 + 48

  /** struct cubs2_lockstep_shared, without its magic. */
  datatype Shared = Shared(input: Word, response: Word, terminate: bool, odometry: seq<Byte>, reply: seq<Byte>)

  function Zeros(n: nat): seq<Byte> {
    seq(n, i => 0)
  }

  function Zeroed(): Shared {
    Shared(0, 0, false, Zeros(ODOMETRY_SIZE), Zeros(REPLY_SIZE))
  }

  predicate SharedShape(m: Shared) {
    |m.odometry| == ODOMETRY_SIZE && |m.reply| == REPLY_SIZE
  }

  function LittleEndian(bytes: seq<nat>): nat {
    if bytes == [] then 0 else bytes[0] + 256 * LittleEndian(bytes[1..])
  }

  /** timestamp_us, the first field of the odometry and of the PWM outputs. */
  function Stamp(payload: seq<Byte>): nat
    requires 8 <= |payload|
  {
    LittleEndian(payload[..8])
  }

  lemma {:induction false} BytesAgree(a: seq<Byte>, b: seq<Byte>)
    requires |a| == |b|
    ensures LittleEndian(a) == LittleEndian(b) <==> a == b
  {
    if a != [] {
      BytesAgree(a[1..], b[1..]);
      assert a == [a[0]] + a[1..] && b == [b[0]] + b[1..];
    }
  }

  /** Payloads have the same stamp exactly if their first eight bytes are the same. */
  lemma StampIsEightBytes(p: seq<Byte>, q: seq<Byte>)
    requires 8 <= |p| && 8 <= |q|
    ensures Stamp(p) == Stamp(q) <==> forall i | 0 <= i < 8 :: p[i] == q[i]
  {
    BytesAgree(p[..8], q[..8]);
    assert forall i | 0 <= i < 8 :: p[..8][i] == p[i] && q[..8][i] == q[i];
    assert p[..8] == q[..8] <==> forall i | 0 <= i < 8 :: p[i] == q[i];
  }

  predicate IsOdometry(o: seq<Byte>) {
    |o| == ODOMETRY_SIZE
  }

  /** What the control loop answers: a reply stamped with the odometry's own time. */
  predicate Answers(o: seq<Byte>, r: seq<Byte>) {
    |o| == ODOMETRY_SIZE && |r| == REPLY_SIZE && Stamp(r) == Stamp(o)
  }

  datatype Exchange = Exchange(odometry: seq<Byte>, reply: seq<Byte>)

  // --------------------------------------------------------------- the runner

  datatype RunnerPc =
    | Idle
    | Posting(o: seq<Byte>, j: nat)        // copying the odometry
    | Bumping(o: seq<Byte>)                // sequence++ and store
    | Polling(o: seq<Byte>)
    | Fetching(o: seq<Byte>, got: seq<Byte>)
    | Checking(o: seq<Byte>, got: seq<Byte>)
    | Failed

  datatype Runner = Runner(pc: RunnerPc, sequence: Word, done: seq<Exchange>)

  predicate RunnerShape(r: Runner) {
    match r.pc
    case Posting(o, j) => IsOdometry(o) && j < ODOMETRY_SIZE
    case Bumping(o) => IsOdometry(o)
    case Polling(o) => IsOdometry(o)
    case Fetching(o, got) => IsOdometry(o) && |got| < REPLY_SIZE
    case Checking(o, got) => IsOdometry(o) && |got| == REPLY_SIZE
    case _ => true
  }

  /** The shared memory after the runner's next operation. */
  function RunnerMemory(m: Shared, r: Runner): (m': Shared)
    requires SharedShape(m) && RunnerShape(r)
    ensures SharedShape(m')
  {
    match r.pc
    case Posting(o, j) => m.(odometry := m.odometry[j := o[j]])
    case Bumping(_) => m.(input := Increment(r.sequence))
    case _ => m
  }

  function RunnerNext(m: Shared, r: Runner): (r': Runner)
    requires SharedShape(m) && RunnerShape(r)
    ensures RunnerShape(r')
  {
    match r.pc
    case Posting(o, j) => r.(pc := if j + 1 < ODOMETRY_SIZE then Posting(o, j + 1) else Bumping(o))
    case Bumping(o) => r.(sequence := Increment(r.sequence), pc := Polling(o))
    case Polling(o) => if m.response == r.sequence then r.(pc := Fetching(o, [])) else r
    case Fetching(o, got) =>
      var got' := got + [m.reply[|got|]];
      r.(pc := if |got'| < REPLY_SIZE then Fetching(o, got') else Checking(o, got'))
    case Checking(o, got) =>
      if Stamp(got) < Stamp(o) then r.(pc := Failed) else r.(pc := Idle, done := r.done + [Exchange(o, got)])
    case _ => r
  }

  // ------------------------------------------------------------- the firmware

  datatype FirmwarePc =
    | Waiting
    | Reading(got: seq<Byte>)                        // copying the odometry
    | Computing(o: seq<Byte>)                        // one control cycle
    | Writing(o: seq<Byte>, r: seq<Byte>, j: nat)    // copying the reply
    | Responding(o: seq<Byte>, r: seq<Byte>)

  datatype Firmware = Firmware(pc: FirmwarePc, seen: Word, handled: seq<Exchange>)

  predicate FirmwareShape(f: Firmware) {
    match f.pc
    case Reading(got) => |got| < ODOMETRY_SIZE
    case Computing(o) => IsOdometry(o)
    case Writing(o, r, j) => Answers(o, r) && j < REPLY_SIZE
    case Responding(o, r) => Answers(o, r)
    case _ => true
  }

  function FirmwareMemory(m: Shared, f: Firmware): (m': Shared)
    requires SharedShape(m) && FirmwareShape(f)
    ensures SharedShape(m')
  {
    match f.pc
    case Writing(_, r, j) => m.(reply := m.reply[j := r[j]])
    case Responding(_, _) => m.(response := f.seen)
    case _ => m
  }

  /** The wait returns once the request sequence differs from the last one seen; the response stores the seen one. */
  function FirmwareNext(m: Shared, f: Firmware): (f': Firmware)
    requires SharedShape(m) && FirmwareShape(f)
    ensures FirmwareShape(f')
  {
    match f.pc
    case Waiting => if !m.terminate && m.input != f.seen then f.(seen := m.input, pc := Reading([])) else f
    case Reading(got) =>
      var got' := got + [m.odometry[|got|]];
      f.(pc := if |got'| < ODOMETRY_SIZE then Reading(got') else Computing(got'))
    case Computing(_) => f
    case Writing(o, r, j) => f.(pc := if j + 1 < REPLY_SIZE then Writing(o, r, j + 1) else Responding(o, r))
    case Responding(o, r) => f.(pc := Waiting, handled := f.handled + [Exchange(o, r)])
  }
}

/** Runner and firmware on one shared memory, as in the native simulation. */
module DirectLockstep {
  import opened Words
  import opened Lockstep

  datatype Direct = Direct(memory: Shared, runner: Runner, firmware: Firmware)

  datatype Label =
    | Start(o: seq<Byte>)     // the runner begins an exchange
    | RunnerOp
    | Quit                    // the runner gives up, on a timeout or a failure outside the exchange
    | FirmwareOp
    | Compute(r: seq<Byte>)   // the control cycle

  function Begin(): Direct {
    Direct(Zeroed(), Runner(Idle, 0, []), Firmware(Waiting, 0, []))
  }

  predicate DirectShape(s: Direct) {
    SharedShape(s.memory) && RunnerShape(s.runner) && FirmwareShape(s.firmware)
  }

  predicate Enabled(s: Direct, l: Label) {
    match l
    case Start(o) => s.runner.pc.Idle? && IsOdometry(o)
    case RunnerOp => true
    case Quit => s.runner.pc.Idle? || s.runner.pc.Polling?
    case FirmwareOp => true
    case Compute(r) => s.firmware.pc.Computing? && Answers(s.firmware.pc.o, r)
  }

  function Next(s: Direct, l: Label): (s': Direct)
    requires DirectShape(s) && Enabled(s, l)
    ensures DirectShape(s')
  {
    match l
    case Start(o) => s.(runner := s.runner.(pc := Posting(o, 0)))
    case RunnerOp => s.(memory := RunnerMemory(s.memory, s.runner), runner := RunnerNext(s.memory, s.runner))
    case Quit => s.(runner := s.runner.(pc := Failed))
    case FirmwareOp =>
      s.(memory := FirmwareMemory(s.memory, s.firmware), firmware := FirmwareNext(s.memory, s.firmware))
    case Compute(r) => s.(firmware := s.firmware.(pc := Writing(s.firmware.pc.o, r, 0)))
  }

  /** The firmware is working on the runner's current odometry o. */
  ghost predicate InProgress(s: Direct, o: seq<Byte>) {
    var m, f := s.memory, s.firmware;
    && |m.odometry| == ODOMETRY_SIZE && |m.reply| == REPLY_SIZE && o == m.odometry
    && Increment(m.response) == m.input
    && s.runner.done == f.handled
    && match f.pc
       case Waiting => f.seen == m.response
       case Reading(got) => f.seen == m.input && got <= o
       case Computing(p) => f.seen == m.input && p == o
       case Writing(p, r, j) =>
         f.seen == m.input && p == o && |r| == REPLY_SIZE && j < REPLY_SIZE && r[..j] == m.reply[..j]
       case Responding(p, r) => f.seen == m.input && p == o && r == m.reply
  }

  /** The firmware has answered odometry o and waits for the next. */
  ghost predicate Answered(s: Direct, o: seq<Byte>) {
    var m, f := s.memory, s.firmware;
    && m.response == m.input == f.seen && f.pc.Waiting?
    && Answers(o, m.reply)
    && f.handled == s.runner.done + [Exchange(o, m.reply)]
  }

  ghost predicate AtRest(s: Direct) {
    var m, f := s.memory, s.firmware;
    m.response == m.input == f.seen && f.pc.Waiting? && f.handled == s.runner.done
  }

  ghost predicate Inv(s: Direct) {
    && DirectShape(s) && !s.memory.terminate
    && (forall i | 0 <= i < |s.runner.done| :: Answers(s.runner.done[i].odometry, s.runner.done[i].reply))
    && s.memory.input == s.runner.sequence
    && match s.runner.pc
       case Idle => AtRest(s)
       case Posting(o, j) => AtRest(s) && o[..j] == s.memory.odometry[..j]
       case Bumping(o) => AtRest(s) && o == s.memory.odometry
       case Polling(o) => o == s.memory.odometry && (InProgress(s, o) || Answered(s, o))
       case Fetching(o, got) => o == s.memory.odometry && Answered(s, o) && got <= s.memory.reply
       case Checking(o, got) => o == s.memory.odometry && Answered(s, o) && got == s.memory.reply
       case Failed => AtRest(s) || InProgress(s, s.memory.odometry) || Answered(s, s.memory.odometry)
  }

  lemma Step(s: Direct, l: Label)
    requires Inv(s) && Enabled(s, l)
    ensures Inv(Next(s, l))
  {
  }

  // ------------------------------------------------------------------- runs

  /** A run of runner and firmware; a step may also leave everything as it was. */
  ghost predicate IsRun(ss: seq<Direct>) {
    && 0 < |ss| && ss[0] == Begin()
    && forall k | 0 <= k < |ss| - 1 :: Moves(ss[k], ss[k + 1])
  }

  ghost predicate Moves(s: Direct, s': Direct) {
    s' == s || exists l :: Via(s, l, s')
  }

  ghost predicate Via(s: Direct, l: Label, s': Direct) {
    DirectShape(s) && Enabled(s, l) && s' == Next(s, l)
  }

  lemma {:induction false} RunInv(ss: seq<Direct>, k: nat)
    requires IsRun(ss) && k < |ss|
    ensures Inv(ss[k])
  {
    if k > 0 {
      RunInv(ss, k - 1);
      assert Moves(ss[k - 1], ss[k - 1 + 1]);
      if ss[k] != ss[k - 1] {
        var l :| Via(ss[k - 1], l, ss[k]);
        Step(ss[k - 1], l);
      }
    }
  }

  /** The k-th exchange the runner completes is the k-th the firmware handled, whole, and carries the odometry's own
      stamp; the firmware is ahead by at most the exchange in progress. */
  lemma ExchangesMatch(ss: seq<Direct>, k: nat)
    requires IsRun(ss) && k < |ss|
    ensures var s := ss[k];
            && s.runner.done <= s.firmware.handled
            && |s.firmware.handled| <= |s.runner.done| + 1
            && (s.runner.done != s.firmware.handled ==>
                  s.firmware.handled[|s.runner.done|].odometry == s.memory.odometry)
            && (s.runner.pc.Idle? ==> s.runner.done == s.firmware.handled)
            && forall i | 0 <= i < |s.runner.done| :: Answers(s.runner.done[i].odometry, s.runner.done[i].reply)
  {
    RunInv(ss, k);
  }

  /** While nothing is being posted and the firmware rests, the buffer still holds the odometry it handled last. */
  ghost predicate HoldsLast(s: Direct) {
    var m, f := s.memory, s.firmware;
    && !s.runner.pc.Posting? && !s.runner.pc.Bumping? && f.pc.Waiting? && m.response == m.input == f.seen
    && f.handled != []
    ==> f.handled[|f.handled| - 1].odometry == m.odometry
  }

  lemma StepHoldsLast(s: Direct, l: Label)
    requires Inv(s) && Enabled(s, l) && HoldsLast(s)
    ensures HoldsLast(Next(s, l))
  {
  }

  lemma {:induction false} RunHoldsLast(ss: seq<Direct>, k: nat)
    requires IsRun(ss) && k < |ss|
    ensures HoldsLast(ss[k])
  {
    if k > 0 {
      RunHoldsLast(ss, k - 1);
      RunInv(ss, k - 1);
      hide Inv, HoldsLast, Next, Enabled;
      assert Moves(ss[k - 1], ss[k - 1 + 1]);
      if ss[k] != ss[k - 1] {
        var l :| Via(ss[k - 1], l, ss[k]);
        StepHoldsLast(ss[k - 1], l);
      }
    }
  }

  /** What the runner copies out is never a reply being written, and its staleness check never fires. */
  lemma NoTornOrStaleReply(ss: seq<Direct>, k: nat)
    requires IsRun(ss) && k < |ss| && ss[k].runner.pc.Checking?
    ensures DirectShape(ss[k])
    ensures var r := ss[k].runner;
            && ss[k].firmware.handled == r.done + [Exchange(r.pc.o, r.pc.got)]
            && Stamp(r.pc.got) == Stamp(r.pc.o)
            && RunnerNext(ss[k].memory, r).pc == Idle
  {
    RunInv(ss, k);
  }
}

/** Runner, bridge and firmware on two shared memories, as with FastDyn. */
module BridgedLockstep {
  import opened Words
  import opened Lockstep
  import D = DirectLockstep

  datatype BridgePc =
    | Joining                                       // load of the upstream response sequence
    | Gating                                         // load of terminate
    | Listening                                      // load of the upstream input sequence
    | Taking(got: seq<Byte>)                         // copying the upstream odometry
    | Passing(o: seq<Byte>, j: nat)                  // copying it downstream
    | Forwarding                                     // store of the downstream input sequence
    | Awaiting
    | Collecting(got: seq<Byte>)                       // copying the downstream reply
    | Returning(r: seq<Byte>, j: nat)                // copying it upstream
    | Finishing                                     // store of the upstream response sequence
    | Stopped

  datatype Bridge = Bridge(pc: BridgePc, completed: Word, sequence: Word)

  predicate BridgeShape(b: Bridge) {
    match b.pc
    case Taking(got) => |got| < ODOMETRY_SIZE
    case Passing(o, j) => IsOdometry(o) && j < ODOMETRY_SIZE
    case Collecting(got) => |got| < REPLY_SIZE
    case Returning(r, j) => |r| == REPLY_SIZE && j < REPLY_SIZE
    case _ => true
  }

  datatype Bridged = Bridged(up: Shared, down: Shared, runner: Runner, bridge: Bridge, firmware: Firmware)

  predicate BridgedShape(s: Bridged) {
    && SharedShape(s.up) && SharedShape(s.down)
    && RunnerShape(s.runner) && BridgeShape(s.bridge) && FirmwareShape(s.firmware)
  }

  function Begin(): Bridged {
    Bridged(Zeroed(), Zeroed(), Runner(Idle, 0, []), Bridge(Joining, 0, 0), Firmware(Waiting, 0, []))
  }

  datatype Label =
    | Start(o: seq<Byte>)
    | RunnerOp
    | Quit
    | BridgeOp
    | BridgeTimeout          // the bridge gives up and tells the firmware to stop
    | FirmwareOp
    | Compute(r: seq<Byte>)

  predicate Enabled(s: Bridged, l: Label) {
    match l
    case Start(o) => s.runner.pc.Idle? && IsOdometry(o)
    case RunnerOp => true
    case Quit => s.runner.pc.Idle? || s.runner.pc.Polling?
    case BridgeOp => true
    case BridgeTimeout => s.bridge.pc.Awaiting?
    case FirmwareOp => true
    case Compute(r) => s.firmware.pc.Computing? && Answers(s.firmware.pc.o, r)
  }

  function BridgeNext(s: Bridged): (s': Bridged)
    requires BridgedShape(s)
    ensures BridgedShape(s')
  {
    var b := s.bridge;
    match b.pc
    case Joining => s.(bridge := b.(pc := Gating, completed := s.up.response))
    case Gating =>
      if s.up.terminate then s.(bridge := b.(pc := Stopped), down := s.down.(terminate := true))
      else s.(bridge := b.(pc := Listening))
    case Listening =>
      s.(bridge := b.(pc := if s.up.input != b.completed then Taking([]) else Gating, sequence := s.up.input))
    case Taking(got) =>
      var got' := got + [s.up.odometry[|got|]];
      s.(bridge := b.(pc := if |got'| < ODOMETRY_SIZE then Taking(got') else Passing(got', 0)))
    case Passing(o, j) =>
      s.(down := s.down.(odometry := s.down.odometry[j := o[j]]),
         bridge := b.(pc := if j + 1 < ODOMETRY_SIZE then Passing(o, j + 1) else Forwarding))
    case Forwarding => s.(down := s.down.(input := b.sequence), bridge := b.(pc := Awaiting))
    case Awaiting => if s.down.response == b.sequence then s.(bridge := b.(pc := Collecting([]))) else s
    case Collecting(got) =>
      var got' := got + [s.down.reply[|got|]];
      s.(bridge := b.(pc := if |got'| < REPLY_SIZE then Collecting(got') else Returning(got', 0)))
    case Returning(r, j) =>
      s.(up := s.up.(reply := s.up.reply[j := r[j]]),
         bridge := b.(pc := if j + 1 < REPLY_SIZE then Returning(r, j + 1) else Finishing))
    case Finishing =>
      s.(up := s.up.(response := b.sequence), bridge := b.(pc := Gating, completed := b.sequence))
    case Stopped => s
  }

  function Next(s: Bridged, l: Label): (s': Bridged)
    requires BridgedShape(s) && Enabled(s, l)
    ensures BridgedShape(s')
  {
    match l
    case Start(o) => s.(runner := s.runner.(pc := Posting(o, 0)))
    case RunnerOp => s.(up := RunnerMemory(s.up, s.runner), runner := RunnerNext(s.up, s.runner))
    case Quit => s.(runner := s.runner.(pc := Failed))
    case BridgeOp => BridgeNext(s)
    case BridgeTimeout => s.(bridge := s.bridge.(pc := Stopped), down := s.down.(terminate := true))
    case FirmwareOp => s.(down := FirmwareMemory(s.down, s.firmware), firmware := FirmwareNext(s.down, s.firmware))
    case Compute(r) => s.(firmware := s.firmware.(pc := Writing(s.firmware.pc.o, r, 0)))
  }

  /** The two-party system the three parties amount to: what the runner writes it writes itself, what it reads comes
      from the firmware. */
  function Seen(s: Bridged): D.Direct {
    D.Direct(Shared(s.up.input, s.down.response, s.up.terminate, s.up.odometry, s.down.reply), s.runner, s.firmware)
  }

  // -------------------------------------------------------------- the invariant

  /** Nothing is under way: upstream and downstream agree. */
  ghost predicate Settled(s: Bridged) {
    && s.bridge.completed == s.up.input == s.up.response == s.down.input == s.down.response == s.firmware.seen
    && s.firmware.pc.Waiting? && s.up.reply == s.down.reply
  }

  /** The runner has posted an exchange that has not come back yet. */
  ghost predicate Outstanding(s: Bridged) {
    && (s.runner.pc.Polling? || s.runner.pc.Failed?)
    && Increment(s.bridge.completed) == s.up.input && s.up.response == s.bridge.completed
  }

  /** It has not reached the firmware. */
  ghost predicate Upstream(s: Bridged) {
    && Outstanding(s) && s.down.input == s.down.response == s.firmware.seen == s.bridge.completed
    && s.firmware.pc.Waiting?
  }

  /** It has reached the firmware and is not answered. */
  ghost predicate Downstream(s: Bridged) {
    && Outstanding(s) && s.down.input == s.up.input && s.down.odometry == s.up.odometry
    && s.down.response == s.bridge.completed
    && s.firmware.seen == (if s.firmware.pc.Waiting? then s.bridge.completed else s.up.input)
  }

  /** The firmware has answered it. */
  ghost predicate Back(s: Bridged) {
    && Outstanding(s) && s.down.input == s.down.response == s.firmware.seen == s.up.input && s.firmware.pc.Waiting?
  }

  ghost predicate Inv(s: Bridged) {
    var b := s.bridge;
    && BridgedShape(s) && !s.up.terminate
    && (b.pc.Stopped? <==> s.down.terminate)
    && (b.pc.Joining? ==> b.completed == s.up.response)
    && match b.pc
       case Joining => Settled(s) || Upstream(s)
       case Gating => Settled(s) || Upstream(s)
       case Listening => Settled(s) || Upstream(s)
       case Taking(got) => Upstream(s) && b.sequence == s.up.input && got <= s.up.odometry
       case Passing(o, j) =>
         Upstream(s) && b.sequence == s.up.input && o == s.up.odometry && o[..j] == s.down.odometry[..j]
       case Forwarding => Upstream(s) && b.sequence == s.up.input && s.down.odometry == s.up.odometry
       case Awaiting => b.sequence == s.up.input && (Downstream(s) || Back(s))
       case Collecting(got) => Back(s) && b.sequence == s.up.input && got <= s.down.reply
       case Returning(r, j) => Back(s) && b.sequence == s.up.input && r == s.down.reply && r[..j] == s.up.reply[..j]
       case Finishing => Back(s) && b.sequence == s.up.input && s.up.reply == s.down.reply
       case Stopped => Downstream(s) || Back(s)
  }

  /** The two-party step that a step of runner or firmware is. */
  function DirectLabel(l: Label): D.Label {
    match l
    case Start(o) => D.Start(o)
    case Quit => D.Quit
    case FirmwareOp => D.FirmwareOp
    case Compute(r) => D.Compute(r)
    case _ => D.RunnerOp
  }

  lemma BridgeStep(s: Bridged)
    requires Inv(s) && D.Inv(Seen(s))
    ensures Seen(BridgeNext(s)) == Seen(s) && Inv(BridgeNext(s))
  {
  }

  lemma RunnerStep(s: Bridged)
    requires Inv(s) && D.Inv(Seen(s))
    ensures Inv(Next(s, RunnerOp))
    ensures Seen(Next(s, RunnerOp)) == Seen(s) || Seen(Next(s, RunnerOp)) == D.Next(Seen(s), D.RunnerOp)
  {
  }

  lemma FirmwareStep(s: Bridged)
    requires Inv(s) && D.Inv(Seen(s))
    ensures Inv(Next(s, FirmwareOp))
    ensures Seen(Next(s, FirmwareOp)) == Seen(s) || Seen(Next(s, FirmwareOp)) == D.Next(Seen(s), D.FirmwareOp)
  {
  }

  /** One step of the three parties is one step of the two, or none. */
  lemma Simulates(s: Bridged, l: Label)
    requires Inv(s) && D.Inv(Seen(s)) && Enabled(s, l)
    ensures Inv(Next(s, l)) && D.Moves(Seen(s), Seen(Next(s, l)))
  {
    match l
    case BridgeOp => BridgeStep(s);
    case BridgeTimeout =>
    case RunnerOp =>
      RunnerStep(s);
      assert Seen(Next(s, l)) == Seen(s) || D.Via(Seen(s), D.RunnerOp, Seen(Next(s, l)));
    case FirmwareOp =>
      FirmwareStep(s);
      assert Seen(Next(s, l)) == Seen(s) || D.Via(Seen(s), D.FirmwareOp, Seen(Next(s, l)));
    case _ =>
      assert D.Via(Seen(s), DirectLabel(l), Seen(Next(s, l)));
  }

  // ------------------------------------------------------------------- runs

  ghost predicate Moves(s: Bridged, l: Label, s': Bridged) {
    BridgedShape(s) && Enabled(s, l) && s' == Next(s, l)
  }

  /** A run of the three parties up to the moment the runner sets terminate. */
  ghost predicate IsRun(ss: seq<Bridged>, ls: seq<Label>) {
    && |ss| == |ls| + 1 && ss[0] == Begin()
    && forall k | 0 <= k < |ls| :: Moves(ss[k], ls[k], ss[k + 1])
  }

  function Shadow(ss: seq<Bridged>): seq<D.Direct> {
    seq(|ss|, k requires 0 <= k < |ss| => Seen(ss[k]))
  }

  lemma {:induction false} RunInv(ss: seq<Bridged>, ls: seq<Label>, k: nat)
    requires IsRun(ss, ls) && k < |ss|
    ensures Inv(ss[k]) && D.Inv(Seen(ss[k]))
    ensures 0 < k ==> D.Moves(Seen(ss[k - 1]), Seen(ss[k]))
  {
    if k > 0 {
      var n := k - 1;
      RunInv(ss, ls, n);
      assert Moves(ss[n], ls[n], ss[n + 1]);
      Simulates(ss[n], ls[n]);
      if l :| D.Via(Seen(ss[n]), l, Seen(ss[k])) {
        D.Step(Seen(ss[n]), l);
      }
    }
  }

  /** The bridge is transparent: every run through it is, step for step, a run of runner and firmware on one memory. */
  lemma BridgeIsTransparent(ss: seq<Bridged>, ls: seq<Label>)
    requires IsRun(ss, ls)
    ensures D.IsRun(Shadow(ss))
  {
    var ds := Shadow(ss);
    RunInv(ss, ls, 0);
    forall k | 0 <= k < |ds| - 1 ensures D.Moves(ds[k], ds[k + 1]) {
      RunInv(ss, ls, k + 1);
    }
  }

  /** So the runner's k-th exchange is the firmware's k-th, with no skip, duplicate or torn copy on either side of
      the bridge. */
  lemma BridgedExchangesMatch(ss: seq<Bridged>, ls: seq<Label>, k: nat)
    requires IsRun(ss, ls) && k < |ss|
    ensures var s := ss[k];
            && s.runner.done <= s.firmware.handled
            && |s.firmware.handled| <= |s.runner.done| + 1
            && (s.runner.done != s.firmware.handled ==>
                  s.firmware.handled[|s.runner.done|].odometry == s.up.odometry)
            && (s.runner.pc.Idle? ==> s.runner.done == s.firmware.handled)
            && forall i | 0 <= i < |s.runner.done| :: Answers(s.runner.done[i].odometry, s.runner.done[i].reply)
  {
    BridgeIsTransparent(ss, ls);
    D.ExchangesMatch(Shadow(ss), k);
  }
}
