/** Nobody waits: every handler and every apply ends after a bounded number of its own operations. */
module StagingProgress {
  import opened AtomicDouble
  import opened AtomicStaging
  import opened StagingSystem

  // -------------------------------------------------------------------- ranks

  function StoreLeft(phase: StorePhase): nat {
    match phase case Raise => 4 case PutLow => 3 case PutHigh => 2 case Lower => 1 case Stored => 0
  }

  function LoadLeft(load: Load): nat
    requires load.attempt < ATTEMPTS
  {
    4 * (ATTEMPTS - 1 - load.attempt)
    + match load.phase case Before => 4 case ReadLow(_) => 3 case ReadHigh(_, _) => 2 case After(_, _, _) => 1
  }

  /** Operations of a whole load, of one parameter of apply, and of the route part of apply, at most. */
  const LOAD := 12
  const PER_VALUE := 17
  const PER_ROUTE := 257

  /** The most operations the controller still needs to get back to a cycle boundary. */
  function CtrlLeft(c: Ctrl): nat
    requires CtrlShape(c)
  {
    match c
    case Off => 0
    case TestFlag(i) => PER_VALUE * (PARAMS - i) + PER_ROUTE
    case LoadValue(i, load) => LoadLeft(load) + 4 + PER_VALUE * (PARAMS - i - 1) + PER_ROUTE
    case Reflag(i) => 1 + PER_VALUE * (PARAMS - i - 1) + PER_ROUTE
    case ShowValue(i, _, phase) => StoreLeft(phase) + PER_VALUE * (PARAMS - i - 1) + PER_ROUTE
    case TestMission => PER_ROUTE
    case OuterBefore => PER_ROUTE - 1
    case LoadPoint(_, got, load) => LoadLeft(load) + LOAD * (COORDS - |got| - 1) + 3
    case LoadSegments(_, _, _) => 3
    case OuterAfter(_, _, _) => 2
    case ReflagMission => 1
    case Restore(i, phase) => if i == PARAMS then 1 else 4 * (PARAMS - i) + StoreLeft(phase) - 3
  }

  const APPLY_BOUND := PER_VALUE * PARAMS + PER_ROUTE
  const RESTORE_BOUND := 4 * PARAMS + 1

  lemma LoadProgress(cell: Cell, load: Load)
    requires load.attempt < ATTEMPTS
    ensures 1 <= LoadLeft(load) <= LOAD
    ensures var r := LoadStep(cell, load); r.Going? ==> r.load.attempt < ATTEMPTS && LoadLeft(r.load) < LoadLeft(load)
  {
  }

  /** Whatever the shared data looks like, each operation of the controller brings it closer to the boundary. */
  lemma ControllerAdvances(d: Data, c: Ctrl)
    requires DataShape(d) && CtrlShape(c) && !c.Off?
    ensures CtrlLeft(CtrlPc(d, c)) < CtrlLeft(c)
  {
    hide LoadStep, LoadLeft;
    LoadProgress(d.pend[0], FIRST_ATTEMPT);
    if c.LoadValue? {
      LoadProgress(d.pend[c.i], c.load);
    } else if c.LoadPoint? {
      LoadProgress(d.way[|c.got|], c.load);
    }
  }

  /** The most operations a handler still needs to reply. */
  function ThreadLeft(pc: Pc): nat
    requires PcShape(pc)
  {
    match pc
    case SetTry(_, _) => 7
    case SetStore(_, _, phase) => StoreLeft(phase) + 2
    case SetFlag(_, _) => 2
    case SetUnlock(_) => 1
    case RouteTry(_) => 92
    case RouteBusy => 1
    case RouteCheck(_) => 91
    case RouteStale(_) => 1
    case RouteOpen(_, _) => 90
    case RouteStore(_, _, k, phase) => StoreLeft(phase) + 4 * (COORDS - k - 1) + 5
    case RouteSegments(_, _) => 5
    case RouteClose(_, _) => 4
    case RouteFlag(_, _) => 3
    case RoutePublish(_, _) => 2
    case RouteUnlock(_, _) => 1
    case Get(_, load) => LoadLeft(load)
    case Done(_) => 0
  }

  const HANDLER_BOUND := 92

  lemma HandlerAdvances(d: Data, locked: bool, pc: Pc)
    requires DataShape(d) && PcShape(pc) && !pc.Done?
    ensures ThreadLeft(ThreadPc(d, locked, pc)) < ThreadLeft(pc) <= HANDLER_BOUND
  {
  }

  // -------------------------------------------------------- bounds over runs

  function Count(ls: seq<Label>, who: Label): nat {
    if ls == [] then 0 else Count(ls[..|ls| - 1], who) + (if ls[|ls| - 1] == who then 1 else 0)
  }

  lemma ControllerMove(s: State, l: Label, s': State)
    requires Moves(s, l, s') && !s.ctrl.Off?
    ensures if l == Control then CtrlLeft(s'.ctrl) < CtrlLeft(s.ctrl) else s'.ctrl == s.ctrl
  {
    if l == Control {
      ControllerAdvances(s.data, s.ctrl);
    }
  }

  lemma HandlerMove(s: State, l: Label, s': State, t: Tid)
    requires Moves(s, l, s') && t in s.threads && !s.threads[t].Done?
    ensures t in s'.threads
    ensures if l == Thread(t) then ThreadLeft(s'.threads[t]) < ThreadLeft(s.threads[t])
            else s'.threads[t] == s.threads[t]
  {
    if l == Thread(t) {
      HandlerAdvances(s.data, s.lock.Some?, s.threads[t]);
    }
  }

  /** Under every schedule, however long threads are suspended, a call of apply or restore takes at most so many
      operations of the controller. */
  lemma {:induction false} ControllerBounded(ss: seq<State>, ls: seq<Label>)
    requires Stretch(ss, ls)
    requires forall k | 0 <= k < |ls| :: !ss[k].ctrl.Off?
    ensures Shape(ss[|ls|])
    ensures Count(ls, Control) + CtrlLeft(ss[|ls|].ctrl) <= CtrlLeft(ss[0].ctrl)
    ensures ss[0].ctrl == TestFlag(0) ==> Count(ls, Control) <= APPLY_BOUND
    ensures ss[0].ctrl == Restore(0, Raise) ==> Count(ls, Control) <= RESTORE_BOUND
    decreases |ls|
  {
    if ls != [] {
      var n := |ls| - 1;
      Shorter(ss, ls);
      ControllerBounded(ss[..|ls|], ls[..n]);
      assert Moves(ss[n], ls[n], ss[n + 1]);
      ControllerMove(ss[n], ls[n], ss[n + 1]);
    }
  }

  /** The same for every handler, whatever the controller and the other threads do. */
  lemma {:induction false} HandlerBounded(ss: seq<State>, ls: seq<Label>, t: Tid)
    requires Stretch(ss, ls) && t in ss[0].threads && !ss[0].threads[t].Done?
    requires forall k | 0 <= k < |ls| :: t in ss[k].threads && !ss[k].threads[t].Done?
    ensures Shape(ss[|ls|]) && t in ss[|ls|].threads
    ensures Count(ls, Thread(t)) + ThreadLeft(ss[|ls|].threads[t]) <= ThreadLeft(ss[0].threads[t]) <= HANDLER_BOUND
    decreases |ls|
  {
    if ls != [] {
      var n := |ls| - 1;
      Shorter(ss, ls);
      HandlerBounded(ss[..|ls|], ls[..n], t);
      assert Moves(ss[n], ls[n], ss[n + 1]);
      HandlerMove(ss[n], ls[n], ss[n + 1], t);
    } else {
      HandlerAdvances(ss[0].data, ss[0].lock.Some?, ss[0].threads[t]);
    }
  }
}
