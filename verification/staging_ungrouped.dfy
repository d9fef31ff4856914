/** A run in which one apply takes the later of two param_set requests and leaves the earlier one for the next cycle. */
module StagingUngrouped {
  import opened Words
  import opened AtomicStaging
  import opened StagingSystem
  import opened StagingProgress
  import opened StagingTheorems
  import opened StagingAlone
  import opened StagingApply
  import opened Uninterrupted

  function Last(ss: seq<State>): State
    requires ss != []
  {
    ss[|ss| - 1]
  }

  lemma NextIsShaped(s: State, l: Label)
    requires Shape(s) && Enabled(s, l)
    ensures Shape(Next(s, l))
  {
    hide ThreadData, ThreadPc, CtrlData, CtrlPc, IsFinite;
  }

  /** A run continued by one step. */
  lemma More(m: Model, ss: seq<State>, ls: seq<Label>, l: Label) returns (ss': seq<State>, ls': seq<Label>)
    requires IsRun(m, ss, ls) && Enabled(Last(ss), l)
    ensures Shape(Last(ss)) && Shape(Next(Last(ss), l))
    ensures ss' == ss + [Next(Last(ss), l)] && ls' == ls + [l] && IsRun(m, ss', ls')
  {
    hide Next, Enabled, Shape;
    var n := |ls|;
    LastIsShaped(m, ss, ls);
    NextIsShaped(Last(ss), l);
    ss', ls' := ss + [Next(Last(ss), l)], ls + [l];
    forall k | 0 <= k < |ls'| ensures Moves(ss'[k], ls'[k], ss'[k + 1]) {
      if k < n {
        assert Moves(ss[k], ls[k], ss[k + 1]);
      }
    }
  }

  lemma LastIsShaped(m: Model, ss: seq<State>, ls: seq<Label>)
    requires IsRun(m, ss, ls)
    ensures Shape(Last(ss))
  {
    if |ls| > 0 {
      RunStep(m, ss, ls, |ls| - 1);
    }
  }

  /** One own operation of a param_set. */
  lemma SetOp(s: State, t: Tid)
    requires Shape(s) && Enabled(s, Thread(t)) && (s.threads[t].SetTry? ==> s.lock.None?)
    requires var pc := s.threads[t]; pc.SetTry? || pc.SetStore? || pc.SetFlag? || pc.SetUnlock?
    ensures var s', pc, pc' := Next(s, Thread(t)), s.threads[t], ThreadPc(s.data, false, s.threads[t]);
            && s'.data == ThreadData(s.data, pc) && t in s'.threads && s'.threads[t] == pc'
            && s'.ctrl == s.ctrl && (pc.SetUnlock? ==> s'.lock.None?)
            && (pc'.Done? ==> pc'.reply.code.Accepted?)
  {
  }

  /** A run of a param_set that is alone from some position on. */
  lemma {:induction false} SetRuns(m: Model, ss: seq<State>, ls: seq<Label>, t: Tid)
    returns (ss': seq<State>, ls': seq<Label>)
    requires IsRun(m, ss, ls) && t in Last(ss).threads
    requires var pc := Last(ss).threads[t]; pc.SetTry? || pc.SetStore? || pc.SetFlag? || pc.SetUnlock?
    requires Last(ss).threads[t].SetTry? ==> Last(ss).lock.None?
    ensures IsRun(m, ss', ls') && ss <= ss' && ls <= ls' && Shape(Last(ss))
    ensures |ls'| == |ls| + SetLeft(Last(ss).threads[t])
    ensures var s, s' := Last(ss), Last(ss');
            && s'.data == FinishHandler(s.data, s.threads[t]) && s'.ctrl == s.ctrl && s'.lock.None?
            && t in s'.threads && s'.threads[t].Done? && s'.threads[t].reply.code.Accepted?
    ensures forall k | |ls| <= k <= |ls'| :: ss'[k].ctrl == Last(ss).ctrl
    decreases SetLeft(Last(ss).threads[t])
  {
    hide FinishHandler, ThreadData, Next, Shape, IsRun;
    RunLength(m, ss, ls);
    LastIsShaped(m, ss, ls);
    var s := Last(ss);
    var ss1, ls1 := More(m, ss, ls, Thread(t));
    SetOp(s, t);
    SetAdvances(s.data, s.threads[t]);
    if s.threads[t].SetUnlock? {
      ss', ls' := ss1, ls1;
    } else {
      ss', ls' := SetRuns(m, ss1, ls1, t);
    }
  }

  lemma RunLength(m: Model, ss: seq<State>, ls: seq<Label>)
    requires IsRun(m, ss, ls)
    ensures |ss| == |ls| + 1
  {
  }

  /** Operations a param_set in its critical section or about to enter it still has. */
  function SetLeft(pc: Pc): nat {
    match pc
    case SetTry(_, _) => 7
    case SetStore(_, _, phase) => StoreLeft(phase) + 2
    case SetFlag(_, _) => 2
    case SetUnlock(_) => 1
    case _ => 0
  }

  lemma SetAdvances(d: Data, pc: Pc)
    requires DataShape(d) && PcShape(pc) && (pc.SetTry? || pc.SetStore? || pc.SetFlag? || pc.SetUnlock?)
    ensures var pc' := ThreadPc(d, false, pc);
            && (if pc.SetUnlock? then pc'.Done? && pc'.reply.code.Accepted?
                else SetLeft(pc') == SetLeft(pc) - 1 && (pc'.SetStore? || pc'.SetFlag? || pc'.SetUnlock?))
            && FinishHandler(d, pc) == FinishHandler(ThreadData(d, pc), pc')
            && (pc.SetUnlock? ==> FinishHandler(d, pc) == ThreadData(d, pc))
  {
    HandlerStep(d, pc);
  }

  /** A whole param_set, from request to reply in eight steps. */
  lemma ParamSetRuns(m: Model, ss: seq<State>, ls: seq<Label>, t: Tid, i: nat, v: Double)
    returns (ss': seq<State>, ls': seq<Label>)
    requires IsRun(m, ss, ls) && Last(ss).lock.None? && i < PARAMS && IsFinite(v)
    requires t !in Last(ss).threads || Last(ss).threads[t].Done?
    ensures IsRun(m, ss', ls') && ss <= ss' && ls <= ls' && |ls'| == |ls| + 8 && ls'[|ls|] == Begin(t, SetTry(i, v))
    ensures Shape(Last(ss)) && Last(ss').data == StageValue(Last(ss).data, i, v)
    ensures Last(ss').ctrl == Last(ss).ctrl && Last(ss').lock.None?
    ensures t in Last(ss').threads && Last(ss').threads[t].Done? && Last(ss').threads[t].reply.code.Accepted?
    ensures forall k | |ls| <= k <= |ls'| :: ss'[k].ctrl == Last(ss).ctrl
  {
    hide FinishHandler, IsRun, IsFinite, StageValue;
    RunLength(m, ss, ls);
    LastIsShaped(m, ss, ls);
    var ss1, ls1 := More(m, ss, ls, Begin(t, SetTry(i, v)));
    RunLength(m, ss1, ls1);
    ss', ls' := SetRuns(m, ss1, ls1, t);
    AloneIsStageValue(Last(ss).data, i, v);
  }

  /** The controller alone, back to the cycle boundary. */
  lemma {:induction false} ControllerRuns(m: Model, ss: seq<State>, ls: seq<Label>)
    returns (ss': seq<State>, ls': seq<Label>)
    requires IsRun(m, ss, ls)
    ensures IsRun(m, ss', ls') && ss <= ss' && ls <= ls' && Shape(Last(ss))
    ensures Last(ss').ctrl.Off? && Last(ss').data == Finish(Last(ss).data, Last(ss).ctrl)
    ensures forall k | |ls| <= k < |ls'| :: !ss'[k].ctrl.Off?
    decreases var c := Last(ss).ctrl; if CtrlShape(c) then CtrlLeft(c) else 0
  {
    hide CtrlData, CtrlPc, IsRun;
    LastIsShaped(m, ss, ls);
    RunLength(m, ss, ls);
    var s := Last(ss);
    if s.ctrl.Off? {
      ss', ls' := ss, ls;
    } else {
      ControllerAdvances(s.data, s.ctrl);
      FinishStep(s.data, s.ctrl);
      var ss1, ls1 := More(m, ss, ls, Control);
      ss', ls' := ControllerRuns(m, ss1, ls1);
    }
  }

  /** Parameters that are not flagged do not matter to apply. */
  lemma {:induction false} SkipsUnflagged(d: Data, n: nat)
    requires DataShape(d) && n <= PARAMS && forall i | n <= i < PARAMS :: !d.flags[i]
    ensures Finish(d, if n < PARAMS then TestFlag(n) else TestMission) == Finish(d, TestMission)
    decreases PARAMS - n
  {
    hide Finish;
    if n < PARAMS {
      ValueFinishes(d, n);
      SkipsUnflagged(d, n + 1);
    }
  }

  /** Two requests staged where nothing was flagged. */
  lemma BothStaged(d: Data, v: Double, w: Double)
    requires DataShape(d) && (forall i | 0 <= i < PARAMS :: !d.flags[i]) && d.pend[1].Settled()
    ensures var e := StageValue(StageValue(d, 0, v), 1, w);
            && e.model == d.model && e.mission == d.mission
            && e.flags[0] && e.flags[1] && (forall i | 2 <= i < PARAMS :: !e.flags[i])
            && e.pend[1].Settled() && e.pend[1].Value() == w
  {
    JoinOfSplit(w);
  }

  /** An apply that has passed parameter 0 takes 1 and leaves 0 as it is. */
  lemma PassedZero(e: Data, w: Double)
    requires DataShape(e) && !e.mission && e.flags[1] && (forall i | 2 <= i < PARAMS :: !e.flags[i])
    requires e.pend[1].Settled() && e.pend[1].Value() == w
    ensures var d' := Finish(e, TestFlag(1));
            && DataShape(d') && d'.model.leaf[0] == e.model.leaf[0] && d'.flags[0] == e.flags[0]
            && d'.model.leaf[1] == d'.model.mirror[1] == w && !d'.flags[1]
  {
    ValueFinishes(e, 1);
    var f := ApplyOne(e, 1);
    SkipsUnflagged(f, 2);
    MissionFinishes(f);
    hide Finish;
  }

  /** Requests are not grouped: param_set of parameter 0 and then of parameter 1 are accepted while apply is between the
      two, and the apply ends with 1 taken and 0 left for the next cycle. */
  lemma LaterTakenEarlierLeft(m: Model, v: Double, w: Double) returns (ss: seq<State>, ls: seq<Label>)
    requires ModelShape(m) && m.leaf == m.mirror && IsFinite(v) && IsFinite(w)
    ensures IsRun(m, ss, ls) && 18 < |ls| && ApplyCall(ss, ls, 1, |ls|)
    ensures ls[2] == Begin(0, SetTry(0, v)) && ls[10] == Begin(0, SetTry(1, w))
    ensures 0 in ss[10].threads && ss[10].threads[0].Done? && ss[10].threads[0].reply.code.Accepted?
    ensures 0 in ss[18].threads && ss[18].threads[0].Done? && ss[18].threads[0].reply.code.Accepted?
    ensures DataShape(ss[|ls|].data)
    ensures var d := ss[|ls|].data;
            && d.model.leaf[0] == m.leaf[0] && d.flags[0]
            && d.model.leaf[1] == d.model.mirror[1] == w && !d.flags[1]
  {
    hide IsFinite, Finish, StageValue, IsRun, InitData;
    var ss0, ls0 := PastZero(m);
    var d := Last(ss0).data;
    var ss1, ls1 := ParamSetRuns(m, ss0, ls0, 0, 0, v);
    RunLength(m, ss1, ls1);
    var ss2, ls2 := ParamSetRuns(m, ss1, ls1, 0, 1, w);
    RunLength(m, ss2, ls2);
    BothStaged(d, v, w);
    PassedZero(Last(ss2).data, w);
    ss, ls := ControllerRuns(m, ss2, ls2);
    RunLength(m, ss, ls);
    assert ss[10] == Last(ss1) && ss[18] == Last(ss2) && ss[1] == ss0[1] && ss[2] == ss0[2];
    LastIsShaped(m, ss, ls);
  }

  /** An apply from the initial state that has looked at the flag of parameter 0. */
  lemma PastZero(m: Model) returns (ss: seq<State>, ls: seq<Label>)
    requires ModelShape(m) && m.leaf == m.mirror
    ensures IsRun(m, ss, ls) && |ls| == 2 && |ss| == 3
    ensures ss[1].ctrl == TestFlag(0) && Last(ss).ctrl == TestFlag(1)
    ensures Last(ss).lock.None? && Last(ss).threads == map[]
    ensures var d := Last(ss).data;
            && DataShape(d) && d.model == m && !d.mission
            && (forall i | 0 <= i < PARAMS :: !d.flags[i]) && d.pend[1].Settled()
  {
    StartsRun(m);
    PassesZero(m);
    ss, ls := More(m, [InitState(m)], [], StartApply);
    ss, ls := More(m, ss, ls, Control);
    hide IsRun;
  }

  lemma StartsRun(m: Model)
    requires ModelShape(m) && m.leaf == m.mirror
    ensures IsRun(m, [InitState(m)], [])
  {
  }

  lemma PassesZero(m: Model)
    requires ModelShape(m)
    ensures var d := InitData(m);
            && CtrlData(d, TestFlag(0)) == d && CtrlPc(d, TestFlag(0)) == TestFlag(1)
            && (forall i | 0 <= i < PARAMS :: !d.flags[i]) && !d.mission && d.pend[1].Settled() && d.model == m
  {
    var d := InitData(m);
    assert d.flags[0 := false] == d.flags;
  }
}
