/** Every write can complete: from any state with one under way a bounded path leads to its return. */
module Progress {
  import opened Bytes
  import opened Bags
  import opened Stack
  import opened StackInv
  import opened StackSteps
  import opened Token
  import opened Termination
  import opened Paths
  import Ownership
  import Packet
  import Radio

  // ---------- what a write waits for comes to an end ----------

  function CfgRank(cfgs: seq<CfgThread>): nat
  {
    if cfgs == [] then 0 else if cfgs[0].CfgInSync? then 2 else 1
  }

  /** How far what a write may wait for is from its end: the transmission below, the configuration
      thread, the callbacks that run, the start of the window timer. */
  function Ahead(s: State): nat
  {
    LowRank(LowWhere(s)) + CfgRank(s.cfgs) + B(s.sack.timer.running) + B(s.lpl.timer.running) + B(s.startPending)
  }

  lemma AheadBounded(s: State)
    ensures Ahead(s) <= 22
  {
  }

  /** A step of the transmission below leaves the rest of what is waited for alone. */
  lemma LowKeeps(s: State, t: Step)
    requires Enabled(s, t) && (t.Low? || t.TxDone? || t.Sfd?)
    ensures var s' := Apply(s, t);
            && s'.cfgs == s.cfgs && s'.sack.timer.running == s.sack.timer.running
            && s'.lpl == s.lpl && s'.startPending == s.startPending
  {
    hide Memcpy, ApplyUp, ApplyRx, ApplyTimer, ApplyWrite, Packet.RequiresAck, Radio.UnlockSpi, Radio.UnlockSfd;
    if t.Low? { assert Apply(s, t) == ApplyLow(s, t.i); } else { assert Apply(s, t) == ApplyTx(s, t); }
  }

  lemma LowThere(s: State, t: Step)
    requires Enabled(s, t) && OwnLow(s, t)
    ensures !LowWhere(s).Nowhere?
  {
  }

  /** A step that ends a wait brings what is waited for nearer to its end. */
  lemma AheadFalls(s: State, t: Step)
    requires Inv(s) && Enabled(s, t) && Unblocks(s, t)
    ensures Ahead(Apply(s, t)) < Ahead(s)
  {
    if OwnLow(s, t) {
      hide Inv, Enabled, Apply, LowWhere, LowRank;
      LowThere(s, t);
      TransmissionFalls(s, t);
      LowKeeps(s, t);
    } else {
      hide Transmit, Latched, Receive, RxMsgs, LogOk, SackTimer, LplTimer, Carried, LowRank;
      OtherFalls(s, t);
    }
  }

  lemma OtherFalls(s: State, t: Step)
    requires Enabled(s, t) && Unblocks(s, t) && !OwnLow(s, t) && |s.cfgs| == B(s.radio.state.Config?)
    ensures Ahead(Apply(s, t)) < Ahead(s)
  {
    hide LowRank;
    assert LowWhere(Apply(s, t)) == LowWhere(s);
  }

  /** The write of f has returned. */
  predicate Done(s: State, f: Frame)
  {
    s.waiting == [] && s.log != [] && s.log[|s.log| - 1].Returned? && s.log[|s.log| - 1].frame == f
  }

  /** Only a return takes the last write away. */
  lemma EndsByReturn(s: State, t: Step)
    requires Inv(s) && Enabled(s, t) && s.waiting != [] && Apply(s, t).waiting == []
    ensures Done(Apply(s, t), s.waiting[0])
  {
    hide Inv, Enabled, Apply, EnabledWrite, Ownership.Frames;
    WriteAlone(s);
    Ownership.FramesHold(s, t);
    WaitingFrame(s, t, Apply(s, t));
    ReturnLogged(s, t);
  }

  lemma WaitingFrame(s: State, t: Step, s': State)
    requires Ownership.Frames(s, t, s') && s'.waiting != s.waiting
    ensures EnabledWrite(s, t)
  {
  }

  lemma WriteAlone(s: State)
    requires Inv(s)
    ensures |s.txMsgs| <= 1 && |s.waiting| <= 1
  {
    hide Transmit, Latched, Receive, RxMsgs, LogOk, SackTimer, LplTimer, Carried;
  }

  lemma ReturnLogged(s: State, t: Step)
    requires Enabled(s, t) && EnabledWrite(s, t) && |s.waiting| == 1 && Apply(s, t).waiting == []
    ensures Done(Apply(s, t), s.waiting[0])
  {
    hide Memcpy;
  }

  // ---------- a closing write ----------

  lemma {:induction false} ClosingCompletes(s: State) returns (ts: seq<Step>, s': State)
    requires Inv(s) && Closing(s)
    ensures Leads(s, ts, s') && Done(s', s.waiting[0]) && |ts| <= 1 + 23 * Rank(Where(s)) + Ahead(s)
    decreases Rank(Where(s)), Ahead(s)
  {
    hide Inv, Enabled, Apply, Where, Rank, Ahead, Own, Unblocks;
    assert s.waiting != [] by { ClosingWaits(s); }
    var t := NeverStuck(s);
    var m := Apply(s, t);
    StepPreserves(s, t);
    ClosingStep(s, t);
    AheadBounded(m);
    if !Own(s, t) { AheadFalls(s, t); }
    if m.waiting == [] {
      EndsByReturn(s, t);
      ts, s' := [t], m;
      assert [t][1..] == [];
    } else {
      SameFrame(s, t);
      var rest;
      rest, s' := ClosingCompletes(m);
      ts := [t] + rest;
      assert ts[1..] == rest;
    }
  }

  lemma ClosingWaits(s: State)
    requires Closing(s)
    ensures s.waiting != []
  {
  }

  /** The write under way stays the same until it returns. */
  lemma SameFrame(s: State, t: Step)
    requires Inv(s) && Enabled(s, t) && s.waiting != [] && Apply(s, t).waiting != []
    ensures Apply(s, t).waiting == s.waiting
  {
    hide ApplyUp, ApplyLow, ApplyTx, ApplyRx, ApplyTimer, ApplyWrite, Transmit, Latched, Receive, RxMsgs, LogOk,
         SackTimer, LplTimer, Carried, Ownership.FillsTx, Ownership.UsesRx;
    Ownership.FramesHold(s, t);
    if EnabledWrite(s, t) && !t.Up? && !t.Low? { NoSecond(s, t); }
  }

  lemma NoSecond(s: State, t: Step)
    requires EnabledWrite(s, t) && |s.copying| == 0 && |s.waiting| == 1 && ApplyWrite(s, t).waiting != []
    ensures ApplyWrite(s, t).waiting == s.waiting
  {
    hide Memcpy;
  }

  // ---------- an open window ----------

  /** How far the window is from closing. */
  function WindowRank(s: State): nat
  {
    if s.up == [LplTx] then 5 else if s.up == [LplCopy] then 4
    else if s.lpl.timer.running then 1 else if s.lpl.timer.armed then 2 else 3
  }

  /** The next step towards the end of the window. */
  lemma WindowStep(s: State) returns (t: Step)
    requires Inv(s) && s.waiting != [] && !Closing(s)
    ensures Enabled(s, t) && var m := Apply(s, t);
            m.waiting == s.waiting && (Closing(m) || WindowRank(m) < WindowRank(s))
  {
    hide Transmit, Latched, Receive, RxMsgs, LogOk, SackTimer, CarriesBelow, Heard, Sent, Last, Replied, LowAt,
         Memcpy;
    if s.up != [] { Alone(s, 0); }
    if s.up == [LplTx] || s.up == [LplCopy] {
      t := Up(0);
    } else if s.lpl.timer.running {
      t := LplExpire;
    } else if s.lpl.timer.armed {
      t := LplFire;
    } else {
      t := LplStart;
    }
  }

  /** Whatever the driver is doing, a write under way can complete: at most 649 steps lead to its return,
      past its window, CSMA, the ACK transmission ahead of it and the configuration thread that holds
      the radio. */
  lemma {:induction false} Completes(s: State) returns (ts: seq<Step>, s': State)
    requires Inv(s) && s.waiting != []
    ensures Leads(s, ts, s') && Done(s', s.waiting[0])
    ensures |ts| <= 644 + (if Closing(s) then 0 else WindowRank(s)) <= 649
    decreases if Closing(s) then 0 else WindowRank(s)
  {
    hide Inv, Enabled, Apply, Where, Rank, Ahead, Closing;
    if Closing(s) {
      ts, s' := ClosingCompletes(s);
      RankBounded(Where(s));
      AheadBounded(s);
    } else {
      var t := WindowStep(s);
      StepPreserves(s, t);
      var rest;
      rest, s' := Completes(Apply(s, t));
      ts := [t] + rest;
      assert ts[1..] == rest;
    }
  }

  /** ... from every state of every run. */
  lemma WritesComplete(run: seq<State>, steps: seq<Step>, k: nat) returns (ts: seq<Step>, s': State)
    requires IsRun(run, steps) && k < |run| && run[k].waiting != []
    ensures Leads(run[k], ts, s') && Done(s', run[k].waiting[0]) && |ts| <= 649
  {
    hide Inv, Enabled, Apply, Leads, Done;
    RunInv(run, steps, k);
    ts, s' := Completes(run[k]);
  }

  // ---------- a configuration thread ----------

  /** What stands between a configuration thread and a radio that is taken. */
  lemma RadioMoves(s: State) returns (t: Step)
    requires Inv(s) && !s.radio.state.Idle?
    ensures Enabled(s, t) && Unblocks(s, t)
  {
    if s.radio.state.Config? {
      assert |s.cfgs| == 1 by {
        hide Transmit, Latched, Receive, RxMsgs, LogOk, SackTimer, LplTimer, Carried;
      }
      t := if s.cfgs[0].CfgInSync? then CfgDone(0) else CfgUnlock(0);
    } else {
      assert s.sack.state.Tx? || s.sack.state.TxAck? by {
        hide Receive, RxMsgs, LogOk, SackTimer, LplTimer;
      }
      t := LowProceeds(s);
    }
  }

  /** A configuration thread that spins for the radio can get it: from every state at most 23 steps lead to
      its having the radio, alone, whoever has it now. */
  lemma {:induction false} ConfigGetsRadio(s: State) returns (ts: seq<Step>, s': State)
    requires Inv(s)
    ensures Leads(s, ts, s') && 0 < |ts| <= Ahead(s) + 1 <= 23 && ts[|ts| - 1] == CfgLock
    ensures s'.radio.state.Config? && s'.cfgs == [CfgRunning]
    decreases Ahead(s)
  {
    hide Inv, Enabled, Apply, Ahead, Unblocks;
    AheadBounded(s);
    if s.radio.state.Idle? {
      ConfigTakes(s);
      ts, s' := [CfgLock], Apply(s, CfgLock);
      assert ts[1..] == [];
    } else {
      var t := RadioMoves(s);
      StepPreserves(s, t);
      AheadFalls(s, t);
      var rest;
      rest, s' := ConfigGetsRadio(Apply(s, t));
      ts := [t] + rest;
      assert ts[1..] == rest;
    }
  }

  lemma ConfigTakes(s: State)
    requires Inv(s) && s.radio.state.Idle?
    ensures Enabled(s, CfgLock)
    ensures var m := Apply(s, CfgLock); m.radio.state.Config? && m.cfgs == [CfgRunning]
  {
    hide Transmit, Latched, Receive, RxMsgs, LogOk, SackTimer, LplTimer, Carried;
  }

  // ---------- what leaves no trace ----------

  /** A configuration thread that takes the radio, sends any number of messages and unlocks it. */
  function ConfigSteps(n: nat, i: nat): seq<Step>
  {
    if n == 0 then [CfgUnlock(i)] else [CfgSync(i), CfgDone(i)] + ConfigSteps(n - 1, i)
  }

  lemma {:induction false} ConfigReturns(s: State, m: State, n: nat)
    requires s.radio.state.Idle?
    requires m == s.(radio := s.radio.(state := Radio.Config), cfgs := s.cfgs + [CfgRunning])
    ensures Leads(m, ConfigSteps(n, |s.cfgs|), s)
  {
    var i := |s.cfgs|;
    if n == 0 {
      ConfigEnds(s, m);
      assert [CfgUnlock(i)][1..] == [];
    } else {
      hide Enabled, Apply;
      ConfigReturns(s, m, n - 1);
      ConfigRound(m, i);
      var rest := ConfigSteps(n - 1, i);
      LeadsOn(m, [CfgSync(i), CfgDone(i)], m, rest, s);
    }
  }

  lemma ConfigEnds(s: State, m: State)
    requires s.radio.state.Idle?
    requires m == s.(radio := s.radio.(state := Radio.Config), cfgs := s.cfgs + [CfgRunning])
    ensures Enabled(m, CfgUnlock(|s.cfgs|)) && Apply(m, CfgUnlock(|s.cfgs|)) == s
  {
    assert m.cfgs[..|s.cfgs|] + m.cfgs[|s.cfgs| + 1..] == s.cfgs;
  }

  lemma ConfigRound(m: State, i: nat)
    requires i < |m.cfgs| && m.cfgs[i].CfgRunning?
    ensures Leads(m, [CfgSync(i), CfgDone(i)], m)
  {
    var m1 := Apply(m, CfgSync(i));
    assert m1 == m.(cfgs := m.cfgs[i := CfgInSync]);
    assert Apply(m1, CfgDone(i)) == m by { assert m1.cfgs[i := CfgRunning] == m.cfgs; }
    assert [CfgSync(i), CfgDone(i)][1..] == [CfgDone(i)] && [CfgDone(i)][1..] == [];
  }

  /** Whatever else is going on, start, on or off, with however many messages to the chip, leaves the driver
      as it found it. */
  lemma ConfigLeavesNoTrace(s: State, n: nat)
    requires s.radio.state.Idle?
    ensures Leads(s, [CfgLock] + ConfigSteps(n, |s.cfgs|), s)
  {
    var m := Apply(s, CfgLock);
    assert m == s.(radio := s.radio.(state := Radio.Config), cfgs := s.cfgs + [CfgRunning]);
    hide Enabled, Apply;
    ConfigReturns(s, m, n);
    assert ([CfgLock] + ConfigSteps(n, |s.cfgs|))[1..] == ConfigSteps(n, |s.cfgs|);
  }

  /** A write that finds the write lock free and faults leaves the driver as it found it. */
  lemma FaultLeavesNoTrace(s: State, f: Frame)
    requires s.iface.txSem > 0
    ensures Leads(s, [WriteBegin(f), WriteFault(|s.copying|)], s)
  {
    var m := Apply(s, WriteBegin(f));
    assert m == s.(iface := s.iface.(txSem := s.iface.txSem - 1), copying := s.copying + [f]);
    assert Apply(m, WriteFault(|s.copying|)) == s by {
      assert m.copying[..|s.copying|] + m.copying[|s.copying| + 1..] == s.copying;
    }
    assert [WriteBegin(f), WriteFault(|s.copying|)][1..] == [WriteFault(|s.copying|)];
    assert [WriteFault(|s.copying|)][1..] == [];
  }
}
