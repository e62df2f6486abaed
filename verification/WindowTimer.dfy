/** Whose window timer it is: lpl.c starts it only after the frame was handed down, so the session may
    be over by then. */
module WindowTimer {
  import opened Bytes
  import opened Stack
  import opened StackInv
  import opened StackSteps
  import Csma
  import Interface
  import Outcome
  import Ownership
  import Packet
  import Paths
  import Results

  /** The window timer is off, or the open session or the cancel at its end owns it. */
  predicate Owned(s: State) { s.lpl.timer == OFF || s.lpl.state.Tx? || s.up == [LplAcked] }

  /** The timer is started though the session it was meant for is over. */
  predicate LateStart(s: State, t: Step) { t.LplStart? && !s.lpl.state.Tx? && s.up != [LplAcked] }

  /** The timer is off until the session has started it, and owned from then on. */
  predicate InStep(s: State)
  {
    && (s.lpl.timer != OFF ==> !s.startPending && s.up != [LplTx] && s.up != [LplCopy])
    && !(s.lpl.timer.armed && s.lpl.timer.running) && Owned(s)
  }

  lemma CallKeepsStep(s: State)
    requires |s.up| == 1 && EnabledUp(s, 0) && InStep(s)
    requires s.up[0].LplTx? || s.up[0].LplCopy? ==> !s.startPending
    ensures InStep(ApplyUp(s, 0))
  {
    hide Memcpy, Packet.RequiresAck, Csma.OnTx, Csma.OnCopy, Csma.OnTxDone, Interface.OnTxDone;
    match s.up[0]
    case LplTx => assert InStep(ApplyUp(s, 0));
    case LplCopy => assert InStep(ApplyUp(s, 0));
    case CsmaTx(_, _) => assert InStep(ApplyUp(s, 0));
    case CsmaCopy(_, _) => assert InStep(ApplyUp(s, 0));
    case SackTx(_, _) => assert InStep(ApplyUp(s, 0));
    case SackAcked => assert InStep(ApplyUp(s, 0));
    case CsmaDone(_) => assert InStep(ApplyUp(s, 0));
    case LplDone(_) => assert InStep(ApplyUp(s, 0));
    case LplAcked => assert InStep(ApplyUp(s, 0));
    case IfaceDone(_) => assert InStep(ApplyUp(s, 0));
  }

  lemma CallInStep(s: State, i: nat)
    requires Inv(s) && EnabledUp(s, i) && InStep(s)
    ensures InStep(ApplyUp(s, i))
  {
    hide Transmit, Latched, Receive, RxMsgs, LogOk, SackTimer, CarriesAbove, CarriesBelow, Last, Replied, Heard, Sent,
         ApplyUp, InStep;
    Alone(s, i);
    CallKeepsStep(s);
  }

  lemma TimerInStep(s: State, t: Step)
    requires Inv(s) && EnabledTimer(s, t) && (t.LplStart? || t.LplFire? || t.LplExpire?)
    requires InStep(s) && !LateStart(s, t)
    ensures InStep(ApplyTimer(s, t))
  {
    hide Transmit, Latched, Receive, RxMsgs, LogOk, SackTimer, CarriesBelow, Last, Replied, Heard, Sent;
  }

  lemma OtherInStep(s: State, t: Step)
    requires Inv(s) && Enabled(s, t) && !t.Up? && !t.LplStart? && !t.LplFire? && !t.LplExpire? && InStep(s)
    ensures InStep(Apply(s, t))
  {
    hide Apply, Transmit, Latched, Receive, RxMsgs, LogOk, SackTimer, CarriesAbove, CarriesBelow, Last, Replied,
         Heard, Sent;
    Outcome.BesideHolds(s, t);
    var s' := Apply(s, t);
    if s.up != [] {
      Outcome.CallStays(s, t);
      Alone(s, 0);
      assert |s'.up| == 1 by { StepPreserves(s, t); Alone(s', 0); }
      assert s'.up == s.up;
    } else if t.WriteCopy? {
      assert s.waiting == [] && s.lpl.timer == OFF;
    }
  }

  lemma StaysInStep(s: State, t: Step)
    requires Inv(s) && Enabled(s, t) && InStep(s) && !LateStart(s, t)
    ensures InStep(Apply(s, t))
  {
    hide Inv, InStep, LateStart, ApplyUp, ApplyTimer;
    if t.Up? {
      CallInStep(s, t.i);
    } else if t.LplStart? || t.LplFire? || t.LplExpire? {
      TimerInStep(s, t);
    } else {
      OtherInStep(s, t);
    }
  }

  lemma {:induction false} RunsInStep(run: seq<State>, steps: seq<Step>, k: nat)
    requires IsRun(run, steps) && k < |run| && forall i :: 0 <= i < k ==> !LateStart(run[i], steps[i])
    ensures InStep(run[k])
  {
    hide Inv, Enabled, Apply, LateStart;
    if k > 0 {
      RunsInStep(run, steps, k - 1);
      RunInv(run, steps, k - 1);
      StaysInStep(run[k - 1], steps[k - 1]);
    }
  }

  lemma LateIsStale(s: State, t: Step)
    requires Enabled(s, t) && LateStart(s, t)
    ensures !Owned(Apply(s, t))
  {
  }

  /** The window timer stops belonging to the session under way exactly where it is started late. */
  lemma LateStartsOnly(run: seq<State>, steps: seq<Step>, k: nat)
    requires IsRun(run, steps) && k < |run|
    ensures (forall i :: 0 <= i <= k ==> Owned(run[i])) <==> (forall i :: 0 <= i < k ==> !LateStart(run[i], steps[i]))
  {
    hide Enabled, Apply, LateStart, Owned;
    if forall i :: 0 <= i < k ==> !LateStart(run[i], steps[i]) {
      forall i | 0 <= i <= k ensures Owned(run[i]) {
        RunsInStep(run, steps, i);
      }
    } else {
      var i :| 0 <= i < k && LateStart(run[i], steps[i]);
      LateIsStale(run[i], steps[i]);
      assert !Owned(run[i + 1]);
    }
  }

  // ---------- no late start ----------

  /** With low power listening on, the write under way asks for no ACK. */
  predicate NoAckAwaited(s: State)
  {
    !s.lpl.enabled || (s.waiting != [] ==> !Packet.RequiresAck(s.waiting[0]))
  }

  /** As InStep, and the session stays open until its timer is started. */
  predicate OnTime(s: State)
  {
    InStep(s) && (s.startPending || s.up == [LplCopy] ==> s.lpl.state.Tx?)
  }

  lemma CallOnTime(s: State, i: nat)
    requires Inv(s) && EnabledUp(s, i) && OnTime(s) && NoAckAwaited(s)
    ensures OnTime(ApplyUp(s, i))
  {
    hide Inv, Carried, ApplyUp, InStep, NoAckAwaited, CallOk;
    CallInStep(s, i);
    Alone(s, i);
    if s.up[0].LplDone? && s.lpl.enabled { DoneKeepsOpen(s); } else { CallKeepsOpen(s); }
  }

  lemma CallKeepsOpen(s: State)
    requires Inv(s) && |s.up| == 1 && EnabledUp(s, 0) && OnTime(s) && !(s.up[0].LplDone? && s.lpl.enabled)
    ensures var s' := ApplyUp(s, 0); s'.startPending || s'.up == [LplCopy] ==> s'.lpl.state.Tx?
  {
    hide Transmit, Latched, Receive, RxMsgs, LogOk, SackTimer, CarriesBelow, Last, Replied, Heard, Sent, Memcpy,
         Packet.RequiresAck, Counts;
    assert CallOk(s.iface, s.lpl, s.csma, FactsOf(s.log, s.waiting[0]), s.waiting[0], s.up[0]) by { Alone(s, 0); }
  }

  /** A report that comes while the timer is still to be started finds the window open. */
  lemma DoneKeepsOpen(s: State)
    requires Inv(s) && |s.up| == 1 && s.up[0].LplDone? && s.lpl.enabled && OnTime(s) && NoAckAwaited(s)
    ensures var s' := ApplyUp(s, 0); s'.startPending || s'.up == [LplCopy] ==> s'.lpl.state.Tx?
  {
    hide Inv, InStep, Memcpy, Packet.RequiresAck;
    Paths.LplBuffer(s);
  }

  lemma StaysOnTime(s: State, t: Step)
    requires Inv(s) && Enabled(s, t) && OnTime(s) && NoAckAwaited(s)
    ensures OnTime(Apply(s, t))
  {
    hide Inv, InStep, ApplyUp, ApplyTimer, NoAckAwaited;
    if t.Up? {
      CallOnTime(s, t.i);
    } else {
      StaysInStep(s, t);
      OtherKeepsOpen(s, t);
    }
  }

  lemma OtherKeepsOpen(s: State, t: Step)
    requires Inv(s) && Enabled(s, t) && OnTime(s) && !t.Up?
    ensures var s' := Apply(s, t); s'.startPending || s'.up == [LplCopy] ==> s'.lpl.state.Tx?
  {
    hide Inv, ApplyLow, ApplyTx, ApplyRx, ApplyWrite;
    Outcome.BesideHolds(s, t);
  }

  /** In every run in which low power listening is off, or no frame written so far asks for an ACK, the
      window timer belongs to the session under way and is never started late. */
  lemma {:induction false} TimerOnTime(run: seq<State>, steps: seq<Step>, k: nat)
    requires IsRun(run, steps) && k < |run| && forall i :: 0 <= i < k ==> NoAckAwaited(run[i])
    ensures Owned(run[k]) && OnTime(run[k]) && (k < |steps| ==> !LateStart(run[k], steps[k]))
  {
    hide Inv, Enabled, Apply, NoAckAwaited;
    if k > 0 {
      TimerOnTime(run, steps, k - 1);
      RunInv(run, steps, k - 1);
      StaysOnTime(run[k - 1], steps[k - 1]);
    }
    if k < |steps| { StartWhenPending(run[k], steps[k]); }
  }

  lemma StartWhenPending(s: State, t: Step)
    requires Enabled(s, t)
    ensures t.LplStart? ==> s.startPending
  {
  }

  // ---------- a late start ----------

  /** The first write has its ACK and only its return is left; the window timer is still to be started. */
  ghost predicate Overtaken(s: State, f: Frame)
  {
    && Inv(s) && s.lpl.enabled && s.startPending && s.lpl.timer == OFF && s.lpl.state.Idle?
    && s.up == [] && s.low == [] && s.copying == [] && s.waiting == [f] && s.iface.doneSem == 1
  }

  /** The ACK overtakes the start of the window timer. */
  lemma Overtake(f: Frame, csma: bool) returns (s: State, ts: seq<Step>, m: State)
    requires Packet.RequiresAck(f)
    ensures s == Apply(Paths.Fresh(Settings(true, csma)), WriteBegin(f)) && Paths.Leads(s, ts, m) && Overtaken(m, f)
    ensures Paths.NoneReturns(ts) && On(m) == Settings(true, csma)
  {
    hide Inv, Paths.Leads, Apply, Enabled, Init, Packet.RequiresAck;
    var on := Settings(true, csma);
    Paths.FreshReady(f, on);
    Results.FreshIdle(f, on);
    s := Apply(Paths.Fresh(on), WriteBegin(f));
    var t1, s1, src := Paths.Enter(s, f, on);
    var t2, s2, low := Paths.Pass(s1, f, on, src);
    Paths.LeadsOn(s, t1, s1, t2, s2);
    var t3, s3 := Results.SendOut(s2, f, on, low);
    Paths.LeadsOn(s, t1 + t2, s2, t3, s3);
    var t4, s4 := Results.HearAck(s3, f, on);
    Paths.LeadsOn(s, t1 + t2 + t3, s3, t4, s4);
    var t5, s5 := Paths.Rise(s4, f, on, TX_SUCCESS);
    Paths.LeadsOn(s, t1 + t2 + t3 + t4, s4, t5, s5);
    var t6, s6 := Paths.Settle(s5, f, on, TX_SUCCESS);
    Paths.LeadsOn(s, t1 + t2 + t3 + t4 + t5, s5, t6, s6);
    ts, m := t1 + t2 + t3 + t4 + t5 + t6, s6;
    Paths.LeadsInv(s, ts, m);
  }

  /** The timer started late runs out as soon as the next write has opened its window. */
  lemma CutShort(s: State, f: Frame, g: Frame) returns (ts: seq<Step>, s': State)
    requires Overtaken(s, f)
    ensures ts != [] && ts[0] == LplStart && LateStart(s, ts[0]) && Paths.Leads(s, ts, s')
    ensures s'.waiting == [g] && s'.up == [LplCopy] && s'.lpl.state.TimerExpired?
  {
    hide Inv;
    LocksFree(s);
    ts, s' := Paths.Then(s, [], s, LplStart);
    ts, s' := Paths.Then(s, ts, s', WriteEnd(0));
    ts, s' := Paths.Then(s, ts, s', WriteBegin(g));
    ts, s' := Paths.Then(s, ts, s', WriteCopy(0));
    ts, s' := Paths.Then(s, ts, s', Up(0));
    ts, s' := Paths.Then(s, ts, s', LplFire);
    ts, s' := Paths.Then(s, ts, s', LplExpire);
  }

  lemma LocksFree(s: State)
    requires Inv(s) && |s.waiting| == 1
    ensures s.iface.txSem == 0
  {
    hide Transmit, Latched, Receive, RxMsgs, LogOk, SackTimer, LplTimer, Carried;
  }

  /** Only f was written in the first k steps. */
  ghost predicate OnlyWrites(run: seq<State>, f: Frame, k: nat)
    requires k < |run|
  {
    forall i :: 0 <= i <= k ==> run[i].waiting == [] || run[i].waiting == [f]
  }

  /** Until a write returns, its frame is the only one written. */
  lemma {:induction false} FirstWrite(run: seq<State>, steps: seq<Step>, f: Frame, k: nat)
    requires IsRun(run, steps) && k < |run| && Paths.NoneReturns(steps[..k])
    requires run[k].waiting == [] || run[k].waiting == [f]
    ensures OnlyWrites(run, f, k)
  {
    hide Inv, Enabled, Apply;
    if k > 0 {
      assert steps[..k][k - 1] == steps[k - 1];
      assert forall i :: 0 <= i < k - 1 ==> steps[..k - 1][i] == steps[..k][i];
      RunInv(run, steps, k - 1);
      WaitingGrows(run[k - 1], steps[k - 1]);
      FirstWrite(run, steps, f, k - 1);
    }
  }

  lemma WaitingGrows(s: State, t: Step)
    requires Inv(s) && Enabled(s, t) && !t.WriteEnd?
    ensures Apply(s, t).waiting == s.waiting || s.waiting == []
  {
    hide Apply, Transmit, Latched, Receive, RxMsgs, LogOk, SackTimer, LplTimer, Carried, Ownership.FillsTx,
         Ownership.UsesRx;
    Ownership.FramesHold(s, t);
    if EnabledWrite(s, t) && !t.Up? && !t.Low? { WriteGrows(s, t); }
  }

  lemma WriteGrows(s: State, t: Step)
    requires EnabledWrite(s, t) && !t.WriteEnd? && |s.copying| + |s.waiting| + s.iface.txSem == 1
    ensures ApplyWrite(s, t).waiting == s.waiting || s.waiting == []
  {
    hide Memcpy;
  }

  /** Late starts happen: for any frame f that asks for an ACK and any g there is a run in which the timer
      meant for f, the only frame written so far, is started after f's write is over, and the window of
      g's write expires on it before low power listening has passed g down at all. */
  lemma StaleWindow(f: Frame, g: Frame, csma: bool) returns (run: seq<State>, steps: seq<Step>, k: nat)
    requires Packet.RequiresAck(f)
    ensures IsRun(run, steps) && k < |steps| && LateStart(run[k], steps[k]) && run[k].waiting == [f]
    ensures OnlyWrites(run, f, k) && On(run[k]) == Settings(true, csma)
    ensures var s := run[|steps|]; s.waiting == [g] && s.up == [LplCopy] && s.lpl.state.TimerExpired?
  {
    hide Inv, Paths.Leads, Apply, Enabled, Init, Packet.RequiresAck, LateStart;
    var on := Settings(true, csma);
    var s, ts, m := Overtake(f, csma);
    var us, v := CutShort(m, f, g);
    Results.FirstStep(f, on);
    run := Paths.LeadsRun([Paths.Fresh(on), s], [WriteBegin(f)], ts, m);
    steps := [WriteBegin(f)] + ts;
    k := |steps|;
    assert steps[..k] == steps;
    FirstWrite(run, steps, f, k);
    var run' := Paths.LeadsRun(run, steps, us, v);
    assert forall i :: 0 <= i <= k ==> run'[i] == run'[..|run|][i] == run[i];
    run, steps := run', steps + us;
  }

  /** The run writes only f up to step k, and step k starts the window timer late. */
  ghost predicate ShowsLate(run: seq<State>, steps: seq<Step>, k: nat, on: Settings, f: Frame)
  {
    && IsRun(run, steps) && k < |steps| && On(run[k]) == on && OnlyWrites(run, f, k) && LateStart(run[k], steps[k])
  }

  lemma LateNeeds(run: seq<State>, steps: seq<Step>, k: nat, on: Settings, f: Frame)
    requires ShowsLate(run, steps, k, on, f)
    ensures on.lpl && Packet.RequiresAck(f)
  {
    hide Enabled, Apply, LateStart, Packet.RequiresAck, OnTime, Owned;
    if !(on.lpl && Packet.RequiresAck(f)) {
      forall i | 0 <= i < k ensures NoAckAwaited(run[i]) {
        Outcome.SettingsStay(run, steps, i, k);
      }
      TimerOnTime(run, steps, k);
    }
  }

  /** A window timer can outlive its session if and only if low power listening is on and the frame
      written asks for an ACK: a writer can tell before the call. */
  lemma TimerBelongsToSession(on: Settings, f: Frame)
    ensures (exists run: seq<State>, steps: seq<Step>, k: nat :: ShowsLate(run, steps, k, on, f))
            <==> on.lpl && Packet.RequiresAck(f)
  {
    hide ShowsLate, Packet.RequiresAck;
    if on.lpl && Packet.RequiresAck(f) {
      var run, steps, k := StaleWindow(f, f, on.csma);
      assert ShowsLate(run, steps, k, on, f) by { LateShown(run, steps, k, on, f); }
    }
    forall run: seq<State>, steps: seq<Step>, k: nat | ShowsLate(run, steps, k, on, f)
      ensures on.lpl && Packet.RequiresAck(f)
    {
      LateNeeds(run, steps, k, on, f);
    }
  }

  lemma LateShown(run: seq<State>, steps: seq<Step>, k: nat, on: Settings, f: Frame)
    requires IsRun(run, steps) && k < |steps| && LateStart(run[k], steps[k])
    requires OnlyWrites(run, f, k) && On(run[k]) == on
    ensures ShowsLate(run, steps, k, on, f)
  {
  }
}
