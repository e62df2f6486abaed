/** How the status of an attempt becomes the result of its write. */
module Outcome {
  import opened Bytes
  import opened Stack
  import opened StackInv
  import opened StackSteps
  import opened Token
  import Csma
  import Lpl
  import Ownership
  import Packet
  import Unique

  // ---------- what steps other than a pending call's own do above ----------

  /** The call a step of this kind may add. */
  predicate NewCall(t: Step, c: UpCall)
  {
    match t
    case WriteCopy(_) => c.LplTx?
    case CsmaSample(clear) => !clear && c == LplDone(TX_BUSY)
    case CsmaWork => c.SackTx?
    case SackExpire => c == CsmaDone(TX_ACK_TIMEOUT)
    case Low(_) => c.CsmaDone?
    case Rx(_, _) => c.SackAcked?
    case _ => false
  }

  /** Pending calls stay and at most one is added; the stored result stays; csma and lpl
      change only by their own steps. */
  predicate Beside(s: State, t: Step, s': State)
  {
    && (s'.up == s.up || (|s'.up| == |s.up| + 1 && s'.up[..|s.up|] == s.up && NewCall(t, s'.up[|s.up|])))
    && s'.iface.result == s.iface.result
    && (t.CsmaFire? || t.CsmaSample? || t.CsmaWork? || s'.csma == s.csma)
    && (t.LplStart? || t.LplFire? || t.LplExpire? || (s'.lpl == s.lpl && s'.startPending == s.startPending))
  }

  lemma BesideWrite(s: State, t: Step)
    requires EnabledWrite(s, t)
    ensures Beside(s, t, ApplyWrite(s, t))
  {
    hide Memcpy;
  }

  lemma BesideTimer(s: State, t: Step)
    requires EnabledTimer(s, t)
    ensures Beside(s, t, ApplyTimer(s, t))
  {
    hide Memcpy;
  }

  lemma BesideLow(s: State, i: nat)
    requires EnabledLow(s, i)
    ensures Beside(s, Low(i), ApplyLow(s, i))
  {
    hide Memcpy, Packet.RequiresAck;
  }

  lemma BesideTx(s: State, t: Step)
    requires EnabledTx(s, t)
    ensures Beside(s, t, ApplyTx(s, t))
  {
    hide Memcpy;
  }

  lemma BesideRx(s: State, t: Step)
    requires EnabledRx(s, t)
    ensures Beside(s, t, ApplyRx(s, t))
  {
    hide Memcpy, Unique.OnRx, Packet.GetSrc, Packet.HasSrc, Packet.RequiresAck, Packet.IsAck, Packet.CreateAck;
  }

  lemma BesideHolds(s: State, t: Step)
    requires Enabled(s, t) && !t.Up?
    ensures Beside(s, t, Apply(s, t))
  {
    hide Beside, ApplyLow, ApplyTx, ApplyRx, ApplyTimer, ApplyWrite;
    if t.Low? {
      BesideLow(s, t.i);
    } else if EnabledWrite(s, t) {
      BesideWrite(s, t);
    } else if EnabledTimer(s, t) {
      BesideTimer(s, t);
    } else if EnabledTx(s, t) {
      BesideTx(s, t);
    } else {
      BesideRx(s, t);
    }
  }

  // ---------- verdicts ----------

  datatype Verdict = Open | Settled(st: u8)

  /** The moves that settle an attempt: its ACK came or did not, the radio reported a frame that waits
      for none, or CSMA gave up. */
  function VerdictOf(p: Place, p': Place): Verdict
  {
    if p.AwaitAck? && p' == InCall(SackAcked) then Settled(TX_SUCCESS)
    else if (p.AwaitAck? || p.Below?) && p'.InCall? && p'.c.CsmaDone? then Settled(p'.c.status)
    else if p.Backoff? && p'.InCall? && p'.c.LplDone? then Settled(p'.c.status)
    else Open
  }

  /** The status on its way up. */
  function OnItsWay(p: Place, result: u8): Verdict
  {
    match p
    case InCall(SackAcked) => Settled(TX_SUCCESS)
    case InCall(CsmaDone(st)) => Settled(st)
    case InCall(LplDone(st)) => Settled(st)
    case InCall(LplAcked) => Settled(TX_SUCCESS)
    case InCall(IfaceDone(st)) => Settled(st)
    case Ended => Settled(result)
    case _ => Open
  }

  function Bound(s: State): Verdict { OnItsWay(Where(s), s.iface.result) }

  /** A verdict that no retransmission can undo. */
  predicate Final(s: State, st: u8)
  {
    !s.lpl.enabled || (st == TX_SUCCESS && s.waiting != [] && Packet.RequiresAck(s.waiting[0]))
  }

  /** While a call is pending, only that call's own step moves the frame. */
  lemma CallStays(s: State, t: Step)
    requires Inv(s) && Enabled(s, t) && s.up != [] && !t.Up?
    ensures var s' := Apply(s, t); s'.waiting == s.waiting && s.waiting != [] && Where(s') == Where(s)
  {
    hide Apply, ApplyLow, ApplyTx, ApplyRx, ApplyTimer, Transmit, Latched, Receive, RxMsgs, LogOk, SackTimer,
         LplTimer, CarriesAbove, CarriesBelow, Last, Replied, Heard, Sent, Ownership.FillsTx, Ownership.UsesRx;
    Alone(s, 0);
    BesideHolds(s, t);
    Ownership.FramesHold(s, t);
  }

  lemma LplDonePasses(s: State, st: u8, f: Frame)
    requires s.up == [LplDone(st)] && s.waiting == [f] && LplHas(s.lpl, f) && Final(s, st)
    ensures var s' := ApplyUp(s, 0); s'.waiting == s.waiting && Bound(s') == Settled(st)
  {
    hide Memcpy, Packet.RequiresAck;
    if s.lpl.enabled { Packet.SameHeader(s.lpl.buf, f, |f|); }
  }

  lemma OtherCallPasses(s: State, st: u8)
    requires |s.up| == 1 && |s.waiting| == 1 && EnabledUp(s, 0) && !s.up[0].LplDone? && Bound(s) == Settled(st)
    requires s.up[0].IfaceDone? ==> Pending(s.csma) == 0 && !s.sack.state.Tx? && !s.sack.state.TxWait?
    ensures var s' := ApplyUp(s, 0); s'.waiting == s.waiting && Bound(s') == Settled(st)
  {
    hide Memcpy, Lpl.OnTx, Lpl.OnTxDone, Csma.OnTx, LowAt;
  }

  /** A pending call's own step passes a final verdict on. */
  lemma CallPasses(s: State, i: nat, st: u8)
    requires Inv(s) && EnabledUp(s, i) && Bound(s) == Settled(st) && Final(s, st)
    ensures var s' := ApplyUp(s, i); s'.waiting == s.waiting && Bound(s') == Settled(st)
  {
    hide Inv, ApplyUp, Carried, Packet.RequiresAck, Pending;
    Alone(s, i);
    if s.up[0].LplDone? { LplDonePasses(s, st, s.waiting[0]); } else { OtherCallPasses(s, st); }
  }

  lemma EndedStays(s: State, t: Step)
    requires Inv(s) && Enabled(s, t) && Where(s) == Ended && !t.WriteEnd?
    ensures var s' := Apply(s, t); s'.waiting == s.waiting && Bound(s') == Bound(s)
  {
    hide Apply, Transmit, Latched, Receive, RxMsgs, LogOk, SackTimer, LplTimer, CarriesAbove, CarriesBelow, Last,
         Replied, Heard, Sent, Ownership.FillsTx, Ownership.UsesRx, LowHop;
    BesideHolds(s, t);
    StepPreserves(s, t);
    Ownership.FramesHold(s, t);
  }

  /** A final verdict stays with the write until it returns. */
  lemma BoundStays(s: State, t: Step, st: u8)
    requires Inv(s) && Enabled(s, t) && Bound(s) == Settled(st) && Final(s, st) && !t.WriteEnd?
    ensures var s' := Apply(s, t); s'.waiting == s.waiting && Bound(s') == Settled(st) && Final(s', st)
  {
    hide Inv, ApplyUp, Bound, LowHop, Packet.RequiresAck;
    StepPreserves(s, t);
    if t.Up? {
      CallPasses(s, t.i, st);
    } else if s.up != [] {
      CallStays(s, t);
      BesideHolds(s, t);
      assert Bound(Apply(s, t)) == Bound(s) by { SameBound(s, Apply(s, t)); }
    } else {
      assert Where(s) == Ended by { NotInCall(s); }
      EndedStays(s, t);
    }
  }

  lemma SameBound(s: State, s': State)
    requires Where(s') == Where(s) && s'.iface.result == s.iface.result
    ensures Bound(s') == Bound(s)
  {
  }

  lemma NotInCall(s: State)
    requires Bound(s).Settled? && s.up == []
    ensures Where(s) == Ended
  {
  }

  /** A verdict is given by the moves above and no other. */
  lemma BoundByVerdict(s: State, t: Step)
    requires Inv(s) && Enabled(s, t)
    ensures var v := VerdictOf(Where(s), Where(Apply(s, t)));
            && (v.Settled? ==> Bound(Apply(s, t)) == v && Apply(s, t).waiting == s.waiting)
            && (Bound(s).Open? && Bound(Apply(s, t)).Settled? ==> v.Settled?)
  {
    hide Inv, Enabled, Apply, LowHop, Where;
    StepPreserves(s, t);
    assert VerdictOf(Where(s), Where(Apply(s, t))).Settled? ==> Apply(s, t).waiting == s.waiting by { SameWrite(s, t); }
  }

  lemma SameWrite(s: State, t: Step)
    requires Inv(s) && Enabled(s, t)
    ensures (Where(s).AwaitAck? || Where(s).Below? || Where(s).Backoff?) ==> Apply(s, t).waiting == s.waiting
  {
    hide Apply, Transmit, Latched, Receive, RxMsgs, LogOk, SackTimer, LplTimer, CarriesAbove, CarriesBelow, Last,
         Replied, Heard, Sent, Ownership.FillsTx, Ownership.UsesRx;
    Ownership.FramesHold(s, t);
  }

  /** The write that returns does so with the status on its way. */
  lemma ReturnsBound(s: State)
    requires Inv(s) && Enabled(s, WriteEnd(0))
    ensures Where(s) == Ended && Bound(s) == Settled(s.iface.result)
    ensures var st, f := s.iface.result, s.waiting[0];
            Apply(s, WriteEnd(0)).log == s.log + [Returned(f, if st == TX_SUCCESS then |f| else st)]
  {
    hide Transmit, Latched, Receive, RxMsgs, LogOk, SackTimer, LplTimer, CarriesBelow, Last, Replied, Heard, Sent;
  }

  // ---------- over runs ----------

  /** No write returns in steps i to k. */
  ghost predicate NoReturn(steps: seq<Step>, i: nat, k: nat)
    requires k <= |steps|
  {
    forall m :: i <= m < k ==> !steps[m].WriteEnd?
  }

  lemma {:induction false} VerdictHolds(run: seq<State>, steps: seq<Step>, i: nat, k: nat, st: u8)
    requires IsRun(run, steps) && i < k < |run| && VerdictOf(Where(run[i]), Where(run[i + 1])) == Settled(st)
    requires Final(run[i], st) && NoReturn(steps, i + 1, k)
    ensures run[k].waiting == run[i].waiting && Bound(run[k]) == Settled(st) && Final(run[k], st)
  {
    hide Inv, Enabled, Apply, Where, Bound, Packet.RequiresAck, Moves;
    RunInv(run, steps, k - 1);
    if k == i + 1 {
      BoundByVerdict(run[i], steps[i]);
      SameSettings(run[i], steps[i]);
    } else {
      VerdictHolds(run, steps, i, k - 1, st);
      BoundStays(run[k - 1], steps[k - 1], st);
    }
  }

  lemma SameSettings(s: State, t: Step)
    requires Inv(s) && Enabled(s, t)
    ensures Apply(s, t).lpl.enabled == s.lpl.enabled
  {
    hide Inv, Enabled, Apply, Hop, LowHop;
    StepPreserves(s, t);
  }

  /** A verdict given without low power listening, and the ACK of a frame that asks for one under any
      setting, is what the write returns next: the status, or the length for success. */
  lemma VerdictReturned(run: seq<State>, steps: seq<Step>, i: nat, k: nat, st: u8)
    requires IsRun(run, steps) && i < k < |steps| && VerdictOf(Where(run[i]), Where(run[i + 1])) == Settled(st)
    requires Final(run[i], st) && NoReturn(steps, i + 1, k) && steps[k] == WriteEnd(0)
    ensures run[i].waiting != []
    ensures var f := run[i].waiting[0];
            run[k + 1].log == run[k].log + [Returned(f, if st == TX_SUCCESS then |f| else st)]
  {
    hide Inv, Apply, Where, Bound, Packet.RequiresAck;
    VerdictHolds(run, steps, i, k, st);
    RunInv(run, steps, k);
    ReturnsBound(run[k]);
  }

  /** Every return has a verdict behind it, given since the return before it; the last one is meant. */
  lemma {:induction false} VerdictBefore(run: seq<State>, steps: seq<Step>, k: nat) returns (i: nat)
    requires IsRun(run, steps) && k < |run| && Bound(run[k]).Settled?
    ensures i < k && VerdictOf(Where(run[i]), Where(run[i + 1])).Settled? && NoReturn(steps, i + 1, k)
  {
    hide Inv, Enabled, Apply, Where, Bound;
    StartsOpen(run[0]);
    if k > 0 {
      RunInv(run, steps, k - 1);
      BoundByVerdict(run[k - 1], steps[k - 1]);
      if VerdictOf(Where(run[k - 1]), Where(run[k])).Settled? {
        i := k - 1;
      } else {
        if steps[k - 1].WriteEnd? { EndsOpen(run[k - 1], steps[k - 1]); }
        i := VerdictBefore(run, steps, k - 1);
      }
    }
  }

  lemma StartsOpen(s: State)
    requires Init(s)
    ensures Bound(s).Open?
  {
  }

  lemma EndsOpen(s: State, t: Step)
    requires Inv(s) && Enabled(s, t) && t.WriteEnd?
    ensures Bound(Apply(s, t)).Open?
  {
    hide Transmit, Latched, Receive, RxMsgs, LogOk, SackTimer, LplTimer, CarriesAbove, CarriesBelow, Last, Replied,
         Heard, Sent;
  }

  /** Without low power listening a write returns exactly the verdict of its attempt: BUSY if and only if
      CSMA gave up, a timeout if and only if the ACK wait ran out, FAILED if and only if the radio
      reported an underflow of a frame that waits for no ACK, and otherwise its length. */
  lemma ReturnsVerdict(run: seq<State>, steps: seq<Step>, k: nat) returns (i: nat)
    requires IsRun(run, steps) && k < |steps| && steps[k] == WriteEnd(0) && !run[k].lpl.enabled
    ensures i < k && NoReturn(steps, i + 1, k) && run[i].waiting != []
    ensures var v, f := VerdictOf(Where(run[i]), Where(run[i + 1])), run[i].waiting[0];
            v.Settled? && run[k + 1].log == run[k].log + [Returned(f, if v.st == TX_SUCCESS then |f| else v.st)]
  {
    hide Inv, Apply, Where, Bound, Packet.RequiresAck;
    RunInv(run, steps, k);
    ReturnsBound(run[k]);
    i := VerdictBefore(run, steps, k);
    SettingsStay(run, steps, i, k);
    VerdictReturned(run, steps, i, k, VerdictOf(Where(run[i]), Where(run[i + 1])).st);
  }

  lemma {:induction false} SettingsStay(run: seq<State>, steps: seq<Step>, i: nat, k: nat)
    requires IsRun(run, steps) && i <= k < |run|
    ensures run[k].lpl.enabled == run[i].lpl.enabled
  {
    hide Inv, Enabled, Apply;
    if i < k {
      SettingsStay(run, steps, i, k - 1);
      RunInv(run, steps, k - 1);
      SameSettings(run[k - 1], steps[k - 1]);
    }
  }
}
