/** Low power listening keeps sending: an attempt is repeated as long as the window is open and no ACK
    has come, and a write without an ACK does not return before the window has expired. */
module Retransmission {
  import opened Bytes
  import opened Stack
  import opened StackInv
  import opened StackSteps
  import opened Token
  import Csma
  import Interface
  import Lpl
  import Outcome
  import Ownership
  import Packet
  import Paths

  /** The report of an attempt reaches low power listening. */
  predicate Reports(s: State, t: Step) { t.Up? && t.i < |s.up| && s.up[t.i].LplDone? }

  /** The report is an ACK of a frame that asked for one. */
  predicate Acknowledged(s: State, st: u8) { s.waiting != [] && Packet.RequiresAck(s.waiting[0]) && st == TX_SUCCESS }

  /** In every run with low power listening on, an attempt is repeated, with the same frame, exactly if the
      window is open and no ACK came. */
  lemma RepeatsExactly(run: seq<State>, steps: seq<Step>, k: nat)
    requires IsRun(run, steps) && k < |steps| && Reports(run[k], steps[k]) && run[k].lpl.enabled
    ensures run[k].waiting != []
    ensures var s, s' := run[k], run[k + 1];
            var st := s.up[steps[k].i].status;
            && (Where(s') == InCall(CsmaTx(LplBuf, |s.waiting[0]|)) <==> s.lpl.state.Tx? && !Acknowledged(s, st))
            && s'.waiting == s.waiting && s'.lpl.buf[..|s.waiting[0]|] == s.waiting[0]
  {
    hide Inv, Enabled, Apply, Where, Packet.RequiresAck;
    RunInv(run, steps, k);
    ReportMoves(run[k], steps[k]);
  }

  lemma ReportMoves(s: State, t: Step)
    requires Inv(s) && Enabled(s, t) && Reports(s, t) && s.lpl.enabled
    ensures s.waiting != []
    ensures var s', st, f := Apply(s, t), s.up[t.i].status, s.waiting[0];
            && (Where(s') == InCall(CsmaTx(LplBuf, |f|)) <==> s.lpl.state.Tx? && !Acknowledged(s, st))
            && (Where(s').InCall? && (Where(s').c.CsmaTx? || Where(s').c.LplAcked? || Where(s').c.IfaceDone?))
            && (Where(s').c.LplAcked? ==> Acknowledged(s, st))
            && (Where(s').c.IfaceDone? ==> s.lpl.state.TimerExpired?)
            && s'.waiting == s.waiting && s'.lpl.buf[..|f|] == f && !s'.lpl.state.TimerExpired?
  {
    hide Transmit, Latched, Receive, RxMsgs, LogOk, SackTimer, LplTimer, CarriesBelow, Last, Replied, Heard, Sent,
         Packet.RequiresAck, LowAt;
    Alone(s, t.i);
    Paths.LplBuffer(s);
  }

  // ---------- the window is kept ----------

  /** Between the verdict of low power listening and the return of the write. */
  predicate Returning(p: Place) { p.Ended? || (p.InCall? && (p.c.LplAcked? || p.c.IfaceDone?)) }

  /** expired: the window of the write under way has expired. */
  predicate Kept(s: State, expired: bool)
  {
    s.lpl.enabled && s.waiting != [] ==>
      && (s.lpl.state.TimerExpired? ==> expired)
      && (Returning(Where(s)) ==>
            expired || (Packet.RequiresAck(s.waiting[0]) && Outcome.Bound(s) == Outcome.Settled(TX_SUCCESS)))
  }

  /** Whether the window has expired, after one more step. */
  predicate Later(s: State, t: Step, expired: bool)
  {
    !t.WriteCopy? && ((t.LplExpire? && s.lpl.state.Tx?) || expired)
  }

  /** A return starts only at a report. */
  lemma ReturnsFromReport(s: State, t: Step)
    requires Inv(s) && Enabled(s, t) && Returning(Where(Apply(s, t))) && !Returning(Where(s))
    ensures Where(s).InCall? && Where(s).c.LplDone?
  {
    hide Inv, Enabled, Apply, Where, LowHop;
    StepPreserves(s, t);
  }

  /** Only the callback expires the window. */
  lemma CallState(s: State, i: nat)
    requires EnabledUp(s, i)
    ensures var l := ApplyUp(s, i).lpl;
            l.enabled == s.lpl.enabled && (l.state.TimerExpired? ==> s.lpl.state.TimerExpired?)
  {
    hide Memcpy, Csma.OnTx, Csma.OnCopy, Csma.OnTxDone, Interface.OnTxDone, Packet.RequiresAck;
    match s.up[i]
    case LplTx => assert ApplyUp(s, i).lpl == Lpl.OnTx(s.lpl).0;
    case LplCopy => assert ApplyUp(s, i).lpl.state == s.lpl.state;
    case LplDone(st) => assert ApplyUp(s, i).lpl == Lpl.OnTxDone(s.lpl, st).0;
    case _ => assert ApplyUp(s, i).lpl.state == s.lpl.state;
  }

  lemma StateKept(s: State, t: Step)
    requires Enabled(s, t)
    ensures var l := Apply(s, t).lpl;
            && l.enabled == s.lpl.enabled
            && (l.state.TimerExpired? ==> s.lpl.state.TimerExpired? || (t.LplExpire? && s.lpl.state.Tx?))
  {
    hide ApplyUp, ApplyLow, ApplyTx, ApplyRx, ApplyWrite;
    if t.Up? { CallState(s, t.i); } else { Outcome.BesideHolds(s, t); }
  }

  /** A return that is under way keeps its status. */
  lemma ReturnKeeps(s: State, t: Step)
    requires Inv(s) && Enabled(s, t) && Returning(Where(s)) && !t.WriteEnd?
    ensures Apply(s, t).waiting == s.waiting && Outcome.Bound(Apply(s, t)) == Outcome.Bound(s)
  {
    hide Inv, Where, ApplyUp, Carried, CallOk, Pending, Outcome.Bound;
    ReturningBound(s);
    if t.Up? {
      Alone(s, t.i);
      WhereCall(s);
      Outcome.OtherCallPasses(s, Outcome.Bound(s).st);
    } else if s.up != [] {
      Outcome.CallStays(s, t);
      Outcome.BesideHolds(s, t);
      Outcome.SameBound(s, Apply(s, t));
    } else {
      assert Where(s) == Ended by { Outcome.NotInCall(s); }
      Outcome.EndedStays(s, t);
    }
  }

  lemma WhereCall(s: State)
    requires s.waiting != [] && s.up != []
    ensures Where(s) == InCall(s.up[0])
  {
  }

  lemma ReturningBound(s: State)
    requires Returning(Where(s))
    ensures Outcome.Bound(s).Settled?
  {
  }

  lemma WriteStarts(s: State, t: Step)
    requires Inv(s) && Enabled(s, t) && t.WriteCopy?
    ensures var s' := Apply(s, t); !Returning(Where(s')) && s'.lpl.state.Idle?
  {
    hide Transmit, Latched, Receive, RxMsgs, LogOk, SackTimer, LplTimer, Last, Replied, Heard, Sent, Memcpy, LowAt;
  }

  lemma WriteEnds(s: State, t: Step)
    requires Inv(s) && Enabled(s, t) && t.WriteEnd?
    ensures Apply(s, t).waiting == []
  {
    hide Transmit, Latched, Receive, RxMsgs, LogOk, SackTimer, LplTimer, Carried;
  }

  /** A report starts a return only for an ACK, or in an expired window. */
  lemma ReportKeeps(s: State, t: Step, expired: bool)
    requires Inv(s) && Enabled(s, t) && Reports(s, t) && s.lpl.enabled && Kept(s, expired)
    ensures Kept(Apply(s, t), expired)
  {
    hide Inv, Enabled, Apply, Where, Packet.RequiresAck;
    ReportMoves(s, t);
    assert Outcome.Bound(Apply(s, t)) == Outcome.OnItsWay(Where(Apply(s, t)), Apply(s, t).iface.result);
  }

  /** Where the frame is at a report, only the report itself moves it. */
  lemma OnlyReport(s: State, t: Step)
    requires Inv(s) && Enabled(s, t) && Where(s).InCall? && Where(s).c.LplDone? && !Reports(s, t)
    ensures Where(Apply(s, t)) == Where(s)
  {
    hide Inv, Apply, LowAt, EnabledLow, EnabledTx, EnabledRx, EnabledTimer, EnabledWrite;
    Alone(s, 0);
    Outcome.CallStays(s, t);
  }

  lemma StaysKept(s: State, t: Step, expired: bool)
    requires Inv(s) && Enabled(s, t) && Kept(s, expired)
    ensures Kept(Apply(s, t), Later(s, t, expired))
  {
    hide Inv, Enabled, Apply, Where, Outcome.Bound, Packet.RequiresAck, Returning;
    StateKept(s, t);
    var s' := Apply(s, t);
    if t.WriteCopy? {
      WriteStarts(s, t);
    } else if t.WriteEnd? {
      WriteEnds(s, t);
    } else if Reports(s, t) && s.lpl.enabled {
      ReportKeeps(s, t, expired);
    } else if Returning(Where(s')) && s.lpl.enabled && s'.waiting != [] {
      if !Returning(Where(s)) {
        ReturnsFromReport(s, t);
        OnlyReport(s, t);
      }
      ReturnKeeps(s, t);
    } else {
      WaitingBefore(s, t);
    }
  }

  /** A write under way was under way before, unless this step started it. */
  lemma WaitingBefore(s: State, t: Step)
    requires Inv(s) && Enabled(s, t) && !t.WriteCopy?
    ensures Apply(s, t).waiting != [] ==> s.waiting != []
  {
    hide ApplyUp, ApplyLow, ApplyTx, ApplyRx, ApplyTimer, Transmit, Latched, Receive, RxMsgs, LogOk, SackTimer,
         LplTimer, Carried, Memcpy, Ownership.FillsTx, Ownership.UsesRx;
    Ownership.FramesHold(s, t);
  }

  // ---------- over runs ----------

  /** The window of the write under way before step k (or of the last one) has expired. */
  predicate Expired(run: seq<State>, steps: seq<Step>, k: nat)
    requires k < |run| && |run| == |steps| + 1
  {
    k > 0 && Later(run[k - 1], steps[k - 1], Expired(run, steps, k - 1))
  }

  lemma {:induction false} RunKept(run: seq<State>, steps: seq<Step>, k: nat)
    requires IsRun(run, steps) && k < |run|
    ensures Kept(run[k], Expired(run, steps, k))
  {
    hide Inv, Enabled, Apply, Kept, Later;
    if k == 0 {
      StartsKept(run[0]);
    } else {
      RunKept(run, steps, k - 1);
      RunInv(run, steps, k - 1);
      StaysKept(run[k - 1], steps[k - 1], Expired(run, steps, k - 1));
    }
  }

  lemma StartsKept(s: State)
    requires Init(s)
    ensures Kept(s, false)
  {
  }

  /** With low power listening on, a write that returns has its ACK, or its window has expired since it
      began: no write gives up, and no unacknowledged one succeeds, before that. */
  lemma WindowKept(run: seq<State>, steps: seq<Step>, k: nat)
    requires IsRun(run, steps) && k < |steps| && steps[k] == WriteEnd(0) && run[k].lpl.enabled
    ensures run[k].waiting != []
    ensures var f := run[k].waiting[0];
            Expired(run, steps, k) || (Packet.RequiresAck(f) && Interface.Returns(run[k].iface) == |f|)
  {
    hide Inv, Apply, Where, Packet.RequiresAck, Outcome.Bound;
    RunKept(run, steps, k);
    RunInv(run, steps, k);
    Outcome.ReturnsBound(run[k]);
    if run[k].iface.result == TX_SUCCESS { LengthOnSuccess(run[k]); }
  }

  lemma LengthOnSuccess(s: State)
    requires Inv(s) && s.waiting != [] && s.iface.result == TX_SUCCESS
    ensures Interface.Returns(s.iface) == |s.waiting[0]|
  {
    hide Transmit, Latched, Receive, RxMsgs, LogOk, SackTimer, LplTimer, CarriesBelow, Last, Replied, Heard, Sent;
  }
}
