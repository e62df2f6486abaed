/** What a completion from the radio completes: the frame handed over last, data or ACK. */
module Completions {
  import opened Bytes
  import opened Stack
  import opened StackInv
  import opened StackSteps
  import opened Token
  import Ownership
  import Packet
  import Sack
  import Unique

  /** The frame below was copied into the radio's buffer and is not reported yet. */
  predicate PastCopy(q: LowPlace)
  {
    q.Message? || q.AwaitSfd? || (q.Called? && (q.l.RadioComplete? || q.l.SackDone?))
  }

  /** What was handed over last is an ACK if soft-ACK is sending one, and else the frame of the write. */
  predicate Matches(sk: Sack.SackState, handed: Found, waiting: seq<Frame>)
  {
    if sk.TxAck? then handed.Just? && handed.e.Handed? && handed.e.isAck
    else waiting != [] && handed == Just(Handed(waiting[0], false))
  }

  predicate Tied(s: State) { PastCopy(LowWhere(s)) ==> Matches(s.sack.state, Last(s.log, AnyHanded), s.waiting) }

  predicate Copies(s: State, t: Step) { t.Low? && t.i < |s.low| && s.low[t.i].RadioCopy? }
  predicate Reports(s: State, t: Step) { t.Low? && t.i < |s.low| && s.low[t.i].SackDone? }

  // ---------- what a step does to the soft-ACK state and to what was handed over ----------

  /** While it sends, soft-ACK changes its state only on the report; only a copy hands anything over. */
  predicate Keeps(s: State, t: Step, s': State)
  {
    && ((s.sack.state.Tx? || s.sack.state.TxAck?) && !Reports(s, t) ==> s'.sack.state == s.sack.state)
    && (!Copies(s, t) ==> Last(s'.log, AnyHanded) == Last(s.log, AnyHanded))
  }

  lemma KeepsUp(s: State, i: nat)
    requires EnabledUp(s, i)
    ensures Keeps(s, Up(i), ApplyUp(s, i))
  {
    hide Memcpy, Last, Packet.RequiresAck;
    assert ApplyUp(s, i).log == s.log by { Ownership.UpStaysAbove(s, i); }
  }

  lemma KeepsLow(s: State, i: nat)
    requires EnabledLow(s, i)
    ensures Keeps(s, Low(i), ApplyLow(s, i))
  {
    hide Memcpy, Last, Packet.RequiresAck;
  }

  lemma KeepsWrite(s: State, t: Step)
    requires EnabledWrite(s, t)
    ensures Keeps(s, t, ApplyWrite(s, t))
  {
    hide Memcpy, Last;
    if t.WriteCopy? || t.WriteEnd? { Append(s.log, ApplyWrite(s, t).log[|s.log|]); }
  }

  lemma KeepsTimer(s: State, t: Step)
    requires EnabledTimer(s, t)
    ensures Keeps(s, t, ApplyTimer(s, t))
  {
    hide Last;
  }

  lemma KeepsTx(s: State, t: Step)
    requires EnabledTx(s, t)
    ensures Keeps(s, t, ApplyTx(s, t))
  {
    hide Last;
    if t.TxDone? && s.txMsgs[t.i].MsgOff? { Append(s.log, ApplyTx(s, t).log[|s.log|]); }
  }

  lemma KeepsRx(s: State, t: Step)
    requires EnabledRx(s, t)
    ensures Keeps(s, t, ApplyRx(s, t))
  {
    hide Memcpy, Last, Unique.OnRx, Packet.GetSrc, Packet.HasSrc, Packet.RequiresAck, Packet.CreateAck, Packet.IsAck,
         Packet.Fcf;
    if t.Rx? && s.rxCalls[t.i].SackLock? {
      Append(s.log, Received(s.sack.rxBuf));
      if Sack.OnRx(s.sack).1.Acked? { Append(s.log + [Received(s.sack.rxBuf)], AckHeard(s.sack.rxBuf)); }
    } else if t.Rx? && s.rxCalls[t.i].RxUp? {
      Append(s.log, ApplyRx(s, t).log[|s.log|]);
    }
  }

  lemma KeepsHolds(s: State, t: Step)
    requires Enabled(s, t)
    ensures Keeps(s, t, Apply(s, t))
  {
    hide Keeps, ApplyUp, ApplyLow, ApplyTx, ApplyRx, ApplyTimer, ApplyWrite;
    if t.Up? {
      KeepsUp(s, t.i);
    } else if t.Low? {
      KeepsLow(s, t.i);
    } else if EnabledWrite(s, t) {
      KeepsWrite(s, t);
    } else if EnabledTimer(s, t) {
      KeepsTimer(s, t);
    } else if EnabledTx(s, t) {
      KeepsTx(s, t);
    } else {
      KeepsRx(s, t);
    }
  }

  // ---------- the tie ----------

  lemma CopyTies(s: State, i: nat)
    requires Inv(s) && EnabledLow(s, i) && s.low[i].RadioCopy?
    ensures Tied(ApplyLow(s, i))
  {
    hide Latched, Receive, RxMsgs, LogOk, SackTimer, LplTimer, CarriesAbove, Heard, Sent, Last, Replied, Memcpy,
         Packet.RequiresAck;
    Append(s.log, ApplyLow(s, i).log[|s.log|]);
  }

  /** While a frame is below, the write it belongs to stays. */
  lemma WriteStays(s: State, t: Step)
    requires Inv(s) && Enabled(s, t) && s.sack.state.Tx?
    ensures Apply(s, t).waiting == s.waiting
  {
    hide Apply, Transmit, Latched, Receive, RxMsgs, LogOk, SackTimer, LplTimer, Carried, Ownership.FillsTx,
         Ownership.UsesRx;
    Ownership.FramesHold(s, t);
  }

  /** Past the copy before and after, or the copy itself. */
  lemma PastBefore(s: State, t: Step)
    requires Inv(s) && Enabled(s, t) && !Copies(s, t) && PastCopy(LowWhere(Apply(s, t)))
    ensures PastCopy(LowWhere(s)) && !Reports(s, t) && (s.sack.state.Tx? || s.sack.state.TxAck?)
  {
    hide Apply, Enabled, Latched, Receive, RxMsgs, LogOk, SackTimer, LplTimer, Carried, Ownership.UsesRx, Where, Hop;
    StepPreserves(s, t);
    Ownership.FramesHold(s, t);
  }

  lemma StaysTied(s: State, t: Step)
    requires Inv(s) && Enabled(s, t) && Tied(s)
    ensures Tied(Apply(s, t))
  {
    hide Inv, Apply, Enabled, LowWhere, PastCopy;
    if Copies(s, t) {
      assert Apply(s, t) == ApplyLow(s, t.i) && EnabledLow(s, t.i) by { LowStep(s, t); }
      CopyTies(s, t.i);
    } else if PastCopy(LowWhere(Apply(s, t))) {
      PastBefore(s, t);
      KeepsHolds(s, t);
      if s.sack.state.Tx? { WriteStays(s, t); }
    }
  }

  lemma LowStep(s: State, t: Step)
    requires Enabled(s, t) && t.Low?
    ensures EnabledLow(s, t.i) && Apply(s, t) == ApplyLow(s, t.i)
  {
  }

  lemma {:induction false} RunTied(run: seq<State>, steps: seq<Step>, k: nat)
    requires IsRun(run, steps) && k < |run|
    ensures Tied(run[k])
  {
    hide Inv, Enabled, Apply, Tied;
    if k == 0 {
      StartsTied(run[0]);
    } else {
      RunTied(run, steps, k - 1);
      RunInv(run, steps, k - 1);
      StaysTied(run[k - 1], steps[k - 1]);
    }
  }

  lemma StartsTied(s: State)
    requires Init(s)
    ensures Tied(s)
  {
  }

  /** In every run, when the radio's completion reaches soft-ACK it is the completion of what was handed
      over last: soft-ACK ends an ACK reply, silently, if and only if that was an ACK; and it waits for
      an ACK or reports a data completion if and only if it was the frame of the write under way. */
  lemma CompletionMatches(run: seq<State>, steps: seq<Step>, k: nat)
    requires IsRun(run, steps) && k < |steps| && Reports(run[k], steps[k])
    ensures var s := run[k];
            var last, next := Last(s.log, AnyHanded), Sack.OnTxDone(s.sack, s.low[steps[k].i].status).1;
            && last.Just? && last.e.Handed?
            && (next.AckSent? <==> last.e.isAck)
            && (next.Wait? || next.Up? <==> s.waiting != [] && last.e == Handed(s.waiting[0], false))
  {
    hide Latched, Receive, RxMsgs, LogOk, SackTimer, LplTimer, Carried, Apply, Last, Packet.RequiresAck;
    RunInv(run, steps, k);
    RunTied(run, steps, k);
    var s := run[k];
    LowStep(s, steps[k]);
    assert LowWhere(s) == Called(s.low[0]);
  }
}
