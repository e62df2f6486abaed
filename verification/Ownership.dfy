/** Who may touch the radio's messages and buffers, and when. */
module Ownership {
  import opened Bytes
  import opened Bags
  import opened Stack
  import opened StackInv
  import opened StackSteps
  import Packet
  import Interface
  import Lpl
  import Csma
  import Sack
  import Radio
  import Unique

  /** The step fills the transmit buffer or submits the messages of a transmission. */
  predicate FillsTx(s: State, s': State)
  {
    || s'.radio.txBuf != s.radio.txBuf || s'.radio.txLen != s.radio.txLen
    || |s'.txMsgs| > |s.txMsgs| || (s'.txMsgs == [MsgOff] && s.txMsgs != [MsgOff])
  }

  /** ... or submits a message of a configuration thread. */
  predicate UsesTx(s: State, t: Step, s': State) { FillsTx(s, s') || t.CfgSync? }

  /** The step fills a receive buffer, or submits a receive message. */
  predicate UsesRx(s: State, s': State)
  {
    || s'.radio.rxIn != s.radio.rxIn || s'.radio.rxBuf != s.radio.rxBuf
    || s'.sack.rxBuf != s.sack.rxBuf || s'.sack.rxLen != s.sack.rxLen
    || |s'.rxMsgs| > |s.rxMsgs|
  }

  predicate ConfigWaits(s: State)
  {
    exists i :: 0 <= i < |s.cfgs| && s.cfgs[i].CfgInSync?
  }

  /** What a step leaves alone. */
  predicate Frames(s: State, t: Step, s': State)
  {
    && (FillsTx(s, s') ==> t.Low? && t.i < |s.low| && s.low[t.i].RadioCopy?)
    && (UsesRx(s, s') ==> t.Rx? || t.RxDone?)
    && (s'.rxCalls != s.rxCalls ==> t.Rx? || t.RxDone? || t.Fifop?)
    && (s'.rxMsgs != s.rxMsgs ==> t.Rx? || t.RxDone?)
    && (s'.nodes != s.nodes ==> t.Rx? && t.i < |s.rxCalls| && s.rxCalls[t.i].RxUp?)
    && (s'.waiting != s.waiting || s'.copying != s.copying ==> EnabledWrite(s, t))
    && (s'.log != s.log ==> EnabledWrite(s, t) || t.Low? || t.TxDone? || t.Rx?)
  }

  /** The step stays above the soft-ACK layer's lower half. */
  predicate StaysAbove(s: State, s': State)
  {
    && s'.radio == s.radio && s'.sack.rxBuf == s.sack.rxBuf && s'.sack.rxLen == s.sack.rxLen
    && s'.txMsgs == s.txMsgs && s'.rxMsgs == s.rxMsgs && s'.rxCalls == s.rxCalls && s'.nodes == s.nodes
    && s'.waiting == s.waiting && s'.copying == s.copying && s'.log == s.log
  }

  lemma FramesUp(s: State, i: nat)
    requires EnabledUp(s, i)
    ensures Frames(s, Up(i), ApplyUp(s, i))
  {
    hide ApplyUp;
    UpStaysAbove(s, i);
  }

  lemma UpStaysAbove(s: State, i: nat)
    requires EnabledUp(s, i)
    ensures StaysAbove(s, ApplyUp(s, i))
  {
    hide Memcpy, Lpl.OnTxDone, Lpl.OnTx, Lpl.OnCopy, Csma.OnTx, Csma.OnCopy, Csma.OnTxDone, Interface.OnTxDone;
    match s.up[i]
    case LplTx => assert StaysAbove(s, ApplyUp(s, i));
    case LplCopy => assert StaysAbove(s, ApplyUp(s, i));
    case CsmaTx(_, _) => assert StaysAbove(s, ApplyUp(s, i));
    case CsmaCopy(_, _) => assert StaysAbove(s, ApplyUp(s, i));
    case SackTx(_, _) => assert StaysAbove(s, ApplyUp(s, i));
    case SackAcked => assert StaysAbove(s, ApplyUp(s, i));
    case CsmaDone(_) => assert StaysAbove(s, ApplyUp(s, i));
    case LplDone(_) => assert StaysAbove(s, ApplyUp(s, i));
    case LplAcked => assert StaysAbove(s, ApplyUp(s, i));
    case IfaceDone(_) => assert StaysAbove(s, ApplyUp(s, i));
  }

  lemma FramesElse(s: State, t: Step)
    requires EnabledWrite(s, t) || EnabledTimer(s, t)
    ensures Frames(s, t, if EnabledWrite(s, t) then ApplyWrite(s, t) else ApplyTimer(s, t))
  {
    hide Memcpy, Interface.OnCopy, Interface.OnEnd, Csma.OnTimer, Lpl.OnTimer;
  }

  lemma FramesLow(s: State, i: nat)
    requires EnabledLow(s, i)
    ensures Frames(s, Low(i), ApplyLow(s, i))
  {
    hide Memcpy, Packet.RequiresAck;
  }

  lemma FramesTx(s: State, t: Step)
    requires EnabledTx(s, t) && |s.txMsgs| <= 1
    ensures Frames(s, t, ApplyTx(s, t))
  {
    hide Memcpy, Radio.UnlockSpi, Radio.UnlockSfd;
  }

  lemma FramesHold(s: State, t: Step)
    requires Enabled(s, t) && |s.txMsgs| <= 1
    ensures Frames(s, t, Apply(s, t))
  {
    hide ApplyUp, ApplyLow, ApplyTx, ApplyRx, ApplyTimer, ApplyWrite, UsesRx, FillsTx;
    if t.Up? {
      FramesUp(s, t.i);
    } else if t.Low? {
      FramesLow(s, t.i);
    } else if EnabledTx(s, t) {
      FramesTx(s, t);
    } else if EnabledWrite(s, t) || EnabledTimer(s, t) {
      FramesElse(s, t);
    } else {
      FramesRx(s, t);
    }
  }

  lemma FramesRx(s: State, t: Step)
    requires EnabledRx(s, t)
    ensures Frames(s, t, ApplyRx(s, t))
  {
    hide Memcpy, Sack.OnRx, Unique.OnRx, Packet.GetSrc, Packet.HasSrc, UsesRx;
    if t.Fifop? {
      assert !UsesRx(s, ApplyRx(s, t)) by { FifopFrames(s); }
    }
  }

  lemma FifopFrames(s: State)
    ensures !UsesRx(s, ApplyRx(s, Fifop))
  {
  }

  /** The radio is IDLE only when no transmit message is in flight and no configuration thread is
      active; and whenever a step fills the transmit buffer or submits a message on the transmit side,
      no message on that side is in flight. */
  lemma TxOwnership(run: seq<State>, steps: seq<Step>, k: nat)
    requires IsRun(run, steps) && k < |steps|
    ensures var s := run[k];
            && |s.txMsgs| + |s.cfgs| <= 1
            && (s.radio.state.Idle? ==> s.txMsgs == [] && s.cfgs == [])
            && (UsesTx(s, steps[k], run[k + 1]) ==> s.txMsgs == [] && !ConfigWaits(s))
  {
    hide Latched, Receive, RxMsgs, LogOk, SackTimer, LplTimer, Carried, FillsTx, UsesRx, Apply;
    RunInv(run, steps, k);
    FramesHold(run[k], steps[k]);
  }

  /** The receive gate: pendingRx holds exactly while one receive chain is alive, and the chain is one
      message or one callback; the shared buffer is locked exactly during the upcall that copies it
      out; and only the chain itself touches the receive buffers, its message, and soft-ACK's copy. */
  lemma RxGate(run: seq<State>, steps: seq<Step>, k: nat)
    requires IsRun(run, steps) && k < |steps|
    ensures var s, t := run[k], steps[k];
            && |s.rxMsgs| + |s.rxCalls| == (if s.radio.pendingRx then 1 else 0)
            && (s.radio.rxLocked <==> s.rxCalls != [] && s.rxCalls[0].AtSack?)
            && (UsesRx(s, run[k + 1]) ==> s.radio.pendingRx && (t.Rx? || t.RxDone?) && t.i == 0)
  {
    hide Transmit, Latched, RxMsgs, LogOk, SackTimer, LplTimer, Carried, FillsTx, UsesRx, Apply, RxCallOk;
    RunInv(run, steps, k);
    FramesHold(run[k], steps[k]);
  }

  /** From the copy to the end of the upcall, soft-ACK's buffer starts with the length byte and exactly
      the bytes that came over SPI for this chain. */
  lemma RxContent(run: seq<State>, steps: seq<Step>, k: nat)
    requires IsRun(run, steps) && k < |run|
    requires var c := run[k].rxCalls; c != [] && (c[0].SackLock? || c[0].Acking? || c[0].RxUp?)
    ensures var s := run[k]; var n := |s.radio.rxIn| - 1;
            && 3 <= n < PKT_BUFF_SIZE && s.sack.rxLen == n + 1
            && s.sack.rxBuf[..n + 1] == [n] + s.radio.rxIn[1..]
  {
    hide Counts, Transmit, Latched, RxMsgs, LogOk, SackTimer, LplTimer, Carried, Apply, Enabled, Last, Replied, Heard,
         Sent;
    RunInv(run, steps, k);
  }

  // ---------- one upcall per chain ----------

  datatype ChainEvent = ChainStarts | CallsUp | TooLong

  /** A FIFOP starts a chain, cc2520_radio_finishRx makes its upcall, or the length byte is over the limit. */
  predicate Happens(s: State, t: Step, e: ChainEvent)
  {
    match e
    case ChainStarts => t.Fifop? && !s.radio.pendingRx
    case CallsUp => t.Rx? && t.i < |s.rxCalls| && s.rxCalls[t.i].Finish?
    case TooLong => t.RxDone? && t.i < |s.rxMsgs| && s.rxMsgs[t.i].ReadLen? && t.bytes != [] && t.bytes[0] > 127
  }

  /** A chain is alive and has neither made its upcall nor given up. */
  predicate BeforeUpcall(s: State)
  {
    || (s.rxMsgs != [] && (s.rxMsgs[0].ReadLen? || s.rxMsgs[0].ReadBody?))
    || (s.rxCalls != [] && (s.rxCalls[0].Begin? || s.rxCalls[0].Finish?))
  }

  /** A step changes the chain's place before its upcall as counted. */
  predicate Balanced(s: State, t: Step, s': State)
  {
    B(BeforeUpcall(s')) == B(BeforeUpcall(s)) + B(Happens(s, t, ChainStarts))
                           - B(Happens(s, t, CallsUp)) - B(Happens(s, t, TooLong))
  }

  lemma OtherBalance(s: State, t: Step, s': State)
    requires s'.rxMsgs == s.rxMsgs && s'.rxCalls == s.rxCalls && !t.Rx? && !t.RxDone? && !t.Fifop?
    ensures Balanced(s, t, s')
  {
  }

  lemma ChainBalance(s: State, t: Step)
    requires Inv(s) && Enabled(s, t)
    ensures Balanced(s, t, Apply(s, t))
  {
    hide Transmit, Latched, Receive, LogOk, SackTimer, LplTimer, Carried, FillsTx, UsesRx, ApplyUp, ApplyLow, ApplyTx,
         ApplyTimer, ApplyWrite, ApplyRx, Balanced;
    FramesHold(s, t);
    if t.Rx? || t.RxDone? || t.Fifop? { RxBalance(s, t); } else { OtherBalance(s, t, Apply(s, t)); }
  }

  lemma RxBalance(s: State, t: Step)
    requires EnabledRx(s, t) && |s.rxMsgs| + |s.rxCalls| == B(s.radio.pendingRx)
    ensures Balanced(s, t, ApplyRx(s, t))
  {
    hide Memcpy, Unique.OnRx, Packet.GetSrc, Packet.HasSrc, Sack.OnRx;
    if t.Fifop? {
      assert Balanced(s, t, ApplyRx(s, t));
    } else if t.RxDone? {
      assert Balanced(s, t, ApplyRx(s, t));
    } else {
      CallBalance(s, t);
    }
  }

  lemma CallBalance(s: State, t: Step)
    requires EnabledRx(s, t) && t.Rx? && s.rxMsgs == [] && |s.rxCalls| == 1
    ensures Balanced(s, t, ApplyRx(s, t))
  {
    hide Memcpy, Unique.OnRx, Packet.GetSrc, Packet.HasSrc, Sack.OnRx;
    match s.rxCalls[0]
    case Begin => assert Balanced(s, t, ApplyRx(s, t));
    case Finish(_) => assert Balanced(s, t, ApplyRx(s, t));
    case AtSack(_) => assert Balanced(s, t, ApplyRx(s, t));
    case SackLock => assert Balanced(s, t, ApplyRx(s, t));
    case Acking => assert Balanced(s, t, ApplyRx(s, t));
    case RxUp => assert Balanced(s, t, ApplyRx(s, t));
    case AfterUp => assert Balanced(s, t, ApplyRx(s, t));
  }

  /** How often e happened in the first k steps. */
  function Times(run: seq<State>, steps: seq<Step>, k: nat, e: ChainEvent): nat
    requires k < |run| && |run| == |steps| + 1
  {
    if k == 0 then 0 else Times(run, steps, k - 1, e) + B(Happens(run[k - 1], steps[k - 1], e))
  }

  /** Each receive chain makes one upcall, or none if the length byte was over the limit: the chains
      started are the upcalls made, the chains given up, and the one that has still to decide. */
  lemma {:induction false} OneUpcallPerChain(run: seq<State>, steps: seq<Step>, k: nat)
    requires IsRun(run, steps) && k < |run|
    ensures Times(run, steps, k, ChainStarts)
            == Times(run, steps, k, CallsUp) + Times(run, steps, k, TooLong) + B(BeforeUpcall(run[k]))
  {
    hide Inv, Enabled, Apply, Happens;
    if k > 0 {
      OneUpcallPerChain(run, steps, k - 1);
      RunInv(run, steps, k - 1);
      ChainBalance(run[k - 1], steps[k - 1]);
    }
  }
}
