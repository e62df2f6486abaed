/** Every step of the composed driver preserves its invariant: one lemma per kind of step. */
module StackSteps {
  import opened Bytes
  import opened Stack
  import opened StackInv
  import opened Token
  import Packet
  import Interface
  import Sack
  import Unique

  /** A pending call above is the only carrier of the only write. */
  lemma Alone(s: State, i: nat)
    requires Inv(s) && i < |s.up|
    ensures i == 0 && |s.up| == 1 && |s.waiting| == 1
    ensures s.iface.doneSem == 0 && Pending(s.csma) == 0 && !s.sack.state.Tx? && !s.sack.state.TxWait?
    ensures Carried(s, s.waiting[0]) && Holds(s.iface.buf, s.iface.len, s.waiting[0])
    ensures CallOk(s.iface, s.lpl, s.csma, FactsOf(s.log, s.waiting[0]), s.waiting[0], s.up[0])
  {
    hide Transmit, Latched, Receive, LogOk, SackTimer, LplTimer, CarriesBelow, CallOk, Heard, Sent, Last, Replied,
         Unique.Distinct, RxMsgs;
  }

  lemma StepLplTx(s: State, i: nat)
    requires Inv(s) && EnabledUp(s, i) && s.up[i].LplTx?
    ensures Inv(ApplyUp(s, i)) && Moves(s, Up(i), ApplyUp(s, i))
  {
    hide Transmit, Latched, Receive, RxMsgs, LogOk, Heard, Sent, Last, Replied, Unique.Distinct, Memcpy, Packet.IsAck,
         Packet.RequiresAck, Packet.Fcf, Packet.CreateAck, Unique.OnRx, Packet.GetSrc, Packet.HasSrc;
    Alone(s, i);
  }

  lemma StepLplCopy(s: State, i: nat)
    requires Inv(s) && EnabledUp(s, i) && s.up[i].LplCopy?
    ensures Inv(ApplyUp(s, i)) && Moves(s, Up(i), ApplyUp(s, i))
  {
    hide Transmit, Latched, Receive, RxMsgs, LogOk, Heard, Sent, Last, Replied, Unique.Distinct, Packet.IsAck,
         Packet.RequiresAck, Packet.Fcf, Packet.CreateAck, Unique.OnRx, Packet.GetSrc, Packet.HasSrc;
    Alone(s, i);
  }

  lemma StepCsmaTx(s: State, i: nat)
    requires Inv(s) && EnabledUp(s, i) && s.up[i].CsmaTx?
    ensures Inv(ApplyUp(s, i)) && Moves(s, Up(i), ApplyUp(s, i))
  {
    hide Transmit, Latched, Receive, RxMsgs, LogOk, Heard, Sent, Last, Replied, Unique.Distinct, Memcpy, Packet.IsAck,
         Packet.RequiresAck, Packet.Fcf, Packet.CreateAck, Unique.OnRx, Packet.GetSrc, Packet.HasSrc;
    Alone(s, i);
  }

  lemma StepCsmaCopy(s: State, i: nat)
    requires Inv(s) && EnabledUp(s, i) && s.up[i].CsmaCopy?
    ensures Inv(ApplyUp(s, i)) && Moves(s, Up(i), ApplyUp(s, i))
  {
    hide Transmit, Latched, Receive, RxMsgs, LogOk, Heard, Sent, Last, Replied, Unique.Distinct, Packet.IsAck,
         Packet.RequiresAck, Packet.Fcf, Packet.CreateAck, Unique.OnRx, Packet.GetSrc, Packet.HasSrc;
    Alone(s, i);
  }

  lemma StepSackAcked(s: State, i: nat)
    requires Inv(s) && EnabledUp(s, i) && s.up[i].SackAcked?
    ensures Inv(ApplyUp(s, i)) && Moves(s, Up(i), ApplyUp(s, i))
  {
    hide Transmit, Latched, Receive, RxMsgs, LogOk, Heard, Sent, Last, Replied, Unique.Distinct, Memcpy, Packet.IsAck,
         Packet.RequiresAck, Packet.Fcf, Packet.CreateAck, Unique.OnRx, Packet.GetSrc, Packet.HasSrc;
    Alone(s, i);
  }

  lemma StepCsmaDone(s: State, i: nat)
    requires Inv(s) && EnabledUp(s, i) && s.up[i].CsmaDone?
    ensures Inv(ApplyUp(s, i)) && Moves(s, Up(i), ApplyUp(s, i))
  {
    hide Transmit, Latched, Receive, RxMsgs, LogOk, Heard, Sent, Last, Replied, Unique.Distinct, Memcpy, Packet.IsAck,
         Packet.RequiresAck, Packet.Fcf, Packet.CreateAck, Unique.OnRx, Packet.GetSrc, Packet.HasSrc;
    Alone(s, i);
  }

  lemma StepLplDone(s: State, i: nat)
    requires Inv(s) && EnabledUp(s, i) && s.up[i].LplDone?
    ensures Inv(ApplyUp(s, i)) && Moves(s, Up(i), ApplyUp(s, i))
  {
    hide Transmit, Latched, Receive, RxMsgs, LogOk, Heard, Sent, Last, Replied, Unique.Distinct, Memcpy, Packet.IsAck,
         Packet.RequiresAck, Packet.Fcf, Packet.CreateAck, Unique.OnRx, Packet.GetSrc, Packet.HasSrc;
    Alone(s, i);
    if s.lpl.enabled { Packet.SameHeader(s.lpl.buf, s.waiting[0], |s.waiting[0]|); }
  }

  lemma StepLplAcked(s: State, i: nat)
    requires Inv(s) && EnabledUp(s, i) && s.up[i].LplAcked?
    ensures Inv(ApplyUp(s, i)) && Moves(s, Up(i), ApplyUp(s, i))
  {
    hide Transmit, Latched, Receive, RxMsgs, LogOk, Heard, Sent, Last, Replied, Unique.Distinct, Memcpy, Packet.IsAck,
         Packet.RequiresAck, Packet.Fcf, Packet.CreateAck, Unique.OnRx, Packet.GetSrc, Packet.HasSrc;
    Alone(s, i);
  }

  lemma StepIfaceDone(s: State, i: nat)
    requires Inv(s) && EnabledUp(s, i) && s.up[i].IfaceDone?
    ensures Inv(ApplyUp(s, i)) && Moves(s, Up(i), ApplyUp(s, i))
  {
    hide Transmit, Latched, Receive, RxMsgs, LogOk, Heard, Sent, Last, Replied, Unique.Distinct, Memcpy, Packet.IsAck,
         Packet.RequiresAck, Packet.Fcf, Packet.CreateAck, Unique.OnRx, Packet.GetSrc, Packet.HasSrc;
    Alone(s, i);
  }

  lemma StepSackTx(s: State, i: nat)
    requires Inv(s) && EnabledUp(s, i) && s.up[i].SackTx?
    ensures Inv(ApplyUp(s, i)) && Moves(s, Up(i), ApplyUp(s, i))
  {
    hide Receive, RxMsgs, LogOk, Heard, Sent, Last, Replied, Unique.Distinct, Memcpy, Packet.IsAck,
         Packet.RequiresAck, Packet.Fcf, Packet.CreateAck, Unique.OnRx, Packet.GetSrc, Packet.HasSrc;
    Alone(s, i);
  }

  lemma StepLplStart(s: State, t: Step)
    requires Inv(s) && EnabledTimer(s, t) && t.LplStart?
    ensures Inv(ApplyTimer(s, t)) && Moves(s, t, ApplyTimer(s, t))
  {
    hide Transmit, Latched, Receive, RxMsgs, LogOk, Heard, Sent, Last, Replied, SackTimer, Unique.Distinct, Memcpy,
         Packet.IsAck, Packet.RequiresAck, Packet.Fcf, Packet.CreateAck, Unique.OnRx, Packet.GetSrc, Packet.HasSrc,
         Hop, LowHop, At, LowAt;
  }

  lemma StepLplFire(s: State, t: Step)
    requires Inv(s) && EnabledTimer(s, t) && t.LplFire?
    ensures Inv(ApplyTimer(s, t)) && Moves(s, t, ApplyTimer(s, t))
  {
    hide Transmit, Latched, Receive, RxMsgs, LogOk, Heard, Sent, Last, Replied, SackTimer, Unique.Distinct, Memcpy,
         Packet.IsAck, Packet.RequiresAck, Packet.Fcf, Packet.CreateAck, Unique.OnRx, Packet.GetSrc, Packet.HasSrc,
         Hop, LowHop, At, LowAt;
  }

  lemma StepLplExpire(s: State, t: Step)
    requires Inv(s) && EnabledTimer(s, t) && t.LplExpire?
    ensures Inv(ApplyTimer(s, t)) && Moves(s, t, ApplyTimer(s, t))
  {
    hide Transmit, Latched, Receive, RxMsgs, LogOk, Heard, Sent, Last, Replied, SackTimer, Unique.Distinct, Memcpy,
         Packet.IsAck, Packet.RequiresAck, Packet.Fcf, Packet.CreateAck, Unique.OnRx, Packet.GetSrc, Packet.HasSrc,
         Hop, LowHop, At, LowAt;
  }

  lemma StepCsmaFire(s: State, t: Step)
    requires Inv(s) && EnabledTimer(s, t) && t.CsmaFire?
    ensures Inv(ApplyTimer(s, t)) && Moves(s, t, ApplyTimer(s, t))
  {
    hide Transmit, Latched, Receive, RxMsgs, LogOk, Heard, Sent, Last, Replied, SackTimer, LplTimer, Unique.Distinct,
         Memcpy, Packet.IsAck, Packet.RequiresAck, Packet.Fcf, Packet.CreateAck, Unique.OnRx, Packet.GetSrc,
         Packet.HasSrc;
  }

  lemma StepCsmaSampleMoves(s: State, t: Step)
    requires Inv(s) && EnabledTimer(s, t) && t.CsmaSample?
    ensures Moves(s, t, ApplyTimer(s, t))
  {
    hide Transmit, Latched, Receive, RxMsgs, LogOk, Heard, Sent, Last, Replied, SackTimer, LplTimer, CarriesBelow,
         Unique.Distinct, Memcpy, Packet.IsAck, Packet.RequiresAck, Packet.Fcf, Packet.CreateAck, Unique.OnRx,
         Packet.GetSrc, Packet.HasSrc;
  }

  lemma StepCsmaSample(s: State, t: Step)
    requires Inv(s) && EnabledTimer(s, t) && t.CsmaSample?
    ensures Inv(ApplyTimer(s, t)) && Moves(s, t, ApplyTimer(s, t))
  {
    hide Transmit, Latched, Receive, RxMsgs, LogOk, Heard, Sent, Last, Replied, Unique.Distinct, Memcpy, Packet.IsAck,
         Packet.RequiresAck, Packet.Fcf, Packet.CreateAck, Unique.OnRx, Packet.GetSrc, Packet.HasSrc, Moves;
    StepCsmaSampleMoves(s, t);
  }

  lemma StepCsmaWork(s: State, t: Step)
    requires Inv(s) && EnabledTimer(s, t) && t.CsmaWork?
    ensures Inv(ApplyTimer(s, t)) && Moves(s, t, ApplyTimer(s, t))
  {
    hide Transmit, Latched, Receive, RxMsgs, LogOk, Heard, Sent, Last, Replied, Unique.Distinct, Memcpy, Packet.IsAck,
         Packet.RequiresAck, Packet.Fcf, Packet.CreateAck, Unique.OnRx, Packet.GetSrc, Packet.HasSrc;
  }

  lemma StepSackFire(s: State, t: Step)
    requires Inv(s) && EnabledTimer(s, t) && t.SackFire?
    ensures Inv(ApplyTimer(s, t)) && Moves(s, t, ApplyTimer(s, t))
  {
    hide Transmit, Latched, Receive, RxMsgs, LogOk, Heard, Sent, Last, Replied, LplTimer, CarriesAbove, CarriesBelow,
         Unique.Distinct, Memcpy, Packet.IsAck, Packet.RequiresAck, Packet.Fcf, Packet.CreateAck, Unique.OnRx,
         Packet.GetSrc, Packet.HasSrc;
  }

  lemma StepSackExpire(s: State, t: Step)
    requires Inv(s) && EnabledTimer(s, t) && t.SackExpire?
    ensures Inv(ApplyTimer(s, t)) && Moves(s, t, ApplyTimer(s, t))
  {
    hide Receive, RxMsgs, LogOk, Heard, Sent, Last, Replied, Unique.Distinct, Memcpy, Packet.IsAck,
         Packet.RequiresAck, Packet.Fcf, Packet.CreateAck, Unique.OnRx, Packet.GetSrc, Packet.HasSrc;
  }

  lemma StepSackCopy(s: State, i: nat)
    requires Inv(s) && EnabledLow(s, i) && s.low[i].SackCopy?
    ensures Inv(ApplyLow(s, i)) && Moves(s, Low(i), ApplyLow(s, i))
  {
    hide Latched, Receive, RxMsgs, LogOk, Heard, Sent, Last, Replied, SackTimer, LplTimer, CarriesAbove,
         Unique.Distinct, Packet.IsAck, Packet.RequiresAck, Packet.Fcf, Packet.CreateAck, Unique.OnRx, Packet.GetSrc,
         Packet.HasSrc;
  }

  lemma StepRadioTx(s: State, i: nat)
    requires Inv(s) && EnabledLow(s, i) && s.low[i].RadioTx?
    ensures Inv(ApplyLow(s, i)) && Moves(s, Low(i), ApplyLow(s, i))
  {
    hide Latched, Receive, RxMsgs, LogOk, Heard, Sent, Last, Replied, SackTimer, LplTimer, CarriesAbove,
         Unique.Distinct, Memcpy, Packet.IsAck, Packet.RequiresAck, Packet.Fcf, Packet.CreateAck, Unique.OnRx,
         Packet.GetSrc, Packet.HasSrc;
  }

  lemma StepAckCopy(s: State, i: nat)
    requires Inv(s) && EnabledLow(s, i) && s.low[i].RadioCopy? && s.low[i].ack
    ensures Inv(ApplyLow(s, i)) && Moves(s, Low(i), ApplyLow(s, i))
  {
    hide RxMsgs, LogOk, Heard, Sent, Last, Replied, SackTimer, LplTimer, CarriesAbove, Unique.Distinct, Packet.IsAck,
         Packet.RequiresAck, Packet.Fcf, Packet.CreateAck, Unique.OnRx, Packet.GetSrc, Packet.HasSrc;
    var e := ApplyLow(s, i).log[|s.log|];
    Append(s.log, e);
    LogAppend(s.log, e, On(s));
  }

  lemma StepRadioCopy(s: State, i: nat)
    requires Inv(s) && EnabledLow(s, i) && s.low[i].RadioCopy? && !s.low[i].ack
    ensures Inv(ApplyLow(s, i)) && Moves(s, Low(i), ApplyLow(s, i))
  {
    hide RxMsgs, LogOk, Heard, Sent, Last, Replied, SackTimer, LplTimer, CarriesAbove, Unique.Distinct, Packet.IsAck,
         Packet.RequiresAck, Packet.Fcf, Packet.CreateAck, Unique.OnRx, Packet.GetSrc, Packet.HasSrc;
    var e := ApplyLow(s, i).log[|s.log|];
    Append(s.log, e);
    LogAppend(s.log, e, On(s));
  }

  lemma StepRadioComplete(s: State, i: nat)
    requires Inv(s) && EnabledLow(s, i) && s.low[i].RadioComplete?
    ensures Inv(ApplyLow(s, i)) && Moves(s, Low(i), ApplyLow(s, i))
  {
    hide Latched, Receive, RxMsgs, LogOk, Heard, Sent, Last, Replied, SackTimer, LplTimer, CarriesAbove,
         Unique.Distinct, Memcpy, Packet.IsAck, Packet.RequiresAck, Packet.Fcf, Packet.CreateAck, Unique.OnRx,
         Packet.GetSrc, Packet.HasSrc;
  }

  lemma StepSackDoneMoves(s: State, i: nat)
    requires Inv(s) && EnabledLow(s, i) && s.low[i].SackDone? && s.sack.state.Tx?
    ensures Moves(s, Low(i), ApplyLow(s, i))
  {
    hide Latched, Receive, RxMsgs, LogOk, Heard, Sent, Last, Replied, LplTimer, CarriesAbove, CarriesBelow,
         Unique.Distinct, Memcpy, Packet.IsAck, Packet.RequiresAck, Packet.Fcf, Packet.CreateAck, Unique.OnRx,
         Packet.GetSrc, Packet.HasSrc;
  }

  lemma StepSackDone(s: State, i: nat)
    requires Inv(s) && EnabledLow(s, i) && s.low[i].SackDone? && s.sack.state.Tx?
    ensures Inv(ApplyLow(s, i)) && Moves(s, Low(i), ApplyLow(s, i))
  {
    hide Receive, RxMsgs, LogOk, Heard, Sent, Last, Replied, Unique.Distinct, Memcpy, Packet.IsAck,
         Packet.RequiresAck, Packet.Fcf, Packet.CreateAck, Unique.OnRx, Packet.GetSrc, Packet.HasSrc, Moves;
    StepSackDoneMoves(s, i);
    Packet.SameHeader(s.sack.txBuf, s.waiting[0], |s.waiting[0]|);
  }

  lemma StepAckDone(s: State, i: nat)
    requires Inv(s) && EnabledLow(s, i) && s.low[i].SackDone? && !s.sack.state.Tx?
    ensures Inv(ApplyLow(s, i)) && Moves(s, Low(i), ApplyLow(s, i))
  {
    hide Receive, RxMsgs, LogOk, Heard, Sent, Last, Replied, LplTimer, CarriesAbove, Unique.Distinct, Memcpy,
         Packet.IsAck, Packet.RequiresAck, Packet.Fcf, Packet.CreateAck, Unique.OnRx, Packet.GetSrc, Packet.HasSrc,
         Hop;
    assert ApplyLow(s, i).low == [] && ApplyLow(s, i).sack.state.Idle? && ApplyLow(s, i).up == s.up;
  }

  lemma StepMsgOff(s: State, t: Step)
    requires Inv(s) && EnabledTx(s, t) && t.TxDone? && s.txMsgs[t.i].MsgOff?
    ensures Inv(ApplyTx(s, t)) && Moves(s, t, ApplyTx(s, t))
  {
    hide Receive, RxMsgs, LogOk, Heard, Sent, Last, Replied, SackTimer, LplTimer, Unique.Distinct, Memcpy,
         Packet.IsAck, Packet.RequiresAck, Packet.Fcf, Packet.CreateAck, Unique.OnRx, Packet.GetSrc, Packet.HasSrc;
    var e := Written(s.radio.txBuf[..s.radio.txLen]);
    Append(s.log, e);
    LogAppend(s.log, e, On(s));
  }

  lemma StepMsgWrite(s: State, t: Step)
    requires Inv(s) && EnabledTx(s, t) && t.TxDone? && s.txMsgs[t.i].MsgWrite? && !t.underflow
    ensures Inv(ApplyTx(s, t)) && Moves(s, t, ApplyTx(s, t))
  {
    hide Receive, RxMsgs, LogOk, Heard, Sent, Last, Replied, SackTimer, LplTimer, CarriesAbove, Unique.Distinct,
         Memcpy, Packet.IsAck, Packet.RequiresAck, Packet.Fcf, Packet.CreateAck, Unique.OnRx, Packet.GetSrc,
         Packet.HasSrc;
  }

  lemma StepUnderflow(s: State, t: Step)
    requires Inv(s) && EnabledTx(s, t) && t.TxDone? && s.txMsgs[t.i].MsgWrite? && t.underflow
    ensures Inv(ApplyTx(s, t)) && Moves(s, t, ApplyTx(s, t))
  {
    hide Receive, RxMsgs, LogOk, Heard, Sent, Last, Replied, SackTimer, LplTimer, CarriesAbove, Unique.Distinct,
         Memcpy, Packet.IsAck, Packet.RequiresAck, Packet.Fcf, Packet.CreateAck, Unique.OnRx, Packet.GetSrc,
         Packet.HasSrc;
  }

  lemma StepMsgFlush(s: State, t: Step)
    requires Inv(s) && EnabledTx(s, t) && t.TxDone? && s.txMsgs[t.i].MsgFlush?
    ensures Inv(ApplyTx(s, t)) && Moves(s, t, ApplyTx(s, t))
  {
    hide Receive, RxMsgs, LogOk, Heard, Sent, Last, Replied, SackTimer, LplTimer, CarriesAbove, Unique.Distinct,
         Memcpy, Packet.IsAck, Packet.RequiresAck, Packet.Fcf, Packet.CreateAck, Unique.OnRx, Packet.GetSrc,
         Packet.HasSrc;
  }

  lemma StepSfdMoves(s: State, t: Step)
    requires Inv(s) && EnabledTx(s, t) && t.Sfd?
    ensures Moves(s, t, ApplyTx(s, t))
  {
    hide Latched, Receive, RxMsgs, LogOk, Heard, Sent, Last, Replied, SackTimer, LplTimer, CarriesAbove, CarriesBelow,
         Unique.Distinct, Memcpy, Packet.IsAck, Packet.RequiresAck, Packet.Fcf, Packet.CreateAck, Unique.OnRx,
         Packet.GetSrc, Packet.HasSrc;
  }

  lemma StepSfd(s: State, t: Step)
    requires Inv(s) && EnabledTx(s, t) && t.Sfd?
    ensures Inv(ApplyTx(s, t)) && Moves(s, t, ApplyTx(s, t))
  {
    hide Latched, Receive, RxMsgs, LogOk, Heard, Sent, Last, Replied, SackTimer, LplTimer, CarriesAbove,
         Unique.Distinct, Memcpy, Packet.IsAck, Packet.RequiresAck, Packet.Fcf, Packet.CreateAck, Unique.OnRx,
         Packet.GetSrc, Packet.HasSrc, Moves;
    StepSfdMoves(s, t);
  }

  lemma StepConfigMoves(s: State, t: Step)
    requires Inv(s) && EnabledTx(s, t) && (t.CfgLock? || t.CfgUnlock?)
    ensures Moves(s, t, ApplyTx(s, t))
  {
    hide Latched, Receive, RxMsgs, LogOk, Heard, Sent, Last, Replied, SackTimer, LplTimer, CarriesAbove, CarriesBelow,
         Unique.Distinct, Memcpy, Packet.IsAck, Packet.RequiresAck, Packet.Fcf, Packet.CreateAck, Unique.OnRx,
         Packet.GetSrc, Packet.HasSrc;
  }

  lemma StepConfig(s: State, t: Step)
    requires Inv(s) && EnabledTx(s, t) && (t.CfgLock? || t.CfgUnlock?)
    ensures Inv(ApplyTx(s, t)) && Moves(s, t, ApplyTx(s, t))
  {
    hide Latched, Receive, RxMsgs, LogOk, Heard, Sent, Last, Replied, SackTimer, LplTimer, CarriesAbove,
         Unique.Distinct, Memcpy, Packet.IsAck, Packet.RequiresAck, Packet.Fcf, Packet.CreateAck, Unique.OnRx,
         Packet.GetSrc, Packet.HasSrc, Hop, LowHop, At, Moves;
    StepConfigMoves(s, t);
  }

  lemma StepCfgSync(s: State, t: Step)
    requires Inv(s) && EnabledTx(s, t) && (t.CfgSync? || t.CfgDone?)
    ensures Inv(ApplyTx(s, t)) && Moves(s, t, ApplyTx(s, t))
  {
    hide Transmit, Latched, Receive, RxMsgs, LogOk, Heard, Sent, Last, Replied, SackTimer, LplTimer, CarriesAbove,
         CarriesBelow, Unique.Distinct, Memcpy, Packet.IsAck, Packet.RequiresAck, Packet.Fcf, Packet.CreateAck,
         Unique.OnRx, Packet.GetSrc, Packet.HasSrc, Hop, LowHop, At, LowAt;
  }

  lemma StepFifop(s: State, t: Step)
    requires Inv(s) && EnabledRx(s, t) && t.Fifop?
    ensures Inv(ApplyRx(s, t)) && Moves(s, t, ApplyRx(s, t))
  {
    hide Transmit, Latched, RxMsgs, LogOk, Heard, Sent, Last, Replied, SackTimer, LplTimer, CarriesAbove,
         CarriesBelow, Unique.Distinct, Memcpy, Packet.IsAck, Packet.RequiresAck, Packet.Fcf, Packet.CreateAck,
         Unique.OnRx, Packet.GetSrc, Packet.HasSrc, Hop, LowHop, At, LowAt;
  }

  lemma StepRxLen(s: State, t: Step)
    requires Inv(s) && EnabledRx(s, t) && t.RxDone? && (s.rxMsgs[t.i].ReadLen? || s.rxMsgs[t.i].Flush1?)
    ensures Inv(ApplyRx(s, t)) && Moves(s, t, ApplyRx(s, t))
  {
    hide Transmit, Latched, LogOk, Heard, Sent, Last, Replied, SackTimer, LplTimer, CarriesAbove, CarriesBelow,
         Unique.Distinct, Memcpy, Packet.IsAck, Packet.RequiresAck, Packet.Fcf, Packet.CreateAck, Unique.OnRx,
         Packet.GetSrc, Packet.HasSrc, Hop, LowHop, At, LowAt;
  }

  lemma StepFlushed(s: State, t: Step)
    requires Inv(s) && EnabledRx(s, t) && t.RxDone? && s.rxMsgs[t.i].Flush2?
    ensures Inv(ApplyRx(s, t)) && Moves(s, t, ApplyRx(s, t))
  {
    hide Transmit, Latched, LogOk, Heard, Sent, Last, Replied, SackTimer, LplTimer, CarriesAbove, CarriesBelow,
         Unique.Distinct, Memcpy, Packet.IsAck, Packet.RequiresAck, Packet.Fcf, Packet.CreateAck, Unique.OnRx,
         Packet.GetSrc, Packet.HasSrc, Hop, LowHop, At, LowAt;
  }

  lemma StepRxBody(s: State, t: Step)
    requires Inv(s) && EnabledRx(s, t) && t.RxDone? && s.rxMsgs[t.i].ReadBody?
    ensures Inv(ApplyRx(s, t)) && Moves(s, t, ApplyRx(s, t))
  {
    hide Transmit, Latched, LogOk, Heard, Sent, Last, Replied, SackTimer, LplTimer, CarriesAbove, CarriesBelow,
         Unique.Distinct, Memcpy, Packet.IsAck, Packet.RequiresAck, Packet.Fcf, Packet.CreateAck, Unique.OnRx,
         Packet.GetSrc, Packet.HasSrc, Hop, LowHop, At, LowAt;
  }

  lemma StepBegin(s: State, t: Step)
    requires Inv(s) && EnabledRx(s, t) && t.Rx? && s.rxCalls[t.i].Begin?
    ensures Inv(ApplyRx(s, t)) && Moves(s, t, ApplyRx(s, t))
  {
    hide Transmit, Latched, LogOk, Heard, Sent, Last, Replied, SackTimer, LplTimer, CarriesAbove, CarriesBelow,
         Unique.Distinct, Memcpy, Packet.IsAck, Packet.RequiresAck, Packet.Fcf, Packet.CreateAck, Unique.OnRx,
         Packet.GetSrc, Packet.HasSrc, Hop, LowHop, At, LowAt;
  }

  lemma StepFinish(s: State, t: Step)
    requires Inv(s) && EnabledRx(s, t) && t.Rx? && s.rxCalls[t.i].Finish?
    ensures Inv(ApplyRx(s, t)) && Moves(s, t, ApplyRx(s, t))
  {
    hide Transmit, Latched, RxMsgs, LogOk, Heard, Sent, Last, Replied, SackTimer, LplTimer, CarriesAbove,
         CarriesBelow, Unique.Distinct, Memcpy, Packet.IsAck, Packet.RequiresAck, Packet.Fcf, Packet.CreateAck,
         Unique.OnRx, Packet.GetSrc, Packet.HasSrc, Hop, LowHop, At, LowAt;
  }

  lemma StepAtSack(s: State, t: Step)
    requires Inv(s) && EnabledRx(s, t) && t.Rx? && s.rxCalls[t.i].AtSack?
    ensures Inv(ApplyRx(s, t)) && Moves(s, t, ApplyRx(s, t))
  {
    hide Transmit, Latched, RxMsgs, LogOk, Heard, Sent, Last, Replied, SackTimer, LplTimer, CarriesAbove,
         CarriesBelow, Unique.Distinct, Packet.IsAck, Packet.RequiresAck, Packet.Fcf, Packet.CreateAck, Unique.OnRx,
         Packet.GetSrc, Packet.HasSrc, Hop, LowHop, At, LowAt;
  }

  lemma StepAckedMoves(s: State, t: Step)
    requires Inv(s) && EnabledRx(s, t) && t.Rx? && s.rxCalls[t.i].SackLock? && Sack.OnRx(s.sack).1.Acked?
    ensures Moves(s, t, ApplyRx(s, t))
  {
    hide Latched, Receive, RxMsgs, LogOk, Heard, Sent, Last, Replied, LplTimer, CarriesAbove, CarriesBelow,
         Unique.Distinct, Memcpy, Packet.IsAck, Packet.RequiresAck, Packet.Fcf, Packet.CreateAck, Unique.OnRx,
         Packet.GetSrc, Packet.HasSrc;
  }

  lemma StepAcked(s: State, t: Step)
    requires Inv(s) && EnabledRx(s, t) && t.Rx? && s.rxCalls[t.i].SackLock? && Sack.OnRx(s.sack).1.Acked?
    ensures Inv(ApplyRx(s, t)) && Moves(s, t, ApplyRx(s, t))
  {
    hide RxMsgs, LogOk, Heard, Sent, Last, Replied, Unique.Distinct, Memcpy, Packet.IsAck, Packet.RequiresAck,
         Packet.Fcf, Packet.CreateAck, Unique.OnRx, Packet.GetSrc, Packet.HasSrc, Moves;
    StepAckedMoves(s, t);
    Packet.SameHeader(s.sack.txBuf, s.waiting[0], |s.waiting[0]|);
    var e1, e2 := Received(s.sack.rxBuf), AckHeard(s.sack.rxBuf);
    Append(s.log, e1);
    LogAppend(s.log, e1, On(s));
    Append(s.log + [e1], e2);
    LogAppend(s.log + [e1], e2, On(s));
  }

  lemma StepReply(s: State, t: Step)
    requires Inv(s) && EnabledRx(s, t) && t.Rx? && s.rxCalls[t.i].SackLock? && Sack.OnRx(s.sack).1.Reply?
    ensures Inv(ApplyRx(s, t)) && Moves(s, t, ApplyRx(s, t))
  {
    hide RxMsgs, LogOk, Heard, Sent, Last, Replied, LplTimer, CarriesAbove, Unique.Distinct, Memcpy, Packet.IsAck,
         Packet.RequiresAck, Packet.Fcf, Unique.OnRx, Packet.GetSrc, Packet.HasSrc;
    var e := Received(s.sack.rxBuf);
    Append(s.log, e);
    LogAppend(s.log, e, On(s));
  }

  lemma StepNoReply(s: State, t: Step)
    requires Inv(s) && EnabledRx(s, t) && t.Rx? && s.rxCalls[t.i].SackLock?
    requires !Sack.OnRx(s.sack).1.Acked? && !Sack.OnRx(s.sack).1.Reply?
    ensures Inv(ApplyRx(s, t)) && Moves(s, t, ApplyRx(s, t))
  {
    hide Transmit, Latched, RxMsgs, LogOk, Heard, Sent, Last, Replied, SackTimer, LplTimer, CarriesAbove,
         CarriesBelow, Unique.Distinct, Memcpy, Packet.IsAck, Packet.RequiresAck, Packet.Fcf, Packet.CreateAck,
         Unique.OnRx, Packet.GetSrc, Packet.HasSrc, Hop, LowHop, At, LowAt;
    var e := Received(s.sack.rxBuf);
    Append(s.log, e);
    LogAppend(s.log, e, On(s));
  }

  lemma StepAcking(s: State, t: Step)
    requires Inv(s) && EnabledRx(s, t) && t.Rx? && s.rxCalls[t.i].Acking?
    ensures Inv(ApplyRx(s, t)) && Moves(s, t, ApplyRx(s, t))
  {
    hide Transmit, Latched, RxMsgs, LogOk, Heard, Sent, Last, Replied, SackTimer, LplTimer, CarriesAbove,
         CarriesBelow, Unique.Distinct, Memcpy, Packet.IsAck, Packet.RequiresAck, Packet.Fcf, Packet.CreateAck,
         Unique.OnRx, Packet.GetSrc, Packet.HasSrc, Hop, LowHop, At, LowAt;
  }

  lemma StepRxUpMoves(s: State, t: Step)
    requires Inv(s) && EnabledRx(s, t) && t.Rx? && s.rxCalls[t.i].RxUp?
    ensures Moves(s, t, ApplyRx(s, t))
  {
    hide Transmit, Latched, Receive, RxMsgs, LogOk, Heard, Sent, Last, Replied, SackTimer, LplTimer, CarriesAbove,
         CarriesBelow, Hop, LowHop, Unique.Distinct, Memcpy, Packet.IsAck, Packet.RequiresAck, Packet.Fcf,
         Packet.CreateAck, Unique.OnRx, Packet.GetSrc, Packet.HasSrc;
  }

  lemma StepRxUp(s: State, t: Step)
    requires Inv(s) && EnabledRx(s, t) && t.Rx? && s.rxCalls[t.i].RxUp?
    ensures Inv(ApplyRx(s, t)) && Moves(s, t, ApplyRx(s, t))
  {
    hide Transmit, Latched, RxMsgs, LogOk, Heard, Sent, Last, Replied, SackTimer, LplTimer, CarriesAbove,
         CarriesBelow, Unique.Distinct, Memcpy, Packet.IsAck, Packet.RequiresAck, Packet.Fcf, Packet.CreateAck,
         Unique.OnRx, Packet.GetSrc, Hop, LowHop, At, LowAt, Moves;
    StepRxUpMoves(s, t);
    var e := ApplyRx(s, t).log[|s.log|];
    Append(s.log, e);
    LogAppend(s.log, e, On(s));
    Unique.RefinesMap(s.nodes, Packet.GetSrc(s.sack.rxBuf), Packet.Dsn(s.sack.rxBuf), t.flag);
  }

  lemma StepRxFlush(s: State, t: Step)
    requires Inv(s) && EnabledRx(s, t) && t.Rx? && s.rxCalls[t.i].AfterUp? && t.flag
    ensures Inv(ApplyRx(s, t)) && Moves(s, t, ApplyRx(s, t))
  {
    hide Transmit, Latched, LogOk, Heard, Sent, Last, Replied, SackTimer, LplTimer, CarriesAbove, CarriesBelow,
         Unique.Distinct, Memcpy, Packet.IsAck, Packet.RequiresAck, Packet.Fcf, Packet.CreateAck, Unique.OnRx,
         Packet.GetSrc, Packet.HasSrc, Hop, LowHop, At, LowAt;
  }

  lemma StepAfterUp(s: State, t: Step)
    requires Inv(s) && EnabledRx(s, t) && t.Rx? && s.rxCalls[t.i].AfterUp? && !t.flag
    ensures Inv(ApplyRx(s, t)) && Moves(s, t, ApplyRx(s, t))
  {
    hide Transmit, Latched, LogOk, Heard, Sent, Last, Replied, SackTimer, LplTimer, CarriesAbove, CarriesBelow,
         Unique.Distinct, Memcpy, Packet.IsAck, Packet.RequiresAck, Packet.Fcf, Packet.CreateAck, Unique.OnRx,
         Packet.GetSrc, Packet.HasSrc, Hop, LowHop, At, LowAt;
  }

  lemma StepWriteBegin(s: State, t: Step)
    requires Inv(s) && EnabledWrite(s, t) && t.WriteBegin?
    ensures Inv(ApplyWrite(s, t)) && Moves(s, t, ApplyWrite(s, t))
  {
    hide Transmit, Latched, Receive, RxMsgs, LogOk, Heard, Sent, Last, Replied, SackTimer, LplTimer, CarriesAbove,
         CarriesBelow, Unique.Distinct, Memcpy, Packet.IsAck, Packet.RequiresAck, Packet.Fcf, Packet.CreateAck,
         Unique.OnRx, Packet.GetSrc, Packet.HasSrc, Hop, LowHop, At, LowAt;
  }

  lemma StepWriteFault(s: State, t: Step)
    requires Inv(s) && EnabledWrite(s, t) && t.WriteFault?
    ensures Inv(ApplyWrite(s, t)) && Moves(s, t, ApplyWrite(s, t))
  {
    hide Transmit, Latched, Receive, RxMsgs, LogOk, Heard, Sent, Last, Replied, SackTimer, LplTimer, CarriesAbove,
         CarriesBelow, Unique.Distinct, Memcpy, Packet.IsAck, Packet.RequiresAck, Packet.Fcf, Packet.CreateAck,
         Unique.OnRx, Packet.GetSrc, Packet.HasSrc, Hop, LowHop, At, LowAt;
  }

  lemma StepWriteCopy(s: State, t: Step)
    requires Inv(s) && EnabledWrite(s, t) && t.WriteCopy?
    ensures Inv(ApplyWrite(s, t)) && Moves(s, t, ApplyWrite(s, t))
  {
    hide Transmit, Latched, Receive, RxMsgs, LogOk, Heard, Sent, Last, Replied, Unique.Distinct, Packet.IsAck,
         Packet.RequiresAck, Packet.Fcf, Packet.CreateAck, Unique.OnRx, Packet.GetSrc, Packet.HasSrc;
    var e := Started(s.copying[t.i]);
    Append(s.log, e);
    LogAppend(s.log, e, On(s));
  }

  lemma StepWriteEnd(s: State, t: Step)
    requires Inv(s) && EnabledWrite(s, t) && t.WriteEnd?
    ensures Inv(ApplyWrite(s, t)) && Moves(s, t, ApplyWrite(s, t))
  {
    hide Transmit, Latched, Receive, RxMsgs, LogOk, Heard, Sent, Last, Replied, Unique.Distinct, Memcpy, Packet.IsAck,
         Packet.RequiresAck, Packet.Fcf, Packet.CreateAck, Unique.OnRx, Packet.GetSrc, Packet.HasSrc;
    var e := Returned(s.waiting[t.i], Interface.Returns(s.iface));
    Append(s.log, e);
    LogAppend(s.log, e, On(s));
  }

  lemma UpPreserves(s: State, i: nat)
    requires Inv(s) && EnabledUp(s, i)
    ensures Inv(ApplyUp(s, i)) && Moves(s, Up(i), ApplyUp(s, i))
  {
    hide Inv, Moves, ApplyUp;
    match s.up[i]
    case LplTx => StepLplTx(s, i);
    case LplCopy => StepLplCopy(s, i);
    case CsmaTx(_, _) => StepCsmaTx(s, i);
    case CsmaCopy(_, _) => StepCsmaCopy(s, i);
    case SackTx(_, _) => StepSackTx(s, i);
    case SackAcked => StepSackAcked(s, i);
    case CsmaDone(_) => StepCsmaDone(s, i);
    case LplDone(_) => StepLplDone(s, i);
    case LplAcked => StepLplAcked(s, i);
    case IfaceDone(_) => StepIfaceDone(s, i);
  }

  lemma LowPreserves(s: State, i: nat)
    requires Inv(s) && EnabledLow(s, i)
    ensures Inv(ApplyLow(s, i)) && Moves(s, Low(i), ApplyLow(s, i))
  {
    hide Inv, Moves, ApplyLow;
    match s.low[i]
    case SackCopy(_, _) => StepSackCopy(s, i);
    case RadioTx(_, _) => StepRadioTx(s, i);
    case RadioCopy(ack, _) => if ack { StepAckCopy(s, i); } else { StepRadioCopy(s, i); }
    case RadioComplete => StepRadioComplete(s, i);
    case SackDone(_) => if s.sack.state.Tx? { StepSackDone(s, i); } else { StepAckDone(s, i); }
  }

  lemma TimerPreserves(s: State, t: Step)
    requires Inv(s) && EnabledTimer(s, t)
    ensures Inv(ApplyTimer(s, t)) && Moves(s, t, ApplyTimer(s, t))
  {
    hide Inv, Moves, ApplyTimer;
    match t
    case LplStart => StepLplStart(s, t);
    case LplFire => StepLplFire(s, t);
    case LplExpire => StepLplExpire(s, t);
    case CsmaFire => StepCsmaFire(s, t);
    case CsmaSample(_) => StepCsmaSample(s, t);
    case CsmaWork => StepCsmaWork(s, t);
    case SackFire => StepSackFire(s, t);
    case SackExpire => StepSackExpire(s, t);
  }

  lemma TxPreserves(s: State, t: Step)
    requires Inv(s) && EnabledTx(s, t)
    ensures Inv(ApplyTx(s, t)) && Moves(s, t, ApplyTx(s, t))
  {
    hide Inv, Moves, ApplyTx;
    if t.TxDone? {
      match s.txMsgs[t.i]
      case MsgOff => StepMsgOff(s, t);
      case MsgWrite => if t.underflow { StepUnderflow(s, t); } else { StepMsgWrite(s, t); }
      case MsgFlush => StepMsgFlush(s, t);
    } else if t.Sfd? {
      StepSfd(s, t);
    } else if t.CfgLock? || t.CfgUnlock? {
      StepConfig(s, t);
    } else {
      StepCfgSync(s, t);
    }
  }

  lemma RxPreserves(s: State, t: Step)
    requires Inv(s) && EnabledRx(s, t)
    ensures Inv(ApplyRx(s, t)) && Moves(s, t, ApplyRx(s, t))
  {
    hide Inv, Moves, ApplyRx;
    if t.Fifop? {
      StepFifop(s, t);
    } else if t.RxDone? {
      match s.rxMsgs[t.i]
      case ReadBody(_) => StepRxBody(s, t);
      case Flush2 => StepFlushed(s, t);
      case _ => StepRxLen(s, t);
    } else {
      match s.rxCalls[t.i]
      case Begin => StepBegin(s, t);
      case Finish(_) => StepFinish(s, t);
      case AtSack(_) => StepAtSack(s, t);
      case SackLock =>
        var th := Sack.OnRx(s.sack).1;
        if th.Acked? { StepAcked(s, t); } else if th.Reply? { StepReply(s, t); } else { StepNoReply(s, t); }
      case Acking => StepAcking(s, t);
      case RxUp => StepRxUp(s, t);
      case AfterUp => if t.flag { StepRxFlush(s, t); } else { StepAfterUp(s, t); }
    }
  }

  lemma WritePreserves(s: State, t: Step)
    requires Inv(s) && EnabledWrite(s, t)
    ensures Inv(ApplyWrite(s, t)) && Moves(s, t, ApplyWrite(s, t))
  {
    hide Inv, Moves, ApplyWrite;
    match t
    case WriteBegin(_) => StepWriteBegin(s, t);
    case WriteFault(_) => StepWriteFault(s, t);
    case WriteCopy(_) => StepWriteCopy(s, t);
    case WriteEnd(_) => StepWriteEnd(s, t);
  }

  /** Every step keeps the invariant and is a move of the token machine or leaves it where it is. */
  lemma StepPreserves(s: State, t: Step)
    requires Inv(s) && Enabled(s, t)
    ensures Inv(Apply(s, t)) && Moves(s, t, Apply(s, t))
  {
    hide Inv, Moves, ApplyUp, ApplyLow, ApplyTx, ApplyRx, ApplyTimer, ApplyWrite;
    if t.Up? {
      UpPreserves(s, t.i);
    } else if t.Low? {
      LowPreserves(s, t.i);
    } else if EnabledWrite(s, t) {
      WritePreserves(s, t);
    } else if EnabledTimer(s, t) {
      TimerPreserves(s, t);
    } else if EnabledTx(s, t) {
      TxPreserves(s, t);
    } else {
      RxPreserves(s, t);
    }
  }

  /** Every state of every run satisfies the invariant. */
  lemma {:induction false} RunInv(run: seq<State>, steps: seq<Step>, k: nat)
    requires IsRun(run, steps) && k < |run|
    ensures Inv(run[k])
  {
    hide Inv, Apply, Enabled;
    if k == 0 {
      InitInv(run[0]);
    } else {
      RunInv(run, steps, k - 1);
      StepPreserves(run[k - 1], steps[k - 1]);
    }
  }
}
