/** The route a frame takes through the driver, as a small machine of its own. Every step of the
    composed driver is one move of this machine or leaves it where it is. */
module Token {
  import opened Bytes
  import opened Stack
  import Csma
  import Radio
  import Sack

  /** The one transmission below the soft-ACK layer: data or an ACK. */
  datatype LowPlace =
    | Nowhere
    | Called(l: LowCall)
    | Message(m: TxMsg)
    | AwaitSfd                              // only the SFD edge is missing

  /** Where the frame of the current write is. */
  datatype Place =
    | Rest                                  // no write is under way
    | InCall(c: UpCall)
    | Backoff(cong: bool, running: bool)    // csma's timer
    | Queued                                // csma's work item
    | Below(q: LowPlace)
    | AwaitAck(running: bool)               // the ACK wait and its timeout
    | Ended                                 // reported; write has still to return

  function LowWhere(s: State): LowPlace { LowAt(s.low, s.txMsgs, s.radio.state) }

  function LowAt(low: seq<LowCall>, msgs: seq<TxMsg>, r: Radio.RadioState): LowPlace
  {
    if low != [] then Called(low[0])
    else if msgs != [] then Message(msgs[0])
    else if r.TxSpiDone? then AwaitSfd
    else Nowhere
  }

  function Where(s: State): Place
  {
    At(s.waiting, s.up, s.csma.state, s.csma.timer, s.csma.work, s.sack.state, s.sack.timer, LowWhere(s))
  }

  function At(waiting: seq<Frame>, up: seq<UpCall>, cs: Csma.CsmaState, ct: Timer, work: bool,
              sk: Sack.SackState, st: Timer, q: LowPlace): Place
  {
    if waiting == [] then Rest
    else if up != [] then InCall(up[0])
    else if ct.armed || ct.running then Backoff(cs.Cong?, ct.running)
    else if work then Queued
    else if sk.Tx? then Below(q)
    else if sk.TxWait? then AwaitAck(st.running)
    else Ended
  }

  /** The moves below. */
  predicate LowHop(q: LowPlace, q': LowPlace)
  {
    match q
    case Nowhere => q'.Called? && (q'.l.SackCopy? || (q'.l.RadioTx? && q'.l.ack))
    case Called(SackCopy(_, _)) => q'.Called? && q'.l.RadioTx? && !q'.l.ack
    case Called(RadioTx(ack, _)) => q'.Called? && q'.l.RadioCopy? && q'.l.ack == ack
    case Called(RadioCopy(_, _)) => q' == Message(MsgOff)
    case Message(MsgOff) => q' == Message(MsgWrite)
    case Message(MsgWrite) => q' == Message(MsgFlush) || q' == AwaitSfd || q' == Called(RadioComplete)
    case Message(MsgFlush) => q' == Called(SackDone(TX_FAILED))
    case AwaitSfd => q' == Called(RadioComplete)
    case Called(RadioComplete) => q' == Called(SackDone(TX_SUCCESS))
    case Called(SackDone(_)) => q' == Nowhere
  }

  /** The moves of a frame; `open` says that low power listening is on and its window has not expired. */
  predicate Hop(p: Place, p': Place, open: bool)
  {
    match p
    case Rest => p' == InCall(LplTx)
    case InCall(LplTx) => p'.InCall? && (p'.c.LplCopy? || p'.c.CsmaTx?)
    case InCall(LplCopy) => p'.InCall? && p'.c.CsmaTx?
    case InCall(CsmaTx(_, _)) => p'.InCall? && (p'.c.CsmaCopy? || p'.c.SackTx?)
    case InCall(CsmaCopy(_, _)) => p' == Backoff(false, false)
    case Backoff(cong, running) =>
      if !running then p' == Backoff(cong, true)
      else p' == Queued || p' == (if cong then InCall(LplDone(TX_BUSY)) else Backoff(true, false))
    case Queued => p'.InCall? && p'.c.SackTx?
    case InCall(SackTx(_, _)) => p'.Below? && p'.q.Called? && p'.q.l.SackCopy?
    case Below(q) =>
      if q.Called? && q.l.SackDone? then p' == AwaitAck(false) || p' == InCall(CsmaDone(q.l.status))
      else !q.Nowhere? && p'.Below? && LowHop(q, p'.q)
    case AwaitAck(running) =>
      || p' == InCall(SackAcked)
      || p' == (if running then InCall(CsmaDone(TX_ACK_TIMEOUT)) else AwaitAck(true))
    case InCall(SackAcked) => p' == InCall(CsmaDone(TX_SUCCESS))
    case InCall(CsmaDone(st)) => p' == InCall(LplDone(st))
    case InCall(LplDone(_)) => p'.InCall? && (p'.c.IfaceDone? || p'.c.LplAcked? || (p'.c.CsmaTx? && open))
    case InCall(LplAcked) => p' == InCall(IfaceDone(TX_SUCCESS))
    case InCall(IfaceDone(_)) => p' == Ended
    case Ended => p' == Rest
  }

  /** The steps that must move the frame. */
  predicate Own(s: State, t: Step)
  {
    match t
    case Up(_) => true
    case Low(_) => s.sack.state.Tx?
    case TxDone(_, _) => s.sack.state.Tx?
    case Sfd => s.sack.state.Tx? && s.radio.state.TxSpiDone?
    case CsmaFire => true
    case CsmaSample(_) => true
    case CsmaWork => true
    case SackFire => s.sack.state.TxWait?
    case SackExpire => s.sack.state.TxWait?
    case WriteCopy(_) => true
    case WriteEnd(_) => true
    case _ => false
  }

  /** The steps that must move the transmission below, whoever it is for. */
  predicate OwnLow(s: State, t: Step)
  {
    t.Low? || t.TxDone? || (t.Sfd? && s.radio.state.TxSpiDone?)
  }

  /** The SPI side of a transmission ends: the frame is written and no underflow is reported. */
  predicate SpiEnds(s: State, t: Step)
  {
    t.TxDone? && !t.underflow && t.i < |s.txMsgs| && s.txMsgs[t.i].MsgWrite?
  }

  predicate TakesRadio(s: State, t: Step)
  {
    t.Low? && t.i < |s.low| && s.low[t.i].RadioTx?
  }

  /** How a step may change the two-stage release. */
  predicate Stages(s: State, t: Step, s': State)
  {
    var r, r' := s.radio.state, s'.radio.state;
    && (r'.TxSfdDone? ==> r.TxSfdDone? || t.Sfd?)
    && (r'.TxSpiDone? ==> r.TxSpiDone? || SpiEnds(s, t))
    && (r'.Tx2Rx? ==> r.Tx2Rx? || (r.TxSpiDone? && t.Sfd?) || (r.TxSfdDone? && SpiEnds(s, t)))
    && (LowWhere(s') == Called(SackDone(TX_SUCCESS)) ==> LowWhere(s) == LowWhere(s') || r.Tx2Rx?)
    && (TakesRadio(s, t) ==> r'.Tx?)
  }

  predicate Moves(s: State, t: Step, s': State)
  {
    && (Where(s') == Where(s) || Hop(Where(s), Where(s'), s.lpl.state.Tx?))
    && (LowWhere(s') == LowWhere(s) || LowHop(LowWhere(s), LowWhere(s')))
    && (Own(s, t) ==> Where(s') != Where(s))
    && (OwnLow(s, t) ==> LowWhere(s') != LowWhere(s))
    && s'.lpl.enabled == s.lpl.enabled
    && (s'.lpl.state.Tx? ==> s.lpl.state.Tx? || Where(s) == InCall(LplTx))
  }
}
