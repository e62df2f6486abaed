/** The composed driver, interface -> unique -> lpl -> csma -> sack -> radio, as one step system. A step
    is a critical section, or the straight-line code between two; what follows an unlock or a
    callback's return is a pending activity in a bag, so every interleaving is a run. */
module Stack {
  import opened Bytes
  import opened Bags
  import Packet
  import Interface
  import Lpl
  import Csma
  import Sack
  import Radio
  import Unique

  // A buffer passed down by pointer: it is read when the callee copies it.
  datatype Src = IfaceBuf | LplBuf | CsmaBuf

  /** Pending calls above the soft-ACK layer's lower half. */
  datatype UpCall =
    | LplTx                         // cc2520_lpl_tx is called
    | LplCopy                       //   ... and has released its lock
    | CsmaTx(src: Src, len: nat)    // cc2520_csma_tx is called
    | CsmaCopy(src: Src, len: nat)  //   ... and has released its lock
    | SackTx(src: Src, len: nat)    // cc2520_sack_tx is called, or spins
    | SackAcked                     // an ACK ended the wait; the timeout is still to be cancelled
    | CsmaDone(status: u8)          // cc2520_csma_tx_done is called
    | LplDone(status: u8)           // cc2520_lpl_tx_done is called
    | LplAcked                      // the session is over; the window timer is still to be cancelled
    | IfaceDone(status: u8)         // cc2520_interface_tx_done is called

  /** Pending calls on the transmit path below it. */
  datatype LowCall =
    | SackCopy(src: Src, len: nat)     // cc2520_sack_tx has released its lock
    | RadioTx(ack: bool, len: nat)     // cc2520_radio_tx is called on sack's frame or its ACK, or spins
    | RadioCopy(ack: bool, len: nat)   //   ... and holds the radio
    | RadioComplete                    // both stages are over; the radio is still to be unlocked
    | SackDone(status: u8)             // cc2520_sack_tx_done is called

  /** The asynchronous messages that use msg, tsfer1..4 and tx_buf. */
  datatype TxMsg = MsgOff | MsgWrite | MsgFlush
  /** A thread in start, on or off: it holds the radio, and may wait for a synchronous message. */
  datatype CfgThread = CfgRunning | CfgInSync

  datatype RxMsg = ReadLen | ReadBody(n: nat) | Flush1 | Flush2
  datatype RxCall =
    | Begin               // cc2520_radio_beginRx
    | Finish(n: nat)      // cc2520_radio_finishRx
    | AtSack(n: nat)      // cc2520_sack_rx_done is called with the receive buffer locked
    | SackLock            //   ... and has copied the frame out
    | Acking              //   ... and has called cc2520_radio_tx on the ACK
    | RxUp                // cc2520_unique_rx_done is called
    | AfterUp             // back in cc2520_radio_finishRx

  datatype Event =
    | Started(frame: Frame)               // write passed its frame down
    | Handed(bytes: seq<u8>, isAck: bool) // copied into the radio's transmit buffer
    | Written(bytes: seq<u8>)             // laid out for the TX FIFO
    | Received(rx: Buffer)                // examined by the soft-ACK layer
    | AckHeard(rx: Buffer)                // ... and it ended an ACK wait
    | PassedUp(rx: Buffer, kept: bool)    // handed to the duplicate filter, which kept it or not
    | Returned(frame: Frame, result: nat) // write returned

  datatype State = State(
    iface: Interface.Vars, copying: seq<Frame>, waiting: seq<Frame>,
    lpl: Lpl.Vars, startPending: bool,
    csma: Csma.Vars, sack: Sack.Vars, radio: Radio.Vars, nodes: seq<Unique.Entry>,
    up: seq<UpCall>, low: seq<LowCall>, txMsgs: seq<TxMsg>, cfgs: seq<CfgThread>,
    rxMsgs: seq<RxMsg>, rxCalls: seq<RxCall>,
    log: seq<Event>)

  // The index says which entry of its list moves.
  datatype Step =
    | WriteBegin(f: Frame) | WriteFault(i: nat) | WriteCopy(i: nat) | WriteEnd(i: nat)
    | Up(i: nat) | LplStart | LplFire | LplExpire
    | CsmaFire | CsmaSample(clear: bool) | CsmaWork
    | SackFire | SackExpire
    | Low(i: nat) | TxDone(i: nat, underflow: bool) | Sfd
    | CfgLock | CfgSync(i: nat) | CfgDone(i: nat) | CfgUnlock(i: nat)
    | Fifop | Rx(i: nat, flag: bool) | RxDone(i: nat, bytes: seq<u8>)

  // ---------- helpers ----------

  function Read(s: State, src: Src): Buffer
  {
    match src
    case IfaceBuf => s.iface.buf
    case LplBuf => s.lpl.buf
    case CsmaBuf => s.csma.buf
  }

  predicate Readable(len: nat) { len <= PKT_BUFF_SIZE }

  /** Call i goes on as call c. */
  function Go(s: State, i: nat, c: UpCall): State
    requires i < |s.up|
  {
    s.(up := s.up[i := c])
  }

  /** Call i ends; a timer, a lower call or the writer goes on instead. */
  function Gone(s: State, i: nat): State
    requires i < |s.up|
  {
    s.(up := Drop(s.up, i))
  }

  function Log(s: State, e: Event): State { s.(log := s.log + [e]) }

  // ---------- the write call ----------

  predicate EnabledWrite(s: State, t: Step)
  {
    match t
    case WriteBegin(_) => s.iface.txSem > 0
    case WriteFault(i) => i < |s.copying|
    case WriteCopy(i) => i < |s.copying|
    case WriteEnd(i) => i < |s.waiting| && s.iface.doneSem > 0 && !s.startPending
    case _ => false
  }

  function ApplyWrite(s: State, t: Step): State
    requires EnabledWrite(s, t)
  {
    match t
    case WriteBegin(f) => s.(iface := s.iface.(txSem := s.iface.txSem - 1), copying := s.copying + [f])
    case WriteFault(i) => s.(iface := s.iface.(txSem := s.iface.txSem + 1), copying := Drop(s.copying, i))
    case WriteCopy(i) =>
      var f := s.copying[i];
      Log(s.(iface := Interface.OnCopy(s.iface, f), copying := Drop(s.copying, i),
             waiting := s.waiting + [f], up := s.up + [LplTx]), Started(f))
    case WriteEnd(i) =>
      Log(s.(iface := Interface.OnEnd(s.iface), waiting := Drop(s.waiting, i)),
          Returned(s.waiting[i], Interface.Returns(s.iface)))
  }

  // ---------- lpl, csma and the upper half of sack ----------

  predicate EnabledUp(s: State, i: nat)
  {
    i < |s.up| &&
    match s.up[i]
    case LplCopy => Readable(s.iface.len)
    case CsmaCopy(_, len) => Readable(len)
    case SackTx(_, _) => s.sack.state.Idle?
    case SackAcked => !s.sack.timer.running
    case LplAcked => !s.lpl.timer.running
    case _ => true
  }

  function ApplyUp(s: State, i: nat): State
    requires EnabledUp(s, i)
  {
    match s.up[i]
    case LplTx =>
      var (l, e) := Lpl.OnTx(s.lpl);
      Go(s, i, match e
         case PassDown => CsmaTx(IfaceBuf, s.iface.len)
         case Accepted => LplCopy
         case Busy => IfaceDone(TX_BUSY)).(lpl := l)
    case LplCopy =>
      Go(s, i, CsmaTx(LplBuf, s.iface.len)).(lpl := Lpl.OnCopy(s.lpl, s.iface.buf, s.iface.len), startPending := true)
    case CsmaTx(src, len) =>
      var (v, e) := Csma.OnTx(s.csma);
      Go(s, i, match e
         case PassDown => SackTx(src, len)
         case Accepted => CsmaCopy(src, len)
         case Busy => LplDone(TX_BUSY)).(csma := v)
    case CsmaCopy(src, len) => Gone(s, i).(csma := Csma.OnCopy(s.csma, Read(s, src), len))
    case SackTx(src, len) =>
      Gone(s, i).(sack := s.sack.(state := Sack.Tx), low := s.low + [SackCopy(src, len)])
    case SackAcked => Go(s, i, CsmaDone(TX_SUCCESS)).(sack := s.sack.(timer := s.sack.timer.Cancel()))
    case CsmaDone(st) => Go(s, i, LplDone(st)).(csma := Csma.OnTxDone(s.csma))
    case LplDone(st) =>
      var (l, t) := Lpl.OnTxDone(s.lpl, st);
      Go(s, i, match t
         case Up(st') => IfaceDone(st')
         case CancelThenUp(_) => LplAcked
         case Down => CsmaTx(LplBuf, s.lpl.len)).(lpl := l)
    case LplAcked => Go(s, i, IfaceDone(TX_SUCCESS)).(lpl := s.lpl.(timer := s.lpl.timer.Cancel()))
    case IfaceDone(st) => Gone(s, i).(iface := Interface.OnTxDone(s.iface, st))
  }

  // ---------- timers and the work queue ----------

  predicate EnabledTimer(s: State, t: Step)
  {
    match t
    case LplStart => s.startPending
    case LplFire => s.lpl.timer.CanFire()
    case LplExpire => s.lpl.timer.running
    case CsmaFire => s.csma.timer.CanFire()
    case CsmaSample(_) => s.csma.timer.running
    case CsmaWork => s.csma.work
    case SackFire => s.sack.timer.CanFire()
    case SackExpire => s.sack.timer.running
    case _ => false
  }

  function ApplyTimer(s: State, t: Step): State
    requires EnabledTimer(s, t)
  {
    match t
    case LplStart => s.(startPending := false, lpl := s.lpl.(timer := s.lpl.timer.Start()))
    case LplFire => s.(lpl := s.lpl.(timer := s.lpl.timer.Fire()))
    case LplExpire => s.(lpl := Lpl.OnTimer(s.lpl))
    case CsmaFire => s.(csma := s.csma.(timer := s.csma.timer.Fire()))
    case CsmaSample(clear) =>
      var (v, th) := Csma.OnTimer(s.csma, clear);
      s.(csma := v, up := if th.Up? then s.up + [LplDone(th.status)] else s.up)
    case CsmaWork => s.(csma := s.csma.(work := false), up := s.up + [SackTx(CsmaBuf, s.csma.len)])
    case SackFire => s.(sack := s.sack.(timer := s.sack.timer.Fire()))
    case SackExpire =>
      var (v, timedOut) := Sack.OnTimer(s.sack);
      s.(sack := v, up := if timedOut then s.up + [CsmaDone(TX_ACK_TIMEOUT)] else s.up)
  }

  // ---------- the lower half of sack ----------

  predicate EnabledLow(s: State, i: nat)
  {
    i < |s.low| &&
    match s.low[i]
    case SackCopy(_, len) => Readable(len)
    case RadioTx(_, _) => s.radio.state.Idle?
    case RadioCopy(ack, len) => if ack then len == Packet.ACK_BUF_SIZE else Readable(len)
    case _ => true
  }

  function ApplyLow(s: State, i: nat): State
    requires EnabledLow(s, i)
  {
    match s.low[i]
    case SackCopy(src, len) =>
      s.(low := s.low[i := RadioTx(false, len)], sack := Sack.OnCopy(s.sack, Read(s, src), len))
    case RadioTx(ack, len) =>
      s.(low := s.low[i := RadioCopy(ack, len)], radio := s.radio.(state := Radio.Tx))
    case RadioCopy(ack, len) =>
      // The transmit buffer is filled and the first message submitted.
      var buf: seq<u8> := if ack then s.sack.ackBuf else s.sack.txBuf;
      Log(s.(low := Drop(s.low, i), radio := Radio.OnCopy(s.radio, buf, len), txMsgs := s.txMsgs + [MsgOff]),
          Handed(buf[..len], ack))
    case RadioComplete =>
      s.(low := s.low[i := SackDone(TX_SUCCESS)], radio := s.radio.(state := Radio.Idle))
    case SackDone(st) =>
      var (v, t) := Sack.OnTxDone(s.sack, st);
      // In the Impossible branch the source keeps its lock; no activity continues.
      s.(low := Drop(s.low, i), sack := v, up := if t.Up? then s.up + [CsmaDone(t.status)] else s.up)
  }

  // ---------- the transmit engine and the configuration threads ----------

  predicate EnabledTx(s: State, t: Step)
  {
    match t
    case TxDone(i, _) => i < |s.txMsgs| && Readable(s.radio.txLen)
    case Sfd => true
    case CfgLock => s.radio.state.Idle?
    case CfgSync(i) => i < |s.cfgs| && s.cfgs[i].CfgRunning?
    case CfgDone(i) => i < |s.cfgs| && s.cfgs[i].CfgInSync?
    case CfgUnlock(i) => i < |s.cfgs| && s.cfgs[i].CfgRunning?
    case _ => false
  }

  function ApplyTx(s: State, t: Step): State
    requires EnabledTx(s, t)
  {
    match t
    case TxDone(i, underflow) =>
      (match s.txMsgs[i]
       case MsgOff => Log(s.(txMsgs := s.txMsgs[i := MsgWrite]), Written(s.radio.txBuf[..s.radio.txLen]))
       case MsgWrite =>
         if underflow then s.(txMsgs := s.txMsgs[i := MsgFlush])
         else EndStage(s.(txMsgs := Drop(s.txMsgs, i)), Radio.UnlockSpi(s.radio.state))
       case MsgFlush =>
         s.(txMsgs := Drop(s.txMsgs, i), radio := s.radio.(state := Radio.Idle), low := s.low + [SackDone(TX_FAILED)]))
    case Sfd => EndStage(s, Radio.UnlockSfd(s.radio.state))
    case CfgLock => s.(radio := s.radio.(state := Radio.Config), cfgs := s.cfgs + [CfgRunning])
    case CfgSync(i) => s.(cfgs := s.cfgs[i := CfgInSync])
    case CfgDone(i) => s.(cfgs := s.cfgs[i := CfgRunning])
    case CfgUnlock(i) => s.(cfgs := Drop(s.cfgs, i), radio := s.radio.(state := Radio.Idle))
  }

  /** One of the two stages of a transmission ended; the last to end goes on to complete it. */
  function EndStage(s: State, r: (Radio.RadioState, bool)): State
  {
    s.(radio := s.radio.(state := r.0), low := if r.1 then s.low + [RadioComplete] else s.low)
  }

  // ---------- the receive chain ----------

  predicate EnabledRx(s: State, t: Step)
  {
    match t
    case Fifop => true
    case RxDone(i, bytes) =>
      i < |s.rxMsgs| &&
      (match s.rxMsgs[i]
       // The length byte: a frame with a header that fits the buffer, or one over the limit.
       case ReadLen => |bytes| == 1 && (3 <= bytes[0] < PKT_BUFF_SIZE || bytes[0] > 127)
       case ReadBody(n) => |bytes| == n
       case _ => true)
    case Rx(i, _) =>
      i < |s.rxCalls| &&
      (match s.rxCalls[i]
       case Finish(n) => !s.radio.rxLocked && n < PKT_BUFF_SIZE && n + 1 <= |s.radio.rxIn|
       case AtSack(n) => n < PKT_BUFF_SIZE
       // cc2520_radio_tx returns once the ACK is in the radio's buffer.
       case Acking => forall j :: 0 <= j < |s.low| ==> !OnAck(s.low[j])
       case _ => true)
    case _ => false
  }

  predicate OnAck(c: LowCall) { (c.RadioTx? || c.RadioCopy?) && c.ack }

  function ApplyRx(s: State, t: Step): State
    requires EnabledRx(s, t)
  {
    match t
    case Fifop =>
      if s.radio.pendingRx then s
      else s.(radio := s.radio.(pendingRx := true), rxCalls := s.rxCalls + [Begin])
    case RxDone(i, bytes) => ApplyRxDone(s, i, bytes)
    case Rx(i, flag) => ApplyRxCall(s, i, flag)
  }

  function ApplyRxDone(s: State, i: nat, bytes: seq<u8>): State
    requires EnabledRx(s, RxDone(i, bytes))
  {
    match s.rxMsgs[i]
    case ReadLen => s.(rxMsgs := s.rxMsgs[i := if bytes[0] > 127 then Flush1 else ReadBody(bytes[0])])
    case ReadBody(n) =>
      s.(rxMsgs := Drop(s.rxMsgs, i), rxCalls := s.rxCalls + [Finish(n)], radio := s.radio.(rxIn := [0] + bytes))
    case Flush1 => s.(rxMsgs := s.rxMsgs[i := Flush2])
    case Flush2 => s.(rxMsgs := Drop(s.rxMsgs, i), radio := s.radio.(pendingRx := false))
  }

  /** flag: memory for a filter entry can be had (RxUp); the RX FIFO is still not empty (AfterUp). */
  function ApplyRxCall(s: State, i: nat, flag: bool): State
    requires EnabledRx(s, Rx(i, flag))
  {
    match s.rxCalls[i]
    case Begin => s.(rxCalls := Drop(s.rxCalls, i), rxMsgs := s.rxMsgs + [ReadLen])
    case Finish(n) =>
      s.(rxCalls := s.rxCalls[i := AtSack(n)], radio := Radio.OnReceived(s.radio, n).(rxLocked := true))
    case AtSack(n) =>
      s.(rxCalls := s.rxCalls[i := SackLock], sack := Sack.OnRxCopy(s.sack, s.radio.rxBuf, n + 1),
         radio := s.radio.(rxLocked := false))
    case SackLock =>
      var (v, t) := Sack.OnRx(s.sack);
      var s1 := Log(s.(sack := v, rxCalls := s.rxCalls[i := AfterRx(t)]), Received(s.sack.rxBuf));
      (match t
       case Acked => Log(s1.(up := s.up + [SackAcked]), AckHeard(s.sack.rxBuf))
       case Reply => s1.(low := s.low + [RadioTx(true, Packet.ACK_BUF_SIZE)])
       case _ => s1)
    case Acking => s.(rxCalls := s.rxCalls[i := RxUp])
    case RxUp =>
      var (l, kept) := Unique.OnRx(s.nodes, Packet.GetSrc(s.sack.rxBuf), Packet.Dsn(s.sack.rxBuf), flag);
      Log(s.(rxCalls := s.rxCalls[i := AfterUp], nodes := l), PassedUp(s.sack.rxBuf, kept))
    case AfterUp =>
      if flag then s.(rxCalls := Drop(s.rxCalls, i), rxMsgs := s.rxMsgs + [Flush1])
      else s.(rxCalls := Drop(s.rxCalls, i), radio := s.radio.(pendingRx := false))
  }

  function AfterRx(t: Sack.ThenRx): RxCall
  {
    match t case Reply => Acking case Deliver => RxUp case _ => AfterUp
  }

  // ---------- runs ----------

  predicate Enabled(s: State, t: Step)
  {
    if t.Up? then EnabledUp(s, t.i)
    else if t.Low? then EnabledLow(s, t.i)
    else EnabledWrite(s, t) || EnabledTimer(s, t) || EnabledTx(s, t) || EnabledRx(s, t)
  }

  function Apply(s: State, t: Step): State
    requires Enabled(s, t)
  {
    if t.Up? then ApplyUp(s, t.i)
    else if t.Low? then ApplyLow(s, t.i)
    else if EnabledWrite(s, t) then ApplyWrite(s, t)
    else if EnabledTimer(s, t) then ApplyTimer(s, t)
    else if EnabledTx(s, t) then ApplyTx(s, t)
    else ApplyRx(s, t)
  }

  /** A freshly loaded driver: everything idle, buffers holding anything. */
  predicate Init(s: State)
  {
    && s.iface.txSem == 1 && s.iface.doneSem == 0 && s.copying == [] && s.waiting == []
    && s.lpl.state.Idle? && s.lpl.timer == OFF && !s.startPending
    && s.csma.state.Idle? && s.csma.timer == OFF && !s.csma.work
    && s.sack.state.Idle? && s.sack.timer == OFF
    && s.radio.state.Idle? && !s.radio.pendingRx && !s.radio.rxLocked && s.nodes == []
    && s.up == [] && s.low == [] && s.txMsgs == [] && s.cfgs == []
    && s.rxMsgs == [] && s.rxCalls == [] && s.log == []
  }

  ghost predicate IsRun(run: seq<State>, steps: seq<Step>)
  {
    && |run| == |steps| + 1 && Init(run[0])
    && forall i :: 0 <= i < |steps| ==> Enabled(run[i], steps[i]) && run[i + 1] == Apply(run[i], steps[i])
  }
}
