/** The invariant of the composed driver and its preservation by every step. */
module StackInv {
  import opened Bytes
  import opened Bags
  import opened Stack
  import Packet
  import Interface
  import Lpl
  import Csma
  import Sack
  import Radio
  import Unique

  // ---------- reading the event log ----------

  datatype Kind = AnyStarted | AnyReceived | AnyHanded
  datatype Found = Nothing | Just(e: Event)

  predicate IsKind(e: Event, k: Kind)
  {
    match k
    case AnyStarted => e.Started?
    case AnyReceived => e.Received?
    case AnyHanded => e.Handed?
  }

  /** The most recent event of a kind. */
  function Last(log: seq<Event>, k: Kind): (r: Found)
    ensures r.Just? ==> IsKind(r.e, k)
  {
    if log == [] then Nothing
    else if IsKind(log[|log| - 1], k) then Just(log[|log| - 1])
    else Last(log[..|log| - 1], k)
  }

  /** Since the last frame was started, an ACK with this sequence number ended an ACK wait. */
  predicate Heard(log: seq<Event>, dsn: u8)
  {
    log != [] &&
    var e := log[|log| - 1];
    !e.Started? && ((e.AckHeard? && Packet.Dsn(e.rx) == dsn) || Heard(log[..|log| - 1], dsn))
  }

  /** Since the last frame was started, these bytes were laid out for the TX FIFO. */
  predicate Sent(log: seq<Event>, bytes: seq<u8>)
  {
    log != [] &&
    var e := log[|log| - 1];
    !e.Started? && (e == Written(bytes) || Sent(log[..|log| - 1], bytes))
  }

  /** Since the last frame was received, an ACK of rx was handed to the radio. */
  predicate Replied(log: seq<Event>, rx: Buffer)
  {
    log != [] &&
    var e := log[|log| - 1];
    !e.Received? && ((e.Handed? && e.isAck && IsAckOf(e.bytes, rx)) || Replied(log[..|log| - 1], rx))
  }

  lemma Append(log: seq<Event>, e: Event)
    ensures forall k :: Last(log + [e], k) == if IsKind(e, k) then Just(e) else Last(log, k)
    ensures forall d :: Heard(log + [e], d) <==>
              !e.Started? && ((e.AckHeard? && Packet.Dsn(e.rx) == d) || Heard(log, d))
    ensures forall b :: Sent(log + [e], b) <==> !e.Started? && (e == Written(b) || Sent(log, b))
    ensures forall rx: Buffer :: Replied(log + [e], rx) <==>
              !e.Received? && ((e.Handed? && e.isAck && IsAckOf(e.bytes, rx)) || Replied(log, rx))
  {
    assert (log + [e])[..|log|] == log;
  }

  function AckHead(rx: seq<u8>): seq<u8>
    requires |rx| >= 4
  {
    [Packet.ACK_LENGTH, 2, 0, Packet.Dsn(rx)]
  }

  predicate IsAckOf(bytes: seq<u8>, rx: seq<u8>)
    requires |rx| >= 4
  {
    |bytes| == Packet.ACK_BUF_SIZE && bytes[..4] == AckHead(rx)
  }

  /** Which of the optional layers are switched on; no step changes it. */
  datatype Settings = Settings(lpl: bool, csma: bool)

  function On(s: State): Settings { Settings(s.lpl.enabled, s.csma.enabled) }

  /** The results a write of f can return. */
  predicate Possible(on: Settings, f: Frame, r: nat)
  {
    || r == |f|
    || (r == TX_FAILED && (on.lpl <==> Packet.RequiresAck(f)))
    || (r == TX_ACK_TIMEOUT && !on.lpl && Packet.RequiresAck(f))
    || (r == TX_BUSY && !on.lpl && on.csma)
  }

  /** What an event promises, given everything logged before it. */
  predicate EventOk(before: seq<Event>, e: Event, on: Settings)
  {
    match e
    // Data handed to the radio is the frame of the current write; an ACK answers the last frame received.
    case Handed(bytes, false) => var l := Last(before, AnyStarted); l.Just? && bytes == l.e.frame
    case Handed(bytes, true) =>
      var l := Last(before, AnyReceived);
      l.Just? && IsAckOf(bytes, l.e.rx) && Packet.RequiresAck(l.e.rx) && !Packet.IsAck(l.e.rx)
    // The bytes laid out for the TX FIFO are those handed over last.
    case Written(bytes) => var l := Last(before, AnyHanded); l.Just? && bytes == l.e.bytes
    // An ACK ends a wait only if it matches the frame of the current write, which asked for one.
    case AckHeard(rx) =>
      var l := Last(before, AnyStarted);
      l.Just? && Packet.IsAck(rx) && Packet.Dsn(rx) == Packet.Dsn(l.e.frame) && Packet.RequiresAck(l.e.frame)
    // What goes up is the frame received last; if it asks for an ACK, that went to the radio since.
    case PassedUp(rx, _) =>
      && !Packet.IsAck(rx) && Last(before, AnyReceived) == Just(Received(rx))
      && (Packet.RequiresAck(rx) ==> Replied(before, rx))
    case Returned(f, r) =>
      && Last(before, AnyStarted) == Just(Started(f))
      && (r == |f| && Packet.RequiresAck(f) ==> Heard(before, Packet.Dsn(f)))
      && (r == |f| && (Packet.RequiresAck(f) || !on.lpl || !on.csma) ==> Sent(before, f))
      && Possible(on, f, r)
    case _ => true
  }

  ghost predicate LogOk(log: seq<Event>, on: Settings)
  {
    forall j :: 0 <= j < |log| ==> EventOk(log[..j], log[j], on)
  }

  lemma LogAppend(log: seq<Event>, e: Event, on: Settings)
    requires LogOk(log, on) && EventOk(log, e, on)
    ensures LogOk(log + [e], on)
  {
    forall j | 0 <= j < |log + [e]| ensures EventOk((log + [e])[..j], (log + [e])[j], on) {
      assert (log + [e])[..j] == log[..j];
      assert log[..|log|] == log;
    }
  }

  // ---------- what carries a frame ----------

  /** Everything that can carry the frame of a write between its start and its return. */
  function Upper(s: State): nat
  {
    |s.up| + s.iface.doneSem + Pending(s.csma) + B(s.sack.state.Tx?) + B(s.sack.state.TxWait?)
  }

  function Pending(csma: Csma.Vars): nat
  {
    B(csma.timer.armed) + B(csma.timer.running) + B(csma.work)
  }

  /** Everything that can carry a transmission below the soft-ACK layer. */
  function Lower(s: State): nat
  {
    |s.low| + |s.txMsgs| + B(s.radio.state.TxSpiDone?)
  }

  predicate Counts(s: State)
  {
    && |s.copying| + |s.waiting| + s.iface.txSem == 1
    && Upper(s) == |s.waiting|
    && Lower(s) == B(s.sack.state.Tx? || s.sack.state.TxAck?)
    && |s.cfgs| == B(s.radio.state.Config?)
    && |s.rxMsgs| + |s.rxCalls| == B(s.radio.pendingRx)
  }

  // ---------- below: the soft-ACK state, the radio lock and the transmit messages ----------

  predicate Free(r: Radio.RadioState) { r.Idle? || r.Config? }
  predicate Busy(r: Radio.RadioState) { r.Tx? || r.TxSfdDone? }

  predicate LowOk(sk: Sack.SackState, r: Radio.RadioState, c: LowCall)
  {
    match c
    case SackCopy(_, _) => sk.Tx? && Free(r)
    case RadioTx(ack, len) => (if ack then sk.TxAck? && len == Packet.ACK_BUF_SIZE else sk.Tx?) && Free(r)
    case RadioCopy(ack, len) => (if ack then sk.TxAck? && len == Packet.ACK_BUF_SIZE else sk.Tx?) && Busy(r)
    case RadioComplete => r.Tx2Rx?
    case SackDone(st) => Free(r) && (st == TX_SUCCESS || st == TX_FAILED)
  }

  predicate Transmit(sk: Sack.SackState, r: Radio.RadioState, low: seq<LowCall>, msgs: nat)
  {
    && (forall i :: 0 <= i < |low| ==> LowOk(sk, r, low[i]))
    && (msgs > 0 ==> Busy(r))
    && (!Free(r) ==> sk.Tx? || sk.TxAck?)
    && (r.Tx2Rx? ==> |low| == 1)
  }

  /** The transmit buffer holds what was handed over last, from then until it is laid out. */
  predicate Latched(sk: Sack.SackState, msgs: seq<TxMsg>, buf: Buffer, len: nat, handed: Found)
  {
    msgs != [] ==>
      && Readable(len) && handed.Just? && handed.e.Handed? && handed.e.bytes == buf[..len]
      && (sk.TxAck? ==> handed.e.isAck)
  }

  // ---------- timers ----------

  predicate SackTimer(t: Timer, sk: Sack.SackState, acked: bool)
  {
    && (t.armed || t.running ==> sk.TxWait? || acked) && !(t.armed && t.running)
    && (sk.TxWait? ==> t.armed || t.running)
  }

  predicate LplTimer(l: Lpl.Vars, startPending: bool, waiting: nat, entering: bool, copying: bool)
  {
    && (l.state.Tx? ==> l.timer.armed || l.timer.running || startPending || copying)
    && (!l.enabled ==> l.state.Idle? && l.timer == OFF && !startPending)
    && (startPending ==> waiting == 1 && !entering && !copying)
  }

  // ---------- above: the frame of the current write, wherever it is ----------

  predicate Holds(buf: Buffer, len: nat, f: Frame) { len == |f| && buf[..|f|] == f }

  predicate LplHas(l: Lpl.Vars, f: Frame) { l.enabled ==> !l.state.Idle? && Holds(l.buf, l.len, f) }

  predicate CsmaIn(v: Csma.Vars) { v.enabled ==> !v.state.Idle? }

  predicate From(i: Interface.Vars, l: Lpl.Vars, src: Src, len: nat, f: Frame)
  {
    if l.enabled then src == LplBuf && Holds(l.buf, len, f) else src == IfaceBuf && Holds(i.buf, len, f)
  }

  predicate ToSack(i: Interface.Vars, l: Lpl.Vars, v: Csma.Vars, src: Src, len: nat, f: Frame)
  {
    && LplHas(l, f) && CsmaIn(v)
    && if v.enabled then src == CsmaBuf && Holds(v.buf, len, f) else From(i, l, src, len, f)
  }

  /** What the log shows of the current write: its ACK was heard, its frame was laid out. */
  datatype Facts = Facts(heard: bool, sent: bool)

  function FactsOf(log: seq<Event>, f: Frame): Facts
  {
    Facts(Heard(log, Packet.Dsn(f)), Sent(log, f))
  }

  /** Every status but BUSY comes after the frame was laid out; success, if the frame asks for an ACK,
      means that the ACK was heard. */
  predicate StatusOk(csmaOn: bool, h: Facts, f: Frame, st: u8)
  {
    && (st == TX_SUCCESS || st == TX_FAILED || st == TX_ACK_TIMEOUT || st == TX_BUSY)
    && (st == TX_SUCCESS && Packet.RequiresAck(f) ==> h.heard)
    && (if st == TX_BUSY then csmaOn else h.sent)
    && (st == TX_ACK_TIMEOUT ==> Packet.RequiresAck(f))
    && (st == TX_FAILED ==> !Packet.RequiresAck(f))
  }

  /** The status that reaches the writer: low power listening turns every failure into FAILED, and
      reports success for every frame that asks for no ACK. */
  predicate ResultOk(lplOn: bool, csmaOn: bool, h: Facts, f: Frame, st: u8)
  {
    if lplOn then
      if Packet.RequiresAck(f) then st == TX_FAILED || (st == TX_SUCCESS && h.sent && h.heard)
      else st == TX_SUCCESS && (csmaOn || h.sent)
    else StatusOk(csmaOn, h, f, st)
  }

  predicate CallOk(i: Interface.Vars, l: Lpl.Vars, v: Csma.Vars, h: Facts, f: Frame, c: UpCall)
  {
    match c
    case LplTx => l.state.Idle? && v.state.Idle?
    case LplCopy => l.enabled && !l.state.Idle? && v.state.Idle?
    case CsmaTx(src, len) => LplHas(l, f) && v.state.Idle? && From(i, l, src, len, f)
    case CsmaCopy(src, len) => LplHas(l, f) && v.enabled && v.state.Tx? && From(i, l, src, len, f)
    case SackTx(src, len) => ToSack(i, l, v, src, len, f)
    case SackAcked => LplHas(l, f) && CsmaIn(v) && Packet.RequiresAck(f) && h.heard && h.sent
    case CsmaDone(st) => LplHas(l, f) && CsmaIn(v) && StatusOk(v.enabled, h, f, st) && st != TX_BUSY
    case LplDone(st) => LplHas(l, f) && v.state.Idle? && StatusOk(v.enabled, h, f, st)
    case LplAcked => l.enabled && l.state.Idle? && v.state.Idle? && ResultOk(l.enabled, v.enabled, h, f, TX_SUCCESS)
    case IfaceDone(st) => l.state.Idle? && v.state.Idle? && ResultOk(l.enabled, v.enabled, h, f, st)
  }

  predicate CarriesAbove(up: seq<UpCall>, i: Interface.Vars, l: Lpl.Vars, v: Csma.Vars, h: Facts, f: Frame)
  {
    && Holds(i.buf, i.len, f)
    && (forall k :: 0 <= k < |up| ==> CallOk(i, l, v, h, f, up[k]))
    && (i.doneSem > 0 ==> l.state.Idle? && v.state.Idle? && ResultOk(l.enabled, v.enabled, h, f, i.result))
    && (Pending(v) > 0 ==> LplHas(l, f) && v.enabled && !v.state.Idle? && Holds(v.buf, v.len, f))
  }

  predicate LowHas(i: Interface.Vars, l: Lpl.Vars, v: Csma.Vars, buf: Buffer, f: Frame, c: LowCall)
  {
    match c
    case SackCopy(src, len) => ToSack(i, l, v, src, len, f)
    case RadioTx(_, len) => Holds(buf, len, f)
    case RadioCopy(_, len) => Holds(buf, len, f)
    case _ => buf[..|f|] == f
  }

  /** The stages of a transmission from which its frame has been laid out. */
  predicate Out(low: seq<LowCall>, msgs: seq<TxMsg>, r: Radio.RadioState)
  {
    || (low != [] && (low[0].RadioComplete? || low[0].SackDone?))
    || (msgs != [] && !msgs[0].MsgOff?) || r.TxSpiDone?
  }

  predicate CarriesBelow(sk: Sack.SackState, buf: Buffer, low: seq<LowCall>, msgs: seq<TxMsg>, r: Radio.RadioState,
                  handed: Found, i: Interface.Vars, l: Lpl.Vars, v: Csma.Vars, sent: bool, f: Frame)
  {
    && (sk.Tx? || sk.TxWait? ==> LplHas(l, f) && CsmaIn(v))
    && (sk.Tx? ==> forall k :: 0 <= k < |low| ==> LowHas(i, l, v, buf, f, low[k]))
    && (sk.Tx? && low == [] ==> buf[..|f|] == f)
    && (sk.TxWait? ==> buf[..|f|] == f && Packet.RequiresAck(f) && sent)
    && (sk.Tx? && Out(low, msgs, r) ==> sent)
    && (sk.Tx? && msgs != [] ==> handed == Just(Handed(f, false)))
  }

  ghost predicate Carried(s: State, f: Frame)
  {
    && CarriesAbove(s.up, s.iface, s.lpl, s.csma, FactsOf(s.log, f), f)
    && CarriesBelow(s.sack.state, s.sack.txBuf, s.low, s.txMsgs, s.radio.state, Last(s.log, AnyHanded),
             s.iface, s.lpl, s.csma, Sent(s.log, f), f)
    && Last(s.log, AnyStarted) == Just(Started(f))
  }

  // ---------- the receive chain ----------

  predicate InBuffer(rxIn: seq<u8>, buf: Buffer, len: nat)
  {
    4 <= |rxIn| <= PKT_BUFF_SIZE && len == |rxIn| && buf[..len] == [len - 1] + rxIn[1..]
  }

  /** cc2520_radio_tx has been called on an ACK and has not copied it yet. */
  predicate AckBelow(low: seq<LowCall>) { |low| == 1 && OnAck(low[0]) }

  predicate RxCallOk(c: RxCall, rxIn: seq<u8>, rxBuf: Buffer, buf: Buffer, len: nat, ackBuf: seq<u8>,
                     below: bool, rcvd: Found, replied: bool)
  {
    match c
    case Begin => true
    case Finish(n) => 3 <= n < PKT_BUFF_SIZE && |rxIn| == n + 1
    case AtSack(n) => 3 <= n < PKT_BUFF_SIZE && |rxIn| == n + 1 && rxBuf[..n + 1] == [n] + rxIn[1..]
    case SackLock => InBuffer(rxIn, buf, len)
    case Acking =>
      && InBuffer(rxIn, buf, len) && rcvd == Just(Received(buf)) && !Packet.IsAck(buf) && Packet.RequiresAck(buf)
      && if below then IsAckOf(ackBuf, buf) else replied
    case RxUp =>
      && InBuffer(rxIn, buf, len) && rcvd == Just(Received(buf)) && !Packet.IsAck(buf)
      && (Packet.RequiresAck(buf) ==> replied)
    case AfterUp => true
  }

  predicate Receive(calls: seq<RxCall>, locked: bool, rxIn: seq<u8>, rxBuf: Buffer, buf: Buffer, len: nat,
                    ackBuf: seq<u8>, below: bool, rcvd: Found, replied: bool)
  {
    && (forall k :: 0 <= k < |calls| ==>
          (locked <==> calls[k].AtSack?) && RxCallOk(calls[k], rxIn, rxBuf, buf, len, ackBuf, below, rcvd, replied))
    && (calls == [] ==> !locked)
    && (below ==> Only(calls, Acking))
  }

  predicate RxMsgs(msgs: seq<RxMsg>)
  {
    forall k :: 0 <= k < |msgs| && msgs[k].ReadBody? ==> 3 <= msgs[k].n < PKT_BUFF_SIZE
  }

  ghost predicate Inv(s: State)
  {
    && Counts(s)
    && Transmit(s.sack.state, s.radio.state, s.low, |s.txMsgs|)
    && Latched(s.sack.state, s.txMsgs, s.radio.txBuf, s.radio.txLen, Last(s.log, AnyHanded))
    && SackTimer(s.sack.timer, s.sack.state, Only(s.up, SackAcked))
    && LplTimer(s.lpl, s.startPending, |s.waiting|, Only(s.up, LplTx), Only(s.up, LplCopy))
    && (!s.csma.enabled ==> s.csma.state.Idle?)
    && (s.waiting == [] ==> s.lpl.state.Idle? && s.csma.state.Idle?)
    && (s.waiting != [] ==> Carried(s, s.waiting[0]))
    && Receive(s.rxCalls, s.radio.rxLocked, s.radio.rxIn, s.radio.rxBuf, s.sack.rxBuf, s.sack.rxLen, s.sack.ackBuf,
               AckBelow(s.low), Last(s.log, AnyReceived), Replied(s.log, s.sack.rxBuf))
    && RxMsgs(s.rxMsgs) && Unique.Distinct(s.nodes)
    && LogOk(s.log, On(s))
  }

  lemma InitInv(s: State)
    requires Init(s)
    ensures Inv(s)
  {
  }
}
