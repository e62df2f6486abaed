/** The legs of a write's way down and back, as sequences of steps that lead from one state to another:
    what witness runs are made of. */
module Paths {
  import opened Bytes
  import opened Bags
  import opened Stack
  import opened StackInv
  import opened StackSteps
  import Csma
  import Interface
  import Lpl
  import Packet
  import Radio
  import Sack

  ghost predicate Leads(s: State, ts: seq<Step>, s': State)
    decreases |ts|
  {
    if ts == [] then s' == s else Enabled(s, ts[0]) && Leads(Apply(s, ts[0]), ts[1..], s')
  }

  lemma {:induction false} LeadsOn(s: State, ts: seq<Step>, m: State, us: seq<Step>, s': State)
    requires Leads(s, ts, m) && Leads(m, us, s')
    ensures Leads(s, ts + us, s')
    decreases |ts|
  {
    hide Enabled, Apply;
    if ts == [] {
      assert ts + us == us;
    } else {
      LeadsOn(Apply(s, ts[0]), ts[1..], m, us, s');
      assert (ts + us)[1..] == ts[1..] + us;
    }
  }

  /** One more step. */
  lemma Then(s: State, ts: seq<Step>, m: State, t: Step) returns (ts': seq<Step>, m': State)
    requires Leads(s, ts, m) && Enabled(m, t)
    ensures ts' == ts + [t] && m' == Apply(m, t) && Leads(s, ts', m')
  {
    hide Enabled, Apply;
    ts', m' := ts + [t], Apply(m, t);
    assert [t][1..] == [] && Leads(m', [], m');
    LeadsOn(s, ts, m, [t], m');
  }

  lemma {:induction false} LeadsInv(s: State, ts: seq<Step>, s': State)
    requires Inv(s) && Leads(s, ts, s')
    ensures Inv(s')
    decreases |ts|
  {
    hide Inv, Enabled, Apply;
    if ts != [] {
      StepPreserves(s, ts[0]);
      LeadsInv(Apply(s, ts[0]), ts[1..], s');
    }
  }

  /** A run goes on along a path. */
  lemma {:induction false} LeadsRun(run: seq<State>, steps: seq<Step>, ts: seq<Step>, s': State)
    returns (run': seq<State>)
    requires IsRun(run, steps) && Leads(run[|steps|], ts, s')
    ensures IsRun(run', steps + ts) && run'[..|run|] == run && run'[|steps| + |ts|] == s'
    decreases |ts|
  {
    hide Enabled, Apply, Init;
    if ts == [] {
      run' := run;
      assert steps + ts == steps;
    } else {
      var m := Apply(run[|steps|], ts[0]);
      run' := LeadsRun(run + [m], steps + [ts[0]], ts[1..], s');
      assert steps + [ts[0]] + ts[1..] == steps + ts;
      assert run'[..|run|] == run'[..|run| + 1][..|run|] == run;
    }
  }

  /** No SPI message completes and no write begins, faults or returns. */
  predicate PlainStep(t: Step) { !t.TxDone? && !t.RxDone? && !t.WriteBegin? && !t.WriteFault? && !t.WriteEnd? }
  predicate Plain(ts: seq<Step>) { forall i :: 0 <= i < |ts| ==> PlainStep(ts[i]) }

  /** No write returns. */
  predicate NoneReturns(ts: seq<Step>) { forall i :: 0 <= i < |ts| ==> !ts[i].WriteEnd? }

  // ---------- states on the way ----------

  function Zeros(n: nat): (b: seq<u8>)
    ensures |b| == n
  {
    if n == 0 then [] else [0] + Zeros(n - 1)
  }

  const BLANK: Buffer := Zeros(PKT_BUFF_SIZE)

  /** A freshly loaded driver. */
  function Fresh(on: Settings): (s: State)
    ensures Init(s) && On(s) == on
  {
    State(
      Interface.Vars(1, 0, BLANK, 0, 0), [], [],
      Lpl.Vars(on.lpl, Lpl.Idle, BLANK, 0, OFF), false,
      Csma.Vars(on.csma, Csma.Idle, BLANK, 0, OFF, false),
      Sack.Vars(Sack.Idle, BLANK, BLANK, 0, [0, 0, 0, 0, 0, 0], OFF),
      Radio.Vars(Radio.Idle, BLANK, 0, false, false, [], BLANK), [],
      [], [], [], [], [], [], [])
  }

  /** Nothing is received and no thread configures the radio. */
  predicate Calm(s: State)
  {
    s.cfgs == [] && s.rxMsgs == [] && s.rxCalls == [] && !s.radio.pendingRx && !s.radio.rxLocked
  }

  /** A write holds the lock and everything below is idle. */
  ghost predicate Ready(s: State, f: Frame, on: Settings)
  {
    && Inv(s) && Calm(s) && On(s) == on && s.copying == [f] && s.waiting == [] && !s.startPending
    && s.up == [] && s.low == [] && s.txMsgs == []
    && s.radio.state.Idle? && s.sack.state.Idle?
  }

  /** The write of f is under way, and these are what moves. */
  ghost predicate Under(s: State, f: Frame, on: Settings, up: seq<UpCall>, low: seq<LowCall>, msgs: seq<TxMsg>)
  {
    && Inv(s) && Calm(s) && On(s) == on && s.copying == [] && s.waiting == [f] && s.iface.doneSem == 0
    && s.up == up && s.low == low && s.txMsgs == msgs
  }

  predicate SameWindow(s: State, s': State) { s'.lpl == s.lpl && s'.startPending == s.startPending }

  lemma FreshReady(f: Frame, on: Settings)
    ensures var s := Fresh(on); Enabled(s, WriteBegin(f)) && Ready(Apply(s, WriteBegin(f)), f, on)
  {
    InitInv(Fresh(on));
    hide Inv;
    StepPreserves(Fresh(on), WriteBegin(f));
  }

  lemma ReadyIdle(s: State, f: Frame, on: Settings)
    requires Ready(s, f, on)
    ensures s.lpl.state.Idle? && s.csma.state.Idle? && Pending(s.csma) == 0
    ensures s.iface.doneSem == 0 && s.sack.timer == OFF
  {
    hide Transmit, Latched, Receive, RxMsgs, LogOk, LplTimer, Last, Replied, Heard, Sent;
  }

  // ---------- down ----------

  /** The write passes its frame to CSMA; low power listening has its window timer still to start. */
  lemma Enter(s: State, f: Frame, on: Settings) returns (ts: seq<Step>, s': State, src: Src)
    requires Ready(s, f, on)
    ensures Leads(s, ts, s') && Plain(ts) && Under(s', f, on, [CsmaTx(src, |f|)], [], [])
    ensures s'.sack == s.sack && s'.radio == s.radio && s'.csma == s.csma && s'.log == s.log + [Started(f)]
    ensures s'.lpl.timer == s.lpl.timer && s'.startPending == on.lpl
    ensures s'.lpl.state == (if on.lpl then Lpl.Tx else Lpl.Idle)
  {
    hide Inv;
    ReadyIdle(s, f, on);
    ts, s' := Then(s, [], s, WriteCopy(0));
    ts, s' := Then(s, ts, s', Up(0));
    src := IfaceBuf;
    if on.lpl {
      ts, s' := Then(s, ts, s', Up(0));
      src := LplBuf;
    }
    LeadsInv(s, ts, s');
  }

  /** CSMA waits once and finds the channel clear. */
  lemma Wait(s: State, f: Frame, on: Settings, src: Src) returns (ts: seq<Step>, s': State)
    requires Under(s, f, on, [CsmaTx(src, |f|)], [], []) && on.csma
    ensures Leads(s, ts, s') && Plain(ts) && Under(s', f, on, [SackTx(CsmaBuf, |f|)], [], [])
    ensures s'.sack == s.sack && s'.radio == s.radio && s'.log == s.log && SameWindow(s, s')
  {
    hide Inv;
    CallFacts(s);
    ts, s' := Then(s, [], s, Up(0));
    ts, s' := Then(s, ts, s', Up(0));
    ts, s' := Then(s, ts, s', CsmaFire);
    ts, s' := Then(s, ts, s', CsmaSample(true));
    ts, s' := Then(s, ts, s', CsmaWork);
    LeadsInv(s, ts, s');
  }

  /** Soft-ACK takes the frame, behind CSMA if that is on. */
  lemma Pass(s: State, f: Frame, on: Settings, src: Src) returns (ts: seq<Step>, s': State, low: LowCall)
    requires Under(s, f, on, [CsmaTx(src, |f|)], [], []) && s.sack.state.Idle? && s.radio.state.Idle?
    ensures Leads(s, ts, s') && Plain(ts) && low.SackCopy? && Under(s', f, on, [], [low], [])
    ensures s'.sack.state.Tx? && s'.radio.state.Idle? && s'.log == s.log && SameWindow(s, s')
  {
    hide Inv;
    low := SackCopy(if on.csma then CsmaBuf else src, |f|);
    if on.csma {
      ts, s' := Wait(s, f, on, src);
    } else {
      ts, s' := Then(s, [], s, Up(0));
    }
    ts, s' := Then(s, ts, s', Up(0));
    LeadsInv(s, ts, s');
  }

  /** What the invariant says of a lone pending call. */
  lemma CallFacts(s: State)
    requires Inv(s) && s.up != []
    ensures |s.up| == 1 && Pending(s.csma) == 0 && s.iface.doneSem == 0 && !s.sack.state.Tx? && !s.sack.state.TxWait?
    ensures s.up[0].CsmaTx? ==> s.csma.state.Idle?
  {
    hide Transmit, Latched, Receive, RxMsgs, LogOk, LplTimer, SackTimer, CarriesBelow, Last, Replied, Heard, Sent;
    Alone(s, 0);
  }

  /** CSMA finds the channel busy twice and gives up. */
  lemma GiveUp(s: State, f: Frame, on: Settings, src: Src) returns (ts: seq<Step>, s': State)
    requires Under(s, f, on, [CsmaTx(src, |f|)], [], []) && on.csma
    ensures Leads(s, ts, s') && Plain(ts) && Under(s', f, on, [LplDone(TX_BUSY)], [], [])
    ensures s'.log == s.log && SameWindow(s, s')
  {
    hide Inv;
    CallFacts(s);
    ts, s' := Then(s, [], s, Up(0));
    ts, s' := Then(s, ts, s', Up(0));
    ts, s' := Then(s, ts, s', CsmaFire);
    ts, s' := Then(s, ts, s', CsmaSample(false));
    ts, s' := Then(s, ts, s', CsmaFire);
    ts, s' := Then(s, ts, s', CsmaSample(false));
    LeadsInv(s, ts, s');
  }

  /** The window timer is started. */
  lemma Arm(s: State, f: Frame, on: Settings, up: seq<UpCall>, low: seq<LowCall>) returns (ts: seq<Step>, s': State)
    requires Under(s, f, on, up, low, []) && s.startPending
    ensures Leads(s, ts, s') && Plain(ts) && Under(s', f, on, up, low, [])
    ensures s' == s.(startPending := false, lpl := s.lpl.(timer := s.lpl.timer.Start()))
  {
    hide Inv;
    ts, s' := Then(s, [], s, LplStart);
    LeadsInv(s, ts, s');
  }

  /** ... and expires. */
  lemma Expire(s: State, f: Frame, on: Settings, up: seq<UpCall>, low: seq<LowCall>) returns (ts: seq<Step>, s': State)
    requires Under(s, f, on, up, low, []) && s.lpl.timer == Timer(true, false) && s.lpl.state.Tx?
    ensures Leads(s, ts, s') && Plain(ts) && Under(s', f, on, up, low, [])
    ensures s' == s.(lpl := s.lpl.(state := Lpl.TimerExpired, timer := OFF))
  {
    hide Inv;
    ts, s' := Then(s, [], s, LplFire);
    ts, s' := Then(s, ts, s', LplExpire);
    LeadsInv(s, ts, s');
  }

  /** The frame reaches the radio's buffer, and the first message is submitted. */
  lemma Load(s: State, f: Frame, on: Settings, low: LowCall) returns (ts: seq<Step>, s': State)
    requires Under(s, f, on, [], [low], []) && low.SackCopy? && s.sack.state.Tx? && s.radio.state.Idle?
    ensures Leads(s, ts, s') && Plain(ts) && Under(s', f, on, [], [], [MsgOff])
    ensures s'.sack.state.Tx? && s'.radio.state.Tx? && SameWindow(s, s')
    ensures s'.radio.txLen == |f| && s'.radio.txBuf[..|f|] == f
  {
    hide Inv, On;
    CopyFacts(s);
    ts, s' := Then(s, [], s, Low(0));
    ts, s' := Then(s, ts, s', Low(0));
    ts, s' := Then(s, ts, s', Low(0));
    assert On(s') == On(s) by { SameOn(s, s'); }
    assert s'.radio.txBuf[..|f|] == f by { SentPrefix(s, s', f, low); }
    LeadsInv(s, ts, s');
  }

  lemma SameOn(s: State, s': State)
    requires s'.lpl.enabled == s.lpl.enabled && s'.csma.enabled == s.csma.enabled
    ensures On(s') == On(s)
  {
  }

  lemma CopyFacts(s: State)
    requires Inv(s) && |s.low| == 1 && s.low[0].SackCopy? && |s.waiting| == 1
    ensures var f, len := s.waiting[0], s.low[0].len; len == |f| && Read(s, s.low[0].src)[..|f|] == f
  {
    hide Latched, Receive, RxMsgs, LogOk, LplTimer, SackTimer, CarriesAbove, Last, Replied, Heard, Sent;
  }

  lemma SentPrefix(s: State, s': State, f: Frame, low: LowCall)
    requires low.SackCopy? && low.len == |f| && Read(s, low.src)[..|f|] == f
    requires s'.radio.txBuf == Memcpy(s.radio.txBuf, Memcpy(s.sack.txBuf, Read(s, low.src), |f|), |f|)
    ensures s'.radio.txBuf[..|f|] == f
  {
  }

  // ---------- out and back ----------

  /** The frame was laid out and written; the SFD edge comes and soft-ACK hears of it. */
  lemma Report(s: State, f: Frame, on: Settings) returns (ts: seq<Step>, s': State)
    requires Under(s, f, on, [], [], []) && s.sack.state.Tx? && s.radio.state.TxSpiDone?
    ensures Leads(s, ts, s') && Plain(ts) && SameWindow(s, s') && s'.radio.state.Idle?
    ensures if Packet.RequiresAck(f)
            then Under(s', f, on, [], [], []) && s'.sack.state.TxWait? && !s'.sack.timer.running
            else Under(s', f, on, [CsmaDone(TX_SUCCESS)], [], []) && s'.sack.state.Idle?
  {
    hide Inv, Packet.RequiresAck;
    SackFacts(s);
    Packet.SameHeader(s.sack.txBuf, f, |f|);
    ts, s' := Then(s, [], s, Sfd);
    ts, s' := Then(s, ts, s', Low(0));
    ts, s' := Then(s, ts, s', Low(0));
    LeadsInv(s, ts, s');
  }

  lemma SackFacts(s: State)
    requires Inv(s) && |s.waiting| == 1 && s.low == [] && (s.sack.state.Tx? || s.sack.state.TxWait?)
    ensures var f := s.waiting[0]; s.sack.txBuf[..|f|] == f
    ensures s.sack.state.Tx? ==> s.sack.timer == OFF
  {
    hide Latched, Receive, RxMsgs, LogOk, LplTimer, CarriesAbove, Last, Replied, Heard, Sent, Packet.RequiresAck;
  }

  /** The radio reports an underflow of a frame that waits for no ACK. */
  lemma Underflow(s: State, f: Frame, on: Settings) returns (ts: seq<Step>, s': State)
    requires Under(s, f, on, [], [], [MsgOff]) && s.sack.state.Tx? && s.radio.txLen == |f| && !Packet.RequiresAck(f)
    ensures Leads(s, ts, s') && SameWindow(s, s') && Under(s', f, on, [CsmaDone(TX_FAILED)], [], [])
  {
    hide Inv, Packet.RequiresAck;
    SackFacts(s);
    Packet.SameHeader(s.sack.txBuf, f, |f|);
    ts, s' := Then(s, [], s, TxDone(0, false));
    ts, s' := Then(s, ts, s', TxDone(0, true));
    ts, s' := Then(s, ts, s', TxDone(0, false));
    ts, s' := Then(s, ts, s', Low(0));
    LeadsInv(s, ts, s');
  }

  /** The SPI write ends well. */
  lemma Write(s: State, f: Frame, on: Settings) returns (ts: seq<Step>, s': State)
    requires Under(s, f, on, [], [], [MsgOff]) && s.sack.state.Tx? && s.radio.txLen == |f| && s.radio.state.Tx?
    ensures Leads(s, ts, s') && NoneReturns(ts) && SameWindow(s, s')
    ensures Enabled(s, TxDone(0, false))
    ensures var m := Apply(s, TxDone(0, false));
            m.txMsgs == [MsgWrite] && Enabled(m, TxDone(0, false)) && s' == Apply(m, TxDone(0, false))
    ensures Under(s', f, on, [], [], []) && s'.sack.state.Tx? && s'.radio.state.TxSpiDone?
  {
    hide Inv;
    ts, s' := Then(s, [], s, TxDone(0, false));
    ts, s' := Then(s, ts, s', TxDone(0, false));
    LeadsInv(s, ts, s');
  }

  /** The ACK wait runs out. */
  lemma TimeOut(s: State, f: Frame, on: Settings) returns (ts: seq<Step>, s': State)
    requires Under(s, f, on, [], [], []) && s.sack.state.TxWait? && !s.sack.timer.running
    ensures Leads(s, ts, s') && Plain(ts) && SameWindow(s, s') && Under(s', f, on, [CsmaDone(TX_ACK_TIMEOUT)], [], [])
  {
    hide Inv;
    assert s.sack.timer.armed by { WaitArmed(s); }
    ts, s' := Then(s, [], s, SackFire);
    ts, s' := Then(s, ts, s', SackExpire);
    LeadsInv(s, ts, s');
  }

  lemma WaitArmed(s: State)
    requires Inv(s) && s.sack.state.TxWait?
    ensures s.sack.timer.armed || s.sack.timer.running
  {
    hide Counts, Transmit, Latched, Receive, RxMsgs, LogOk, LplTimer, Carried;
  }

  /** The ACK of f as it is read from the radio: header, sequence number, and two bytes for the checksum. */
  function AckBody(f: Frame): seq<u8> { [2, 0, Packet.Dsn(f), 0, 0] }

  lemma BodyLength(f: Frame)
    ensures |AckBody(f)| == 5
  {
  }

  /** A frame of five bytes after its length byte arrives. */
  lemma Arrive(s: State, f: Frame, on: Settings) returns (ts: seq<Step>, s': State)
    requires Under(s, f, on, [], [], [])
    ensures Plain(ts) && Leads(s, ts, s')
    ensures s' == s.(radio := s.radio.(pendingRx := true), rxMsgs := [ReadLen])
  {
    hide Inv;
    ts, s' := Then(s, [], s, Fifop);
    ts, s' := Then(s, ts, s', Rx(0, true));
  }

  /** A write waits for its ACK while the receive chain is in this call. */
  ghost predicate Hearing(s: State, f: Frame, on: Settings, call: RxCall)
  {
    && Inv(s) && On(s) == on && s.copying == [] && s.waiting == [f] && s.iface.doneSem == 0 && s.cfgs == []
    && s.up == [] && s.low == [] && s.txMsgs == [] && s.rxMsgs == [] && s.rxCalls == [call]
    && s.sack.state.TxWait? && !s.sack.timer.running && !s.radio.rxLocked
  }

  /** The body of the ACK goes up to soft-ACK. */
  lemma Fetch(s: State, f: Frame, on: Settings) returns (ts: seq<Step>, s': State)
    requires Hearing(s, f, on, Finish(5)) && s.radio.rxIn == [0] + AckBody(f)
    ensures Leads(s, ts, s') && Plain(ts) && SameWindow(s, s') && Hearing(s', f, on, SackLock)
    ensures Packet.IsAck(s'.sack.rxBuf) && Packet.Dsn(s'.sack.rxBuf) == Packet.Dsn(f)
  {
    hide Inv, AckBody, Packet.IsAck, Packet.Dsn;
    BodyLength(f);
    ts, s' := Then(s, [], s, Rx(0, true));
    ts, s' := Then(s, ts, s', Rx(0, true));
    assert s'.sack.rxBuf[..6] == [5] + s.radio.rxIn[1..6];
    AckRead(f, s'.sack.rxBuf);
    LeadsInv(s, ts, s');
  }

  lemma AckRead(f: Frame, rx: Buffer)
    requires rx[..6] == [5] + ([0] + AckBody(f))[1..6]
    ensures Packet.IsAck(rx) && Packet.Dsn(rx) == Packet.Dsn(f)
  {
    assert rx[1] == rx[..6][1] && rx[2] == rx[..6][2] && rx[3] == rx[..6][3];
  }

  /** It is recognised as the ACK awaited, and ends the wait. */
  lemma Acked(s: State, f: Frame, on: Settings) returns (ts: seq<Step>, s': State)
    requires Hearing(s, f, on, SackLock) && Packet.IsAck(s.sack.rxBuf) && Packet.Dsn(s.sack.rxBuf) == Packet.Dsn(f)
    ensures Leads(s, ts, s') && Plain(ts) && SameWindow(s, s') && Under(s', f, on, [CsmaDone(TX_SUCCESS)], [], [])
  {
    hide Inv, Packet.IsAck, Packet.RequiresAck, Packet.CreateAck;
    SackFacts(s);
    Packet.SameHeader(s.sack.txBuf, f, |f|);
    PendingRxFacts(s);
    ts, s' := Then(s, [], s, Rx(0, true));
    ts, s' := Then(s, ts, s', Rx(0, false));
    ts, s' := Then(s, ts, s', Up(0));
    LeadsInv(s, ts, s');
  }

  lemma PendingRxFacts(s: State)
    requires Inv(s)
    ensures |s.rxMsgs| + |s.rxCalls| == B(s.radio.pendingRx)
  {
    hide Transmit, Latched, Receive, RxMsgs, LogOk, LplTimer, SackTimer, Carried;
  }

  // ---------- up ----------

  lemma LplBuffer(s: State)
    requires Inv(s) && s.lpl.enabled && |s.up| == 1 && s.up[0].LplDone?
    ensures |s.waiting| == 1 && Packet.RequiresAck(s.lpl.buf) == Packet.RequiresAck(s.waiting[0])
  {
    hide Transmit, Latched, Receive, RxMsgs, LogOk, LplTimer, SackTimer, CarriesBelow, Last, Replied, Heard, Sent,
         Packet.RequiresAck;
    Alone(s, 0);
    Packet.SameHeader(s.lpl.buf, s.waiting[0], |s.waiting[0]|);
  }

  /** The status that reaches the writer of f when an attempt ends with st and is not repeated. */
  function Passed(on: Settings, f: Frame, st: u8): u8
  {
    if !on.lpl || (Packet.RequiresAck(f) && st == TX_SUCCESS) then st
    else if Packet.RequiresAck(f) then TX_FAILED else TX_SUCCESS
  }

  /** Low power listening is done with the frame: off, acknowledged, or out of its window. */
  predicate Closes(s: State, f: Frame, on: Settings, st: u8)
  {
    && (on.lpl ==> s.lpl.state.TimerExpired? || (Packet.RequiresAck(f) && st == TX_SUCCESS))
    && !s.lpl.timer.running
  }

  /** The status goes up to the writer. */
  lemma Settle(s: State, f: Frame, on: Settings, st: u8) returns (ts: seq<Step>, s': State)
    requires Under(s, f, on, [LplDone(st)], [], []) && Closes(s, f, on, st)
    ensures Leads(s, ts, s') && Plain(ts) && s'.log == s.log && s'.startPending == s.startPending
    ensures Calm(s') && s'.up == [] && s'.waiting == [f] && s'.copying == [] && s'.low == [] && s'.txMsgs == []
    ensures s'.iface.doneSem == 1 && s'.iface.result == Passed(on, f, st)
    ensures (s'.lpl.state.Idle? || !on.lpl) && On(s') == on && (s.lpl.timer == OFF ==> s'.lpl.timer == OFF)
  {
    hide Inv, Packet.RequiresAck;
    if on.lpl { LplBuffer(s); }
    ts, s' := Then(s, [], s, Up(0));
    if s'.up[0].LplAcked? { ts, s' := Then(s, ts, s', Up(0)); }
    ts, s' := Then(s, ts, s', Up(0));
  }

  lemma Rise(s: State, f: Frame, on: Settings, st: u8) returns (ts: seq<Step>, s': State)
    requires Under(s, f, on, [CsmaDone(st)], [], [])
    ensures Leads(s, ts, s') && Plain(ts) && Under(s', f, on, [LplDone(st)], [], []) && SameWindow(s, s')
  {
    hide Inv;
    ts, s' := Then(s, [], s, Up(0));
    LeadsInv(s, ts, s');
  }
}
