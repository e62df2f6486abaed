/** Two sessions: one in which a write succeeds and its frame is delivered, and one in which a third
    node's ACK makes it succeed though B never got the frame. */
module Sessions {
  import opened Bytes
  import opened Stack
  import opened StackInv
  import opened Network
  import opened Paths
  import EndToEnd
  import Interface
  import NodeSteps
  import Packet
  import Radio
  import Results
  import Sack

  // ---------- paths of two nodes ----------

  ghost predicate NetLeads(f: Frame, n: Net, ms: seq<Move>, n': Net)
    requires Packet.HasSrc(f)
    decreases |ms|
  {
    if ms == [] then n' == n else Can(f, n, ms[0]) && NetLeads(f, Do(f, n, ms[0]), ms[1..], n')
  }

  lemma {:induction false} NetOn(f: Frame, n: Net, ms: seq<Move>, m: Net, us: seq<Move>, n': Net)
    requires Packet.HasSrc(f) && NetLeads(f, n, ms, m) && NetLeads(f, m, us, n')
    ensures NetLeads(f, n, ms + us, n')
    decreases |ms|
  {
    hide Can, Do, Packet.HasSrc;
    if ms == [] {
      assert ms + us == us;
    } else {
      NetOn(f, Do(f, n, ms[0]), ms[1..], m, us, n');
      assert (ms + us)[1..] == ms[1..] + us;
    }
  }

  lemma NetThen(f: Frame, n: Net, ms: seq<Move>, m: Net, x: Move) returns (ms': seq<Move>, m': Net)
    requires Packet.HasSrc(f) && NetLeads(f, n, ms, m) && Can(f, m, x)
    ensures ms' == ms + [x] && m' == Do(f, m, x) && NetLeads(f, n, ms', m')
  {
    hide Can, Do, Packet.HasSrc;
    ms', m' := ms + [x], Do(f, m, x);
    assert [x][1..] == [] && NetLeads(f, m', [], m');
    NetOn(f, n, ms, m, [x], m');
  }

  /** A path of node A that touches no message is a path of the two nodes. */
  lemma {:induction false} LiftA(f: Frame, n: Net, ts: seq<Step>, a: State) returns (ms: seq<Move>)
    requires Packet.HasSrc(f) && Leads(n.a, ts, a) && Plain(ts)
    ensures NetLeads(f, n, ms, n.(a := a))
    decreases |ts|
  {
    hide Enabled, Apply, Packet.HasSrc, AckFor, OtherSource;
    if ts == [] {
      ms := [];
    } else {
      var x := AtA(ts[0], false);
      assert PlainStep(ts[0]);
      var rest := LiftA(f, Do(f, n, x), ts[1..], a);
      ms := [x] + rest;
      assert ms[1..] == rest;
    }
  }

  /** A path from a start is a session. */
  lemma {:induction false} NetSession(f: Frame, net: seq<Net>, moves: seq<Move>, ms: seq<Move>, n': Net)
    returns (net': seq<Net>)
    requires EndToEnd.IsSession(f, net, moves) && NetLeads(f, net[|moves|], ms, n')
    ensures |net'| == |net| + |ms| && EndToEnd.IsSession(f, net', moves + ms)
    ensures net'[..|net|] == net && net'[|net'| - 1] == n'
    decreases |ms|
  {
    hide Can, Do, EndToEnd.Start, Packet.HasSrc, Packet.IsAck;
    if ms == [] {
      net' := net;
      assert moves + ms == moves;
    } else {
      var m := Do(f, net[|moves|], ms[0]);
      net' := NetSession(f, net + [m], moves + [ms[0]], ms[1..], n');
      assert moves + [ms[0]] + ms[1..] == moves + ms;
      assert net'[..|net|] == net'[..|net| + 1][..|net|] == net;
    }
  }

  // ---------- node A ----------

  /** A's frame goes out: one copy of it is in flight. */
  lemma Launch(f: Frame, n: Net, on: Settings) returns (ms: seq<Move>, n': Net)
    requires Proper(f) && n.a == Apply(Fresh(on), WriteBegin(f))
    ensures NetLeads(f, n, ms, n') && n' == n.(a := n'.a, ab := n.ab + [f])
    ensures Under(n'.a, f, on, [], [], []) && n'.a.sack.state.Tx? && n'.a.radio.state.TxSpiDone?
    ensures n'.a.lpl.timer == OFF
  {
    hide Inv, Leads, NetLeads, Plain, Under, Apply, Enabled, Packet.RequiresAck, Packet.HasSrc, Packet.IsAck;
    FreshReady(f, on);
    Results.FreshIdle(f, on);
    var t1, s1, src := Enter(n.a, f, on);
    var t2, s2, low := Pass(s1, f, on, src);
    var t3, s3 := Load(s2, f, on, low);
    var m1 := LiftA(f, n, t1, s1);
    var m2 := LiftA(f, n.(a := s1), t2, s2);
    var m3 := LiftA(f, n.(a := s2), t3, s3);
    var m4, n4 := WriteToAir(f, n.(a := s3), on);
    NetOn(f, n, m1, n.(a := s1), m2, n.(a := s2));
    NetOn(f, n, m1 + m2, n.(a := s2), m3, n.(a := s3));
    NetOn(f, n, m1 + m2 + m3, n.(a := s3), m4, n4);
    ms, n' := m1 + m2 + m3 + m4, n4;
  }

  /** ... and A waits for the ACK. */
  lemma SendToAir(f: Frame, n: Net, on: Settings) returns (ms: seq<Move>, n': Net)
    requires Proper(f) && Packet.RequiresAck(f) && n.a == Apply(Fresh(on), WriteBegin(f))
    ensures NetLeads(f, n, ms, n') && n' == n.(a := n'.a, ab := n.ab + [f])
    ensures Under(n'.a, f, on, [], [], []) && n'.a.sack.state.TxWait? && !n'.a.sack.timer.running
    ensures n'.a.lpl.timer == OFF
  {
    hide Inv, Leads, NetLeads, Plain, Under, Apply, Enabled, Packet.RequiresAck, Packet.HasSrc, Packet.IsAck;
    var m1, n1 := Launch(f, n, on);
    var t2, s2 := Report(n1.a, f, on);
    var m2 := LiftA(f, n1, t2, s2);
    n' := n1.(a := s2);
    NetOn(f, n, m1, n1, m2, n');
    ms := m1 + m2;
  }

  lemma WriteToAir(f: Frame, n: Net, on: Settings) returns (ms: seq<Move>, n': Net)
    requires Packet.HasSrc(f) && Under(n.a, f, on, [], [], [MsgOff]) && n.a.sack.state.Tx? && n.a.radio.state.Tx?
    requires n.a.radio.txLen == |f| && n.a.radio.txBuf[..|f|] == f
    ensures NetLeads(f, n, ms, n') && n' == n.(a := n'.a, ab := n.ab + [f]) && SameWindow(n.a, n'.a)
    ensures Under(n'.a, f, on, [], [], []) && n'.a.sack.state.Tx? && n'.a.radio.state.TxSpiDone?
  {
    hide Inv, Packet.HasSrc, AckFor, OtherSource, Apply, Enabled;
    var ts, s := Write(n.a, f, on);
    ms, n' := NetThen(f, n, [], n, AtA(TxDone(0, false), false));
    ms, n' := NetThen(f, n, ms, n', AtA(TxDone(0, false), false));
  }

  /** A reads the length byte and body of an ACK for f: the one in flight, or a third node's. */
  lemma ReadAck(f: Frame, n: Net, on: Settings, air: bool) returns (ms: seq<Move>, n': Net)
    requires Packet.HasSrc(f) && Under(n.a, f, on, [], [], []) && n.a.sack.state.TxWait? && !n.a.sack.timer.running
    requires if air then n.ba != [] && Carries(n.ba[0], [5] + AckBody(f)) else !n.quiet
    ensures NetLeads(f, n, ms, n') && SameWindow(n.a, n'.a)
    ensures n' == n.(a := n'.a, ba := if air then n.ba[1..] else n.ba)
    ensures Hearing(n'.a, f, on, Finish(5)) && n'.a.radio.rxIn == [0] + AckBody(f)
  {
    hide Inv, Packet.HasSrc, AckFor, OtherSource, Carries, AckBody, Leads, Apply, Enabled, NetLeads;
    BodyLength(f);
    var t1, s1 := Arrive(n.a, f, on);
    var t2, s2 := Results.Read(n.a, s1, t1, f, on);
    ms := LiftA(f, n, t1, s1);
    ms, n' := NetThen(f, n, ms, n.(a := s1), AtA(RxDone(0, [5]), false));
    ms, n' := NetThen(f, n, ms, n', AtA(RxDone(0, AckBody(f)), air));
  }

  /** A hears its ACK; its write is about to return its length. */
  lemma HearAndSettle(f: Frame, n: Net, on: Settings, air: bool) returns (ms: seq<Move>, n': Net)
    requires Packet.HasSrc(f) && Packet.RequiresAck(f)
    requires Under(n.a, f, on, [], [], []) && n.a.sack.state.TxWait? && !n.a.sack.timer.running && n.a.lpl.timer == OFF
    requires if air then n.ba != [] && Carries(n.ba[0], [5] + AckBody(f)) else !n.quiet
    ensures NetLeads(f, n, ms, n') && n' == n.(a := n'.a, ba := if air then n.ba[1..] else n.ba)
    ensures Enabled(n'.a, WriteEnd(0)) && Interface.Returns(n'.a.iface) == |f|
  {
    hide Inv, Leads, NetLeads, Apply, Packet.RequiresAck, Packet.HasSrc, Carries, AckBody, Packet.IsAck, Packet.Dsn;
    var m1, n1 := ReadAck(f, n, on, air);
    var t2, s2 := Fetch(n1.a, f, on);
    var t3, s3 := Acked(s2, f, on);
    var t4, s4 := Rise(s3, f, on, TX_SUCCESS);
    var t5, s5 := Settle(s4, f, on, TX_SUCCESS);
    LeadsOn(n1.a, t2, s2, t3, s3);
    LeadsOn(n1.a, t2 + t3, s3, t4, s4);
    LeadsOn(n1.a, t2 + t3 + t4, s4, t5, s5);
    var t6, s6 := Restart(n1.a, t2 + t3 + t4 + t5, s5, f);
    var m6 := LiftA(f, n1, t6, s6);
    n' := n1.(a := s6);
    NetOn(f, n, m1, n1, m6, n');
    ms := m1 + m6;
    Results.CanEnd(s6);
    LeadsInv(n1.a, t6, s6);
    SettledLength(s6, f);
  }

  lemma Restart(s: State, ts: seq<Step>, m: State, f: Frame) returns (ts': seq<Step>, s': State)
    requires Leads(s, ts, m) && Plain(ts)
    ensures Leads(s, ts', s') && Plain(ts') && !s'.startPending && s'.iface == m.iface && s'.waiting == m.waiting
  {
    hide Leads;
    ts', s' := ts, m;
    if m.startPending { ts', s' := Then(s, ts, m, LplStart); }
  }

  lemma SettledLength(s: State, f: Frame)
    requires Inv(s) && s.waiting == [f] && s.iface.result == TX_SUCCESS
    ensures Interface.Returns(s.iface) == |f|
  {
    hide Transmit, Latched, Receive, RxMsgs, LogOk, SackTimer, LplTimer, CarriesBelow, Last, Replied, Heard, Sent;
  }

  // ---------- node B ----------

  /** Above and beside its receive chain B does nothing, and its filter has heard nothing. */
  predicate Still(b: State)
  {
    && b.txMsgs == [] && b.up == [] && b.cfgs == [] && b.copying == [] && b.waiting == [] && b.nodes == []
    && !b.radio.rxLocked
  }

  /** B's receive chain is in this call with f and two bytes for its checksum, and nothing else goes on. */
  predicate Holds(b: State, f: Frame, call: RxCall, low: seq<LowCall>, sk: Sack.SackState, r: Radio.RadioState)
  {
    && Still(b) && b.rxCalls == [call] && b.rxMsgs == [] && b.low == low
    && b.radio.rxIn == [0] + f[1..] + [0, 0] && b.sack.state == sk && b.radio.state == r
  }

  /** B's chain starts. */
  lemma Wakes(f: Frame, n: Net, onB: Settings) returns (ms: seq<Move>, n': Net)
    requires Packet.HasSrc(f) && n.b == Fresh(onB)
    ensures NetLeads(f, n, ms, n') && n' == n.(b := n'.b)
    ensures Still(n'.b) && n'.b.rxCalls == [] && n'.b.rxMsgs == [ReadLen] && n'.b.low == []
    ensures n'.b.sack.state.Idle? && n'.b.radio.state.Idle?
  {
    hide Packet.HasSrc, AckFor, OtherSource;
    ms, n' := NetThen(f, n, [], n, AtB(Fifop, false));
    ms, n' := NetThen(f, n, ms, n', AtB(Rx(0, true), false));
  }

  /** B reads the frame off the air. */
  lemma Receives(f: Frame, n: Net, onB: Settings) returns (ms: seq<Move>, n': Net)
    requires Proper(f) && n.b == Fresh(onB) && n.ab == [f] && n.stale == 0
    ensures NetLeads(f, n, ms, n') && n' == n.(b := n'.b, ab := [])
    ensures Holds(n'.b, f, Finish(f[0]), [], Sack.Idle, Radio.Idle)
  {
    hide Packet.HasSrc, Packet.IsAck, AckFor, OtherSource, NetLeads, Fresh;
    var body := f[1..] + [0, 0];
    ms, n' := Wakes(f, n, onB);
    ms, n' := NetThen(f, n, ms, n', AtB(RxDone(0, [f[0]]), false));
    assert Carries(f, Arrived(body)) by { AirCarries(f); }
    ms, n' := NetThen(f, n, ms, n', AtB(RxDone(0, body), true));
    assert [0] + body == [0] + f[1..] + [0, 0];
  }

  lemma AirCarries(f: Frame)
    requires Proper(f)
    ensures Carries(f, Arrived(f[1..] + [0, 0]))
  {
    hide Packet.HasSrc, Packet.IsAck;
    var r := Arrived(f[1..] + [0, 0]);
    assert r[..|f|] == f;
  }

  /** The two copies on the way up keep the frame. */
  lemma CopiedTwice(f: Frame, v: Radio.Vars, dst: Buffer)
    requires v.rxIn == [0] + f[1..] + [0, 0] && f[0] as int == |f| + 1 < PKT_BUFF_SIZE
    ensures Memcpy(dst, Radio.OnReceived(v, f[0]).rxBuf, f[0] + 1)[..|f|] == f
  {
    var r := Radio.OnReceived(v, f[0]).rxBuf;
    assert r[..|f|] == f;
    assert Memcpy(dst, r, f[0] + 1)[..|f|] == r[..f[0] + 1][..|f|];
  }

  /** It goes up to soft-ACK. */
  lemma GoesUp(f: Frame, n: Net) returns (ms: seq<Move>, n': Net)
    requires Proper(f) && Holds(n.b, f, Finish(f[0]), [], Sack.Idle, Radio.Idle)
    ensures NetLeads(f, n, ms, n') && n' == n.(b := n'.b)
    ensures Holds(n'.b, f, SackLock, [], Sack.Idle, Radio.Idle) && n'.b.sack.rxBuf[..|f|] == f
  {
    hide Packet.HasSrc, Packet.IsAck, AckFor, OtherSource, Memcpy;
    CopiedTwice(f, n.b.radio, n.b.sack.rxBuf);
    ms, n' := NetThen(f, n, [], n, AtB(Rx(0, true), false));
    ms, n' := NetThen(f, n, ms, n', AtB(Rx(0, true), false));
  }

  /** ... which answers it. */
  lemma Answers(f: Frame, n: Net) returns (ms: seq<Move>, n': Net)
    requires Proper(f) && Packet.RequiresAck(f) && Holds(n.b, f, Finish(f[0]), [], Sack.Idle, Radio.Idle)
    ensures NetLeads(f, n, ms, n') && n' == n.(b := n'.b)
    ensures Holds(n'.b, f, Acking, [RadioTx(true, Packet.ACK_BUF_SIZE)], Sack.TxAck, Radio.Idle)
    ensures n'.b.sack.rxBuf[..|f|] == f && n'.b.sack.ackBuf[..4] == AckHead(f)
  {
    hide Packet.HasSrc, Packet.IsAck, Packet.RequiresAck, AckFor, OtherSource, Packet.Fcf, NetLeads;
    ms, n' := GoesUp(f, n);
    Packet.SameHeader(n'.b.sack.rxBuf, f, |f|);
    ms, n' := NetThen(f, n, ms, n', AtB(Rx(0, true), false));
  }

  /** The ACK reaches the radio's buffer. */
  lemma LoadsAck(f: Frame, n: Net) returns (ms: seq<Move>, n': Net)
    requires Packet.HasSrc(f) && Holds(n.b, f, Acking, [RadioTx(true, Packet.ACK_BUF_SIZE)], Sack.TxAck, Radio.Idle)
    ensures NetLeads(f, n, ms, n') && n' == n.(b := n'.b) && OnAir(n'.b) == n.b.sack.ackBuf
    ensures n'.b.rxCalls == [Acking] && n'.b.low == [] && n'.b.txMsgs == [MsgOff] && n'.b.nodes == [] && n'.b.up == []
    ensures n'.b.sack.rxBuf == n.b.sack.rxBuf && n'.b.radio.rxIn == n.b.radio.rxIn && Readable(n'.b.radio.txLen)
  {
    hide Packet.HasSrc, Packet.IsAck, AckFor, OtherSource;
    ms, n' := NetThen(f, n, [], n, AtB(Low(0), false));
    ms, n' := NetThen(f, n, ms, n', AtB(Low(0), false));
  }

  /** ... and goes on the air. */
  lemma SendsAck(f: Frame, n: Net) returns (ms: seq<Move>, n': Net)
    requires Packet.HasSrc(f) && Holds(n.b, f, Acking, [RadioTx(true, Packet.ACK_BUF_SIZE)], Sack.TxAck, Radio.Idle)
    requires n.b.sack.ackBuf[..4] == AckHead(f) && n.ba == []
    ensures NetLeads(f, n, ms, n') && n' == n.(b := n'.b, ba := n'.ba)
    ensures n'.ba != [] && Carries(n'.ba[0], [5] + AckBody(f))
    ensures n'.b.rxCalls == [Acking] && n'.b.low == [] && n'.b.nodes == [] && n'.b.sack.rxBuf == n.b.sack.rxBuf
    ensures n'.b.radio.rxIn == n.b.radio.rxIn
  {
    hide Packet.HasSrc, Packet.IsAck, AckFor, OtherSource, AckBody, NetLeads, Carries, OnAir;
    ms, n' := LoadsAck(f, n);
    ms, n' := NetThen(f, n, ms, n', AtB(TxDone(0, false), false));
    AckCarries(f, n.b.sack.ackBuf);
  }

  lemma AckCarries(f: Frame, ack: seq<u8>)
    requires |ack| == Packet.ACK_BUF_SIZE && ack[..4] == AckHead(f)
    ensures Carries(ack, [5] + AckBody(f))
  {
    assert ack[0] == ack[..4][0];
    assert ([5] + AckBody(f))[..4] == AckHead(f);
  }

  /** B's filter hands the frame up. */
  lemma Delivers(f: Frame, n: Net) returns (ms: seq<Move>, n': Net)
    requires Proper(f) && n.b.rxCalls == [Acking] && n.b.low == [] && n.b.nodes == [] && n.b.sack.rxBuf[..|f|] == f
    ensures NetLeads(f, n, ms, n') && n'.count == n.count + 1
  {
    hide Packet.GetSrc, Packet.IsAck, AckFor, OtherSource, Packet.HasSrc;
    var rx := n.b.sack.rxBuf;
    NodeSteps.WholeBufferHasSrc(rx);
    NodeSteps.SameSource(f, rx);
    Packet.SameHeader(f, rx, |f|);
    ms, n' := NetThen(f, n, [], n, AtB(Rx(0, true), false));
    ms, n' := NetThen(f, n, ms, n', AtB(Rx(0, true), false));
  }

  // ---------- the two sessions ----------

  /** A session begins with two freshly loaded drivers. */
  lemma Opening(f: Frame, onA: Settings, onB: Settings, quiet: bool) returns (n: Net)
    requires Proper(f)
    ensures n == Net(Apply(Fresh(onA), WriteBegin(f)), Fresh(onB), [], [], 0, 0, quiet)
    ensures EndToEnd.IsSession(f, [n], [])
  {
    hide Init, EndToEnd.Start, Proper, Apply;
    n := Net(Apply(Fresh(onA), WriteBegin(f)), Fresh(onB), [], [], 0, 0, quiet);
    EndToEnd.FreshStart(f, Fresh(onA), Fresh(onB), quiet);
  }

  /** The write returns. */
  lemma Conclude(f: Frame, net: seq<Net>, moves: seq<Move>) returns (net': seq<Net>, n: Net)
    requires EndToEnd.IsSession(f, net, moves) && Enabled(net[|moves|].a, WriteEnd(0))
    ensures |net'| == |net| + 1 && EndToEnd.IsSession(f, net', moves + [AtA(WriteEnd(0), false)])
    ensures net'[..|net|] == net && net'[|net|] == n == net[|moves|].(a := n.a)
  {
    hide EndToEnd.Start, Packet.HasSrc, Packet.IsAck, AckFor, OtherSource;
    var ms;
    ms, n := NetThen(f, net[|moves|], [], net[|moves|], AtA(WriteEnd(0), false));
    assert ms == [AtA(WriteEnd(0), false)];
    net' := NetSession(f, net, moves, ms, n);
  }

  lemma HeldCopy(f: Frame, b: State)
    requires Proper(f) && b.radio.rxIn == [0] + f[1..] + [0, 0]
    ensures Copy(f, Held(b))
  {
    hide Packet.HasSrc, Packet.IsAck;
    assert Held(b)[..|f|] == f;
  }

  /** B receives the frame and answers it. */
  lemma Exchange(f: Frame, n: Net, onB: Settings) returns (ms: seq<Move>, n': Net)
    requires Proper(f) && Packet.RequiresAck(f) && n.b == Fresh(onB) && n.ab == [f] && n.stale == 0 && n.ba == []
    ensures NetLeads(f, n, ms, n') && n'.a == n.a && n'.count == n.count && n'.quiet == n.quiet
    ensures n'.ba != [] && Carries(n'.ba[0], [5] + AckBody(f)) && n'.b.sack.rxBuf[..|f|] == f
    ensures n'.b.rxCalls == [Acking] && n'.b.low == [] && n'.b.nodes == [] && Copy(f, Held(n'.b))
  {
    hide NetLeads, Packet.RequiresAck, Packet.HasSrc, Packet.IsAck, Carries, AckBody, Copy, Held;
    var m1, n1 := Receives(f, n, onB);
    var m2, n2 := Answers(f, n1);
    var m3, n3 := SendsAck(f, n2);
    NetOn(f, n, m1, n1, m2, n2);
    NetOn(f, n, m1 + m2, n2, m3, n3);
    HeldCopy(f, n3.b);
    ms, n' := m1 + m2 + m3, n3;
  }

  /** For every proper frame that asks for an ACK, and any settings, there is a session in which the write
      returns its length while B still holds the frame past its ACK, and B then hands it up. */
  lemma SuccessDelivers(f: Frame, onA: Settings, onB: Settings) returns (net: seq<Net>, moves: seq<Move>, k: nat)
    requires Proper(f) && Packet.RequiresAck(f)
    ensures EndToEnd.IsSession(f, net, moves) && net[0].quiet && k < |moves|
    ensures moves[k] == AtA(WriteEnd(0), false) && Interface.Returns(net[k].a.iface) == |f|
    ensures net[k + 1].count == 0 && Answered(net[k + 1].b.rxCalls) && Copy(f, Held(net[k + 1].b))
    ensures net[|moves|].count == 1
  {
    hide NetLeads, Under, Apply, Enabled, Packet.RequiresAck, Packet.HasSrc, Packet.IsAck, Carries, AckBody, Copy,
         Held, EndToEnd.IsSession;
    var n0 := Opening(f, onA, onB, true);
    var m1, n1 := SendToAir(f, n0, onA);
    var m2, n2 := Exchange(f, n1, onB);
    var m3, n3 := HearAndSettle(f, n2, onA, true);
    NetOn(f, n0, m1, n1, m2, n2);
    NetOn(f, n0, m1 + m2, n2, m3, n3);
    var ms := [] + (m1 + m2 + m3);
    k := |ms|;
    net := NetSession(f, [n0], [], m1 + m2 + m3, n3);
    LastIndex(f, net, ms);
    var net4, n4 := Conclude(f, net, ms);
    var m5, n5 := Delivers(f, n4);
    moves := ms + [AtA(WriteEnd(0), false)];
    LastIndex(f, net4, moves);
    var net5 := NetSession(f, net4, moves, m5, n5);
    assert net5[k] == net5[..|net4|][k] == net4[..|net|][k];
    assert net5[k + 1] == net5[..|net4|][k + 1];
    assert net5[0] == net5[..|net4|][0] == net4[..|net|][0] == net[..1][0];
    net, moves := net5, moves + m5;
    LastIndex(f, net, moves);
  }

  lemma LastIndex(f: Frame, net: seq<Net>, moves: seq<Move>)
    requires EndToEnd.IsSession(f, net, moves)
    ensures |net| == |moves| + 1
  {
  }

  /** The chain passes the frame on without an ACK, and B's filter hands it up. */
  lemma DeliversPlain(f: Frame, n: Net) returns (ms: seq<Move>, n': Net)
    requires Proper(f) && !Packet.RequiresAck(f) && Holds(n.b, f, SackLock, [], Sack.Idle, Radio.Idle)
    requires n.b.sack.rxBuf[..|f|] == f
    ensures NetLeads(f, n, ms, n') && n'.count == n.count + 1 && n'.ba == n.ba
  {
    hide Packet.GetSrc, Packet.IsAck, Packet.RequiresAck, AckFor, OtherSource, Packet.HasSrc, Packet.Fcf;
    var rx := n.b.sack.rxBuf;
    NodeSteps.WholeBufferHasSrc(rx);
    NodeSteps.SameSource(f, rx);
    Packet.SameHeader(f, rx, |f|);
    ms, n' := NetThen(f, n, [], n, AtB(Rx(0, true), false));
    ms, n' := NetThen(f, n, ms, n', AtB(Rx(0, true), false));
  }

  /** For every proper frame that asks for no ACK, and any settings, there is a session in which it goes up,
      though B sends nothing back. */
  lemma PlainDelivers(f: Frame, onA: Settings, onB: Settings, quiet: bool) returns (net: seq<Net>, moves: seq<Move>)
    requires Proper(f) && !Packet.RequiresAck(f)
    ensures EndToEnd.IsSession(f, net, moves) && net[0].quiet == quiet
    ensures net[|moves|].count == 1 && net[|moves|].ba == []
  {
    hide NetLeads, Under, Apply, Enabled, Packet.RequiresAck, Packet.HasSrc, Packet.IsAck, EndToEnd.IsSession;
    var n0 := Opening(f, onA, onB, quiet);
    var m1, n1 := Launch(f, n0, onA);
    var m2, n2 := Receives(f, n1, onB);
    var m3, n3 := GoesUp(f, n2);
    var m4, n4 := DeliversPlain(f, n3);
    NetOn(f, n0, m1, n1, m2, n2);
    NetOn(f, n0, m1 + m2, n2, m3, n3);
    NetOn(f, n0, m1 + m2 + m3, n3, m4, n4);
    var ms := m1 + m2 + m3 + m4;
    net := NetSession(f, [n0], [], ms, n4);
    moves := [] + ms;
    LastIndex(f, net, moves);
    assert net[0] == net[..1][0];
  }

  /** Without quiet third nodes success proves nothing: for every proper frame that asks for an ACK there is
      a session in which a third node's ACK makes the write return its length, while B is as freshly
      loaded as it was. So ExactlyOnce needs its hypothesis. */
  lemma QuietNeeded(f: Frame, onA: Settings, onB: Settings) returns (net: seq<Net>, moves: seq<Move>, k: nat)
    requires Proper(f) && Packet.RequiresAck(f)
    ensures EndToEnd.IsSession(f, net, moves) && !net[0].quiet && k + 1 == |moves|
    ensures moves[k] == AtA(WriteEnd(0), false) && Interface.Returns(net[k].a.iface) == |f|
    ensures net[k + 1].count == 0 && net[k + 1].b == Fresh(onB)
  {
    hide NetLeads, Under, Apply, Enabled, Packet.RequiresAck, Packet.HasSrc, Packet.IsAck, Carries, AckBody,
         EndToEnd.IsSession, Fresh;
    var n0 := Opening(f, onA, onB, false);
    var m1, n1 := SendToAir(f, n0, onA);
    var m2, n2 := HearAndSettle(f, n1, onA, false);
    NetOn(f, n0, m1, n1, m2, n2);
    var ms := [] + (m1 + m2);
    k := |ms|;
    net := NetSession(f, [n0], [], m1 + m2, n2);
    LastIndex(f, net, ms);
    var net3, n3 := Conclude(f, net, ms);
    moves := ms + [AtA(WriteEnd(0), false)];
    assert net3[k] == net3[..|net|][k];
    assert net3[0] == net3[..|net|][0] == net[..1][0];
    net := net3;
  }
}
