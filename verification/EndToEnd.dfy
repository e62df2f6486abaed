/** What two nodes achieve together over a channel that may lose frames. */
module EndToEnd {
  import opened Bytes
  import opened Stack
  import opened StackInv
  import opened StackSteps
  import opened Network
  import NodeSteps
  import Interface
  import Packet

  // ---------- every move keeps the invariant ----------

  /** What A puts on the air is an ACK or the write's frame. */
  lemma SendAB(f: Frame, n: Net, t: Step)
    requires Inv(n.a) && Transmits(n.a, t) && SideA(f, n.a, Got(f, n.b, n.count, n.quiet)) && AirAB(f, n.ab, n.stale)
    ensures AirAB(f, n.ab + [OnAir(n.a)], n.stale)
  {
    hide Inv, OnAir, Got, Packet.IsAck;
    NodeSteps.SendsFrameOrAck(n.a, t);
  }

  /** An ACK that A reads shows that B has the frame. */
  lemma ReadBA(f: Frame, n: Net, t: Step, air: bool)
    requires Proper(f) && NetInv(f, n) && Can(f, n, AtA(t, air)) && Reads(n.a, t) && AckFor(f, Arrived(t.bytes))
    ensures Got(f, n.b, n.count, n.quiet)
  {
    hide Inv, SideA, SideB, Arrived, Enabled, Copy, Answered;
    if air { NodeSteps.AirKeepsHeader(n.ba[0], Arrived(t.bytes)); }
  }

  /** What B reads cannot be mistaken. */
  lemma ReadAB(f: Frame, n: Net, t: Step, air: bool)
    requires Proper(f) && NetInv(f, n) && Can(f, n, AtB(t, air)) && Reads(n.b, t)
    ensures Class(f, Arrived(t.bytes), if air && n.stale > 0 then n.stale - 1 else n.stale, n.count, n.quiet)
  {
    hide Inv, SideA, Arrived, Got, Enabled, Packet.HasSrc, Known;
    var r := Arrived(t.bytes);
    if air {
      NodeSteps.AirKeepsHeader(n.ab[0], r);
      if n.stale == 0 && !Packet.IsAck(r) { NodeSteps.AirKeepsFrame(f, r); }
    }
  }

  lemma MoveAtA(f: Frame, n: Net, t: Step, air: bool)
    requires Proper(f) && NetInv(f, n) && Can(f, n, AtA(t, air))
    ensures NetInv(f, Do(f, n, AtA(t, air)))
  {
    hide Inv, SideA, SideB, Enabled, Apply, Got, AirAB, AckFor, Arrived, OnAir, Proper;
    var got := Got(f, n.b, n.count, n.quiet);
    if Reads(n.a, t) && AckFor(f, Arrived(t.bytes)) { ReadBA(f, n, t, air); }
    StepPreserves(n.a, t);
    NodeSteps.SideAStep(f, n.a, t, got);
    if Transmits(n.a, t) { SendAB(f, n, t); }
  }

  lemma MoveAtB(f: Frame, n: Net, t: Step, air: bool)
    requires Proper(f) && NetInv(f, n) && Can(f, n, AtB(t, air))
    ensures NetInv(f, Do(f, n, AtB(t, air)))
  {
    hide Inv, SideA, SideB, Enabled, Apply, Got, AckFor, Arrived, OnAir, Class, Filters, Transmits, Packet.IsAck,
         Packet.HasSrc;
    var n' := Do(f, n, AtB(t, air));
    StepPreserves(n.b, t);
    if Reads(n.b, t) { ReadAB(f, n, t, air); }
    NodeSteps.SideBStep(f, n.b, t, n.stale, n.count, n'.stale, n.quiet);
    GotA(f, n.a, Got(f, n.b, n.count, n.quiet), Got(f, n'.b, n'.count, n'.quiet));
    if Transmits(n.b, t) { SendBA(f, n, t); }
  }

  lemma GotA(f: Frame, a: State, got: bool, got': bool)
    requires SideA(f, a, got) && (got ==> got')
    ensures SideA(f, a, got')
  {
    hide AckFor, Heard;
  }

  /** B sends an ACK for the frame only when it has it. */
  lemma SendBA(f: Frame, n: Net, t: Step)
    requires Proper(f) && Inv(n.b) && SideB(f, n.b, n.stale, n.count, n.quiet) && Transmits(n.b, t)
    ensures AckFor(f, OnAir(n.b)) ==> Got(f, n.b, n.count, n.quiet)
  {
    hide Got, AckFor, OnAir, Known, Class, Transmit, Latched, Receive, RxMsgs, LogOk, SackTimer, LplTimer, Carried;
  }

  lemma LoseStale(f: Frame, b: State, stale: nat, stale': nat, count: nat, quiet: bool)
    requires Packet.HasSrc(f) && SideB(f, b, stale, count, quiet) && stale' <= stale
    ensures SideB(f, b, stale', count, quiet)
  {
    hide Got, AckFor, OnAir, Known, Held, OtherSource, Copy, Packet.IsAck, Packet.Dsn;
  }

  lemma MoveLose(f: Frame, n: Net, m: Move)
    requires Proper(f) && NetInv(f, n) && Can(f, n, m) && (m.LoseAB? || m.LoseBA?)
    ensures NetInv(f, Do(f, n, m))
  {
    hide Inv, SideA, SideB, Got, AckFor, Packet.IsAck;
    LoseStale(f, n.b, n.stale, Do(f, n, m).stale, n.count, n.quiet);
  }

  lemma MoveInv(f: Frame, n: Net, m: Move)
    requires Proper(f) && NetInv(f, n) && Can(f, n, m)
    ensures NetInv(f, Do(f, n, m))
  {
    hide NetInv, Can, Do;
    match m
    case AtA(t, air) => MoveAtA(f, n, t, air);
    case AtB(t, air) => MoveAtB(f, n, t, air);
    case _ => MoveLose(f, n, m);
  }

  // ---------- sessions ----------

  ghost predicate Reached(s: State)
  {
    exists run: seq<State>, steps: seq<Step> :: IsRun(run, steps) && run[|steps|] == s
  }

  /** A's write of f holds the write lock and B has not heard f: its filter last heard another number
      from that source, and nothing in flight or in B's receive chain has this one. When third nodes are
      quiet, no ACK with this number is in flight, on its way to the air, or in A's receive chain. */
  ghost predicate Start(f: Frame, n: Net)
    requires Packet.HasSrc(f)
  {
    && Reached(n.a) && Reached(n.b) && n.a.copying == [f] && n.count == 0 && !Known(f, n.b.nodes)
    && n.stale == |n.ab|
    && (forall i :: 0 <= i < |n.ab| ==>
          |n.ab[i]| >= 4 && (Packet.IsAck(n.ab[i]) || Packet.Dsn(n.ab[i]) != Packet.Dsn(f)))
    && (Holding(n.b.rxCalls) ==> OtherSource(f, Held(n.b), n.quiet) || Packet.Dsn(Held(n.b)) != Packet.Dsn(f))
    && (forall i :: 0 <= i < |n.b.copying| ==> !Packet.IsAck(n.b.copying[i]))
    && (forall i :: 0 <= i < |n.b.waiting| ==> !Packet.IsAck(n.b.waiting[i]))
    && (n.quiet ==>
          && (forall i :: 0 <= i < |n.ba| ==> !AckFor(f, n.ba[i]))
          && (Holding(n.a.rxCalls) ==> !AckFor(f, Held(n.a)))
          && (n.b.txMsgs == [MsgOff] ==> !AckFor(f, OnAir(n.b))))
  }

  ghost predicate IsSession(f: Frame, net: seq<Net>, moves: seq<Move>)
  {
    && Proper(f) && |net| == |moves| + 1 && Start(f, net[0])
    && forall i :: 0 <= i < |moves| ==> Can(f, net[i], moves[i]) && net[i + 1] == Do(f, net[i], moves[i])
  }

  /** Two freshly loaded drivers and a write that has just taken the write lock make a start. */
  lemma FreshStart(f: Frame, a: State, b: State, quiet: bool)
    requires Proper(f) && Init(a) && Init(b)
    ensures Start(f, Net(Apply(a, WriteBegin(f)), b, [], [], 0, 0, quiet))
  {
    hide Packet.IsAck, Packet.HasSrc, AckFor;
    var a' := Apply(a, WriteBegin(f));
    assert Reached(b) by { assert IsRun([b], []); }
    assert Reached(a') by { assert IsRun([a, a'], [WriteBegin(f)]); }
  }

  lemma ReachedInv(s: State)
    requires Reached(s)
    ensures Inv(s)
  {
    hide Inv;
    var run: seq<State>, steps: seq<Step> :| IsRun(run, steps) && run[|steps|] == s;
    RunInv(run, steps, |steps|);
  }

  lemma StartInv(f: Frame, n: Net)
    requires Proper(f) && Start(f, n)
    ensures NetInv(f, n)
  {
    hide Inv, Reached, Known, AckFor, OnAir, Packet.IsAck, Packet.HasSrc, OtherSource, Copy;
    ReachedInv(n.a);
    ReachedInv(n.b);
    assert n.a.waiting == [] by { OneWrite(n.a); }
    NodeSteps.HeldIsFrame(n.b);
  }

  lemma OneWrite(s: State)
    requires Inv(s) && s.copying != []
    ensures s.waiting == []
  {
    hide Transmit, Latched, Receive, RxMsgs, LogOk, SackTimer, LplTimer, Carried;
  }

  lemma {:induction false} SessionInv(f: Frame, net: seq<Net>, moves: seq<Move>, k: nat)
    requires IsSession(f, net, moves) && k < |net|
    ensures NetInv(f, net[k])
  {
    hide NetInv, Start, Can, Do, Proper;
    if k == 0 {
      StartInv(f, net[0]);
    } else {
      SessionInv(f, net, moves, k - 1);
      MoveInv(f, net[k - 1], moves[k - 1]);
    }
  }

  // ---------- what a session achieves ----------

  /** However often A retransmits, and whatever is lost, B's filter hands the frame up at most once. */
  lemma AtMostOnce(f: Frame, net: seq<Net>, moves: seq<Move>, k: nat)
    requires IsSession(f, net, moves) && k < |net|
    ensures net[k].count <= 1
  {
    hide Inv, Proper, Start, Can, Do;
    SessionInv(f, net, moves, k);
  }

  /** What B hands up under the write's source and number is the write's frame, byte for byte. */
  lemma DeliveredIntact(f: Frame, net: seq<Net>, moves: seq<Move>, k: nat)
    requires IsSession(f, net, moves) && k < |moves| && moves[k].AtB?
    requires Filters(net[k].b, moves[k].t) && HandsUp(f, net[k].b)
    ensures net[k + 1].count == 1 && net[k].b.sack.rxBuf[..|f|] == f
  {
    hide Inv, Start, SideA, SideB, HandsUp, Apply, Known;
    SessionInv(f, net, moves, k);
    SessionInv(f, net, moves, k + 1);
    AtMostOnce(f, net, moves, k + 1);
    var n := net[k];
    NodeSteps.UpIntact(f, n.b, moves[k].t, n.stale, n.count, n.quiet);
  }

  /** A copy of the frame that reaches B's filter leaves the frame handed up: now, or once before. */
  lemma CopyGoesUp(f: Frame, net: seq<Net>, moves: seq<Move>, k: nat)
    requires IsSession(f, net, moves) && k < |moves| && moves[k].AtB?
    requires Filters(net[k].b, moves[k].t) && Copy(f, Held(net[k].b))
    ensures net[k + 1].count == 1
  {
    hide Inv, Start, SideA, SideB, HandsUp, Apply, Known, Copy, Held;
    SessionInv(f, net, moves, k);
    var n := net[k];
    NodeSteps.FilterStep(f, n.b, moves[k].t, n.stale, n.count, n.quiet);
  }

  /** A write that is about to return its length has heard its ACK, so B has the frame. */
  lemma SuccessGot(f: Frame, n: Net)
    requires Proper(f) && NetInv(f, n) && EnabledWrite(n.a, WriteEnd(0))
    requires Packet.RequiresAck(f) && Interface.Returns(n.a.iface) == |f|
    ensures Got(f, n.b, n.count, n.quiet)
  {
    hide Got, Packet.RequiresAck, Transmit, Latched, Receive, RxMsgs, LogOk, SackTimer, LplTimer, CarriesBelow, Heard,
         Sent, Last, Replied;
  }

  /** Once B has the frame, it keeps it or hands it up. */
  lemma GotKept(f: Frame, n: Net, m: Move)
    requires Proper(f) && NetInv(f, n) && Can(f, n, m) && Got(f, n.b, n.count, n.quiet)
    ensures var n' := Do(f, n, m); Got(f, n'.b, n'.count, n'.quiet) && n'.quiet == n.quiet
  {
    hide Inv, SideA, SideB, Enabled, Apply, Got, AirAB, AckFor, Arrived, OnAir, Packet.HasSrc, Packet.IsAck;
    if m.AtB? { NodeSteps.GotStep(f, n.b, m.t, n.stale, n.count, n.quiet); }
  }

  lemma {:induction false} GotStays(f: Frame, net: seq<Net>, moves: seq<Move>, k: nat, j: nat)
    requires IsSession(f, net, moves) && k <= j < |net| && Got(f, net[k].b, net[k].count, net[k].quiet)
    ensures Got(f, net[j].b, net[j].count, net[j].quiet) && net[j].quiet == net[k].quiet
  {
    hide NetInv, Start, Can, Do, Proper, Got;
    if k < j {
      GotStays(f, net, moves, k, j - 1);
      SessionInv(f, net, moves, j - 1);
      GotKept(f, net[j - 1], moves[j - 1]);
    }
  }

  lemma {:induction false} QuietStays(f: Frame, net: seq<Net>, moves: seq<Move>, k: nat)
    requires IsSession(f, net, moves) && k < |net|
    ensures net[k].quiet == net[0].quiet
  {
    hide Start, Can, Proper, Apply, OnAir, HandsUp;
    if k > 0 { QuietStays(f, net, moves, k - 1); }
  }

  /** When the write returns its length for a frame that asks for an ACK, and no third node interferes,
      B has handed the frame up once, or its receive chain holds it past the ACK; and so it stays.
      (Delivery.SuccessIsDelivered: from there it is handed up.) */
  lemma ExactlyOnce(f: Frame, net: seq<Net>, moves: seq<Move>, k: nat, j: nat)
    requires IsSession(f, net, moves) && k < j < |net| && net[0].quiet
    requires moves[k].AtA? && moves[k].t == WriteEnd(0)
    requires Packet.RequiresAck(f) && Interface.Returns(net[k].a.iface) == |f|
    ensures net[j].count == 1 || (net[j].count == 0 && Answered(net[j].b.rxCalls) && Copy(f, Held(net[j].b)))
  {
    hide Inv, NetInv, Proper, Start, Do, Apply;
    SessionInv(f, net, moves, k);
    SuccessGot(f, net[k]);
    GotStays(f, net, moves, k, j);
    QuietStays(f, net, moves, k);
    AtMostOnce(f, net, moves, j);
  }
}
