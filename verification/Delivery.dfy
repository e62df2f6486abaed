/** A frame that node B has answered reaches B's filter by B's own steps. */
module Delivery {
  import opened Bytes
  import opened Stack
  import opened StackInv
  import opened Token
  import opened Network
  import EndToEnd
  import Interface
  import NodeSteps
  import Ownership
  import Packet
  import Progress
  import Sessions
  import Termination
  import Unique

  /** cc2520_radio_tx has been called on the ACK and has not returned. */
  predicate AckPending(b: State) { exists i :: 0 <= i < |b.low| && OnAck(b.low[i]) }

  /** How far the ACK below and the configuration thread it may wait for are from their end. */
  function Ahead(b: State): nat { Termination.LowRank(LowWhere(b)) + Progress.CfgRank(b.cfgs) }

  /** B's chain holds the write's frame past its ACK, and the frame is not up yet. */
  ghost predicate Waits(f: Frame, n: Net)
    requires Packet.HasSrc(f)
  {
    NetInv(f, n) && n.count == 0 && Answered(n.b.rxCalls) && Copy(f, Held(n.b))
  }

  lemma AckFacts(b: State)
    requires Inv(b) && AckPending(b)
    ensures b.sack.state.TxAck? && !LowWhere(b).Nowhere?
  {
    hide Latched, Receive, RxMsgs, LogOk, SackTimer, LplTimer, Carried;
  }

  /** A step that LowProceeds picks leaves the chain alone and brings the ACK nearer to its end. */
  lemma PickedStep(b: State, t: Step)
    requires Inv(b) && Enabled(b, t) && AckPending(b)
    requires OwnLow(b, t) || t.CfgDone? || t.CfgUnlock?
    ensures var b' := Apply(b, t);
            && b'.rxCalls == b.rxCalls && Held(b') == Held(b) && b'.sack.rxBuf == b.sack.rxBuf
            && Ahead(b') < Ahead(b)
  {
    hide Inv, Enabled, Apply, LowWhere, Termination.LowRank, Held, Ownership.FillsTx;
    AckFacts(b);
    assert |b.txMsgs| <= 1 by { OneMessage(b); }
    Ownership.FramesHold(b, t);
    NodeSteps.HeldSame(b, Apply(b, t));
    if OwnLow(b, t) {
      Termination.TransmissionFalls(b, t);
      Progress.LowKeeps(b, t);
    } else {
      CfgFalls(b, t);
    }
  }

  lemma OneMessage(b: State)
    requires Inv(b)
    ensures |b.txMsgs| <= 1 && |b.cfgs| <= 1 && |b.rxCalls| <= 1
  {
    hide Transmit, Latched, Receive, RxMsgs, LogOk, SackTimer, LplTimer, Carried;
  }

  lemma CfgFalls(b: State, t: Step)
    requires Inv(b) && Enabled(b, t) && (t.CfgDone? || t.CfgUnlock?)
    ensures Ahead(Apply(b, t)) < Ahead(b)
  {
    hide Transmit, Latched, Receive, RxMsgs, LogOk, SackTimer, LplTimer, Carried, Termination.LowRank;
    assert LowWhere(Apply(b, t)) == LowWhere(b);
  }

  /** The move of B that this step makes. */
  lemma MoveOfB(f: Frame, n: Net, t: Step)
    requires Packet.HasSrc(f) && Enabled(n.b, t) && (OwnLow(n.b, t) || t.CfgDone? || t.CfgUnlock?)
    ensures Can(f, n, AtB(t, false))
    ensures var n' := Do(f, n, AtB(t, false)); n'.b == Apply(n.b, t) && n'.a == n.a && n'.count == n.count
  {
    hide Enabled, Apply, Packet.HasSrc, OtherSource;
  }

  /** The ACK goes out. */
  lemma {:induction false} AckReturns(f: Frame, n: Net) returns (ms: seq<Move>, n': Net)
    requires Proper(f) && Waits(f, n)
    ensures Sessions.NetLeads(f, n, ms, n') && Waits(f, n') && !AckPending(n'.b) && n'.a == n.a
    ensures |ms| <= Ahead(n.b)
    decreases Ahead(n.b)
  {
    hide Inv, Enabled, Apply, Can, Do, SideA, SideB, AirAB, AirBA, AckPending, Ahead, Copy, Held, Packet.HasSrc,
         Packet.IsAck;
    if AckPending(n.b) {
      AckFacts(n.b);
      var t := Termination.LowProceeds(n.b);
      var m := AtB(t, false);
      MoveOfB(f, n, t);
      EndToEnd.MoveInv(f, n, m);
      PickedStep(n.b, t);
      var rest;
      rest, n' := AckReturns(f, Do(f, n, m));
      ms := [m] + rest;
      assert ms[1..] == rest;
    } else {
      ms, n' := [], n;
    }
  }

  /** The chain goes on to the filter. */
  lemma GoesOn(f: Frame, n: Net) returns (ms: seq<Move>, n': Net)
    requires Proper(f) && Waits(f, n) && !AckPending(n.b)
    ensures Sessions.NetLeads(f, n, ms, n') && Waits(f, n') && n'.b.rxCalls == [RxUp] && n'.a == n.a
    ensures |ms| <= 1
  {
    hide Inv, SideA, SideB, AirAB, AirBA, Copy, Held, Packet.HasSrc, Packet.IsAck, OtherSource, AckFor;
    OneMessage(n.b);
    if n.b.rxCalls[0].Acking? {
      ms, n' := Sessions.NetThen(f, n, [], n, AtB(Rx(0, true), false));
      EndToEnd.MoveInv(f, n, AtB(Rx(0, true), false));
      NodeSteps.HeldSame(n.b, n'.b);
    } else {
      ms, n' := [], n;
    }
  }

  lemma FilterMove(f: Frame, n: Net) returns (ms: seq<Move>, n': Net)
    requires Proper(f) && Waits(f, n) && n.b.rxCalls == [RxUp]
    ensures Sessions.NetLeads(f, n, ms, n') && n'.count == 1 && n'.a == n.a && |ms| == 1
  {
    hide Inv, SideA, SideB, AirAB, AirBA, Copy, Held, Packet.HasSrc, Packet.IsAck, OtherSource, AckFor, HandsUp,
         Unique.OnRx, Packet.GetSrc;
    ms, n' := Sessions.NetThen(f, n, [], n, AtB(Rx(0, true), false));
    NodeSteps.FilterStep(f, n.b, Rx(0, true), n.stale, n.count, n.quiet);
  }

  lemma AheadBounded(b: State)
    ensures Ahead(b) <= 19
  {
  }

  /** A frame held past its ACK goes up: at most 21 moves of B's own lead there. */
  lemma HandsUpNext(f: Frame, n: Net) returns (ms: seq<Move>, n': Net)
    requires Proper(f) && Waits(f, n)
    ensures Sessions.NetLeads(f, n, ms, n') && n'.count == 1 && n'.a == n.a && |ms| <= 21
  {
    hide Waits, Sessions.NetLeads, Packet.HasSrc, Packet.IsAck, AckPending, Ahead;
    AheadBounded(n.b);
    var m1, n1 := AckReturns(f, n);
    var m2, n2 := GoesOn(f, n1);
    var m3, n3 := FilterMove(f, n2);
    Sessions.NetOn(f, n, m1, n1, m2, n2);
    Sessions.NetOn(f, n, m1 + m2, n2, m3, n3);
    ms, n' := m1 + m2 + m3, n3;
  }

  // ---------- a frame that asks for no ACK ----------

  /** B's chain holds the write's frame, which asks for no ACK, and the frame is not up yet. */
  ghost predicate Plain(f: Frame, n: Net)
    requires Packet.HasSrc(f)
  {
    && NetInv(f, n) && n.count == 0 && Holding(n.b.rxCalls) && Copy(f, Held(n.b)) && !Packet.RequiresAck(f)
  }

  /** How many calls the chain has still to make. */
  function CallsLeft(c: RxCall): nat
  {
    match c case Finish(_) => 4 case AtSack(_) => 3 case SackLock => 2 case _ => 1
  }

  /** The next call of a chain that holds a frame which asks for no ACK. */
  lemma PlainStep(f: Frame, b: State)
    requires Proper(f) && Inv(b) && Holding(b.rxCalls) && Copy(f, Held(b)) && !Packet.RequiresAck(f)
    requires !b.rxCalls[0].RxUp?
    ensures EnabledRx(b, Rx(0, true)) && !b.rxCalls[0].Acking?
    ensures var c := ApplyRx(b, Rx(0, true)).rxCalls; Holding(c) && CallsLeft(c[0]) < CallsLeft(b.rxCalls[0])
  {
    hide Transmit, Latched, RxMsgs, LogOk, SackTimer, LplTimer, Carried, Last, Replied, Packet.HasSrc, Packet.IsAck,
         Packet.RequiresAck, Packet.CreateAck, Held, Memcpy;
    OneMessage(b);
    if b.rxCalls[0].SackLock? || b.rxCalls[0].Acking? {
      NodeSteps.HeldHeader(b);
      Packet.SameHeader(f, Held(b), |f|);
    }
  }

  lemma PlainMove(f: Frame, n: Net) returns (ms: seq<Move>, n': Net)
    requires Proper(f) && Plain(f, n) && !n.b.rxCalls[0].RxUp?
    ensures Sessions.NetLeads(f, n, ms, n') && Plain(f, n') && n'.a == n.a && |ms| == 1
    ensures CallsLeft(n'.b.rxCalls[0]) < CallsLeft(n.b.rxCalls[0])
  {
    hide Inv, SideA, SideB, AirAB, AirBA, Copy, Held, Packet.HasSrc, Packet.IsAck, OtherSource, AckFor, CallsLeft,
         Packet.RequiresAck, Apply, ApplyRx, Enabled, EnabledRx;
    var t := Rx(0, true);
    PlainStep(f, n.b);
    RxMove(f, n);
    ms, n' := Sessions.NetThen(f, n, [], n, AtB(t, false));
    EndToEnd.MoveInv(f, n, AtB(t, false));
    NodeSteps.StepFacts(n.b, t);
  }

  lemma RxMove(f: Frame, n: Net)
    requires Packet.HasSrc(f) && EnabledRx(n.b, Rx(0, true)) && n.b.rxCalls != [] && !n.b.rxCalls[0].RxUp?
    ensures Enabled(n.b, Rx(0, true)) && Apply(n.b, Rx(0, true)) == ApplyRx(n.b, Rx(0, true))
    ensures Can(f, n, AtB(Rx(0, true), false))
    ensures var n' := Do(f, n, AtB(Rx(0, true), false));
            n'.a == n.a && n'.count == n.count && n'.b == ApplyRx(n.b, Rx(0, true))
  {
    hide ApplyRx, OtherSource, Packet.HasSrc;
  }

  /** A frame that asks for no ACK goes up from wherever B's chain holds it: at most four moves of B's own
      lead there, two from soft-ACK's decision, and none of them waits for anything. */
  lemma {:induction false} PlainGoesUp(f: Frame, n: Net) returns (ms: seq<Move>, n': Net)
    requires Proper(f) && Plain(f, n)
    ensures Sessions.NetLeads(f, n, ms, n') && n'.count == 1 && n'.a == n.a
    ensures |ms| <= CallsLeft(n.b.rxCalls[0]) <= 4
    decreases CallsLeft(n.b.rxCalls[0])
  {
    hide Inv, SideA, SideB, AirAB, AirBA, Copy, Held, Packet.HasSrc, Packet.IsAck, Packet.RequiresAck, Can, Do,
         Sessions.NetLeads;
    OneMessage(n.b);
    if n.b.rxCalls[0].RxUp? {
      ms, n' := FilterMove(f, n);
    } else {
      var m1, n1 := PlainMove(f, n);
      var m2;
      m2, n' := PlainGoesUp(f, n1);
      Sessions.NetOn(f, n, m1, n1, m2, n');
      ms := m1 + m2;
    }
  }

  // ---------- after a successful write ----------

  /** After a write has returned its length for a frame that asks for an ACK, third nodes being quiet, from
      every later state of the session at most 21 moves of B's own lead to the one hand-up. */
  lemma SuccessIsDelivered(f: Frame, net: seq<Net>, moves: seq<Move>, k: nat, j: nat) returns (ms: seq<Move>, n': Net)
    requires EndToEnd.IsSession(f, net, moves) && k < j < |net| && net[0].quiet
    requires moves[k].AtA? && moves[k].t == WriteEnd(0)
    requires Packet.RequiresAck(f) && Interface.Returns(net[k].a.iface) == |f|
    ensures Sessions.NetLeads(f, net[j], ms, n') && n'.count == 1 && n'.a == net[j].a && |ms| <= 21
  {
    hide NetInv, EndToEnd.Start, Can, Do, Apply, Packet.HasSrc, Packet.IsAck, Copy, Held, Answered;
    EndToEnd.ExactlyOnce(f, net, moves, k, j);
    EndToEnd.SessionInv(f, net, moves, j);
    if net[j].count == 0 {
      ms, n' := HandsUpNext(f, net[j]);
    } else {
      ms, n' := [], net[j];
    }
  }
}
