/** What one step of a node does to the session of a write, seen from the sender and the receiver. */
module NodeSteps {
  import opened Bytes
  import opened Bags
  import opened Stack
  import opened StackInv
  import opened Network
  import opened Ownership
  import Packet
  import Theorems
  import Sack
  import Unique

  /** The bytes that matter for recognising an ACK survive the air. */
  lemma AirKeepsHeader(sent: seq<u8>, r: seq<u8>)
    requires Carries(sent, r)
    ensures |r| >= 4 && |sent| >= 4 && Packet.IsAck(r) == Packet.IsAck(sent) && Packet.Dsn(r) == Packet.Dsn(sent)
  {
    Packet.SameHeader(sent, r, sent[0] - 1);
  }

  /** A proper frame arrives whole. */
  lemma AirKeepsFrame(f: Frame, r: seq<u8>)
    requires Carries(f, r) && Proper(f)
    ensures Copy(f, r)
  {
  }

  lemma NotHeardLow(s: State, i: nat, d: u8)
    requires EnabledLow(s, i)
    ensures Heard(ApplyLow(s, i).log, d) == Heard(s.log, d)
  {
    hide Memcpy, Packet.RequiresAck;
    if s.low[i].RadioCopy? { Append(s.log, ApplyLow(s, i).log[|s.log|]); }
  }

  lemma NotHeardTx(s: State, t: Step, d: u8)
    requires EnabledTx(s, t)
    ensures Heard(ApplyTx(s, t).log, d) == Heard(s.log, d)
  {
    hide Memcpy;
    if t.TxDone? && s.txMsgs[t.i].MsgOff? { Append(s.log, ApplyTx(s, t).log[|s.log|]); }
  }

  lemma NotHeardWrite(s: State, t: Step, d: u8)
    requires EnabledWrite(s, t)
    ensures Heard(ApplyWrite(s, t).log, d) ==> Heard(s.log, d)
  {
    hide Memcpy;
    if t.WriteCopy? || t.WriteEnd? { Append(s.log, ApplyWrite(s, t).log[|s.log|]); }
  }

  lemma NotHeardRx(s: State, t: Step, d: u8)
    requires EnabledRx(s, t) && t.Rx?
    ensures Heard(ApplyRx(s, t).log, d) ==>
              Heard(s.log, d)
              || (s.rxCalls[t.i].SackLock? && Packet.IsAck(s.sack.rxBuf) && Packet.Dsn(s.sack.rxBuf) == d)
  {
    hide Memcpy, Unique.OnRx, Packet.GetSrc, Packet.HasSrc, Packet.RequiresAck, Packet.CreateAck, Packet.IsAck,
         Packet.Fcf;
    var c := s.rxCalls[t.i];
    if c.SackLock? {
      Append(s.log, Received(s.sack.rxBuf));
      if Sack.OnRx(s.sack).1.Acked? { Append(s.log + [Received(s.sack.rxBuf)], AckHeard(s.sack.rxBuf)); }
    } else if c.RxUp? {
      Append(s.log, ApplyRx(s, t).log[|s.log|]);
    }
  }

  lemma HeldHeader(s: State)
    requires Inv(s) && s.rxCalls != [] && (s.rxCalls[0].SackLock? || Answered(s.rxCalls))
    ensures |Held(s)| == s.sack.rxLen <= PKT_BUFF_SIZE && s.sack.rxBuf[..s.sack.rxLen] == Held(s)
    ensures Packet.IsAck(Held(s)) == Packet.IsAck(s.sack.rxBuf) && Packet.Dsn(Held(s)) == Packet.Dsn(s.sack.rxBuf)
    ensures Packet.RequiresAck(Held(s)) == Packet.RequiresAck(s.sack.rxBuf)
  {
    hide Transmit, Latched, RxMsgs, LogOk, SackTimer, LplTimer, Carried, Last, Replied;
    Packet.SameHeader(Held(s), s.sack.rxBuf, s.sack.rxLen);
  }

  lemma NotHeardElse(s: State, t: Step, d: u8)
    requires Enabled(s, t) && !t.Low? && !t.Rx? && !EnabledTx(s, t) && !EnabledWrite(s, t) && |s.txMsgs| <= 1
    ensures Apply(s, t).log == s.log
  {
    hide Apply, FillsTx, UsesRx;
    FramesHold(s, t);
  }

  /** An ACK wait is ended only by an ACK that the receive chain holds. */
  lemma HeardFromChain(s: State, t: Step, d: u8)
    requires Inv(s) && Enabled(s, t) && Heard(Apply(s, t).log, d) && !Heard(s.log, d)
    ensures Holding(s.rxCalls) && Packet.IsAck(Held(s)) && Packet.Dsn(Held(s)) == d
  {
    hide Transmit, Latched, RxMsgs, LogOk, SackTimer, LplTimer, Carried, Last, Replied, Receive, Heard, Held;
    hide ApplyUp, ApplyLow, ApplyTx, ApplyRx, ApplyTimer, ApplyWrite, Packet.IsAck, Packet.Dsn;
    if t.Low? {
      NotHeardLow(s, t.i, d);
    } else if EnabledTx(s, t) {
      NotHeardTx(s, t, d);
    } else if EnabledWrite(s, t) {
      NotHeardWrite(s, t, d);
    } else if t.Rx? {
      NotHeardRx(s, t, d);
      HeldHeader(s);
    } else {
      NotHeardElse(s, t, d);
    }
  }

  // ---------- what a step does to the chain ----------

  predicate ChainMoves(s: State, t: Step, s': State)
  {
    && (Holding(s'.rxCalls) ==>
          if Holding(s.rxCalls) then Held(s') == Held(s) else Reads(s, t) && Held(s') == Arrived(t.bytes))
    && (Holding(s.rxCalls) && !Holding(s'.rxCalls) ==> t.Rx? && (s.rxCalls[0].SackLock? || s.rxCalls[0].RxUp?))
    && (Answered(s'.rxCalls) && !Answered(s.rxCalls) ==> t.Rx? && s.rxCalls[0].SackLock?)
    && (Answered(s.rxCalls) && !Answered(s'.rxCalls) ==> Filters(s, t))
    && (Filters(s, t) ==> !Holding(s'.rxCalls))
  }

  /** The chain moves on: it reads a frame, keeps the one it holds, or lets go of it. */
  lemma ChainStep(s: State, t: Step)
    requires Inv(s) && Enabled(s, t)
    ensures ChainMoves(s, t, Apply(s, t))
  {
    hide Transmit, Latched, LogOk, SackTimer, LplTimer, Carried, Last, Replied, Heard, FillsTx, Memcpy, Receive;
    hide ApplyUp, ApplyLow, ApplyTx, ApplyTimer, ApplyWrite;
    FramesHold(s, t);
    if EnabledRx(s, t) && !t.Up? && !t.Low? {
      if t.RxDone? { ChainRxDone(s, t); } else if t.Rx? { ChainRx(s, t); }
    }
  }

  lemma ChainRxDone(s: State, t: Step)
    requires EnabledRx(s, t) && t.RxDone? && |s.rxMsgs| + |s.rxCalls| <= 1 && RxMsgs(s.rxMsgs)
    ensures ChainMoves(s, t, ApplyRx(s, t))
  {
    assert s.rxCalls == [];
  }

  lemma ChainRx(s: State, t: Step)
    requires EnabledRx(s, t) && t.Rx? && |s.rxCalls| <= 1
    ensures ChainMoves(s, t, ApplyRx(s, t))
  {
    hide Memcpy, Unique.OnRx, Packet.GetSrc, Packet.HasSrc, Packet.RequiresAck, Packet.CreateAck, Packet.IsAck,
         Packet.Fcf, Sack.OnRx, Held;
    assert t.i == 0;
    match s.rxCalls[0]
    case Begin => assert ChainMoves(s, t, ApplyRx(s, t));
    case Finish(_) => assert ChainMoves(s, t, ApplyRx(s, t)) by { HeldSame(s, ApplyRx(s, t)); }
    case AtSack(_) => assert ChainMoves(s, t, ApplyRx(s, t)) by { HeldSame(s, ApplyRx(s, t)); }
    case SackLock => assert ChainMoves(s, t, ApplyRx(s, t)) by { HeldSame(s, ApplyRx(s, t)); }
    case Acking => assert ChainMoves(s, t, ApplyRx(s, t)) by { HeldSame(s, ApplyRx(s, t)); }
    case RxUp => assert ChainMoves(s, t, ApplyRx(s, t)) by { HeldSame(s, ApplyRx(s, t)); }
    case AfterUp => assert ChainMoves(s, t, ApplyRx(s, t));
  }

  lemma HeldSame(s: State, s': State)
    requires s'.radio.rxIn == s.radio.rxIn
    ensures Held(s') == Held(s)
  {
  }

  // ---------- node A ----------

  lemma StartForgets(s: State, t: Step, d: u8)
    requires EnabledWrite(s, t) && t.WriteCopy?
    ensures !Heard(ApplyWrite(s, t).log, d)
  {
    Append(s.log, Started(s.copying[t.i]));
  }

  lemma SideAStep(f: Frame, s: State, t: Step, got: bool)
    requires Inv(s) && SideA(f, s, got) && Enabled(s, t) && !t.WriteBegin? && !t.WriteFault?
    requires Reads(s, t) && AckFor(f, Arrived(t.bytes)) ==> got
    ensures SideA(f, Apply(s, t), got)
  {
    hide Counts, Transmit, Latched, LogOk, SackTimer, LplTimer, Carried, Last, Replied, Heard, FillsTx, UsesRx,
         Receive, RxMsgs, AckFor, Held;
    hide ApplyUp, ApplyLow, ApplyTx, ApplyRx, ApplyTimer, Packet.IsAck, Packet.Dsn;
    StepFacts(s, t);
    if EnabledWrite(s, t) && !t.Up? && !t.Low? {
      if t.WriteCopy? { StartForgets(s, t, Packet.Dsn(f)); }
      WriteFacts(s, t);
    } else if Heard(Apply(s, t).log, Packet.Dsn(f)) && !Heard(s.log, Packet.Dsn(f)) {
      HeardFromChain(s, t, Packet.Dsn(f));
      assert AckFor(f, Held(s)) by { HeldIsFrame(s); IsAckFor(f, Held(s)); }
    }
  }

  lemma IsAckFor(f: Frame, x: seq<u8>)
    requires |x| >= 4 && Packet.IsAck(x) && Packet.Dsn(x) == Packet.Dsn(f)
    ensures AckFor(f, x)
  {
  }

  lemma HeldIsFrame(s: State)
    ensures |Held(s)| >= 4
  {
  }

  lemma WriteFacts(s: State, t: Step)
    requires EnabledWrite(s, t) && |s.copying| + |s.waiting| <= 1 && (t.WriteCopy? || t.WriteEnd?)
    ensures var s' := ApplyWrite(s, t);
            && s'.copying == [] && s'.waiting == (if t.WriteCopy? then s.copying else [])
            && s'.rxCalls == s.rxCalls && s'.radio == s.radio
  {
  }

  lemma StepFacts(s: State, t: Step)
    requires Inv(s) && Enabled(s, t)
    ensures ChainMoves(s, t, Apply(s, t)) && Frames(s, t, Apply(s, t))
  {
    hide Transmit, Latched, LogOk, SackTimer, LplTimer, Carried, Last, Replied, Heard, Receive, RxMsgs, Frames,
         ChainMoves, Apply, Enabled;
    ChainStep(s, t);
    FramesHold(s, t);
  }

  /** What a node puts on the air is its write's frame or an ACK. */
  lemma SendsFrameOrAck(s: State, t: Step)
    requires Inv(s) && Transmits(s, t)
    ensures var x := OnAir(s); |x| >= 4 && (Packet.IsAck(x) || (s.waiting != [] && x == s.waiting[0]))
  {
    hide RxMsgs, SackTimer, LplTimer, Heard, Sent, Receive, CarriesAbove, Packet.RequiresAck;
    if s.sack.state.TxAck? {
      var i := Theorems.LastAt(s.log, AnyHanded);
      assert EventOk(s.log[..i], s.log[i], On(s));
      var x := OnAir(s);
      assert x[1] == x[..4][1] && x[2] == x[..4][2];
    }
  }

  // ---------- node B ----------

  /** A buffer that starts with a frame carrying its whole source has that frame's key. */
  lemma SameSource(x: seq<u8>, y: seq<u8>)
    requires 4 <= |x| <= |y| && y[..|x|] == x && Packet.HasSrc(x) && Packet.HasSrc(y)
    ensures Packet.GetSrc(y) == Packet.GetSrc(x)
  {
    Packet.SameHeader(x, y, |x|);
    var o, w := Packet.SrcOffset(Packet.Fcf(x)), Packet.SrcWidth(Packet.Fcf(x));
    if w > 0 {
      assert x[o .. o + w] == y[..|x|][o .. o + w] == y[o .. o + w];
    }
  }

  /** The filter, fed the write's frame, a frame from another source, or, before the write's frame has
      come, one with another number. */
  lemma FilterCounts(f: Frame, nodes: seq<Unique.Entry>, src: nat, dsn: u8, count: nat)
    requires Packet.HasSrc(f) && Unique.Distinct(nodes) && count <= 1 && (count == 1 <==> Known(f, nodes))
    requires src == Packet.GetSrc(f) && dsn != Packet.Dsn(f) ==> count == 0
    ensures var (l, up) := Unique.OnRx(nodes, src, dsn, true);
            var ours := src == Packet.GetSrc(f) && dsn == Packet.Dsn(f);
            var count' := count + B(ours && up);
            count' <= 1 && (count' == 1 <==> Known(f, l)) && (ours ==> count' == 1)
  {
    hide Packet.GetSrc, Packet.Dsn, Packet.HasSrc;
    Unique.RefinesMap(nodes, src, dsn, true);
  }

  /** What reaches the filter, told apart by source and number. */
  lemma Reaches(f: Frame, s: State, stale: nat, count: nat, quiet: bool)
    requires Proper(f) && Inv(s) && SideB(f, s, stale, count, quiet) && s.rxCalls != [] && s.rxCalls[0].RxUp?
    ensures Packet.HasSrc(s.sack.rxBuf)
    ensures var src, dsn := Packet.GetSrc(s.sack.rxBuf), Packet.Dsn(s.sack.rxBuf);
            && (src == Packet.GetSrc(f) && dsn != Packet.Dsn(f) ==> count == 0)
            && (src == Packet.GetSrc(f) && dsn == Packet.Dsn(f) ==> stale == 0)
            && (Copy(f, Held(s)) <==> src == Packet.GetSrc(f) && dsn == Packet.Dsn(f))
  {
    hide Transmit, Latched, LogOk, SackTimer, LplTimer, Carried, Last, Replied, Heard, RxMsgs, Held, Packet.HasSrc,
         Packet.IsAck, Packet.RequiresAck, Packet.Fcf, Known;
    var rx, r := s.sack.rxBuf, Held(s);
    HeldHeader(s);
    WholeBufferHasSrc(rx);
    if Copy(f, r) {
      assert rx[..|f|] == rx[..s.sack.rxLen][..|f|];
      SameSource(f, rx);
      Packet.SameHeader(f, rx, |f|);
      Packet.SameHeader(f, r, |f|);
      if Packet.HasSrc(r) { SameSource(f, r); }
    } else if OtherSource(f, r, quiet) {
      SameSource(r, rx);
    }
  }

  /** The filter's step: it hands the write's frame up at most once. */
  lemma FilterStep(f: Frame, s: State, t: Step, stale: nat, count: nat, quiet: bool)
    requires Proper(f) && Inv(s) && SideB(f, s, stale, count, quiet) && EnabledRx(s, t) && Filters(s, t) && t.flag
    ensures var s' := ApplyRx(s, t); var count' := count + B(HandsUp(f, s));
            && count' <= 1 && (count' == 1 ==> stale == 0) && (count' == 1 <==> Known(f, s'.nodes))
            && (Copy(f, Held(s)) ==> count' == 1)
  {
    hide Transmit, Latched, LogOk, SackTimer, LplTimer, Carried, Last, Replied, Heard, RxMsgs, Held, Packet.HasSrc,
         Packet.GetSrc, Packet.Dsn, Known, Unique.OnRx, Receive;
    Reaches(f, s, stale, count, quiet);
    FilterCounts(f, s.nodes, Packet.GetSrc(s.sack.rxBuf), Packet.Dsn(s.sack.rxBuf), count);
  }

  /** What the filter hands up under f's key and number starts with f. */
  lemma UpIntact(f: Frame, s: State, t: Step, stale: nat, count: nat, quiet: bool)
    requires Proper(f) && Inv(s) && SideB(f, s, stale, count, quiet) && EnabledRx(s, t) && Filters(s, t)
    requires HandsUp(f, s)
    ensures s.sack.rxBuf[..|f|] == f
  {
    hide Transmit, Latched, LogOk, SackTimer, LplTimer, Carried, Last, Replied, Heard, RxMsgs, Held, Packet.HasSrc,
         Packet.GetSrc, Packet.Dsn, Known, Unique.OnRx, Receive, SideB;
    Reaches(f, s, stale, count, quiet);
    HeldHeader(s);
    assert s.sack.rxBuf[..|f|] == s.sack.rxBuf[..s.sack.rxLen][..|f|];
  }

  lemma WholeBufferHasSrc(b: Buffer)
    ensures Packet.HasSrc(b)
  {
  }

  /** The radio copies in the ACK of the frame the chain holds, or a frame that is no ACK. */
  lemma CopyStep(f: Frame, s: State, i: nat, stale: nat, count: nat, quiet: bool)
    requires Proper(f) && Inv(s) && SideB(f, s, stale, count, quiet) && EnabledLow(s, i) && s.low[i].RadioCopy?
    ensures AckFor(f, OnAir(ApplyLow(s, i))) ==> Got(f, s, count, quiet)
  {
    hide Latched, LogOk, SackTimer, LplTimer, Last, Replied, Heard, RxMsgs, Held, CarriesAbove, Known, Packet.HasSrc;
    var x := OnAir(ApplyLow(s, i));
    if s.low[i].ack {
      assert x == s.sack.ackBuf[..];
      HeldHeader(s);
      assert x[3] == x[..4][3];
    } else {
      assert x == s.waiting[0];
    }
  }

  /** Moving a frame into the write call does not make it an ACK. */
  lemma WritersStep(s: State, t: Step)
    requires Counts(s) && EnabledWrite(s, t) && (t.WriteBegin? ==> !Packet.IsAck(t.f))
    requires forall i :: 0 <= i < |s.copying| ==> !Packet.IsAck(s.copying[i])
    requires forall i :: 0 <= i < |s.waiting| ==> !Packet.IsAck(s.waiting[i])
    ensures var s' := ApplyWrite(s, t);
            && (forall i :: 0 <= i < |s'.copying| ==> !Packet.IsAck(s'.copying[i]))
            && (forall i :: 0 <= i < |s'.waiting| ==> !Packet.IsAck(s'.waiting[i]))
            && s'.rxCalls == s.rxCalls && s'.nodes == s.nodes && s'.txMsgs == s.txMsgs && s'.radio == s.radio
  {
    hide Memcpy, Packet.IsAck;
  }

  /** The radio's buffer goes on air as it was, unless this step filled it. */
  lemma AirStep(s: State, t: Step)
    requires Enabled(s, t) && Frames(s, t, Apply(s, t)) && Apply(s, t).txMsgs == [MsgOff]
    ensures (t.Low? && t.i < |s.low| && s.low[t.i].RadioCopy?)
            || (s.txMsgs == [MsgOff] && OnAir(Apply(s, t)) == OnAir(s))
  {
    hide Apply, Enabled;
  }

  lemma FilterMoves(f: Frame, s: State, t: Step, stale: nat, count: nat, quiet: bool)
    requires Proper(f) && Inv(s) && SideB(f, s, stale, count, quiet) && Enabled(s, t) && Filters(s, t) && t.flag
    ensures var s' := Apply(s, t); var count' := count + B(HandsUp(f, s));
            && count' <= 1 && (count' == 1 ==> stale == 0) && (count' == 1 <==> Known(f, s'.nodes))
            && (Got(f, s, count, quiet) ==> Got(f, s', count', quiet))
  {
    hide Transmit, Latched, LogOk, SackTimer, LplTimer, Carried, Last, Replied, Heard, Receive, RxMsgs, Class, Known,
         AckFor, HandsUp, Held, Copy, OnAir, ApplyRx;
    FilterStep(f, s, t, stale, count, quiet);
  }

  lemma SideBCounts(f: Frame, s: State, stale: nat, count: nat, quiet: bool)
    requires Packet.HasSrc(f) && SideB(f, s, stale, count, quiet)
    ensures count <= 1 && (count == 1 ==> stale == 0) && (count == 1 <==> Known(f, s.nodes))
  {
  }

  lemma GotStep(f: Frame, s: State, t: Step, stale: nat, count: nat, quiet: bool)
    requires Proper(f) && Inv(s) && SideB(f, s, stale, count, quiet) && Enabled(s, t) && (Filters(s, t) ==> t.flag)
    ensures var s' := Apply(s, t); var count' := count + B(Filters(s, t) && HandsUp(f, s));
            && count' <= 1 && (count' == 1 ==> stale == 0) && (count' == 1 <==> Known(f, s'.nodes))
            && (Got(f, s, count, quiet) ==> Got(f, s', count', quiet))
  {
    hide Transmit, Latched, LogOk, SackTimer, LplTimer, Carried, Last, Replied, Heard, Receive, RxMsgs, Class, Known,
         AckFor, HandsUp, Held, Copy, OnAir;
    hide ApplyUp, ApplyLow, ApplyTx, ApplyRx, ApplyTimer, ApplyWrite, FillsTx, UsesRx;
    hide Counts, SideB, Apply, Enabled, Packet.HasSrc;
    StepFacts(s, t);
    if Filters(s, t) { FilterMoves(f, s, t, stale, count, quiet); } else { SideBCounts(f, s, stale, count, quiet); }
  }

  /** One step of node B; stale' and what arrives are as the move says. */
  lemma SideBStep(f: Frame, s: State, t: Step, stale: nat, count: nat, stale': nat, quiet: bool)
    requires Proper(f) && Inv(s) && SideB(f, s, stale, count, quiet) && Enabled(s, t)
    requires (t.WriteBegin? ==> !Packet.IsAck(t.f)) && (Filters(s, t) ==> t.flag)
    requires stale' <= stale && (!Reads(s, t) ==> stale' == stale)
    requires Reads(s, t) ==> Class(f, Arrived(t.bytes), stale', count, quiet)
    ensures var s' := Apply(s, t); var count' := count + B(Filters(s, t) && HandsUp(f, s));
            SideB(f, s', stale', count', quiet) && (Got(f, s, count, quiet) ==> Got(f, s', count', quiet))
  {
    hide Transmit, Latched, LogOk, SackTimer, LplTimer, Carried, Last, Replied, Heard, Receive, RxMsgs, Known, AckFor,
         HandsUp, Held, Copy;
    hide ApplyUp, ApplyLow, ApplyTx, ApplyRx, ApplyTimer, ApplyWrite, Packet.IsAck, Packet.HasSrc, OnAir, Got,
         FillsTx, UsesRx, OtherSource;
    StepFacts(s, t);
    GotStep(f, s, t, stale, count, quiet);
    if Apply(s, t).txMsgs == [MsgOff] {
      AirStep(s, t);
    }
    if t.Low? && s.low[t.i].RadioCopy? {
      CopyStep(f, s, t.i, stale, count, quiet);
    } else if EnabledWrite(s, t) && !t.Up? && !t.Low? {
      WritersStep(s, t);
    }
    assert Holding(Apply(s, t).rxCalls) ==> Class(f, Held(Apply(s, t)), stale', count, quiet);
  }
}
