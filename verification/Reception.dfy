/** What becomes of a received frame, and of the RX FIFO behind it. */
module Reception {
  import opened Bytes
  import opened Bags
  import opened Stack
  import opened StackInv
  import opened StackSteps
  import opened Network
  import opened Ownership
  import Delivery
  import NodeSteps
  import Packet
  import Paths
  import Sack
  import Termination
  import Unique

  // ---------- which frames go up ----------

  /** The frames soft-ACK passes up: no ACK, and if it asks for one, only when soft-ACK is free to answer. */
  predicate Wanted(sk: Sack.SackState, rx: Buffer)
  {
    !Packet.IsAck(rx) && (Packet.RequiresAck(rx) ==> sk.Idle?)
  }

  predicate Examines(s: State, t: Step) { t.Rx? && t.i < |s.rxCalls| && s.rxCalls[t.i].SackLock? }

  /** In every run, soft-ACK passes a frame on to the filter exactly if it is wanted, behind an ACK of its
      own exactly if it asks for one; any other frame is dropped. */
  lemma PassedOnExactly(run: seq<State>, steps: seq<Step>, k: nat)
    requires IsRun(run, steps) && k < |steps| && Examines(run[k], steps[k])
    ensures var rx, sk, calls := run[k].sack.rxBuf, run[k].sack.state, run[k + 1].rxCalls;
            && |calls| == 1
            && (calls[0].Acking? || calls[0].RxUp? <==> Wanted(sk, rx))
            && (calls[0].Acking? <==> Wanted(sk, rx) && Packet.RequiresAck(rx))
            && (!Wanted(sk, rx) ==> calls[0].AfterUp?)
  {
    hide Inv, Enabled, Apply, ApplyRx, Packet.IsAck, Packet.RequiresAck;
    RunInv(run, steps, k);
    assert |run[k].rxCalls| <= 1 by { Delivery.OneMessage(run[k]); }
    RxApplies(run[k], steps[k]);
    ExaminedMoves(run[k], steps[k]);
  }

  lemma RxApplies(s: State, t: Step)
    requires Enabled(s, t) && t.Rx?
    ensures EnabledRx(s, t) && Apply(s, t) == ApplyRx(s, t)
  {
  }

  lemma ExaminedMoves(s: State, t: Step)
    requires EnabledRx(s, t) && Examines(s, t) && |s.rxCalls| == 1
    ensures var c, rx, sk := ApplyRx(s, t).rxCalls, s.sack.rxBuf, s.sack.state;
            && |c| == 1
            && c[0] == (if !Wanted(sk, rx) then AfterUp else if Packet.RequiresAck(rx) then Acking else RxUp)
  {
    hide Packet.IsAck, Packet.RequiresAck, Packet.CreateAck;
  }

  /** The frame went up: it is the event logged last. */
  predicate WentUp(s: State, rx: Buffer)
  {
    s.log != [] && s.log[|s.log| - 1].PassedUp? && s.log[|s.log| - 1].rx == rx
  }

  lemma {:induction false} AckOut(s: State) returns (ts: seq<Step>, s': State)
    requires Inv(s) && s.rxCalls == [Acking]
    ensures Paths.Leads(s, ts, s') && Inv(s') && s'.rxCalls == [Acking] && !Delivery.AckPending(s')
    ensures s'.sack.rxBuf == s.sack.rxBuf && |ts| <= Delivery.Ahead(s)
    decreases Delivery.Ahead(s)
  {
    hide Inv, Enabled, Apply, Delivery.AckPending, Delivery.Ahead;
    if Delivery.AckPending(s) {
      Delivery.AckFacts(s);
      var t := Termination.LowProceeds(s);
      StepPreserves(s, t);
      Delivery.PickedStep(s, t);
      var rest;
      rest, s' := AckOut(Apply(s, t));
      ts := [t] + rest;
      assert ts[1..] == rest;
    } else {
      ts, s' := [], s;
    }
  }

  lemma UpFromAck(s: State) returns (ts: seq<Step>, s': State)
    requires Inv(s) && s.rxCalls == [Acking]
    ensures Paths.Leads(s, ts, s') && WentUp(s', s.sack.rxBuf) && |ts| <= 21
  {
    hide Inv, Unique.OnRx, Packet.GetSrc, Packet.Dsn, Packet.HasSrc;
    Delivery.AheadBounded(s);
    ts, s' := AckOut(s);
    ts, s' := Paths.Then(s, ts, s', Rx(0, true));
    ts, s' := Paths.Then(s, ts, s', Rx(0, true));
  }

  lemma UpFromFilter(s: State) returns (ts: seq<Step>, s': State)
    requires s.rxCalls == [RxUp]
    ensures Paths.Leads(s, ts, s') && WentUp(s', s.sack.rxBuf) && |ts| <= 1
  {
    hide Unique.OnRx, Packet.GetSrc, Packet.Dsn, Packet.HasSrc;
    ts, s' := Paths.Then(s, [], s, Rx(0, true));
  }

  /** Every wanted frame goes up: from soft-ACK's decision on it, at most 22 steps of the driver's own lead to
      its being handed to the filter, whatever the radio or a configuration thread is doing. */
  lemma WantedGoesUp(s: State) returns (ts: seq<Step>, s': State)
    requires Inv(s) && s.rxCalls == [SackLock] && Wanted(s.sack.state, s.sack.rxBuf)
    ensures Paths.Leads(s, ts, s') && WentUp(s', s.sack.rxBuf) && |ts| <= 22
  {
    hide Inv, WentUp, Packet.IsAck, Packet.RequiresAck, Packet.CreateAck;
    var t1, s1 := Paths.Then(s, [], s, Rx(0, true));
    StepPreserves(s, Rx(0, true));
    var t2, s2;
    if s1.rxCalls == [Acking] {
      t2, s2 := UpFromAck(s1);
    } else {
      t2, s2 := UpFromFilter(s1);
    }
    Paths.LeadsOn(s, t1, s1, t2, s2);
    ts, s' := t1 + t2, s2;
  }

  /** In every run the filter keeps the map of last numbers, memory permitting, and lets a frame up exactly
      if the map does not hold its number for its source. */
  lemma FilterOverRuns(run: seq<State>, steps: seq<Step>, k: nat)
    requires IsRun(run, steps) && k < |steps| && Filters(run[k], steps[k])
    ensures var s, s', rx := run[k], run[k + 1], run[k].sack.rxBuf;
            var m, src, dsn := Unique.Table(s.nodes), Packet.GetSrc(rx), Packet.Dsn(rx);
            && s'.log == s.log + [PassedUp(rx, src !in m || m[src] != dsn)]
            && Unique.Table(s'.nodes) == (if src in m || steps[k].flag then m[src := dsn] else m)
  {
    hide Transmit, Latched, Receive, RxMsgs, LogOk, SackTimer, LplTimer, Carried, Unique.OnRx, Unique.Table,
         Packet.GetSrc, Packet.Dsn;
    RunInv(run, steps, k);
    var s, rx := run[k], run[k].sack.rxBuf;
    NodeSteps.WholeBufferHasSrc(rx);
    Unique.RefinesMap(s.nodes, Packet.GetSrc(rx), Packet.Dsn(rx), steps[k].flag);
  }

  // ---------- the double flush ----------

  /** The step finds that the RX FIFO must be flushed: it is not empty after the upcall, or the length byte
      is over the limit. */
  predicate FindsMore(s: State, t: Step)
  {
    || (t.Rx? && t.i < |s.rxCalls| && s.rxCalls[t.i].AfterUp? && t.flag)
    || Happens(s, t, TooLong)
  }

  /** A flush command has been sent to the end. */
  predicate Flushes(s: State, t: Step)
  {
    t.RxDone? && t.i < |s.rxMsgs| && (s.rxMsgs[t.i].Flush1? || s.rxMsgs[t.i].Flush2?)
  }

  predicate InFlush(msgs: seq<RxMsg>) { msgs != [] && (msgs[0].Flush1? || msgs[0].Flush2?) }

  /** What a step does to the flush of a chain. */
  predicate FlushMoves(s: State, t: Step, s': State)
  {
    var started := Happens(s, t, ChainStarts);
    && (started ==> !InFlush(s'.rxMsgs) && s'.radio.pendingRx)
    && (FindsMore(s, t) ==> s.radio.pendingRx && !InFlush(s.rxMsgs) && s'.rxMsgs == [Flush1])
    && (Flushes(s, t) ==> if s.rxMsgs == [Flush1] then s'.rxMsgs == [Flush2]
                          else s.rxMsgs == [Flush2] && !s'.radio.pendingRx && s'.rxMsgs == [])
    && (!started && !FindsMore(s, t) && !Flushes(s, t) ==>
          (if InFlush(s.rxMsgs) then s'.rxMsgs == s.rxMsgs else !InFlush(s'.rxMsgs))
          && (s'.radio.pendingRx ==> s.radio.pendingRx) && (InFlush(s.rxMsgs) ==> s'.radio.pendingRx))
  }

  lemma OtherFlush(s: State, t: Step, s': State)
    requires s'.rxMsgs == s.rxMsgs && s'.rxCalls == s.rxCalls && !t.Rx? && !t.RxDone? && !t.Fifop?
    requires |s.rxMsgs| + |s.rxCalls| == B(s.radio.pendingRx) && |s'.rxMsgs| + |s'.rxCalls| == B(s'.radio.pendingRx)
    ensures FlushMoves(s, t, s')
  {
  }

  lemma RxFlush(s: State, t: Step)
    requires EnabledRx(s, t) && |s.rxMsgs| + |s.rxCalls| == B(s.radio.pendingRx)
    ensures FlushMoves(s, t, ApplyRx(s, t))
  {
    hide Memcpy, Unique.OnRx, Packet.GetSrc, Packet.HasSrc, Sack.OnRx;
    if t.Fifop? {
      assert FlushMoves(s, t, ApplyRx(s, t));
    } else if t.RxDone? {
      DoneFlush(s, t);
    } else {
      CallFlush(s, t);
    }
  }

  lemma DoneFlush(s: State, t: Step)
    requires EnabledRx(s, t) && t.RxDone? && |s.rxMsgs| == 1 && s.rxCalls == [] && s.radio.pendingRx
    ensures FlushMoves(s, t, ApplyRx(s, t))
  {
    match s.rxMsgs[0]
    case ReadLen => assert FlushMoves(s, t, ApplyRx(s, t));
    case ReadBody(_) => assert FlushMoves(s, t, ApplyRx(s, t));
    case Flush1 => assert ApplyRx(s, t).rxMsgs == [Flush2];
    case Flush2 => assert ApplyRx(s, t).rxMsgs == [];
  }

  lemma CallFlush(s: State, t: Step)
    requires EnabledRx(s, t) && t.Rx? && s.rxMsgs == [] && |s.rxCalls| == 1 && s.radio.pendingRx
    ensures FlushMoves(s, t, ApplyRx(s, t))
  {
    hide Memcpy, Unique.OnRx, Packet.GetSrc, Packet.HasSrc, Sack.OnRx;
    if s.rxCalls[0].AfterUp? {
      assert FlushMoves(s, t, ApplyRx(s, t));
    } else if s.rxCalls[0].Begin? {
      assert FlushMoves(s, t, ApplyRx(s, t));
    } else {
      assert FlushMoves(s, t, ApplyRx(s, t));
    }
  }

  lemma FlushStep(s: State, t: Step)
    requires Inv(s) && Enabled(s, t)
    ensures FlushMoves(s, t, Apply(s, t))
  {
    hide Transmit, Latched, Receive, LogOk, SackTimer, LplTimer, Carried, FillsTx, UsesRx, ApplyUp, ApplyLow, ApplyTx,
         ApplyTimer, ApplyWrite, ApplyRx, FlushMoves;
    FramesHold(s, t);
    StepPreserves(s, t);
    if t.Rx? || t.RxDone? || t.Fifop? { RxFlush(s, t); } else { OtherFlush(s, t, Apply(s, t)); }
  }

  /** Before step k, the chain under way (or the last one) has found that the FIFO must be flushed. */
  ghost predicate Owes(run: seq<State>, steps: seq<Step>, k: nat)
    requires k < |run| && |run| == |steps| + 1
  {
    k > 0 && !Happens(run[k - 1], steps[k - 1], ChainStarts)
    && (FindsMore(run[k - 1], steps[k - 1]) || Owes(run, steps, k - 1))
  }

  /** How many flushes the chain under way (or the last one) has completed before step k. */
  function Flushed(run: seq<State>, steps: seq<Step>, k: nat): nat
    requires k < |run| && |run| == |steps| + 1
  {
    if k == 0 || Happens(run[k - 1], steps[k - 1], ChainStarts) then 0
    else Flushed(run, steps, k - 1) + B(Flushes(run[k - 1], steps[k - 1]))
  }

  lemma {:induction false} FlushByPlace(run: seq<State>, steps: seq<Step>, k: nat)
    requires IsRun(run, steps) && k < |run|
    ensures var s := run[k];
            && (s.radio.pendingRx ==> (Owes(run, steps, k) <==> InFlush(s.rxMsgs)))
            && (s.radio.pendingRx ==> Flushed(run, steps, k) == B(s.rxMsgs == [Flush2]))
            && (InFlush(s.rxMsgs) ==> s.radio.pendingRx)
  {
    hide Inv, Enabled, Apply, Happens, FindsMore, Flushes;
    if k == 0 {
      StartsQuiet(run[0]);
    } else {
      FlushByPlace(run, steps, k - 1);
      RunInv(run, steps, k - 1);
      FlushStep(run[k - 1], steps[k - 1]);
      RunInv(run, steps, k);
      FlushShape(run[k - 1]);
      FlushShape(run[k]);
    }
  }

  lemma StartsQuiet(s: State)
    requires Init(s)
    ensures !s.radio.pendingRx && s.rxMsgs == []
  {
  }

  lemma FlushShape(s: State)
    requires Inv(s)
    ensures InFlush(s.rxMsgs) ==> s.radio.pendingRx && (s.rxMsgs == [Flush1] || s.rxMsgs == [Flush2])
  {
    hide Transmit, Latched, Receive, RxMsgs, LogOk, SackTimer, LplTimer, Carried;
  }

  /** In every run, a receive chain that finds more in the RX FIFO, or a length byte over the limit, opens the
      gate for the next one only after two flushes of its own, and any other chain opens it without any;
      a flush is under way only in a chain that owes one; and while the gate is closed a FIFOP does nothing. */
  lemma FlushedTwice(run: seq<State>, steps: seq<Step>, k: nat)
    requires IsRun(run, steps) && k < |steps|
    ensures run[k].radio.pendingRx && !run[k + 1].radio.pendingRx ==>
              Flushed(run, steps, k + 1) == (if Owes(run, steps, k + 1) then 2 else 0)
    ensures InFlush(run[k].rxMsgs) ==> Owes(run, steps, k)
    ensures steps[k].Fifop? && run[k].radio.pendingRx ==> run[k + 1] == run[k]
  {
    hide Inv, Enabled, Apply, FindsMore, Flushes;
    FlushByPlace(run, steps, k);
    RunInv(run, steps, k);
    FlushStep(run[k], steps[k]);
    RunInv(run, steps, k + 1);
    FlushShape(run[k]);
    FlushShape(run[k + 1]);
    if steps[k].Fifop? && run[k].radio.pendingRx { FifopWaits(run[k], steps[k]); }
  }

  lemma FifopWaits(s: State, t: Step)
    requires Enabled(s, t) && t.Fifop? && s.radio.pendingRx
    ensures Apply(s, t) == s
  {
  }
}
