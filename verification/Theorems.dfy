/** What every run of the composed driver guarantees. */
module Theorems {
  import opened Bytes
  import opened Bags
  import opened Stack
  import opened StackInv
  import opened StackSteps
  import opened Token
  import Packet
  import Lpl
  import Csma
  import Sack

  // ---------- one carrier, one report ----------

  /** Token conservation: the write lock admits one write; while it is under way exactly one of a
      pending call, the backoff timer, the work item, sack's transmission, its ACK wait and the
      completion semaphore carries its frame; and the soft-ACK layer has exactly one transmission
      outstanding below it when it is in TX or TX_ACK, none otherwise. */
  lemma TokenConservation(run: seq<State>, steps: seq<Step>, k: nat)
    requires IsRun(run, steps) && k < |run|
    ensures var s := run[k];
            && |s.copying| + |s.waiting| + s.iface.txSem == 1
            && |s.up| + s.iface.doneSem + B(s.csma.timer.armed) + B(s.csma.timer.running) + B(s.csma.work)
               + B(s.sack.state.Tx?) + B(s.sack.state.TxWait?) == |s.waiting|
            && |s.low| + |s.txMsgs| + B(s.radio.state.TxSpiDone?) == B(s.sack.state.Tx? || s.sack.state.TxAck?)
  {
    hide Transmit, Latched, Receive, RxMsgs, LogOk, SackTimer, LplTimer, Carried, Enabled, Apply;
    RunInv(run, steps, k);
  }

  // The boundaries a frame crosses on its way down and its status on its way up.
  datatype Boundary = IntoLpl | IntoCsma | IntoSack

  /** Leaving this place executes tx at the boundary. */
  predicate Accepts(p: Place, b: Boundary)
  {
    p.InCall? && match b case IntoLpl => p.c.LplTx? case IntoCsma => p.c.CsmaTx? case IntoSack => p.c.SackTx?
  }

  /** Leaving this place executes tx_done at the boundary. */
  predicate Reports(p: Place, b: Boundary)
  {
    p.InCall? && match b case IntoLpl => p.c.IfaceDone? case IntoCsma => p.c.LplDone? case IntoSack => p.c.CsmaDone?
  }

  /** The frame is below the boundary, accepted and not reported. */
  predicate Inside(p: Place, b: Boundary)
  {
    match p
    case InCall(SackAcked) => true
    case InCall(CsmaDone(_)) => true
    case InCall(LplDone(_)) => !b.IntoSack?
    case InCall(SackTx(_, _)) => !b.IntoSack?
    case InCall(CsmaCopy(_, _)) => !b.IntoSack?
    case InCall(CsmaTx(_, _)) => b.IntoLpl?
    case InCall(LplCopy) => b.IntoLpl?
    case InCall(LplAcked) => b.IntoLpl?
    case InCall(IfaceDone(_)) => b.IntoLpl?
    case InCall(LplTx) => false
    case Backoff(_, _) => !b.IntoSack?
    case Queued => !b.IntoSack?
    case Below(_) => true
    case AwaitAck(_) => true
    case _ => false
  }

  lemma HopBalance(p: Place, p': Place, open: bool, b: Boundary)
    requires Hop(p, p', open)
    ensures B(Inside(p', b)) == B(Inside(p, b)) + B(Accepts(p, b)) - B(Reports(p, b))
  {
  }

  /** How often the first k steps executed tx (or tx_done) at a boundary. */
  function Count(run: seq<State>, k: nat, b: Boundary, done: bool): nat
    requires k < |run|
  {
    if k == 0 then 0
    else
      var p := Where(run[k - 1]);
      Count(run, k - 1, b, done) + B(Where(run[k]) != p && if done then Reports(p, b) else Accepts(p, b))
  }

  /** At every boundary, over every run, each accepted tx gets one tx_done and no second: the calls
      exceed the reports by one while the frame is below the boundary, and else are equal. */
  lemma {:induction false} OneReportPerCall(run: seq<State>, steps: seq<Step>, k: nat, b: Boundary)
    requires IsRun(run, steps) && k < |run|
    ensures Count(run, k, b, false) == Count(run, k, b, true) + B(Inside(Where(run[k]), b))
  {
    hide Inv, Enabled, Apply, Where, LowWhere, Hop, Inside, Accepts, Reports, LowHop;
    if k == 0 {
      StartsAtRest(run[0], b);
    } else {
      OneReportPerCall(run, steps, k - 1, b);
      RunInv(run, steps, k - 1);
      StepPreserves(run[k - 1], steps[k - 1]);
      var p, p' := Where(run[k - 1]), Where(run[k]);
      if p' != p { HopBalance(p, p', run[k - 1].lpl.state.Tx?, b); }
    }
  }

  lemma StartsAtRest(s: State, b: Boundary)
    requires Init(s)
    ensures !Inside(Where(s), b)
  {
  }

  // ---------- what a successful write means ----------

  /** Event a starts frame f and no other frame is started before b. */
  ghost predicate Session(log: seq<Event>, a: nat, b: nat, f: seq<u8>)
  {
    && a < b <= |log| && log[a].Started? && log[a].frame == f
    && forall m :: a < m < b ==> !log[m].Started?
  }

  ghost predicate AckedWithin(log: seq<Event>, a: nat, b: nat, dsn: u8)
    requires b <= |log|
  {
    exists i :: a < i < b && log[i].AckHeard? && Packet.IsAck(log[i].rx) && Packet.Dsn(log[i].rx) == dsn
  }

  ghost predicate WrittenWithin(log: seq<Event>, a: nat, b: nat, bytes: seq<u8>)
    requires b <= |log|
  {
    exists i :: a < i < b && log[i] == Written(bytes)
  }

  /** The last event of a kind has an index, and none of its kind comes after. */
  lemma {:induction false} LastAt(log: seq<Event>, k: Kind) returns (i: nat)
    requires Last(log, k).Just?
    ensures i < |log| && log[i] == Last(log, k).e && forall m :: i < m < |log| ==> !IsKind(log[m], k)
  {
    var n := |log| - 1;
    if IsKind(log[n], k) {
      i := n;
    } else {
      i := LastAt(log[..n], k);
      assert forall m :: i < m < n ==> log[m] == log[..n][m];
    }
  }

  lemma {:induction false} HeardAt(log: seq<Event>, dsn: u8) returns (i: nat)
    requires Heard(log, dsn)
    ensures i < |log| && log[i].AckHeard? && Packet.Dsn(log[i].rx) == dsn
    ensures forall m :: i <= m < |log| ==> !log[m].Started?
  {
    var n := |log| - 1;
    if log[n].AckHeard? && Packet.Dsn(log[n].rx) == dsn {
      i := n;
    } else {
      i := HeardAt(log[..n], dsn);
      assert forall m :: i <= m < n ==> log[m] == log[..n][m];
    }
  }

  lemma {:induction false} SentAt(log: seq<Event>, bytes: seq<u8>) returns (i: nat)
    requires Sent(log, bytes)
    ensures i < |log| && log[i] == Written(bytes) && forall m :: i <= m < |log| ==> !log[m].Started?
  {
    var n := |log| - 1;
    if log[n] == Written(bytes) {
      i := n;
    } else {
      i := SentAt(log[..n], bytes);
      assert forall m :: i <= m < n ==> log[m] == log[..n][m];
    }
  }

  /** A write that returns its length, for a frame that asks for an ACK, has seen an ACK with the
      frame's sequence number end an ACK wait between its own start and its return, for any setting of
      low power listening and CSMA and any radio status. Its exact bytes were also laid out for the
      radio in that time, unless low power listening and CSMA are both on and the frame asks for no ACK. */
  lemma SuccessMeans(run: seq<State>, steps: seq<Step>, k: nat, j: nat)
    requires IsRun(run, steps) && k < |run| && j < |run[k].log|
    requires run[k].log[j].Returned? && run[k].log[j].result == |run[k].log[j].frame|
    ensures var log, f := run[k].log, run[k].log[j].frame;
            exists a :: Session(log, a, j, f)
                     && (Packet.RequiresAck(f) ==> AckedWithin(log, a, j, Packet.Dsn(f)))
                     && (Packet.RequiresAck(f) || !run[k].lpl.enabled || !run[k].csma.enabled ==>
                           WrittenWithin(log, a, j, f))
  {
    hide Counts, Transmit, Latched, Receive, RxMsgs, SackTimer, LplTimer, Carried, Enabled, Apply, Last, Replied,
         Heard, Sent, Packet.RequiresAck;
    RunInv(run, steps, k);
    var log, f := run[k].log, run[k].log[j].frame;
    var before := log[..j];
    assert EventOk(before, log[j], On(run[k]));
    var a := LastAt(before, AnyStarted);
    assert forall m :: 0 <= m < j ==> log[m] == before[m];
    assert Session(log, a, j, f);
    if Packet.RequiresAck(f) {
      var i := HeardAt(before, Packet.Dsn(f));
      assert EventOk(log[..i], log[i], On(run[k]));
      assert AckedWithin(log, a, j, Packet.Dsn(f));
    }
    if Packet.RequiresAck(f) || !run[k].lpl.enabled || !run[k].csma.enabled {
      var i := SentAt(before, f);
      assert WrittenWithin(log, a, j, f);
    }
  }

  /** The results a write can return. BUSY reaches the writer only without low power listening and with
      CSMA, an ACK timeout only without low power listening and for a frame that asks for an ACK, and
      FAILED only for such a frame with low power listening, for any other without. No write that has
      passed its frame down returns a negative number: a result beyond every frame length is a failure. */
  lemma ResultsPossible(run: seq<State>, steps: seq<Step>, k: nat, j: nat)
    requires IsRun(run, steps) && k < |run| && j < |run[k].log| && run[k].log[j].Returned?
    ensures var f, r := run[k].log[j].frame, run[k].log[j].result;
            && Possible(On(run[k]), f, r) && r > 0 && (r == |f| || r > PKT_BUFF_SIZE)
  {
    hide Counts, Transmit, Latched, Receive, RxMsgs, SackTimer, LplTimer, Carried, Enabled, Apply, Last, Replied,
         Heard, Sent, Packet.RequiresAck;
    RunInv(run, steps, k);
    var log := run[k].log;
    assert EventOk(log[..j], log[j], On(run[k]));
  }

  // ---------- frame integrity and acknowledgements ----------

  /** Whatever is laid out for the TX FIFO was handed to the radio, unchanged, and is either the frame
      of the write then under way, byte for byte and of its length, or the ACK of the frame received
      last, which asked for one. Retransmissions are no exception. */
  lemma FrameIntegrity(run: seq<State>, steps: seq<Step>, k: nat, j: nat)
    requires IsRun(run, steps) && k < |run| && j < |run[k].log| && run[k].log[j].Written?
    ensures var log, bytes := run[k].log, run[k].log[j].bytes;
            exists h, a :: 0 <= a < h < j && log[h].Handed? && log[h].bytes == bytes
                     && (if log[h].isAck then AnswersLast(log, a, h, bytes) else Session(log, a, h, bytes))
  {
    hide Counts, Transmit, Latched, Receive, RxMsgs, SackTimer, LplTimer, Carried, Enabled, Apply, Last, Replied,
         Heard, Sent;
    hide Packet.RequiresAck, Packet.IsAck, IsAckOf;
    RunInv(run, steps, k);
    var log, on := run[k].log, On(run[k]);
    assert EventOk(log[..j], log[j], on);
    var h := LastAt(log[..j], AnyHanded);
    assert EventOk(log[..h], log[h], on);
    var a := LastAt(log[..h], if log[h].isAck then AnyReceived else AnyStarted);
    assert forall m :: 0 <= m < h ==> log[m] == log[..h][m];
    if log[h].isAck {
      assert AnswersLast(log, a, h, log[j].bytes);
    } else {
      assert Session(log, a, h, log[j].bytes);
    }
  }

  /** Event a is the last frame received before h, it asks for an ACK, and bytes is that ACK. */
  ghost predicate AnswersLast(log: seq<Event>, a: nat, h: nat, bytes: seq<u8>)
  {
    && a < h <= |log| && log[a].Received? && Packet.RequiresAck(log[a].rx) && !Packet.IsAck(log[a].rx)
    && IsAckOf(bytes, log[a].rx) && forall m :: a < m < h ==> !log[m].Received?
  }

  lemma {:induction false} RepliedAt(log: seq<Event>, rx: Buffer) returns (i: nat)
    requires Replied(log, rx)
    ensures i < |log| && log[i].Handed? && log[i].isAck && IsAckOf(log[i].bytes, rx)
    ensures forall m :: i <= m < |log| ==> !log[m].Received?
  {
    var n := |log| - 1;
    if log[n].Handed? && log[n].isAck && IsAckOf(log[n].bytes, rx) {
      i := n;
    } else {
      i := RepliedAt(log[..n], rx);
      assert forall m :: i <= m < n ==> log[m] == log[..n][m];
    }
  }

  /** Event a receives rx, and no other frame is received before j. */
  ghost predicate Reception(log: seq<Event>, a: nat, j: nat, rx: seq<u8>)
  {
    a < j <= |log| && log[a].Received? && log[a].rx == rx && forall m :: a < m < j ==> !log[m].Received?
  }

  /** Between a and j an ACK for rx was handed to the radio: recognised as one, naming rx's sequence
      number, and asking for no ACK itself. */
  ghost predicate AckBetween(log: seq<Event>, a: nat, j: nat, rx: Buffer)
    requires j <= |log|
  {
    exists h :: a < h < j && log[h].Handed? && log[h].isAck && IsAckOf(log[h].bytes, rx)
             && Packet.IsAck(log[h].bytes) && !Packet.RequiresAck(log[h].bytes)
             && Packet.Dsn(log[h].bytes) == Packet.Dsn(rx)
  }

  /** What goes up is the frame received last, and if it asks for an ACK, an ACK of its own was handed to
      the radio after it was received and before it went up: every copy of a retransmitted frame gets one. */
  lemma AckBeforeDelivery(run: seq<State>, steps: seq<Step>, k: nat, j: nat)
    requires IsRun(run, steps) && k < |run| && j < |run[k].log| && run[k].log[j].PassedUp?
    ensures var log, rx := run[k].log, run[k].log[j].rx;
            exists a :: Reception(log, a, j, rx) && (Packet.RequiresAck(rx) ==> AckBetween(log, a, j, rx))
  {
    hide Counts, Transmit, Latched, Receive, RxMsgs, SackTimer, LplTimer, Carried, Enabled, Apply, Last, Replied,
         Heard, Sent;
    RunInv(run, steps, k);
    var log, rx := run[k].log, run[k].log[j].rx;
    assert EventOk(log[..j], log[j], On(run[k]));
    var a := LastAt(log[..j], AnyReceived);
    assert forall m :: 0 <= m < j ==> log[m] == log[..j][m];
    assert Reception(log, a, j, rx);
    if Packet.RequiresAck(rx) {
      var h := RepliedAt(log[..j], rx);
      var b := log[h].bytes;
      assert b[1] == b[..4][1] && b[2] == b[..4][2] && b[3] == b[..4][3];
      assert AckBetween(log, a, j, rx);
    }
  }

  // ---------- branches the layers call busy or impossible ----------

  /** In the composed driver no layer is ever asked to transmit while busy, soft-ACK's tx_done never
      finds itself in IDLE or TX_WAIT, and each stage of the radio's two-stage release finds the radio
      transmitting. */
  lemma BusyUnreachable(run: seq<State>, steps: seq<Step>, k: nat)
    requires IsRun(run, steps) && k < |steps|
    ensures var s, t := run[k], steps[k];
            && (t.Up? && s.up[t.i].LplTx? ==> !Lpl.OnTx(s.lpl).1.Busy?)
            && (t.Up? && s.up[t.i].CsmaTx? ==> !Csma.OnTx(s.csma).1.Busy?)
            && (t.Low? && s.low[t.i].SackDone? ==> !Sack.OnTxDone(s.sack, s.low[t.i].status).1.Impossible?)
            && (t.TxDone? ==> s.radio.state.Tx? || s.radio.state.TxSfdDone?)
            && (t.CsmaSample? ==> !s.csma.state.Idle?)
  {
    hide Latched, Receive, RxMsgs, LogOk, SackTimer, LplTimer, Apply, Heard, Sent, Last, Replied, CarriesBelow,
         Packet.RequiresAck;
    RunInv(run, steps, k);
    var s, t := run[k], steps[k];
    if t.Up? { Alone(s, t.i); }
  }

  // ---------- the acknowledgement timeout ----------

  /** The timeout is armed or running only during an ACK wait or between the ACK and the cancel that
      follows it, never twice, and never when a transmission starts: so a timeout that ends a wait was
      started for that wait, and the wait ends by it or by an ACK. */
  lemma TimeoutBelongsToWait(run: seq<State>, steps: seq<Step>, k: nat)
    requires IsRun(run, steps) && k < |run|
    ensures var s := run[k];
            && (s.sack.state.TxWait? ==> s.sack.timer.armed != s.sack.timer.running)
            && (s.sack.state.Tx? ==> s.sack.timer == OFF)
            && (s.sack.timer != OFF ==> s.sack.state.TxWait? || s.up == [SackAcked])
  {
    hide Transmit, Latched, Receive, RxMsgs, LogOk, LplTimer, Carried, Enabled, Apply, Heard, Sent, Last, Replied;
    RunInv(run, steps, k);
  }
}
