/** Any number of writes at node A, seen from node B: what goes up, in which order, how often. A may
    receive anything, ACKs for whatever it likes included. */
module Streams {
  import opened Bytes
  import opened Bags
  import opened Stack
  import opened StackInv
  import opened StackSteps
  import opened Network
  import EndToEnd
  import NodeSteps
  import Ownership
  import Packet
  import Unique

  // ---------- the two nodes, and what happened so far ----------

  /** A frame in flight; tag is the number of the write under way when it was sent, -1 before the first. */
  datatype Flight = Flight(bytes: seq<u8>, tag: int)

  /** A buffer B's filter handed up under A's key, and the tag of the frame in it. */
  datatype Handover = Handover(rx: Buffer, tag: int)

  /** air: frames in flight from A to B, oldest first. writes: the frames A has written. held: the tag of the
      frame B read last from A; heard: of the one its filter examined last. up: what went up. */
  datatype Link = Link(a: State, b: State, air: seq<Flight>, writes: seq<Frame>,
                       held: int, heard: int, up: seq<Handover>)

  datatype Move = MoveA(t: Step) | MoveB(t: Step, air: bool) | Lose(i: nat)

  /** A frame of A's: it can be written and carries A's key. */
  predicate Ours(key: nat, f: Frame) { Proper(f) && Packet.GetSrc(f) == key }

  /** An ACK, or a frame of a known source with another key. */
  predicate Foreign(key: nat, r: seq<u8>)
  {
    |r| >= 4 && (Packet.IsAck(r) || (Packet.HasSrc(r) && Packet.GetSrc(r) != key))
  }

  predicate Can(key: nat, n: Link, m: Move)
  {
    match m
    case MoveA(t) => Enabled(n.a, t) && (t.WriteBegin? ==> Ours(key, t.f))
    case MoveB(t, air) =>
      && Enabled(n.b, t) && (Filters(n.b, t) ==> t.flag)
      && (Reads(n.b, t) ==> if air then n.air != [] && Carries(n.air[0].bytes, Arrived(t.bytes))
                           else Foreign(key, Arrived(t.bytes)))
    case Lose(i) => i < |n.air|
  }

  /** B's filter examines a frame under A's key. */
  predicate Examines(key: nat, b: State, t: Step) { Filters(b, t) && Packet.GetSrc(b.sack.rxBuf) == key }

  function Do(key: nat, n: Link, m: Move): Link
    requires Can(key, n, m)
  {
    match m
    case MoveA(t) =>
      n.(a := Apply(n.a, t),
         writes := if t.WriteCopy? && t.i < |n.a.copying| then n.writes + [n.a.copying[t.i]] else n.writes,
         air := if Transmits(n.a, t) then n.air + [Flight(OnAir(n.a), |n.writes| - 1)] else n.air)
    case MoveB(t, air) =>
      var popped, examined := Reads(n.b, t) && air, Examines(key, n.b, t);
      var rx := n.b.sack.rxBuf;
      n.(b := Apply(n.b, t),
         held := if popped then n.air[0].tag else n.held,
         air := if popped then n.air[1..] else n.air,
         heard := if examined then n.held else n.heard,
         up := if examined && Unique.OnRx(n.b.nodes, key, Packet.Dsn(rx), true).1
               then n.up + [Handover(rx, n.held)] else n.up)
    case Lose(i) => n.(air := Drop(n.air, i))
  }

  // ---------- the invariant ----------

  predicate SideA(key: nat, a: State, writes: seq<Frame>)
  {
    && (forall i :: 0 <= i < |writes| ==> Ours(key, writes[i]))
    && (forall i :: 0 <= i < |a.copying| ==> Ours(key, a.copying[i]))
    && (a.waiting != [] ==> writes != [] && a.waiting == [writes[|writes| - 1]])
  }

  /** An ACK, or the write its tag names. */
  predicate FlightOk(x: Flight, writes: seq<Frame>)
  {
    |x.bytes| >= 4 && x.tag < |writes| && (Packet.IsAck(x.bytes) || (x.tag >= 0 && x.bytes == writes[x.tag]))
  }

  predicate InFlight(air: seq<Flight>, writes: seq<Frame>, held: int)
  {
    && (forall i :: 0 <= i < |air| ==> FlightOk(air[i], writes) && held <= air[i].tag)
    && (forall i, j :: 0 <= i < j < |air| ==> air[i].tag <= air[j].tag)
  }

  /** What B's chain holds: a foreign frame, or a copy of the write its tag names. */
  predicate ChainOk(key: nat, r: seq<u8>, writes: seq<Frame>, held: int)
    requires held < |writes|
  {
    Foreign(key, r) || (held >= 0 && Copy(writes[held], r))
  }

  /** B's filter last heard A with the number of the write examined last. */
  predicate FilterOk(key: nat, nodes: seq<Unique.Entry>, writes: seq<Frame>, heard: int)
    requires heard < |writes|
  {
    heard >= 0 ==> var m := Unique.Table(nodes); key in m && m[key] == Packet.Dsn(writes[heard])
  }

  /** What went up is a subsequence of the writes: strictly increasing tags, each frame whole. */
  predicate UpOk(up: seq<Handover>, writes: seq<Frame>, heard: int)
    requires heard < |writes|
  {
    && (forall i :: 0 <= i < |up| ==> 0 <= up[i].tag <= heard && Copy(writes[up[i].tag], up[i].rx))
    && (forall i, j :: 0 <= i < j < |up| ==> up[i].tag < up[j].tag)
  }

  ghost predicate LinkInv(key: nat, n: Link)
  {
    && Inv(n.a) && Inv(n.b) && SideA(key, n.a, n.writes)
    && -1 <= n.heard <= n.held < |n.writes| && InFlight(n.air, n.writes, n.held)
    && (Holding(n.b.rxCalls) ==> ChainOk(key, Held(n.b), n.writes, n.held))
    && FilterOk(key, n.b.nodes, n.writes, n.heard) && UpOk(n.up, n.writes, n.heard)
  }

  // ---------- node A ----------

  lemma WriteSide(key: nat, s: State, t: Step, writes: seq<Frame>)
    requires EnabledWrite(s, t) && |s.copying| + |s.waiting| + s.iface.txSem == 1 && SideA(key, s, writes)
    requires t.WriteBegin? ==> Ours(key, t.f)
    ensures SideA(key, ApplyWrite(s, t), if t.WriteCopy? then writes + [s.copying[t.i]] else writes)
  {
    hide Ours, Memcpy;
  }

  lemma StepSide(key: nat, s: State, t: Step, writes: seq<Frame>)
    requires Inv(s) && Enabled(s, t) && SideA(key, s, writes) && (t.WriteBegin? ==> Ours(key, t.f))
    ensures SideA(key, Apply(s, t), if t.WriteCopy? && t.i < |s.copying| then writes + [s.copying[t.i]] else writes)
  {
    hide ApplyUp, ApplyLow, ApplyTx, ApplyRx, ApplyTimer, ApplyWrite, Transmit, Latched, Receive, RxMsgs, LogOk,
         SackTimer, LplTimer, Carried, Ownership.FillsTx, Ownership.UsesRx, Ours;
    if EnabledWrite(s, t) && !t.Up? && !t.Low? {
      WriteSide(key, s, t, writes);
    } else {
      Ownership.FramesHold(s, t);
    }
  }

  /** More writes change nothing for what is in flight, held, heard or up. */
  lemma MoreWrites(key: nat, n: Link, f: Frame)
    requires LinkInv(key, n)
    ensures var ws := n.writes + [f];
            && InFlight(n.air, ws, n.held) && (Holding(n.b.rxCalls) ==> ChainOk(key, Held(n.b), ws, n.held))
            && FilterOk(key, n.b.nodes, ws, n.heard) && UpOk(n.up, ws, n.heard)
  {
    hide Inv, SideA, Foreign, Copy, Packet.IsAck;
    var ws := n.writes + [f];
    assert forall i :: 0 <= i < |n.writes| ==> ws[i] == n.writes[i];
  }

  lemma MoveAInv(key: nat, n: Link, t: Step)
    requires LinkInv(key, n) && Can(key, n, MoveA(t))
    ensures LinkInv(key, Do(key, n, MoveA(t)))
  {
    hide Inv, Enabled, Apply, SideA, ChainOk, FilterOk, UpOk, Foreign, OnAir, Ours;
    StepPreserves(n.a, t);
    StepSide(key, n.a, t, n.writes);
    if t.WriteCopy? && t.i < |n.a.copying| { MoreWrites(key, n, n.a.copying[t.i]); }
    if Transmits(n.a, t) {
      NodeSteps.SendsFrameOrAck(n.a, t);
      SentOk(key, n.a, n.writes, OnAir(n.a));
    }
  }

  lemma SentOk(key: nat, a: State, writes: seq<Frame>, x: seq<u8>)
    requires SideA(key, a, writes) && |x| >= 4 && (Packet.IsAck(x) || (a.waiting != [] && x == a.waiting[0]))
    ensures FlightOk(Flight(x, |writes| - 1), writes)
  {
    hide Ours;
  }

  // ---------- node B ----------

  /** What B reads is foreign, or a copy of the write its tag names. */
  lemma ReadOk(key: nat, n: Link, t: Step, air: bool)
    requires LinkInv(key, n) && Can(key, n, MoveB(t, air)) && Reads(n.b, t)
    ensures ChainOk(key, Arrived(t.bytes), n.writes, if air then n.air[0].tag else n.held)
  {
    hide Inv, Enabled, FilterOk, UpOk, Arrived, Packet.HasSrc;
    var r := Arrived(t.bytes);
    if air {
      var x := n.air[0];
      NodeSteps.AirKeepsHeader(x.bytes, r);
      if !Packet.IsAck(r) { NodeSteps.AirKeepsFrame(n.writes[x.tag], r); }
    }
  }

  /** What the filter examines under A's key starts with the write its tag names. */
  lemma ExaminesOurs(key: nat, n: Link, t: Step)
    requires LinkInv(key, n) && EnabledRx(n.b, t) && Examines(key, n.b, t)
    ensures n.held >= 0 && Copy(n.writes[n.held], n.b.sack.rxBuf)
    ensures Packet.Dsn(n.b.sack.rxBuf) == Packet.Dsn(n.writes[n.held])
  {
    hide Transmit, Latched, RxMsgs, LogOk, SackTimer, LplTimer, Carried, Last, Replied, Heard, Sent, SideA, InFlight,
         FilterOk, UpOk, Held, Packet.HasSrc, Packet.IsAck, Packet.RequiresAck, Packet.Fcf;
    var rx, r := n.b.sack.rxBuf, Held(n.b);
    NodeSteps.HeldHeader(n.b);
    NodeSteps.WholeBufferHasSrc(rx);
    if Foreign(key, r) {
      NodeSteps.SameSource(r, rx);
    } else {
      var f := n.writes[n.held];
      assert rx[..|f|] == rx[..n.b.sack.rxLen][..|f|];
      Packet.SameHeader(f, rx, |f|);
    }
  }

  /** The filter drops a repeat of the write it examined last, so what it lets up is newer. */
  lemma TableMoves(key: nat, nodes: seq<Unique.Entry>, src: nat, dsn: u8, writes: seq<Frame>, heard: int, held: int)
    requires Unique.Distinct(nodes) && -1 <= heard <= held < |writes| && FilterOk(key, nodes, writes, heard)
    requires src == key ==> held >= 0 && dsn == Packet.Dsn(writes[held])
    ensures var (nodes', up) := Unique.OnRx(nodes, src, dsn, true);
            && FilterOk(key, nodes', writes, if src == key then held else heard)
            && (src == key && up ==> heard < held)
  {
    hide Packet.Dsn, Unique.OnRx, Unique.Distinct;
    Unique.RefinesMap(nodes, src, dsn, true);
  }

  /** One more frame up, newer than all examined so far. */
  lemma UpGrows(up: seq<Handover>, writes: seq<Frame>, heard: int, held: int, rx: Buffer)
    requires 0 <= held < |writes| && heard < held && UpOk(up, writes, heard) && Copy(writes[held], rx)
    ensures UpOk(up + [Handover(rx, held)], writes, held)
  {
    hide Copy;
  }

  /** The filter lets a write up only if it is newer than all that went up. */
  lemma FilterMoves(key: nat, n: Link, t: Step)
    requires LinkInv(key, n) && EnabledRx(n.b, t) && Filters(n.b, t) && t.flag
    ensures var rx, nodes' := n.b.sack.rxBuf, ApplyRx(n.b, t).nodes;
            var ours := Examines(key, n.b, t);
            var up := Unique.OnRx(n.b.nodes, key, Packet.Dsn(rx), true).1;
            && (ours ==> FilterOk(key, nodes', n.writes, n.held))
            && (ours && up ==> n.heard < n.held && UpOk(n.up + [Handover(rx, n.held)], n.writes, n.held))
            && (!ours ==> FilterOk(key, nodes', n.writes, n.heard))
  {
    hide Inv, SideA, InFlight, ChainOk, Held, Packet.HasSrc, Packet.GetSrc, Packet.Dsn, Unique.OnRx, Copy, FilterOk,
         UpOk;
    var rx := n.b.sack.rxBuf;
    NodeSteps.WholeBufferHasSrc(rx);
    if Examines(key, n.b, t) {
      ExaminesOurs(key, n, t);
      UpLater(n.up, n.writes, n.heard, n.held);
    }
    assert Unique.Distinct(n.b.nodes) by { DistinctNodes(n.b); }
    TableMoves(key, n.b.nodes, Packet.GetSrc(rx), Packet.Dsn(rx), n.writes, n.heard, n.held);
    if Examines(key, n.b, t) && n.heard < n.held { UpGrows(n.up, n.writes, n.heard, n.held, rx); }
  }

  lemma DistinctNodes(s: State)
    requires Inv(s)
    ensures Unique.Distinct(s.nodes)
  {
    hide Transmit, Latched, Receive, RxMsgs, LogOk, SackTimer, LplTimer, Carried, Unique.Distinct;
  }

  /** The frames up so far stay in order when later ones are examined. */
  lemma UpLater(up: seq<Handover>, writes: seq<Frame>, heard: int, held: int)
    requires heard <= held < |writes| && UpOk(up, writes, heard)
    ensures UpOk(up, writes, held)
  {
    hide Copy;
  }

  lemma MoveBInv(key: nat, n: Link, t: Step, air: bool)
    requires LinkInv(key, n) && Can(key, n, MoveB(t, air))
    ensures LinkInv(key, Do(key, n, MoveB(t, air)))
  {
    hide Inv, Enabled, Apply, SideA, FilterOk, UpOk, Foreign, ChainOk, Unique.OnRx, Packet.GetSrc, Packet.HasSrc,
         Held, Arrived, ApplyRx, EnabledRx, FlightOk;
    StepPreserves(n.b, t);
    NodeSteps.StepFacts(n.b, t);
    UpLater(n.up, n.writes, n.heard, n.held);
    if Reads(n.b, t) {
      ReadOk(key, n, t, air);
      ReadsAlone(n.b, t);
    }
    if Filters(n.b, t) {
      RxStep(n.b, t);
      FilterMoves(key, n, t);
    }
    if air && Reads(n.b, t) { PopOk(n.air, n.writes, n.held); }
  }

  /** The chain is a message while it reads, so it holds nothing else. */
  lemma ReadsAlone(s: State, t: Step)
    requires Inv(s) && Reads(s, t)
    ensures s.rxCalls == []
  {
    hide Transmit, Latched, Receive, RxMsgs, LogOk, SackTimer, LplTimer, Carried;
  }

  lemma PopOk(air: seq<Flight>, writes: seq<Frame>, held: int)
    requires air != [] && InFlight(air, writes, held)
    ensures InFlight(air[1..], writes, air[0].tag) && held <= air[0].tag < |writes|
  {
    hide Packet.IsAck;
  }

  lemma RxStep(s: State, t: Step)
    requires Enabled(s, t) && Filters(s, t)
    ensures EnabledRx(s, t) && Apply(s, t) == ApplyRx(s, t)
  {
  }

  lemma LoseInv(key: nat, n: Link, i: nat)
    requires LinkInv(key, n) && i < |n.air|
    ensures LinkInv(key, Do(key, n, Lose(i)))
  {
    hide Inv, SideA, FilterOk, UpOk, ChainOk, FlightOk;
  }

  lemma MoveInv(key: nat, n: Link, m: Move)
    requires LinkInv(key, n) && Can(key, n, m)
    ensures LinkInv(key, Do(key, n, m))
  {
    hide LinkInv, Can, Do;
    match m
    case MoveA(t) => MoveAInv(key, n, t);
    case MoveB(t, air) => MoveBInv(key, n, t, air);
    case Lose(i) => CanLose(key, n, i); LoseInv(key, n, i);
  }

  lemma CanLose(key: nat, n: Link, i: nat)
    requires Can(key, n, Lose(i))
    ensures i < |n.air|
  {
  }

  // ---------- over runs of both nodes ----------

  /** A has no write under way and has not written under this key yet; nothing under the key is in flight or
      in B's chain. B's filter may have heard anything. */
  ghost predicate Start(key: nat, n: Link)
  {
    && EndToEnd.Reached(n.a) && EndToEnd.Reached(n.b) && n.a.copying == [] && n.a.waiting == []
    && n.writes == [] && n.up == [] && n.held == -1 && n.heard == -1
    && (forall i :: 0 <= i < |n.air| ==> n.air[i].tag == -1 && |n.air[i].bytes| >= 4 && Packet.IsAck(n.air[i].bytes))
    && (Holding(n.b.rxCalls) ==> Foreign(key, Held(n.b)))
  }

  ghost predicate IsStream(key: nat, links: seq<Link>, moves: seq<Move>)
  {
    && |links| == |moves| + 1 && Start(key, links[0])
    && forall i :: 0 <= i < |moves| ==> Can(key, links[i], moves[i]) && links[i + 1] == Do(key, links[i], moves[i])
  }

  /** Two freshly loaded drivers make a start, for any key. */
  lemma FreshStart(key: nat, a: State, b: State)
    requires Init(a) && Init(b)
    ensures Start(key, Link(a, b, [], [], -1, -1, []))
  {
    hide Packet.IsAck;
    assert EndToEnd.Reached(a) by { assert IsRun([a], []); }
    assert EndToEnd.Reached(b) by { assert IsRun([b], []); }
  }

  lemma StartInv(key: nat, n: Link)
    requires Start(key, n)
    ensures LinkInv(key, n)
  {
    hide Inv, EndToEnd.Reached, Foreign, Packet.IsAck;
    EndToEnd.ReachedInv(n.a);
    EndToEnd.ReachedInv(n.b);
  }

  lemma {:induction false} StreamInv(key: nat, links: seq<Link>, moves: seq<Move>, k: nat)
    requires IsStream(key, links, moves) && k < |links|
    ensures LinkInv(key, links[k])
  {
    hide LinkInv, Start, Can, Do;
    if k == 0 {
      StartInv(key, links[0]);
    } else {
      StreamInv(key, links, moves, k - 1);
      MoveInv(key, links[k - 1], moves[k - 1]);
    }
  }

  /** at picks, in order, the writes whose frames went up. */
  ghost predicate Picks(at: seq<nat>, up: seq<Handover>, writes: seq<Frame>)
  {
    && |at| == |up| && (forall i, j :: 0 <= i < j < |at| ==> at[i] < at[j])
    && forall i :: 0 <= i < |at| ==> at[i] < |writes| && Copy(writes[at[i]], up[i].rx)
  }

  /** However many frames A writes, however often each is retransmitted, whatever is lost and whatever is
      still in flight from earlier writes: what B hands up under A's key is a subsequence of A's
      writes, in order, each at most once and byte for byte. No condition on the sequence numbers is
      needed. */
  lemma InOrder(key: nat, links: seq<Link>, moves: seq<Move>, k: nat) returns (at: seq<nat>)
    requires IsStream(key, links, moves) && k < |links|
    ensures Picks(at, links[k].up, links[k].writes)
  {
    hide Inv, IsStream, SideA, InFlight, ChainOk, FilterOk, Copy;
    StreamInv(key, links, moves, k);
    var n := links[k];
    at := Tags(n.up, n.writes, n.heard);
  }

  lemma {:induction false} Tags(up: seq<Handover>, writes: seq<Frame>, heard: int) returns (at: seq<nat>)
    requires heard < |writes| && UpOk(up, writes, heard)
    ensures Picks(at, up, writes) && forall i :: 0 <= i < |at| ==> at[i] == up[i].tag
  {
    hide Copy;
    if up == [] {
      at := [];
    } else {
      var last := |up| - 1;
      at := Tags(up[..last], writes, heard);
      at := at + [up[last].tag];
    }
  }

  /** The writes of the stream are the frames that A's log says were started. */
  lemma WritesStarted(key: nat, links: seq<Link>, moves: seq<Move>, k: nat)
    requires IsStream(key, links, moves) && k < |moves| && moves[k].MoveA? && moves[k].t.WriteCopy?
    ensures var n, n' := links[k], links[k + 1];
            |n'.writes| == |n.writes| + 1 && n'.a.log == n.a.log + [Started(n'.writes[|n.writes|])]
  {
    hide Start, Memcpy, Ours, OnAir;
  }

  /** What goes up is what B's log says the filter kept under A's key. */
  lemma HandoversLogged(key: nat, links: seq<Link>, moves: seq<Move>, k: nat)
    requires IsStream(key, links, moves) && k < |moves| && moves[k].MoveB? && Filters(links[k].b, moves[k].t)
    ensures var n, n' := links[k], links[k + 1];
            var log := n'.b.log;
            && |log| == |n.b.log| + 1 && log[|n.b.log|].PassedUp?
            && n'.up == (if log[|n.b.log|].kept && Packet.GetSrc(n.b.sack.rxBuf) == key
                         then n.up + [Handover(log[|n.b.log|].rx, n.held)] else n.up)
  {
    hide Start, Memcpy, OnAir, Unique.OnRx, Packet.GetSrc, Packet.Dsn, Foreign, Carries, Arrived;
  }
}
