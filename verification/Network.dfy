/** Two drivers and the air between them: one write at node A, seen from node B. */
module Network {
  import opened Bytes
  import opened Bags
  import opened Stack
  import opened StackInv
  import Packet
  import Unique

  /** ab and ba are the frames in flight, oldest first; the first `stale` of ab were in flight when the
      write began. count is how often B's filter has handed the write's frame up. quiet: no third node
      sends A an ACK with the frame's number, or asks B for one. */
  datatype Net = Net(a: State, b: State, ab: seq<seq<u8>>, ba: seq<seq<u8>>, stale: nat, count: nat, quiet: bool)

  // air: the received bytes are those of the oldest frame in flight; else another node sent them.
  datatype Move = AtA(t: Step, air: bool) | AtB(t: Step, air: bool) | LoseAB(i: nat) | LoseBA(i: nat)

  /** What the air delivers for a transmitted frame: its length byte and MAC bytes, then two bytes in
      place of the checksum. */
  predicate Carries(sent: seq<u8>, r: seq<u8>)
  {
    && sent != [] && 5 <= sent[0] && sent[0] - 1 <= |sent| && |r| == sent[0] as int + 1
    && r[..sent[0] - 1] == sent[..sent[0] - 1]
  }

  /** The frame a node's receive chain has read from its radio. */
  function Held(s: State): seq<u8>
  {
    if 4 <= |s.radio.rxIn| <= PKT_BUFF_SIZE then [|s.radio.rxIn| - 1] + s.radio.rxIn[1..] else [0, 0, 0, 0]
  }

  /** What arrives when the body of a frame has been read. */
  function Arrived(bytes: seq<u8>): seq<u8>
  {
    if |bytes| < PKT_BUFF_SIZE then [|bytes|] + bytes else []
  }

  predicate Holding(calls: seq<RxCall>)
  {
    calls != [] && !calls[0].Begin? && !calls[0].AfterUp?
  }

  predicate Answered(calls: seq<RxCall>) { calls != [] && (calls[0].Acking? || calls[0].RxUp?) }

  predicate Transmits(s: State, t: Step) { t.TxDone? && t.i < |s.txMsgs| && s.txMsgs[t.i].MsgOff? }
  predicate Reads(s: State, t: Step) { t.RxDone? && t.i < |s.rxMsgs| && s.rxMsgs[t.i].ReadBody? }
  predicate Filters(s: State, t: Step) { t.Rx? && t.i < |s.rxCalls| && s.rxCalls[t.i].RxUp? }

  function OnAir(s: State): seq<u8> { if Readable(s.radio.txLen) then s.radio.txBuf[..s.radio.txLen] else [] }

  // ---------- the frames that matter for a write of f ----------

  predicate AckFor(f: Frame, x: seq<u8>) { |x| >= 4 && Packet.IsAck(x) && Packet.Dsn(x) == Packet.Dsn(f) }

  /** An ACK, or a frame with another source than f; a quiet one asks for no ACK with f's number. */
  predicate OtherSource(f: Frame, r: seq<u8>, quiet: bool)
    requires Packet.HasSrc(f)
  {
    |r| >= 4 &&
    (Packet.IsAck(r) ||
     (Packet.HasSrc(r) && Packet.GetSrc(r) != Packet.GetSrc(f)
      && (quiet ==> !(Packet.RequiresAck(r) && Packet.Dsn(r) == Packet.Dsn(f)))))
  }

  predicate Copy(f: Frame, r: seq<u8>) { |f| <= |r| && r[..|f|] == f }

  /** A frame that can be written and keyed: its length byte counts the checksum, it carries its whole
      source address, and it is not itself an ACK. */
  predicate Proper(f: Frame)
  {
    |f| <= PKT_BUFF_SIZE - 2 && f[0] as int == |f| + 1 && Packet.HasSrc(f) && !Packet.IsAck(f)
  }

  // ---------- moves ----------

  predicate Can(f: Frame, n: Net, m: Move)
    requires Packet.HasSrc(f)
  {
    match m
    case AtA(t, air) =>
      && Enabled(n.a, t) && !t.WriteBegin? && !t.WriteFault?
      && (Reads(n.a, t) ==> if air then n.ba != [] && Carries(n.ba[0], Arrived(t.bytes))
                           else n.quiet ==> !AckFor(f, Arrived(t.bytes)))
    case AtB(t, air) =>
      && Enabled(n.b, t) && (t.WriteBegin? ==> !Packet.IsAck(t.f)) && (Filters(n.b, t) ==> t.flag)
      && (Reads(n.b, t) ==> if air then n.ab != [] && Carries(n.ab[0], Arrived(t.bytes))
                           else OtherSource(f, Arrived(t.bytes), n.quiet))
    case LoseAB(i) => i < |n.ab|
    case LoseBA(i) => i < |n.ba|
  }

  function Do(f: Frame, n: Net, m: Move): Net
    requires Packet.HasSrc(f) && Can(f, n, m)
  {
    match m
    case AtA(t, air) =>
      n.(a := Apply(n.a, t),
         ab := if Transmits(n.a, t) then n.ab + [OnAir(n.a)] else n.ab,
         ba := if Reads(n.a, t) && air then n.ba[1..] else n.ba)
    case AtB(t, air) =>
      var popped := Reads(n.b, t) && air;
      n.(b := Apply(n.b, t),
         ba := if Transmits(n.b, t) then n.ba + [OnAir(n.b)] else n.ba,
         ab := if popped then n.ab[1..] else n.ab,
         stale := if popped && n.stale > 0 then n.stale - 1 else n.stale,
         count := n.count + B(Filters(n.b, t) && HandsUp(f, n.b)))
    case LoseAB(i) => n.(ab := Drop(n.ab, i), stale := if i < n.stale then n.stale - 1 else n.stale)
    case LoseBA(i) => n.(ba := Drop(n.ba, i))
  }

  /** B's filter is about to hand the write's frame up. */
  predicate HandsUp(f: Frame, b: State)
    requires Packet.HasSrc(f)
  {
    && Packet.GetSrc(b.sack.rxBuf) == Packet.GetSrc(f) && Packet.Dsn(b.sack.rxBuf) == Packet.Dsn(f)
    && Unique.OnRx(b.nodes, Packet.GetSrc(f), Packet.Dsn(f), true).1
  }

  // ---------- the invariant of the session ----------

  /** What B's chain may hold: the write's frame, then nothing older is in flight; a frame that cannot
      be mistaken for it; or an older frame with another number, then the frame is not up yet. */
  predicate Class(f: Frame, r: seq<u8>, stale: nat, count: nat, quiet: bool)
    requires Packet.HasSrc(f)
  {
    || (Copy(f, r) && stale == 0)
    || OtherSource(f, r, quiet)
    || (|r| >= 4 && Packet.Dsn(r) != Packet.Dsn(f) && count == 0)
  }

  /** B has handed the frame up, or its chain holds it past the ACK; third nodes can only spoil this. */
  predicate Got(f: Frame, b: State, count: nat, quiet: bool)
  {
    !quiet || count == 1 || (Answered(b.rxCalls) && Copy(f, Held(b)))
  }

  predicate AirAB(f: Frame, ab: seq<seq<u8>>, stale: nat)
  {
    && stale <= |ab|
    && forall i :: 0 <= i < |ab| ==>
         |ab[i]| >= 4 && (Packet.IsAck(ab[i]) || if i < stale then Packet.Dsn(ab[i]) != Packet.Dsn(f) else ab[i] == f)
  }

  predicate AirBA(f: Frame, ba: seq<seq<u8>>, got: bool)
  {
    got || forall i :: 0 <= i < |ba| ==> !AckFor(f, ba[i])
  }

  predicate SideA(f: Frame, a: State, got: bool)
  {
    && ((a.copying == [f] && a.waiting == []) || (a.copying == [] && (a.waiting == [f] || a.waiting == [])))
    && (got || !Holding(a.rxCalls) || !AckFor(f, Held(a)))
    && (got || a.waiting == [] || !Heard(a.log, Packet.Dsn(f)))
  }

  predicate SideB(f: Frame, b: State, stale: nat, count: nat, quiet: bool)
    requires Packet.HasSrc(f)
  {
    && count <= 1 && (count == 1 ==> stale == 0)
    && (count == 1 <==> Known(f, b.nodes))
    && (Holding(b.rxCalls) ==> Class(f, Held(b), stale, count, quiet))
    && (b.txMsgs == [MsgOff] && AckFor(f, OnAir(b)) ==> Got(f, b, count, quiet))
    && (forall i :: 0 <= i < |b.copying| ==> !Packet.IsAck(b.copying[i]))
    && (forall i :: 0 <= i < |b.waiting| ==> !Packet.IsAck(b.waiting[i]))
  }

  /** B's filter last heard f's source with f's number. */
  predicate Known(f: Frame, nodes: seq<Unique.Entry>)
    requires Packet.HasSrc(f)
  {
    var m := Unique.Table(nodes);
    Packet.GetSrc(f) in m && m[Packet.GetSrc(f)] == Packet.Dsn(f)
  }

  ghost predicate NetInv(f: Frame, n: Net)
    requires Packet.HasSrc(f)
  {
    && Inv(n.a) && Inv(n.b)
    && AirAB(f, n.ab, n.stale) && AirBA(f, n.ba, Got(f, n.b, n.count, n.quiet))
    && SideA(f, n.a, Got(f, n.b, n.count, n.quiet)) && SideB(f, n.b, n.stale, n.count, n.quiet)
  }
}
