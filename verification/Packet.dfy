/** packet.c: header predicates, ACK construction and source address extraction. */
module Packet {
  import opened Bytes

  const ACK_LENGTH: u8 := 5       // IEEE154_ACK_FRAME_LENGTH
  const ACK_BUF_SIZE: nat := 6    // IEEE154_ACK_FRAME_LENGTH + 1

  /** The 16-bit frame control field, little-endian after the length byte. */
  function Fcf(b: seq<u8>): u16
    requires |b| >= 4
  {
    (b[1] as int) + 256 * (b[2] as int)
  }

  function Dsn(b: seq<u8>): u8
    requires |b| >= 4
  {
    b[3]
  }

  // cc2520_packet_requires_ack_reply and cc2520_packet_requires_ack_wait are the same test.
  predicate RequiresAck(b: seq<u8>)
    requires |b| >= 4
  {
    (Fcf(b) / 32) % 2 == 1
  }

  predicate IsAck(b: seq<u8>)
    requires |b| >= 4
  {
    Fcf(b) % 8 == 2
  }

  predicate IsAckTo(pending: seq<u8>, buf: seq<u8>)
    requires |pending| >= 4 && |buf| >= 4
  {
    Dsn(buf) == Dsn(pending)
  }

  function CreateAck(pkt: seq<u8>, buf: seq<u8>): (r: seq<u8>)
    requires |pkt| >= 4 && |buf| >= 4
    ensures |r| == |buf|
  {
    [ACK_LENGTH, 2, 0, Dsn(pkt)] + buf[4..]
  }

  method CreateAckInto(pkt: array<u8>, buf: array<u8>)
    requires pkt.Length >= 4 && buf.Length >= 4 && pkt != buf
    modifies buf
    ensures buf[..] == CreateAck(pkt[..], old(buf[..]))
  {
    var dsn := pkt[3];
    buf[1], buf[2] := 2, 0;
    buf[3] := dsn;
    buf[0] := ACK_LENGTH;
    assert buf[4..] == old(buf[4..]);
  }

  /** Frames that agree on their header bytes get the same answers from every header test. */
  lemma SameHeader(a: seq<u8>, b: seq<u8>, n: nat)
    requires 4 <= n <= |a| && n <= |b| && a[..n] == b[..n]
    ensures Fcf(a) == Fcf(b) && Dsn(a) == Dsn(b)
    ensures RequiresAck(a) == RequiresAck(b) && IsAck(a) == IsAck(b)
  {
  }

  /** The ACK built for a frame is recognised as one, matches that frame and no frame with another
      sequence number, and never asks for an ACK itself (section 5.2.2.3 of IEEE 802.15.4-2011). */
  lemma AckRecognised(pkt: seq<u8>, buf: seq<u8>, other: seq<u8>)
    requires |pkt| >= 4 && |buf| >= 4 && |other| >= 4
    ensures var ack := CreateAck(pkt, buf);
            && IsAck(ack) && !RequiresAck(ack) && ack[0] == ACK_LENGTH
            && (IsAckTo(ack, other) <==> Dsn(other) == Dsn(pkt))
  {
  }

  // ---------- source address ----------

  const ADDR_SHORT := 2
  const ADDR_EXT := 3

  function SrcMode(fcf: u16): nat { (fcf / 0x4000) % 4 }
  function DestMode(fcf: u16): nat { (fcf / 0x400) % 4 }
  predicate PanCompression(fcf: u16) { (fcf / 0x40) % 2 == 1 }

  /** Where the source address starts, given the frame control field. */
  function SrcOffset(fcf: u16): (o: nat)
    ensures o <= 16
  {
    (match DestMode(fcf)
     case 2 => 8
     case 3 => 14
     case _ => if PanCompression(fcf) then 6 else 4)
    + (if SrcMode(fcf) >= ADDR_SHORT && !PanCompression(fcf) then 2 else 0)
  }

  function SrcWidth(fcf: u16): (w: nat)
    ensures w <= 8
  {
    match SrcMode(fcf) case 2 => 2 case 3 => 8 case _ => 0
  }

  /** The whole source address the frame control field announces is there. */
  predicate HasSrc(b: seq<u8>)
    requires |b| >= 4
  {
    SrcWidth(Fcf(b)) == 0 || |b| >= SrcOffset(Fcf(b)) + SrcWidth(Fcf(b))
  }

  /** What cc2520_packet_get_src computes: the source address as a number, 0 when absent. */
  function GetSrc(b: seq<u8>): nat
    requires |b| >= 4 && HasSrc(b)
  {
    var o, w := SrcOffset(Fcf(b)), SrcWidth(Fcf(b));
    if w == 0 then 0 else FromLE(b[o .. o + w])
  }

  /** cc2520_packet_get_src: moves a local offset past the destination, then copies the address. */
  method GetSrcInto(buf: array<u8>) returns (src: nat)
    requires buf.Length >= 24
    ensures src == GetSrc(buf[..])
  {
    var fcf: u16 := (buf[1] as int) + 256 * (buf[2] as int);
    var srcMode := (fcf / 0x4000) % 4;
    var destMode := (fcf / 0x400) % 4;
    var panCompression := (fcf / 0x40) % 2 == 1;
    var offset := 4;
    if destMode == ADDR_SHORT {
      offset := offset + 4;
    } else if destMode == ADDR_EXT {
      offset := offset + 10;
    } else if panCompression {
      offset := offset + 2;
    }
    src := 0;
    if srcMode == ADDR_SHORT {
      if !panCompression { offset := offset + 2; }
      src := FromLE(buf[offset .. offset + 2]);
    } else if srcMode == ADDR_EXT {
      if !panCompression { offset := offset + 2; }
      src := FromLE(buf[offset .. offset + 8]);
    }
    assert fcf == Fcf(buf[..]) && offset <= 16;
    if srcMode >= ADDR_SHORT {
      var w := SrcWidth(fcf);
      assert offset == SrcOffset(fcf) && buf[offset .. offset + w] == buf[..][offset .. offset + w];
    }
  }

  datatype Addr = NoAddr | Short(a: u16) | Ext(e: u64)
  {
    function Mode(): nat { match this case NoAddr => 0 case Short(_) => 2 case Ext(_) => 3 }
    function Value(): nat { match this case NoAddr => 0 case Short(v) => v case Ext(v) => v }
    function Encode(): seq<u8> {
      match this case NoAddr => [] case Short(v) => ToLE(v, 2) case Ext(v) => ToLE(v, 8)
    }
  }

  const ACK_TYPE := 2

  function Bit(c: bool): nat { if c then 1 else 0 }

  /** A MAC header as section 5.2.1.1 of IEEE 802.15.4-2011 lays it out; `mid` holds the reserved bits. */
  datatype Header = Header(len: u8, kind: nat, security: bool, pending: bool, ackRequest: bool, compress: bool,
                           mid: nat, version: nat, dsn: u8, destPan: u16, dest: Addr, srcPan: u16, src: Addr)
  {
    predicate Valid() { kind < 8 && mid < 8 && version < 4 }

    function FcfOf(): u16
      requires Valid()
    {
      kind + 8 * Bit(security) + 0x10 * Bit(pending) + 0x20 * Bit(ackRequest) + 0x40 * Bit(compress) + 0x80 * mid
      + 0x400 * dest.Mode() + 0x1000 * version + 0x4000 * src.Mode()
    }

    // The source PAN is left out only when compression is on and a destination PAN stands in for it.
    function Addresses(): seq<u8> {
      (if dest.NoAddr? then [] else ToLE(destPan, 2) + dest.Encode())
      + (if src.NoAddr? || (compress && !dest.NoAddr?) then [] else ToLE(srcPan, 2))
      + src.Encode()
    }

    function Encode(): seq<u8>
      requires Valid()
    {
      [len, FcfOf() % 256, FcfOf() / 256, dsn] + Addresses()
    }
  }

  lemma FcfFields(h: Header)
    requires h.Valid()
    ensures SrcMode(h.FcfOf()) == h.src.Mode() && DestMode(h.FcfOf()) == h.dest.Mode()
    ensures PanCompression(h.FcfOf()) == h.compress
    ensures (h.FcfOf() / 32) % 2 == Bit(h.ackRequest) && h.FcfOf() % 8 == h.kind
  {
    var f := h.FcfOf();
    var high := h.mid + 8 * (f / 0x400);
    assert f / 0x4000 == h.src.Mode();
    assert f / 0x400 == h.dest.Mode() + 4 * h.version + 16 * h.src.Mode();
    assert f / 0x40 == Bit(h.compress) + 2 * high;
    assert f / 0x20 == Bit(h.ackRequest) + 2 * (f / 0x40);
    assert f / 8 == Bit(h.security) + 2 * Bit(h.pending) + 4 * (f / 0x20);
  }

  /** Source extraction inverts the header layout, whatever follows the header, for every mix of
      destination mode, source mode and PAN compression, the compressed header without a destination
      included. The key is the address as a number: its PAN and its width do not enter. */
  lemma SrcRoundTrip(h: Header, payload: seq<u8>)
    requires h.Valid()
    ensures var b := h.Encode() + payload;
            Fcf(b) == h.FcfOf() && Dsn(b) == h.dsn && HasSrc(b) && GetSrc(b) == h.src.Value()
  {
    var b := h.Encode() + payload;
    FcfFields(h);
    assert b[1] == h.FcfOf() % 256 && b[2] == h.FcfOf() / 256 && b[3] == h.dsn;
    if !h.src.NoAddr? {
      var o, w := SrcOffset(Fcf(b)), SrcWidth(Fcf(b));
      assert |h.Addresses()| == o - 4 + w;
      assert b[o .. o + w] == h.src.Encode();
      assert Pow256(2) == 0x1_0000;
      Pow64();
      RoundTripLE(h.src.Value(), w);
    }
  }

  /** The header tests read the fields they are named for, whatever the rest of the frame holds: a frame asks
      for an ACK if and only if its ACK request field is set (section 5.2.1.1.4), and it is an ACK if and
      only if its frame type says so (section 5.2.1.1.1). */
  lemma FlagsRoundTrip(h: Header, payload: seq<u8>)
    requires h.Valid()
    ensures var b := h.Encode() + payload;
            (RequiresAck(b) <==> h.ackRequest) && (IsAck(b) <==> h.kind == ACK_TYPE)
  {
    SrcRoundTrip(h, payload);
    FcfFields(h);
  }

  /** The ACK the driver builds is the header of an ACK frame as section 5.2.2.3 lays it out. */
  lemma AckLayout(pkt: seq<u8>, buf: seq<u8>)
    requires |pkt| >= 4 && |buf| >= 4
    ensures var h := Header(ACK_LENGTH, ACK_TYPE, false, false, false, false, 0, 0, Dsn(pkt), 0, NoAddr, 0, NoAddr);
            CreateAck(pkt, buf)[..4] == h.Encode()
  {
    var h := Header(ACK_LENGTH, ACK_TYPE, false, false, false, false, 0, 0, Dsn(pkt), 0, NoAddr, 0, NoAddr);
    assert h.FcfOf() == 2;
  }
}
