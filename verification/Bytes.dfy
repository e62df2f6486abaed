/** Bytes, buffers and kernel timers: the machine-level vocabulary shared by every layer. */
module Bytes {

  type u8 = x: int | 0 <= x < 0x100
  type u16 = x: int | 0 <= x < 0x1_0000
  type u64 = x: int | 0 <= x < 0x1_0000_0000_0000_0000

  const PKT_BUFF_SIZE: nat := 127
  const SPI_BUFF_SIZE: nat := 256

  /** A frame buffer as every layer allocates it. */
  type Buffer = b: seq<u8> | |b| == PKT_BUFF_SIZE witness seq(PKT_BUFF_SIZE, i => 0)

  /** A frame to transmit: length byte, frame control field, sequence number, rest. */
  type Frame = f: seq<u8> | 4 <= |f| <= PKT_BUFF_SIZE witness [0, 0, 0, 0]

  // Status codes travel as u8, so a negated error code arrives as its value modulo 256.
  const TX_SUCCESS: u8 := 0
  const TX_BUSY: u8 := 255         // -CC2520_TX_BUSY
  const TX_ACK_TIMEOUT: u8 := 253  // -CC2520_TX_ACK_TIMEOUT
  const TX_FAILED: u8 := 252       // -CC2520_TX_FAILED

  /** memcpy(dst, src, n): the first n bytes are replaced, the rest of dst stays. */
  function Memcpy(dst: seq<u8>, src: seq<u8>, n: nat): (r: seq<u8>)
    requires n <= |dst| && n <= |src|
    ensures |r| == |dst| && r[..n] == src[..n] && r[n..] == dst[n..]
  {
    src[..n] + dst[n..]
  }

  method CopyInto(dst: array<u8>, src: array<u8>, n: nat)
    requires dst != src && n <= dst.Length && n <= src.Length
    modifies dst
    ensures dst[..] == Memcpy(old(dst[..]), src[..], n)
  {
    var i := 0;
    while i < n
      invariant 0 <= i <= n
      invariant dst[..i] == src[..i]
      invariant dst[i..] == old(dst[i..])
    {
      dst[i] := src[i];
      i := i + 1;
    }
    assert dst[..] == dst[..n] + dst[n..];
  }

  /** Little-endian value of a byte string. */
  function FromLE(b: seq<u8>): (v: nat)
  {
    if b == [] then 0 else b[0] + 256 * FromLE(b[1..])
  }

  /** The n low-order bytes of v, least significant first. */
  function ToLE(v: nat, n: nat): (b: seq<u8>)
    ensures |b| == n
  {
    if n == 0 then [] else [v % 256] + ToLE(v / 256, n - 1)
  }

  function Pow256(n: nat): (p: nat)
    ensures p > 0
  {
    if n == 0 then 1 else 256 * Pow256(n - 1)
  }

  lemma Pow64()
    ensures Pow256(8) == 0x1_0000_0000_0000_0000
  {
    assert Pow256(4) == 256 * 256 * 256 * 256 && Pow256(6) == 256 * 256 * Pow256(4);
  }

  lemma {:induction false} RoundTripLE(v: nat, n: nat)
    requires v < Pow256(n)
    ensures FromLE(ToLE(v, n)) == v
  {
    if n > 0 {
      RoundTripLE(v / 256, n - 1);
      assert ToLE(v, n)[1..] == ToLE(v / 256, n - 1);
    }
  }

  /** A one-shot hrtimer: queued to fire, and/or its callback started but not yet past its lock. */
  datatype Timer = Timer(armed: bool, running: bool)
  {
    function Start(): Timer { this.(armed := true) }
    predicate CanFire() { armed && !running }
    function Fire(): Timer { Timer(false, true) }
    function Finish(): Timer { this.(running := false) }
    // hrtimer_cancel waits for a running callback, so it acts only when none runs.
    function Cancel(): Timer requires !running { this.(armed := false) }
  }

  const OFF := Timer(false, false)
}

/** Activities in progress: pending calls, SPI messages, threads. A list, any entry of which may move next. */
module Bags {

  function Drop<T>(m: seq<T>, i: nat): (r: seq<T>)
    requires i < |m|
    ensures |r| == |m| - 1
  {
    m[..i] + m[i + 1..]
  }

  /** x is the one activity of its kind. */
  predicate Only<T(==)>(m: seq<T>, x: T) { |m| == 1 && m[0] == x }

  function B(c: bool): nat { if c then 1 else 0 }
}
