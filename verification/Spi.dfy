/** The command bytes radio.c sends over SPI and what the CC2520 makes of them. One transfer is one
    chip-select period: TXBUF, RXBUF and the register and memory commands run to its end. */
module Spi {
  import opened Bytes

  const SFLUSHRX: u8 := 0x47
  const SFLUSHTX: u8 := 0x48
  const STXON: u8 := 0x43
  const RXBUF: u8 := 0x30
  const TXBUF: u8 := 0x3A
  const MEMORY_WRITE: u8 := 0x20
  const REGISTER_READ: u8 := 0x80
  const REGISTER_WRITE: u8 := 0xC0
  const EXCFLAG0: u8 := 0x10
  const FREG_MASK: u8 := 0x3F
  const MEM_ADDR_BASE: nat := 0x3EA

  type Transfer = seq<u8>

  /** A command strobe and how many bytes the TX FIFO held when it came. */
  datatype Strobe = Strobe(cmd: u8, fifo: nat)

  datatype Chip = Chip(txFifo: seq<u8>, rxFifo: seq<u8>, mem: map<nat, u8>, strobes: seq<Strobe>)

  function Peek(c: Chip, a: nat): u8 { if a in c.mem then c.mem[a] else 0 }

  /** The byte a block placed at address a puts at address x. */
  function ByteAt(a: nat, data: seq<u8>, x: nat): u8
    requires a <= x < a + |data|
  {
    data[x - a]
  }

  function Poke(mem: map<nat, u8>, a: nat, data: seq<u8>): map<nat, u8>
  {
    mem + map x: nat | a <= x < a + |data| :: ByteAt(a, data, x)
  }

  /** One transfer: the chip afterwards. */
  function Exec(c: Chip, t: Transfer): Chip
    decreases |t|
  {
    if t == [] then c
    else if t[0] == TXBUF then c.(txFifo := c.txFifo + t[1..])
    else if t[0] == RXBUF then
      c.(rxFifo := if |t| - 1 <= |c.rxFifo| then c.rxFifo[|t| - 1..] else [])
    else if t[0] >= REGISTER_WRITE then c.(mem := Poke(c.mem, t[0] - REGISTER_WRITE, t[1..]))
    else if t[0] >= REGISTER_READ then c
    else if MEMORY_WRITE <= t[0] < RXBUF then
      if |t| < 2 then c else c.(mem := Poke(c.mem, (t[0] - MEMORY_WRITE) * 256 + t[1], t[2..]))
    else
      var d := c.(strobes := c.strobes + [Strobe(t[0], |c.txFifo|)]);
      Exec(if t[0] == SFLUSHRX then d.(rxFifo := []) else if t[0] == SFLUSHTX then d.(txFifo := []) else d, t[1..])
  }

  function ExecAll(c: Chip, ts: seq<Transfer>): Chip
    decreases |ts|
  {
    if ts == [] then c else ExecAll(Exec(c, ts[0]), ts[1..])
  }

  /** The byte the chip drives while it receives byte k of a transfer that reads registers or the RX FIFO. */
  function Reply(c: Chip, t: Transfer, k: nat): u8
    requires 1 <= k < |t|
  {
    if t[0] == RXBUF then (if k <= |c.rxFifo| then c.rxFifo[k - 1] else 0)
    else if REGISTER_READ <= t[0] < REGISTER_WRITE then Peek(c, t[0] - REGISTER_READ + k - 1)
    else 0
  }

  // ---------- the transfers radio.c builds ----------

  function Head(frame: seq<u8>, fifoHigh: bool): Transfer
    requires |frame| >= 3
  {
    (if fifoHigh then [SFLUSHRX] else []) + [TXBUF] + frame[..3]
  }

  function Body(frame: seq<u8>): seq<Transfer>
    requires |frame| >= 3
  {
    if |frame| > 3 then [[TXBUF] + frame[3..]] else []
  }

  function Status(): Transfer { [REGISTER_READ + EXCFLAG0, 0] }

  function TxTransfers(frame: seq<u8>, fifoHigh: bool): (ts: seq<Transfer>)
    requires |frame| >= 3
  {
    [Head(frame, fifoHigh), [STXON]] + Body(frame) + [Status()]
  }

  lemma Load(c: Chip, data: seq<u8>)
    ensures Exec(c, [TXBUF] + data) == c.(txFifo := c.txFifo + data)
  {
    assert ([TXBUF] + data)[1..] == data;
  }

  lemma {:induction false} ExecAllTail(c: Chip, t: Transfer, ts: seq<Transfer>)
    ensures ExecAll(c, [t] + ts) == ExecAll(Exec(c, t), ts)
  {
    assert ([t] + ts)[1..] == ts;
  }

  /** The stream loads exactly the frame, turns the transmitter on after its first three bytes, flushes
      the RX FIFO first if and only if it was not empty, and its last byte reads EXCFLAG0. */
  lemma TxStream(c: Chip, frame: seq<u8>, fifoHigh: bool)
    requires |frame| >= 3
    ensures var ts := TxTransfers(frame, fifoHigh); var d := ExecAll(c, ts);
            && d.txFifo == c.txFifo + frame
            && d.rxFifo == (if fifoHigh then [] else c.rxFifo)
            && d.mem == c.mem
            && d.strobes == c.strobes + (if fifoHigh then [Strobe(SFLUSHRX, |c.txFifo|)] else [])
                            + [Strobe(STXON, |c.txFifo| + 3)]
            && Reply(d, ts[|ts| - 1], 1) == Peek(c, EXCFLAG0)
  {
    var rest := Body(frame) + [Status()];
    var c1 := FirstTransfer(c, frame[..3], fifoHigh);
    var c2 := c1.(strobes := c1.strobes + [Strobe(STXON, |c1.txFifo|)]);
    assert Exec(c1, [STXON]) == c2 by { assert [STXON][1..] == []; }
    ExecAllTail(c, Head(frame, fifoHigh), [[STXON]] + rest);
    ExecAllTail(c1, [STXON], rest);
    assert TxTransfers(frame, fifoHigh) == [Head(frame, fifoHigh)] + ([[STXON]] + rest);
    BodyDecodes(c2, c.txFifo, frame);
  }

  lemma FirstTransfer(c: Chip, head: seq<u8>, fifoHigh: bool) returns (d: Chip)
    ensures d == Exec(c, (if fifoHigh then [SFLUSHRX] else []) + [TXBUF] + head)
    ensures d.txFifo == c.txFifo + head && d.mem == c.mem
    ensures d.rxFifo == (if fifoHigh then [] else c.rxFifo)
    ensures d.strobes == c.strobes + (if fifoHigh then [Strobe(SFLUSHRX, |c.txFifo|)] else [])
  {
    var t := (if fifoHigh then [SFLUSHRX] else []) + [TXBUF] + head;
    d := Exec(c, t);
    if fifoHigh {
      var e := c.(rxFifo := [], strobes := c.strobes + [Strobe(SFLUSHRX, |c.txFifo|)]);
      assert t[1..] == [TXBUF] + head;
      Load(e, head);
    } else {
      assert t == [TXBUF] + head;
      Load(c, head);
    }
  }

  lemma BodyDecodes(c: Chip, before: seq<u8>, frame: seq<u8>)
    requires |frame| >= 3 && c.txFifo == before + frame[..3]
    ensures ExecAll(c, Body(frame) + [Status()]) == c.(txFifo := before + frame)
  {
    var d := c.(txFifo := before + frame);
    assert ExecAll(d, [Status()]) == d by { assert [Status()] == [Status()] + []; ExecAllTail(d, Status(), []); }
    if |frame| > 3 {
      var t := [TXBUF] + frame[3..];
      Load(c, frame[3..]);
      assert c.txFifo + frame[3..] == before + frame;
      ExecAllTail(c, t, [Status()]);
    } else {
      assert Body(frame) + [Status()] == [Status()] && frame[..3] == frame;
    }
  }

  /** cc2520_radio_flushTx: afterwards the TX FIFO is empty and the exception flags are clear. */
  function FlushTxTransfer(): Transfer { [SFLUSHTX, REGISTER_WRITE + EXCFLAG0, 0] }

  lemma FlushTxDecodes(c: Chip)
    ensures var d := Exec(c, FlushTxTransfer()); d.txFifo == [] && d.rxFifo == c.rxFifo && Peek(d, EXCFLAG0) == 0
  {
  }

  /** The command that reads n bytes of the RX FIFO. */
  function RxTransfer(n: nat): Transfer { [RXBUF] + seq(n, i => 0) }

  /** Reading a frame recovers it: the length byte first, then the body byte for byte, and what came after it
      stays in the FIFO. */
  lemma RxStream(c: Chip, len: u8, body: seq<u8>, rest: seq<u8>, k: nat)
    requires c.rxFifo == [len] + body + rest && |body| == len && 1 <= k <= len
    ensures var c1 := Exec(c, RxTransfer(1)); var c2 := Exec(c1, RxTransfer(len));
            && Reply(c, RxTransfer(1), 1) == len && Reply(c1, RxTransfer(len), k) == body[k - 1]
            && c2 == c.(rxFifo := rest)
  {
    var c1 := Exec(c, RxTransfer(1));
    assert c1.rxFifo == body + rest;
    assert Exec(c1, RxTransfer(len)).rxFifo == rest;
  }

  /** cc2520_radio_flushRx, and its second part: the RX FIFO is empty, all else is as it was. */
  function FlushRxTransfer(): Transfer { [SFLUSHRX] }

  lemma FlushRxDecodes(c: Chip)
    ensures var d := Exec(c, FlushRxTransfer()); d.rxFifo == [] && d.txFifo == c.txFifo && d.mem == c.mem
  {
    assert FlushRxTransfer()[1..] == [];
  }

  function RegisterTransfer(reg: u8, value: u8): Transfer
  {
    if reg <= FREG_MASK then [REGISTER_WRITE + reg, value] else [MEMORY_WRITE, reg, value]
  }

  /** A register write stores the value at the register's address and nothing else, for the
      directly addressed registers and for those reached through a memory write. */
  lemma RegisterDecodes(c: Chip, reg: u8, value: u8, other: nat)
    requires other != reg
    ensures var d := Exec(c, RegisterTransfer(reg, value));
            && Peek(d, reg) == value && Peek(d, other) == Peek(c, other)
            && d.txFifo == c.txFifo && d.rxFifo == c.rxFifo && d.strobes == c.strobes
  {
  }

  function MemoryTransfer(addr: nat, data: seq<u8>): Transfer
    requires addr < 0x1000
  {
    [MEMORY_WRITE + addr / 256, addr % 256] + data
  }

  /** A memory write recovers any 12-bit address and all its data, and touches nothing else. */
  lemma MemoryDecodes(c: Chip, addr: nat, data: seq<u8>, a: nat)
    requires addr < 0x1000
    ensures var d := Exec(c, MemoryTransfer(addr, data));
            && Peek(d, a) == (if addr <= a < addr + |data| then data[a - addr] else Peek(c, a))
            && d.txFifo == c.txFifo && d.rxFifo == c.rxFifo && d.strobes == c.strobes
  {
  }

  function AddressBlock(short: u16, ext: u64, pan: u16): (b: seq<u8>)
    ensures |b| == 12
  {
    ToLE(ext, 8) + [pan % 256, pan / 256] + [short % 256, short / 256]
  }

  function PeekRange(c: Chip, a: nat, n: nat): (r: seq<u8>)
    ensures |r| == n && forall i :: 0 <= i < n ==> r[i] == Peek(c, a + i)
    decreases n
  {
    if n == 0 then [] else [Peek(c, a)] + PeekRange(c, a + 1, n - 1)
  }

  /** Setting the address leaves the three addresses in chip memory, little-endian, at their places. */
  lemma AddressDecodes(c: Chip, short: u16, ext: u64, pan: u16)
    ensures var d := Exec(c, MemoryTransfer(MEM_ADDR_BASE, AddressBlock(short, ext, pan)));
            && FromLE(PeekRange(d, MEM_ADDR_BASE, 8)) == ext
            && FromLE(PeekRange(d, MEM_ADDR_BASE + 8, 2)) == pan
            && FromLE(PeekRange(d, MEM_ADDR_BASE + 10, 2)) == short
  {
    hide Exec, MemoryTransfer, Peek, FromLE, ToLE, PeekRange, AddressBlock;
    BlockDecodes(c, short, ext, pan);
    Pow64();
    RoundTripLE(ext, 8);
    Pair(pan % 256, pan / 256);
    Pair(short % 256, short / 256);
  }

  lemma BlockDecodes(c: Chip, short: u16, ext: u64, pan: u16)
    ensures var d := Exec(c, MemoryTransfer(MEM_ADDR_BASE, AddressBlock(short, ext, pan)));
            && PeekRange(d, MEM_ADDR_BASE, 8) == ToLE(ext, 8)
            && PeekRange(d, MEM_ADDR_BASE + 8, 2) == [pan % 256, pan / 256]
            && PeekRange(d, MEM_ADDR_BASE + 10, 2) == [short % 256, short / 256]
  {
    hide Exec, MemoryTransfer, Peek, ToLE, PeekRange;
    var b := AddressBlock(short, ext, pan);
    forall a { MemoryDecodes(c, MEM_ADDR_BASE, b, a); }
  }

  lemma Pair(lo: u8, hi: u8)
    ensures FromLE([lo, hi]) == (lo as int) + 256 * (hi as int)
  {
    assert [lo, hi][1..] == [hi] && [hi][1..] == [];
    assert FromLE([hi]) == hi;
  }
}
