/** radio.c: the exclusive radio lock with its two-stage release, the transmit buffer, and the
    receive gate; and the engine that fills the SPI buffers. */
module Radio {
  import opened Bytes
  import Spi

  datatype RadioState = Idle | Tx | TxSfdDone | TxSpiDone | Tx2Rx | Config

  datatype Vars = Vars(state: RadioState, txBuf: Buffer, txLen: nat,
                       pendingRx: bool, rxLocked: bool, rxIn: seq<u8>, rxBuf: Buffer)

  /** cc2520_radio_tx_unlock_spi: the new state and whether this is the last of the two stages. */
  function UnlockSpi(st: RadioState): (RadioState, bool)
  {
    match st
    case Tx => (TxSpiDone, false)
    case TxSfdDone => (Tx2Rx, true)
    case _ => (st, false)
  }

  /** cc2520_radio_tx_unlock_sfd. */
  function UnlockSfd(st: RadioState): (RadioState, bool)
  {
    match st
    case Tx => (TxSfdDone, false)
    case TxSpiDone => (Tx2Rx, true)
    case _ => (st, false)
  }

  function OnCopy(v: Vars, src: seq<u8>, len: nat): Vars
    requires len <= |src| && len <= PKT_BUFF_SIZE
  {
    v.(txBuf := Memcpy(v.txBuf, src, len), txLen := len)
  }

  /** The received frame as passed up: its length byte, then that many bytes off the SPI bus. */
  function OnReceived(v: Vars, len: u8): Vars
    requires len < PKT_BUFF_SIZE && len + 1 <= |v.rxIn|
  {
    v.(rxBuf := [len] + v.rxIn[1..len + 1] + v.rxBuf[len + 1..])
  }

  /** A stretch of the SPI buffer handed over as one transfer. */
  datatype Segment = Segment(off: nat, len: nat)

  /** Segments one right after the other from offset 0, inside the SPI buffer. */
  predicate Adjacent(g: seq<Segment>)
  {
    && g != [] && g[0].off == 0
    && (forall i :: 0 < i < |g| ==> g[i].off == g[i - 1].off + g[i - 1].len)
    && (forall i :: 0 <= i < |g| ==> g[i].off + g[i].len <= SPI_BUFF_SIZE)
  }

  function Slices(buf: seq<u8>, g: seq<Segment>): seq<Spi.Transfer>
    requires Adjacent(g) && |buf| == SPI_BUFF_SIZE
  {
    seq(|g|, i requires 0 <= i < |g| => buf[g[i].off..g[i].off + g[i].len])
  }

  lemma Layout(buf: seq<u8>, a: seq<u8>, b: seq<u8>, c: seq<u8>, d: seq<u8>)
    requires |buf| == SPI_BUFF_SIZE && |a| + |b| + |c| + |d| <= |buf|
    requires buf[..|a| + |b| + |c| + |d|] == a + b + c + d
    ensures var g := [Segment(0, |a|), Segment(|a|, |b|), Segment(|a| + |b|, |c|), Segment(|a| + |b| + |c|, |d|)];
            Adjacent(g) && Slices(buf, g) == [a, b, c, d]
  {
    var all := a + b + c + d;
    assert buf[0..|a|] == all[..|a|] == a;
    assert buf[|a|..|a| + |b|] == all[|a|..|a| + |b|] == b;
    assert buf[|a| + |b|..|a| + |b| + |c|] == all[|a| + |b|..|a| + |b| + |c|] == c;
    assert buf[|a| + |b| + |c|..|all|] == all[|a| + |b| + |c|..|all|] == d;
  }

  lemma ShortLayout(buf: seq<u8>, a: seq<u8>, b: seq<u8>, d: seq<u8>)
    requires |buf| == SPI_BUFF_SIZE && |a| + |b| + |d| <= |buf| && buf[..|a| + |b| + |d|] == a + b + d
    ensures var g := [Segment(0, |a|), Segment(|a|, |b|), Segment(|a| + |b|, |d|)];
            Adjacent(g) && Slices(buf, g) == [a, b, d]
  {
    var all := a + b + d;
    assert buf[0..|a|] == all[..|a|] == a;
    assert buf[|a|..|a| + |b|] == all[|a|..|a| + |b|] == b;
    assert buf[|a| + |b|..|all|] == all[|a| + |b|..|all|] == d;
  }

  /** Place bytes src[from..to] in the SPI buffer at off. */
  method Fill(out: array<u8>, off: nat, src: array<u8>, from: nat, to: nat)
    requires src != out && from <= to <= src.Length && off + (to - from) <= out.Length
    modifies out
    ensures out[..off + (to - from)] == old(out[..off]) + src[from..to]
  {
    var i := from;
    while i < to
      invariant from <= i <= to
      invariant out[..off + (i - from)] == old(out[..off]) + src[from..i]
    {
      out[off + (i - from)] := src[i];
      assert src[from..i + 1] == src[from..i] + [src[i]];
      i := i + 1;
    }
  }

  method Put(out: array<u8>, off: nat, b: u8)
    requires off < out.Length
    modifies out
    ensures out[..off + 1] == old(out[..off]) + [b]
  {
    out[off] := b;
  }

  /** The first transfer: the header, behind a flush if the RX FIFO is not empty. */
  method LayOutHead(out: array<u8>, r: array<u8>, fifoHigh: bool) returns (off: nat)
    requires out != r && out.Length == SPI_BUFF_SIZE && r.Length == PKT_BUFF_SIZE
    modifies out
    ensures off <= 5 && out[..off] == (if fifoHigh then [Spi.SFLUSHRX] else []) + [Spi.TXBUF] + r[..][..3]
  {
    off := 0;
    if fifoHigh {
      Put(out, off, Spi.SFLUSHRX);
      off := off + 1;
    }
    Put(out, off, Spi.TXBUF);
    off := off + 1;
    Fill(out, off, r, 0, 3);
    off := off + 3;
    assert r[0..3] == r[..][..3];
  }

  /** The third transfer: the rest of the frame, if there is any. */
  method LayOutBody(out: array<u8>, from: nat, r: array<u8>, len: nat) returns (off: nat)
    requires out != r && out.Length == SPI_BUFF_SIZE && from <= 6 && len <= r.Length == PKT_BUFF_SIZE
    modifies out
    ensures off == (if len > 3 then from + len - 2 else from)
    ensures out[..off] == old(out[..from]) + (if len > 3 then [Spi.TXBUF] + r[..][3..len] else [])
  {
    off := from;
    if len > 3 {
      Put(out, off, Spi.TXBUF);
      Fill(out, off + 1, r, 3, len);
      off := off + (len - 2);
      assert r[3..len] == r[..][3..len];
    }
  }

  /** The chip that executes the write stream of a frame has it in its TX FIFO. */
  lemma StreamLoads(frame: seq<u8>, fifoHigh: bool)
    requires |frame| >= 3
    ensures forall c: Spi.Chip :: Spi.ExecAll(c, Spi.TxTransfers(frame, fifoHigh)).txFifo == c.txFifo + frame
  {
    forall c: Spi.Chip ensures Spi.ExecAll(c, Spi.TxTransfers(frame, fifoHigh)).txFifo == c.txFifo + frame {
      Spi.TxStream(c, frame, fifoHigh);
    }
  }

  /** Lay the write stream out in one buffer. The segments are adjacent from offset 0, so they are
      disjoint, and the same offsets serve the receive buffer. The first three bytes are always sent; a
      frame of three bytes or fewer has no third transfer. */
  method LayOut(out: array<u8>, r: array<u8>, len: nat, fifoHigh: bool) returns (segs: seq<Segment>)
    requires out != r && out.Length == SPI_BUFF_SIZE && len <= r.Length == PKT_BUFF_SIZE
    modifies out
    ensures Adjacent(segs) && segs[|segs| - 1].len == 2
    ensures var frame := r[..][..if len < 3 then 3 else len];
            && Slices(out[..], segs) == Spi.TxTransfers(frame, fifoHigh)
            && forall c: Spi.Chip :: Spi.ExecAll(c, Slices(out[..], segs)).txFifo == c.txFifo + frame
  {
    hide Adjacent, Slices, Spi.ExecAll;
    ghost var frame := r[..][..if len < 3 then 3 else len];
    var n1 := LayOutHead(out, r, fifoHigh);
    assert frame[..3] == r[..][..3];
    ghost var t1 := Spi.Head(frame, fifoHigh);
    Put(out, n1, Spi.STXON);
    var off := LayOutBody(out, n1 + 1, r, len);
    Put(out, off, Spi.REGISTER_READ + Spi.EXCFLAG0);
    Put(out, off + 1, 0);
    if len > 3 {
      segs := [Segment(0, n1), Segment(n1, 1), Segment(n1 + 1, len - 2), Segment(off, 2)];
      Layout(out[..], t1, [Spi.STXON], [Spi.TXBUF] + r[..][3..len], Spi.Status());
      assert frame[3..] == r[..][3..len];
    } else {
      segs := [Segment(0, n1), Segment(n1, 1), Segment(off, 2)];
      ShortLayout(out[..], t1, [Spi.STXON], Spi.Status());
    }
    StreamLoads(frame, fifoHigh);
  }

  class Engine {
    var state: RadioState
    const txBufR: array<u8>
    var txBufRLen: nat
    var pendingRx: bool
    var rxLocked: bool
    const rxInBuf: array<u8>
    const rxOutBuf: array<u8>
    const rxBufR: array<u8>
    const txBuf: array<u8>

    ghost const Repr: set<object>

    ghost predicate Valid()
      reads this, Repr
    {
      && Repr == {this, txBufR, rxInBuf, rxOutBuf, rxBufR, txBuf}
      && txBufR.Length == rxBufR.Length == PKT_BUFF_SIZE
      && rxInBuf.Length == rxOutBuf.Length == txBuf.Length == SPI_BUFF_SIZE
      && txBufR != rxBufR && txBufR != rxInBuf && txBufR != rxOutBuf && txBufR != txBuf
      && rxInBuf != rxBufR && rxInBuf != rxOutBuf && rxInBuf != txBuf
      && rxOutBuf != rxBufR && rxOutBuf != txBuf && rxBufR != txBuf
    }

    ghost function View(): Vars
      requires Valid()
      reads this, Repr
    {
      Vars(state, txBufR[..], txBufRLen, pendingRx, rxLocked, rxInBuf[..], rxBufR[..])
    }

    constructor ()
      ensures Valid() && fresh(Repr) && state.Idle? && !pendingRx && !rxLocked
    {
      state, txBufRLen, pendingRx, rxLocked := Idle, 0, false, false;
      var a, b := new u8[PKT_BUFF_SIZE], new u8[PKT_BUFF_SIZE];
      var c, d, e := new u8[SPI_BUFF_SIZE], new u8[SPI_BUFF_SIZE], new u8[SPI_BUFF_SIZE];
      txBufR, rxBufR, rxInBuf, rxOutBuf, txBuf := a, b, c, d, e;
      Repr := {this, a, b, c, d, e};
    }

    /** The end of the spin in cc2520_radio_lock: the guard has been seen to hold under the lock. */
    method Lock(st: RadioState)
      requires Valid() && state.Idle?
      modifies this`state
      ensures Valid() && View() == old(View()).(state := st)
    {
      state := st;
    }

    method Unlock()
      requires Valid()
      modifies this`state
      ensures Valid() && View() == old(View()).(state := Idle)
    {
      state := Idle;
    }

    method TxUnlockSpi() returns (last: bool)
      requires Valid()
      modifies this`state
      ensures Valid() && (state, last) == UnlockSpi(old(state)) && View() == old(View()).(state := state)
    {
      if state == Tx {
        state := TxSpiDone;
        return false;
      } else if state == TxSfdDone {
        state := Tx2Rx;
        return true;
      }
      return false;
    }

    method TxUnlockSfd() returns (last: bool)
      requires Valid()
      modifies this`state
      ensures Valid() && (state, last) == UnlockSfd(old(state)) && View() == old(View()).(state := state)
    {
      if state == Tx {
        state := TxSfdDone;
        return false;
      } else if state == TxSpiDone {
        state := Tx2Rx;
        return true;
      }
      return false;
    }

    /** cc2520_radio_tx once it holds the lock. */
    method TxCopy(buf: array<u8>, len: nat)
      requires Valid() && buf !in Repr && len <= buf.Length && len <= PKT_BUFF_SIZE
      modifies this`txBufRLen, txBufR
      ensures Valid() && View() == OnCopy(old(View()), buf[..], len)
    {
      CopyInto(txBufR, buf, len);
      txBufRLen := len;
    }

    /** cc2520_radio_continueTx_check, up to its message. */
    method ContinueTxCheck(fifoHigh: bool) returns (segs: seq<Segment>)
      requires Valid() && txBufRLen <= PKT_BUFF_SIZE
      modifies txBuf
      ensures Valid() && Adjacent(segs) && segs[|segs| - 1].len == 2
      ensures var frame := txBufR[..][..if txBufRLen < 3 then 3 else txBufRLen];
              && Slices(txBuf[..], segs) == Spi.TxTransfers(frame, fifoHigh)
              && forall c: Spi.Chip :: Spi.ExecAll(c, Slices(txBuf[..], segs)).txFifo == c.txFifo + frame
    {
      segs := LayOut(txBuf, txBufR, txBufRLen, fifoHigh);
    }

    /** cc2520_radio_writeRegister, up to its transfer. */
    method WriteRegister(reg: u8, value: u8) returns (len: nat)
      requires Valid()
      modifies txBuf
      ensures Valid() && len <= SPI_BUFF_SIZE && txBuf[..len] == Spi.RegisterTransfer(reg, value)
    {
      len := 0;
      if reg <= Spi.FREG_MASK {
        txBuf[len] := Spi.REGISTER_WRITE + reg;
        len := len + 1;
      } else {
        txBuf[len] := Spi.MEMORY_WRITE;
        len := len + 1;
        txBuf[len] := reg;
        len := len + 1;
      }
      txBuf[len] := value;
      len := len + 1;
    }

    /** cc2520_radio_writeMemory, up to its transfer. */
    method WriteMemory(addr: nat, value: array<u8>) returns (len: nat)
      requires Valid() && addr < 0x1000 && value !in Repr && value.Length + 2 <= SPI_BUFF_SIZE
      modifies txBuf
      ensures Valid() && len <= SPI_BUFF_SIZE && txBuf[..len] == Spi.MemoryTransfer(addr, value[..])
    {
      txBuf[0], txBuf[1] := Spi.MEMORY_WRITE + addr / 256, addr % 256;
      Fill(txBuf, 2, value, 0, value.Length);
      len := 2 + value.Length;
      assert value[0..value.Length] == value[..];
    }

    /** cc2520_radio_set_address: the three addresses little-endian in one block, written to chip memory. */
    method SetAddress(short: u16, ext: u64, pan: u16) returns (len: nat)
      requires Valid()
      modifies txBuf
      ensures Valid() && len <= SPI_BUFF_SIZE
      ensures txBuf[..len] == Spi.MemoryTransfer(Spi.MEM_ADDR_BASE, Spi.AddressBlock(short, ext, pan))
    {
      var mem := new u8[12];
      forall i | 0 <= i < 8 { mem[i] := ToLE(ext, 8)[i]; }
      mem[9], mem[8] := pan / 256, pan % 256;
      mem[11], mem[10] := short / 256, short % 256;
      assert mem[..] == Spi.AddressBlock(short, ext, pan);
      len := WriteMemory(Spi.MEM_ADDR_BASE, mem);
    }

    /** cc2520_radio_flushTx, up to its message. */
    method FlushTx() returns (len: nat)
      requires Valid()
      modifies txBuf
      ensures Valid() && len <= SPI_BUFF_SIZE && txBuf[..len] == Spi.FlushTxTransfer()
    {
      txBuf[0], txBuf[1], txBuf[2] := Spi.SFLUSHTX, Spi.REGISTER_WRITE + Spi.EXCFLAG0, 0;
      len := 3;
    }

    /** cc2520_radio_beginRx, up to its message: read the length byte into a cleared buffer. */
    method BeginRx() returns (n: nat)
      requires Valid()
      modifies rxOutBuf, rxInBuf
      ensures Valid() && n <= SPI_BUFF_SIZE && rxOutBuf[..n] == Spi.RxTransfer(1)
      ensures forall i :: 0 <= i < rxInBuf.Length ==> rxInBuf[i] == 0
    {
      rxOutBuf[0], rxOutBuf[1] := Spi.RXBUF, 0;
      n := 2;
      forall i | 0 <= i < rxInBuf.Length { rxInBuf[i] := 0; }
    }

    /** The receive command for a body of len bytes, from cc2520_radio_continueRx. */
    method ContinueRx(len: nat) returns (n: nat)
      requires Valid() && len <= 127
      modifies rxOutBuf
      ensures Valid() && n <= SPI_BUFF_SIZE && rxOutBuf[..n] == Spi.RxTransfer(len)
    {
      rxOutBuf[0] := Spi.RXBUF;
      n := 1;
      while n < len + 1
        invariant 1 <= n <= len + 1 && rxOutBuf[0] == Spi.RXBUF
        invariant forall i :: 1 <= i < n ==> rxOutBuf[i] == 0
      {
        rxOutBuf[n] := 0;
        n := n + 1;
      }
    }

    /** cc2520_radio_flushRx and cc2520_radio_continueFlushRx, up to their messages. */
    method FlushRx() returns (n: nat)
      requires Valid()
      modifies rxOutBuf
      ensures Valid() && n <= SPI_BUFF_SIZE && rxOutBuf[..n] == Spi.FlushRxTransfer()
    {
      rxOutBuf[0] := Spi.SFLUSHRX;
      n := 1;
    }

    /** cc2520_radio_finishRx up to the upcall. */
    method FinishRx(len: u8)
      requires Valid() && len < PKT_BUFF_SIZE && !rxLocked
      modifies this`rxLocked, rxBufR
      ensures Valid() && View() == OnReceived(old(View()), len).(rxLocked := true)
    {
      rxLocked := true;
      rxBufR[0] := len;
      var i := 0;
      while i < len
        invariant 0 <= i <= len && Valid()
        invariant rxBufR[0] == len && rxBufR[1..i + 1] == rxInBuf[1..i + 1]
        invariant rxBufR[len + 1..] == old(rxBufR[len + 1..])
        invariant View() == old(View()).(rxLocked := true, rxBuf := rxBufR[..])
      {
        rxBufR[i + 1] := rxInBuf[i + 1];
        i := i + 1;
      }
      assert rxBufR[..] == [len] + rxBufR[1..len + 1] + rxBufR[len + 1..];
    }
  }
}
