/** csma.c: a random backoff, one clear-channel sample, at most one congestion backoff. */
module Csma {
  import opened Bytes

  datatype CsmaState = Idle | Tx | Cong

  datatype Vars = Vars(enabled: bool, state: CsmaState, buf: Buffer, len: nat, timer: Timer, work: bool)

  datatype Enter = PassDown | Accepted | Busy
  datatype Then = Queued | Restarted | Up(status: u8)

  function OnTx(v: Vars): (Vars, Enter)
  {
    if !v.enabled then (v, PassDown)
    else if v.state.Idle? then (v.(state := Tx), Accepted)
    else (v, Busy)
  }

  /** Keep the frame and start the backoff timer. */
  function OnCopy(v: Vars, src: seq<u8>, len: nat): Vars
    requires len <= |src| && len <= PKT_BUFF_SIZE
  {
    v.(buf := Memcpy(v.buf, src, len), len := len, timer := v.timer.Start())
  }

  function OnTimer(v: Vars, clear: bool): (Vars, Then)
  {
    if clear then (v.(work := true, timer := v.timer.Finish()), Queued)
    else if v.state.Tx? then (v.(state := Cong, timer := Timer(true, false)), Restarted)
    else (v.(state := Idle, timer := v.timer.Finish()), Up(TX_BUSY))
  }

  function OnTxDone(v: Vars): Vars
  {
    if v.enabled then v.(state := Idle) else v
  }

  // ---------- backoff arithmetic ----------

  const U32 := 0x1_0000_0000
  const MAX_BACKOFF := 2147483   // largest period for which 1000 * period fits an int

  /** cc2520_csma_get_backoff: an unsigned remainder, so the int span is first read modulo 2^32,
      and the sum is read back as a 32-bit int. */
  function GetBackoff(min: int, max: int, rand: nat): int
    requires (max - min) % U32 != 0 && rand < U32
  {
    var sum := (min + rand % ((max - min) % U32)) % U32;
    if sum < U32 / 2 then sum else sum - U32
  }

  predicate GoodRange(min: int, max: int) { 0 <= min < max <= MAX_BACKOFF }

  /** In the configured range every backoff lies in [min, max) and its nanoseconds fit an int. */
  lemma BackoffInRange(min: int, max: int, rand: nat)
    requires GoodRange(min, max) && rand < U32
    ensures min <= GetBackoff(min, max, rand) < max
    ensures 0 <= 1000 * GetBackoff(min, max, rand) < U32 / 2
  {
  }

  lemma BackoffValue(min: int, max: int, rand: nat)
    requires GoodRange(min, max) && rand < U32
    ensures GetBackoff(min, max, rand) == min + rand % (max - min)
  {
    var span := max - min;
    assert span % U32 == span;
    assert 0 <= rand % span < span;
  }

  lemma SmallMod(x: nat, n: nat)
    requires x < n
    ensures x % n == x
  {
  }

  /** Every delay in the range is drawn by some random number, and only the remainder of the number matters:
      each delay is drawn by every span-th number. */
  lemma BackoffDrawn(min: int, max: int, rand: nat, delay: int)
    requires GoodRange(min, max) && rand < U32 && min <= delay < max
    ensures GetBackoff(min, max, rand) == delay <==> rand % (max - min) == delay - min
    ensures GetBackoff(min, max, delay - min) == delay
  {
    hide GetBackoff;
    BackoffValue(min, max, rand);
    BackoffValue(min, max, delay - min);
    SmallMod(delay - min, max - min);
  }

  predicate Int32(x: int) { -(U32 / 2) <= x < U32 / 2 }

  /** The delays from min up to max, read as a circle of 32-bit ints: a reversed range goes round by way of
      the negative numbers. */
  predicate Between(min: int, max: int, delay: int)
  {
    Int32(delay) && if min < max then min <= delay < max else min <= delay || delay < max
  }

  lemma Span(min: int, max: int)
    requires Int32(min) && Int32(max) && min != max
    ensures (max - min) % U32 == (if min < max then max - min else max - min + U32)
  {
  }

  lemma Wrap(sum: int)
    requires -(U32 / 2) <= sum < U32 + U32 / 2
    ensures sum % U32 == (if sum < 0 then sum + U32 else if sum < U32 then sum else sum - U32)
  {
  }

  lemma BackoffWraps(min: int, max: int, rand: nat)
    requires Int32(min) && Int32(max) && min != max && rand < U32
    ensures Between(min, max, GetBackoff(min, max, rand))
  {
    Span(min, max);
    Wrap(min + rand % ((max - min) % U32));
  }

  lemma BackoffReaches(min: int, max: int, delay: int) returns (rand: nat)
    requires Int32(min) && Int32(max) && min != max && Between(min, max, delay)
    ensures rand < U32 && GetBackoff(min, max, rand) == delay
  {
    rand := if min <= delay then delay - min else delay - min + U32;
    Span(min, max);
    SmallMod(rand, (max - min) % U32);
    Wrap(min + rand);
  }

  /** For any two bounds a caller can set, the delays that can be drawn are exactly those from min up to max on
      the circle: in an increasing range those of the range, in a reversed one all but those between. */
  lemma BackoffAnyRange(min: int, max: int, delay: int)
    requires Int32(min) && Int32(max) && min != max
    ensures Between(min, max, delay) <==> exists rand: nat :: rand < U32 && GetBackoff(min, max, rand) == delay
  {
    hide GetBackoff, Between;
    if Between(min, max, delay) {
      var rand := BackoffReaches(min, max, delay);
    }
    forall rand: nat | rand < U32 && GetBackoff(min, max, rand) == delay ensures Between(min, max, delay) {
      BackoffWraps(min, max, rand);
    }
  }

  class Layer {
    const enabled: bool
    var state: CsmaState
    const curTxBuf: array<u8>
    var curTxLen: nat
    var timer: Timer
    var work: bool

    ghost predicate Valid() reads this, curTxBuf { curTxBuf.Length == PKT_BUFF_SIZE }

    ghost function View(): Vars
      requires Valid()
      reads this, curTxBuf
    {
      Vars(enabled, state, curTxBuf[..], curTxLen, timer, work)
    }

    constructor (enabled: bool)
      ensures Valid() && fresh(curTxBuf) && this.enabled == enabled && state.Idle? && timer == OFF && !work
    {
      this.enabled := enabled;
      state := Idle;
      curTxBuf := new u8[PKT_BUFF_SIZE];
      curTxLen := 0;
      timer, work := OFF, false;
    }

    /** cc2520_csma_tx up to its unlock. */
    method TxEnter() returns (e: Enter)
      requires Valid()
      modifies this`state
      ensures Valid() && (View(), e) == OnTx(old(View()))
    {
      if !enabled { return PassDown; }
      if state == Idle {
        state := Tx;
        e := Accepted;
      } else {
        e := Busy;
      }
    }

    /** cc2520_csma_tx after its unlock. */
    method TxCopy(buf: array<u8>, len: nat)
      requires Valid() && buf != curTxBuf && len <= buf.Length && len <= PKT_BUFF_SIZE
      modifies this`curTxLen, this`timer, curTxBuf
      ensures Valid() && View() == OnCopy(old(View()), buf[..], len)
    {
      CopyInto(curTxBuf, buf, len);
      curTxLen := len;
      timer := timer.Start();
    }

    /** cc2520_csma_timer_cb, given the clear-channel sample it takes. */
    method TimerCb(clear: bool) returns (t: Then)
      requires Valid()
      modifies this`state, this`timer, this`work
      ensures Valid() && (View(), t) == OnTimer(old(View()), clear)
    {
      if clear {
        work := true;
        t := Queued;
      } else if state == Tx {
        state := Cong;
        timer := Timer(true, true);
        t := Restarted;
      } else {
        state := Idle;
        t := Up(TX_BUSY);
      }
      timer := timer.Finish();
    }

    /** cc2520_csma_tx_done up to its upcall. */
    method TxDone()
      requires Valid()
      modifies this`state
      ensures Valid() && View() == OnTxDone(old(View()))
    {
      if enabled { state := Idle; }
    }
  }
}
