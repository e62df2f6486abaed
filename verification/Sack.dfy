/** sack.c: software acknowledgements, both waiting for one and answering with one. */
module Sack {
  import opened Bytes
  import Packet

  datatype SackState = Idle | Tx | TxWait | TxAck

  type AckBuf = b: seq<u8> | |b| == Packet.ACK_BUF_SIZE witness [0, 0, 0, 0, 0, 0]

  datatype Vars = Vars(state: SackState, txBuf: Buffer, rxBuf: Buffer, rxLen: nat, ackBuf: AckBuf, timer: Timer)

  // After tx_done: wait for the ACK, call up, nothing (an ACK went out), or the state machine's error branch.
  datatype ThenTx = Wait | Up(status: u8) | AckSent | Impossible
  // After the locked part of rx_done.
  datatype ThenRx = Acked | Stray | Reply | Skipped | Deliver

  function OnCopy(v: Vars, src: seq<u8>, len: nat): Vars
    requires len <= |src| && len <= PKT_BUFF_SIZE
  {
    v.(txBuf := Memcpy(v.txBuf, src, len))
  }

  function OnTxDone(v: Vars, status: u8): (Vars, ThenTx)
  {
    if v.state.Tx? then
      if Packet.RequiresAck(v.txBuf) then (v.(state := TxWait, timer := v.timer.Start()), Wait)
      else (v.(state := Idle), Up(status))
    else if v.state.TxAck? then (v.(state := Idle), AckSent)
    else (v, Impossible)
  }

  function OnRxCopy(v: Vars, buf: seq<u8>, len: nat): Vars
    requires len <= |buf| && len <= PKT_BUFF_SIZE
  {
    v.(rxBuf := Memcpy(v.rxBuf, buf, len), rxLen := len)
  }

  function OnRx(v: Vars): (Vars, ThenRx)
  {
    if Packet.IsAck(v.rxBuf) then
      if v.state.TxWait? && Packet.IsAckTo(v.rxBuf, v.txBuf) then (v.(state := Idle), Acked)
      else (v, Stray)
    else if Packet.RequiresAck(v.rxBuf) then
      if v.state.Idle? then (v.(ackBuf := Packet.CreateAck(v.rxBuf, v.ackBuf), state := TxAck), Reply)
      else (v, Skipped)
    else (v, Deliver)
  }

  /** The state after the timeout callback, and whether it ended an ACK wait. */
  function OnTimer(v: Vars): (Vars, bool)
  {
    (v.(timer := v.timer.Finish(), state := if v.state.TxWait? then Idle else v.state), v.state.TxWait?)
  }

  class Layer {
    var state: SackState
    const curTxBuf: array<u8>
    const curRxBuf: array<u8>
    var curRxBufLen: nat
    const ackBuf: array<u8>
    var timer: Timer

    ghost predicate Valid()
      reads this, curTxBuf, curRxBuf, ackBuf
    {
      && curTxBuf.Length == curRxBuf.Length == PKT_BUFF_SIZE && ackBuf.Length == Packet.ACK_BUF_SIZE
      && curTxBuf != curRxBuf && curTxBuf != ackBuf && curRxBuf != ackBuf
    }

    ghost function View(): Vars
      requires Valid()
      reads this, curTxBuf, curRxBuf, ackBuf
    {
      Vars(state, curTxBuf[..], curRxBuf[..], curRxBufLen, ackBuf[..], timer)
    }

    constructor ()
      ensures Valid() && fresh({curTxBuf, curRxBuf, ackBuf}) && state.Idle? && timer == OFF
    {
      state, curRxBufLen, timer := Idle, 0, OFF;
      curTxBuf := new u8[PKT_BUFF_SIZE];
      curRxBuf := new u8[PKT_BUFF_SIZE];
      ackBuf := new u8[Packet.ACK_BUF_SIZE];
    }

    /** The end of the spin in cc2520_sack_tx: the guard has been seen to hold under the lock. */
    method TxEnter()
      requires Valid() && state.Idle?
      modifies this`state
      ensures Valid() && View() == old(View()).(state := Tx)
    {
      state := Tx;
    }

    /** cc2520_sack_tx after its unlock. */
    method TxCopy(buf: array<u8>, len: nat)
      requires Valid() && buf !in {curTxBuf, curRxBuf, ackBuf} && len <= buf.Length && len <= PKT_BUFF_SIZE
      modifies curTxBuf
      ensures Valid() && View() == OnCopy(old(View()), buf[..], len)
    {
      CopyInto(curTxBuf, buf, len);
    }

    /** cc2520_sack_tx_done up to its upcall. */
    method TxDone(status: u8) returns (t: ThenTx)
      requires Valid()
      modifies this`state, this`timer
      ensures Valid() && (View(), t) == OnTxDone(old(View()), status)
    {
      if state == Tx {
        if Packet.RequiresAck(curTxBuf[..]) {
          state := TxWait;
          timer := timer.Start();
          t := Wait;
        } else {
          state := Idle;
          t := Up(status);
        }
      } else if state == TxAck {
        state := Idle;
        t := AckSent;
      } else {
        t := Impossible;
      }
    }

    /** cc2520_sack_rx_done before it takes its lock. */
    method RxCopy(buf: array<u8>, len: nat)
      requires Valid() && buf !in {curTxBuf, curRxBuf, ackBuf} && len <= buf.Length && len <= PKT_BUFF_SIZE
      modifies this`curRxBufLen, curRxBuf
      ensures Valid() && View() == OnRxCopy(old(View()), buf[..], len)
    {
      CopyInto(curRxBuf, buf, len);
      curRxBufLen := len;
    }

    /** cc2520_sack_rx_done, the locked part. */
    method RxDone() returns (t: ThenRx)
      requires Valid()
      modifies this`state, ackBuf
      ensures Valid() && (View(), t) == OnRx(old(View()))
    {
      if Packet.IsAck(curRxBuf[..]) {
        if state == TxWait && Packet.IsAckTo(curRxBuf[..], curTxBuf[..]) {
          state := Idle;
          t := Acked;
        } else {
          t := Stray;
        }
      } else if Packet.RequiresAck(curRxBuf[..]) {
        if state == Idle {
          Packet.CreateAckInto(curRxBuf, ackBuf);
          state := TxAck;
          t := Reply;
        } else {
          t := Skipped;
        }
      } else {
        t := Deliver;
      }
    }

    /** cc2520_sack_timer_cb up to its upcall. */
    method TimerCb() returns (timedOut: bool)
      requires Valid()
      modifies this`state, this`timer
      ensures Valid() && (View(), timedOut) == OnTimer(old(View()))
    {
      timedOut := state == TxWait;
      if timedOut { state := Idle; }
      timer := timer.Finish();
    }
  }
}
