/** lpl.c: low power listening keeps retransmitting a frame until its window timer expires. */
module Lpl {
  import opened Bytes
  import Packet

  datatype LplState = Idle | Tx | TimerExpired

  datatype Vars = Vars(enabled: bool, state: LplState, buf: Buffer, len: nat, timer: Timer)

  datatype Enter = PassDown | Accepted | Busy
  // What follows the critical section of tx_done: an upcall, an upcall behind
  // hrtimer_cancel, or another transmission of the kept frame.
  datatype Then = Up(status: u8) | CancelThenUp(status: u8) | Down

  function OnTx(v: Vars): (Vars, Enter)
  {
    if !v.enabled then (v, PassDown)
    else if v.state.Idle? then (v.(state := Tx), Accepted)
    else (v, Busy)
  }

  function OnCopy(v: Vars, src: seq<u8>, len: nat): Vars
    requires len <= |src| && len <= PKT_BUFF_SIZE
  {
    v.(buf := Memcpy(v.buf, src, len), len := len)
  }

  function OnTxDone(v: Vars, status: u8): (Vars, Then)
  {
    if !v.enabled then (v, Up(status))
    else if Packet.RequiresAck(v.buf) then
      if status == TX_SUCCESS then (v.(state := Idle), CancelThenUp(status))
      else if v.state.TimerExpired? then (v.(state := Idle), Up(TX_FAILED))
      else (v, Down)
    else
      if v.state.TimerExpired? then (v.(state := Idle), Up(TX_SUCCESS))
      else (v, Down)
  }

  function OnTimer(v: Vars): Vars
  {
    v.(timer := v.timer.Finish(), state := if v.state.Tx? then TimerExpired else v.state)
  }

  class Layer {
    const enabled: bool
    var state: LplState
    const curTxBuf: array<u8>
    var curTxLen: nat
    var timer: Timer

    ghost predicate Valid() reads this, curTxBuf { curTxBuf.Length == PKT_BUFF_SIZE }

    ghost function View(): Vars
      requires Valid()
      reads this, curTxBuf
    {
      Vars(enabled, state, curTxBuf[..], curTxLen, timer)
    }

    constructor (enabled: bool)
      ensures Valid() && fresh(curTxBuf) && this.enabled == enabled && state.Idle? && timer == OFF
    {
      this.enabled := enabled;
      state := Idle;
      curTxBuf := new u8[PKT_BUFF_SIZE];
      curTxLen := 0;
      timer := OFF;
    }

    /** cc2520_lpl_tx up to its unlock. */
    method TxEnter() returns (e: Enter)
      requires Valid()
      modifies this`state
      ensures Valid() && (View(), e) == OnTx(old(View()))
    {
      if !enabled {
        e := PassDown;
      } else if state == Idle {
        state := Tx;
        e := Accepted;
      } else {
        e := Busy;
      }
    }

    /** cc2520_lpl_tx after its unlock: keep the frame for retransmission. */
    method TxCopy(buf: array<u8>, len: nat)
      requires Valid() && buf != curTxBuf && len <= buf.Length && len <= PKT_BUFF_SIZE
      modifies this`curTxLen, curTxBuf
      ensures Valid() && View() == OnCopy(old(View()), buf[..], len)
    {
      CopyInto(curTxBuf, buf, len);
      curTxLen := len;
    }

    /** cc2520_lpl_tx_done up to the call each branch ends in. */
    method TxDone(status: u8) returns (t: Then)
      requires Valid()
      modifies this`state
      ensures Valid() && (View(), t) == OnTxDone(old(View()), status)
    {
      if enabled {
        var wait := Packet.RequiresAck(curTxBuf[..]);
        if wait {
          if status == TX_SUCCESS {
            state := Idle;
            return CancelThenUp(status);
          } else if state == TimerExpired {
            state := Idle;
            return Up(TX_FAILED);
          }
        } else if state == TimerExpired {
          state := Idle;
          return Up(TX_SUCCESS);
        }
        t := Down;
      } else {
        t := Up(status);
      }
    }

    /** cc2520_lpl_timer_cb. */
    method TimerCb()
      requires Valid()
      modifies this`state, this`timer
      ensures Valid() && View() == OnTimer(old(View()))
    {
      if state == Tx { state := TimerExpired; }
      timer := timer.Finish();
    }
  }
}
