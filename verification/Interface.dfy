/** interface.c: the blocking write on top of the stack, with its two semaphores. */
module Interface {
  import opened Bytes

  const EAGAIN := 11
  const ERESTARTSYS := 512
  const EFAULT := 14

  datatype Vars = Vars(txSem: nat, doneSem: nat, buf: Buffer, len: nat, result: u8)

  function OnCopy(v: Vars, frame: seq<u8>): Vars
    requires |frame| <= PKT_BUFF_SIZE
  {
    v.(buf := Memcpy(v.buf, frame, |frame|), len := |frame|)
  }

  function OnTxDone(v: Vars, status: u8): Vars
  {
    v.(result := status, doneSem := v.doneSem + 1)
  }

  function OnEnd(v: Vars): Vars
    requires v.doneSem > 0
  {
    v.(doneSem := v.doneSem - 1, txSem := v.txSem + 1)
  }

  /** What write returns: the stored status if it is not zero, else the length. The status is an
      unsigned byte, so a write that has passed its frame down never returns a negative code. */
  function Returns(v: Vars): nat
  {
    if v.result != 0 then v.result else v.len
  }

  class Layer {
    var txSem: nat
    var doneSem: nat
    const txBuf: array<u8>
    var len: nat
    var result: u8

    ghost predicate Valid() reads this, txBuf { txBuf.Length == PKT_BUFF_SIZE }

    ghost function View(): Vars
      requires Valid()
      reads this, txBuf
    {
      Vars(txSem, doneSem, txBuf[..], len, result)
    }

    constructor ()
      ensures Valid() && fresh(txBuf) && txSem == 1 && doneSem == 0
    {
      txSem, doneSem, len, result := 1, 0, 0, 0;
      txBuf := new u8[PKT_BUFF_SIZE];
    }

    /** interface_write in non-blocking mode, up to the copy: take the write lock or give up. */
    method TryBegin() returns (error: int)
      requires Valid()
      modifies this`txSem
      ensures Valid() && (error == 0 <==> old(txSem) > 0) && (error != 0 ==> error == -EAGAIN)
      ensures View() == old(View()).(txSem := if error == 0 then old(txSem) - 1 else old(txSem))
    {
      if txSem == 0 { return -EAGAIN; }
      txSem := txSem - 1;
      error := 0;
    }

    /** interface_write in blocking mode: its wait for the write lock ends with the lock or with a signal. */
    method Begin(interrupted: bool) returns (error: int)
      requires Valid() && (interrupted || txSem > 0)
      modifies this`txSem
      ensures Valid() && error == (if interrupted then -ERESTARTSYS else 0)
      ensures View() == old(View()).(txSem := if interrupted then old(txSem) else old(txSem) - 1)
    {
      if interrupted { return -ERESTARTSYS; }
      txSem := txSem - 1;
      error := 0;
    }

    /** The copy from user space; a fault gives the write lock back. */
    method Copy(frame: array<u8>, fault: bool) returns (error: int)
      requires Valid() && frame != txBuf && frame.Length <= PKT_BUFF_SIZE
      modifies this, txBuf
      ensures Valid() && error == (if fault then -EFAULT else 0)
      ensures View() == (if fault then old(View()).(txSem := old(txSem) + 1) else OnCopy(old(View()), frame[..]))
    {
      if fault {
        txSem := txSem + 1;
        return -EFAULT;
      }
      CopyInto(txBuf, frame, frame.Length);
      len := frame.Length;
      assert frame[..] == frame[..frame.Length];
      error := 0;
    }

    /** cc2520_interface_tx_done. */
    method TxDone(status: u8)
      requires Valid()
      modifies this`result, this`doneSem
      ensures Valid() && View() == OnTxDone(old(View()), status)
    {
      result := status;
      doneSem := doneSem + 1;
    }

    /** The end of interface_write, once down(&tx_done_sem) has succeeded. */
    method End() returns (r: int)
      requires Valid() && doneSem > 0
      modifies this`txSem, this`doneSem
      ensures Valid() && View() == OnEnd(old(View())) && r == Returns(old(View()))
    {
      doneSem := doneSem - 1;
      txSem := txSem + 1;
      r := if result != 0 then result else len;
    }
  }
}
