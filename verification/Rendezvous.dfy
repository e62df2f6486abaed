/** The radio's two-stage release: SPI completion and SFD edge in either order. */
module Rendezvous {
  import opened Bytes
  import opened Bags
  import opened Stack
  import opened StackInv
  import opened StackSteps
  import opened Token
  import Packet
  import Lpl
  import Csma
  import Sack
  import Radio
  import Unique
  import Interface

  predicate Small(s: State) { Counts(s) && Transmit(s.sack.state, s.radio.state, s.low, |s.txMsgs|) }

  lemma StagesUp(s: State, i: nat)
    requires Small(s) && EnabledUp(s, i)
    ensures Stages(s, Up(i), ApplyUp(s, i))
  {
    hide Memcpy, Lpl.OnTxDone, Lpl.OnTx, Lpl.OnCopy, Csma.OnTx, Csma.OnCopy, Csma.OnTxDone, Interface.OnTxDone,
         Counts, Transmit;
  }

  lemma StagesLow(s: State, i: nat)
    requires Small(s) && EnabledLow(s, i)
    ensures Stages(s, Low(i), ApplyLow(s, i))
  {
    hide Memcpy, Sack.OnCopy, Sack.OnTxDone;
    assert i == 0 && |s.low| == 1 && LowOk(s.sack.state, s.radio.state, s.low[0]);
    match s.low[i]
    case SackCopy(_, _) => assert Stages(s, Low(i), ApplyLow(s, i));
    case RadioTx(_, _) => assert Stages(s, Low(i), ApplyLow(s, i));
    case RadioCopy(_, _) => assert Stages(s, Low(i), ApplyLow(s, i));
    case RadioComplete => assert Stages(s, Low(i), ApplyLow(s, i));
    case SackDone(_) => assert Stages(s, Low(i), ApplyLow(s, i));
  }

  lemma StagesMsg(s: State, t: Step)
    requires Small(s) && EnabledTx(s, t) && t.TxDone?
    ensures Stages(s, t, ApplyTx(s, t))
  {
    hide Memcpy;
    assert t.i == 0 && |s.txMsgs| == 1;
    match s.txMsgs[t.i]
    case MsgOff => assert Stages(s, t, ApplyTx(s, t));
    case MsgWrite => assert Stages(s, t, ApplyTx(s, t));
    case MsgFlush => assert Stages(s, t, ApplyTx(s, t));
  }

  lemma StagesTx(s: State, t: Step)
    requires Small(s) && EnabledTx(s, t) && !t.TxDone?
    ensures Stages(s, t, ApplyTx(s, t))
  {
    hide Memcpy;
  }

  lemma StagesRx(s: State, t: Step)
    requires Small(s) && EnabledRx(s, t)
    ensures Stages(s, t, ApplyRx(s, t))
  {
    hide Memcpy, Sack.OnRx, Sack.OnRxCopy, Unique.OnRx, Packet.GetSrc, Packet.HasSrc, Counts, Transmit;
  }

  lemma StagesHold(s: State, t: Step)
    requires Inv(s) && Enabled(s, t)
    ensures Stages(s, t, Apply(s, t))
  {
    hide Latched, Receive, RxMsgs, LogOk, SackTimer, LplTimer, Carried, Heard, Sent, Last, Replied, Counts, Transmit;
    hide Stages, ApplyUp, ApplyLow, ApplyTx, ApplyRx;
    if t.Up? {
      StagesUp(s, t.i);
    } else if t.Low? {
      StagesLow(s, t.i);
    } else if EnabledTx(s, t) {
      if t.TxDone? { StagesMsg(s, t); } else { StagesTx(s, t); }
    } else if EnabledRx(s, t) {
      StagesRx(s, t);
    } else {
      StagesElse(s, t);
    }
  }

  lemma StagesElse(s: State, t: Step)
    requires EnabledWrite(s, t) || EnabledTimer(s, t)
    ensures Stages(s, t, if EnabledWrite(s, t) then ApplyWrite(s, t) else ApplyTimer(s, t))
  {
    hide Memcpy, Interface.OnCopy, Interface.OnEnd, Csma.OnTimer, Lpl.OnTimer, Sack.OnTimer;
  }

  // ---------- both stages, in any order ----------

  /** Since the radio was last taken, its SPI side ended (or an SFD falling edge came). */
  ghost predicate Since(run: seq<State>, steps: seq<Step>, k: nat, spi: bool)
    requires k < |run| && |run| == |steps| + 1
  {
    k > 0 && !TakesRadio(run[k - 1], steps[k - 1]) &&
    ((if spi then SpiEnds(run[k - 1], steps[k - 1]) else steps[k - 1].Sfd?) || Since(run, steps, k - 1, spi))
  }

  ghost predicate BothSince(run: seq<State>, steps: seq<Step>, k: nat)
    requires k < |run| && |run| == |steps| + 1
  {
    Since(run, steps, k, true) && Since(run, steps, k, false)
  }

  /** The radio's upcall reports success only if, since the radio was taken for that frame, an SFD
      falling edge came and the SPI write ended without underflow, in whichever order. */
  lemma {:induction false} SuccessNeedsBoth(run: seq<State>, steps: seq<Step>, k: nat)
    requires IsRun(run, steps) && k < |run|
    ensures run[k].radio.state.TxSfdDone? ==> Since(run, steps, k, false)
    ensures run[k].radio.state.TxSpiDone? ==> Since(run, steps, k, true)
    ensures run[k].radio.state.Tx2Rx? || LowWhere(run[k]) == Called(SackDone(TX_SUCCESS)) ==> BothSince(run, steps, k)
  {
    hide Inv, Enabled, Apply, LowWhere, SpiEnds;
    if k == 0 {
      assert LowWhere(run[0]) == Nowhere by { StartsNowhere(run[0]); }
    } else {
      SuccessNeedsBoth(run, steps, k - 1);
      RunInv(run, steps, k - 1);
      StagesHold(run[k - 1], steps[k - 1]);
      StepPreserves(run[k - 1], steps[k - 1]);
      if TakesRadio(run[k - 1], steps[k - 1]) { TakenAfresh(run[k - 1], steps[k - 1]); }
    }
  }

  lemma StartsNowhere(s: State)
    requires Init(s)
    ensures LowWhere(s) == Nowhere
  {
  }

  lemma TakenAfresh(s: State, t: Step)
    requires Inv(s) && Enabled(s, t) && TakesRadio(s, t)
    ensures Apply(s, t).radio.state.Tx? && LowWhere(Apply(s, t)) != Called(SackDone(TX_SUCCESS))
  {
    hide Latched, Receive, RxMsgs, LogOk, SackTimer, LplTimer, Carried, Heard, Sent, Last, Replied, Transmit;
  }

  // ---------- one report per transmission, data or ACK ----------

  predicate Taken(q: LowPlace)
  {
    !q.Nowhere? && !(q.Called? && (q.l.SackCopy? || q.l.RadioTx?))
  }

  /** How often the first k steps took the radio for a frame (or reported one back). */
  function Count(run: seq<State>, k: nat, report: bool): nat
    requires k < |run|
  {
    if k == 0 then 0
    else
      var q := LowWhere(run[k - 1]);
      Count(run, k - 1, report)
      + B(LowWhere(run[k]) != q && q.Called? && if report then q.l.SackDone? else q.l.RadioTx?)
  }

  /** Every transmission the radio accepts, of data or of an ACK, is reported back exactly once: the
      accepted ones exceed the reported ones by one while one is under way, and else are equal,
      however many SFD edges come and whenever. */
  lemma {:induction false} OneReportPerTransmission(run: seq<State>, steps: seq<Step>, k: nat)
    requires IsRun(run, steps) && k < |run|
    ensures Count(run, k, false) == Count(run, k, true) + B(Taken(LowWhere(run[k])))
  {
    hide Inv, Enabled, Apply, LowWhere;
    if k == 0 {
      StartsNowhere(run[0]);
    } else {
      OneReportPerTransmission(run, steps, k - 1);
      RunInv(run, steps, k - 1);
      StepPreserves(run[k - 1], steps[k - 1]);
    }
  }

  /** The release alone, fed any sequence of stage ends (true: SPI, false: SFD). */
  function Release(st: Radio.RadioState, ends: seq<bool>): (Radio.RadioState, nat)
    decreases |ends|
  {
    if ends == [] then (st, 0)
    else
      var (st1, last) := if ends[0] then Radio.UnlockSpi(st) else Radio.UnlockSfd(st);
      var (st2, n) := Release(st1, ends[1..]);
      (st2, n + B(last))
  }

  /** Started in TX, the release tells exactly one caller that it was last once both kinds of end have
      come, and none before, for any order and number of ends of either kind. */
  lemma {:induction false} ReleasedOnce(ends: seq<bool>)
    ensures Release(Radio.Tx, ends).1 == B(true in ends && false in ends)
  {
    if ends != [] {
      var rest := ends[1..];
      assert ends == [ends[0]] + rest;
      ReleasedFrom(if ends[0] then Radio.TxSpiDone else Radio.TxSfdDone, rest);
    }
  }

  lemma {:induction false} ReleasedFrom(st: Radio.RadioState, ends: seq<bool>)
    requires st in {Radio.TxSpiDone, Radio.TxSfdDone, Radio.Tx2Rx}
    ensures Release(st, ends).1
            == match st case TxSpiDone => B(false in ends) case TxSfdDone => B(true in ends) case _ => 0
    decreases |ends|
  {
    if ends != [] {
      var st1 := (if ends[0] then Radio.UnlockSpi(st) else Radio.UnlockSfd(st)).0;
      assert ends == [ends[0]] + ends[1..];
      ReleasedFrom(st1, ends[1..]);
    }
  }
}
