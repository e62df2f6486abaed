/** Once the listening window has expired, or without low power listening, a write ends. */
module Termination {
  import opened Bags
  import opened Stack
  import opened StackInv
  import opened StackSteps
  import opened Token
  import Packet

  /** How far a transmission below is from its report. */
  function LowRank(q: LowPlace): nat
  {
    match q
    case Called(SackCopy(_, _)) => 17
    case Called(RadioTx(_, _)) => 16
    case Called(RadioCopy(_, _)) => 15
    case Message(MsgOff) => 14
    case Message(MsgWrite) => 13
    case Message(MsgFlush) => 12
    case AwaitSfd => 12
    case Called(RadioComplete) => 11
    case Called(SackDone(_)) => 10
    case Nowhere => 0
  }

  /** How far the frame is from the return of its write. */
  function Rank(p: Place): nat
  {
    match p
    case InCall(LplTx) => 27
    case InCall(LplCopy) => 26
    case InCall(CsmaTx(_, _)) => 25
    case InCall(CsmaCopy(_, _)) => 24
    case Backoff(cong, running) => (if cong then 20 else 22) + (if running then 0 else 1)
    case Queued => 19
    case InCall(SackTx(_, _)) => 18
    case Below(q) => LowRank(q)
    case AwaitAck(running) => if running then 8 else 9
    case InCall(SackAcked) => 7
    case InCall(CsmaDone(_)) => 6
    case InCall(LplDone(_)) => 5
    case InCall(LplAcked) => 4
    case InCall(IfaceDone(_)) => 3
    case Ended => 2
    case Rest => 0
  }

  /** Every move but a start and a retransmission, which needs an open window, brings the frame nearer
      to the return of its write. */
  lemma HopRanks(p: Place, p': Place, open: bool)
    requires Hop(p, p', open)
    ensures Rank(p') < Rank(p) || p.Rest? || (open && p.InCall? && p.c.LplDone? && p'.c.CsmaTx?)
  {
  }

  /** The write under way can no longer retransmit. */
  predicate Closing(s: State)
  {
    s.waiting != [] && !s.lpl.state.Tx? && (Where(s) == InCall(LplTx) ==> !s.lpl.enabled)
  }

  /** A closing write stays so until it returns; no step of the driver, receiving and acknowledging
      included, takes its frame further from the return, and each of its own steps takes it nearer. */
  lemma ClosingStep(s: State, t: Step)
    requires Inv(s) && Closing(s) && Enabled(s, t)
    ensures var s' := Apply(s, t);
            && (s'.waiting == [] || Closing(s'))
            && Rank(Where(s')) <= Rank(Where(s)) && (Own(s, t) ==> Rank(Where(s')) < Rank(Where(s)))
  {
    hide Counts, Transmit, Latched, Receive, RxMsgs, LogOk, SackTimer, LplTimer, Carried, Apply, Enabled, LowHop;
    StepPreserves(s, t);
    var s' := Apply(s, t);
    if Where(s') != Where(s) { HopRanks(Where(s), Where(s'), s.lpl.state.Tx?); }
    if s.waiting != [] && !s.lpl.enabled { assert Inv(s) && Inv(s'); LplOffIdle(s'); }
  }

  lemma LplOffIdle(s: State)
    requires Inv(s) && !s.lpl.enabled
    ensures s.lpl.state.Idle?
  {
    hide Counts, Transmit, Latched, Receive, RxMsgs, LogOk, SackTimer, Carried;
  }

  /** An open window always has its timer ahead: about to be started, armed or running; and when the
      callback runs the write is closing. */
  lemma WindowCloses(run: seq<State>, steps: seq<Step>, k: nat)
    requires IsRun(run, steps) && k < |run|
    ensures var s := run[k];
            && (s.lpl.state.Tx? ==> s.waiting != [])
            && (s.lpl.state.Tx? ==>
                  s.up == [LplCopy] || Enabled(s, LplStart) || Enabled(s, LplFire) || Enabled(s, LplExpire))
            && (s.lpl.state.Tx? && Enabled(s, LplExpire) ==> Closing(Apply(s, LplExpire)))
  {
    hide Transmit, Latched, Receive, RxMsgs, LogOk, SackTimer, Heard, Sent, Last, Replied, CarriesBelow;
    RunInv(run, steps, k);
    var s := run[k];
    if s.lpl.state.Tx? && s.up != [] { Alone(s, 0); }
  }

  /** How many of steps i to j are the write's own. */
  function OwnSteps(run: seq<State>, steps: seq<Step>, i: nat, j: nat): nat
    requires i <= j <= |steps| && |run| == |steps| + 1
  {
    if i == j then 0 else OwnSteps(run, steps, i, j - 1) + B(Own(run[j - 1], steps[j - 1]))
  }

  /** In every run, a closing write takes at most Rank steps of its own before it returns, however
      many other steps come between. */
  lemma {:induction false} OwnStepsBounded(run: seq<State>, steps: seq<Step>, i: nat, j: nat)
    requires IsRun(run, steps) && i <= j <= |steps| && Closing(run[i])
    requires forall m :: i <= m <= j ==> run[m].waiting != []
    ensures Closing(run[j]) && OwnSteps(run, steps, i, j) + Rank(Where(run[j])) <= Rank(Where(run[i])) <= 27
  {
    hide Inv, Closing, Apply, Enabled, Where, LowRank, Own;
    if i < j {
      OwnStepsBounded(run, steps, i, j - 1);
      RunInv(run, steps, j - 1);
      ClosingStep(run[j - 1], steps[j - 1]);
    } else {
      RankBounded(Where(run[i]));
    }
  }

  lemma RankBounded(p: Place)
    ensures Rank(p) <= 27
  {
  }

  // ---------- the transmission below, whoever it is for ----------

  /** A transmission below, of data or of an ACK, is never taken further from its report, and each of
      its own steps takes it nearer. */
  lemma TransmissionFalls(s: State, t: Step)
    requires Inv(s) && Enabled(s, t) && !LowWhere(s).Nowhere?
    ensures var s' := Apply(s, t);
            && LowRank(LowWhere(s')) <= LowRank(LowWhere(s))
            && (OwnLow(s, t) ==> LowRank(LowWhere(s')) < LowRank(LowWhere(s)))
  {
    hide Inv, Enabled, Apply, Where, LowWhere, Hop;
    StepPreserves(s, t);
  }

  /** How many of steps i to j are the transmission's own. */
  function LowSteps(run: seq<State>, steps: seq<Step>, i: nat, j: nat): nat
    requires i <= j <= |steps| && |run| == |steps| + 1
  {
    if i == j then 0 else LowSteps(run, steps, i, j - 1) + B(OwnLow(run[j - 1], steps[j - 1]))
  }

  /** In every run a transmission takes at most 17 steps of its own until it is reported, so what a
      write waits for below ends. */
  lemma {:induction false} TransmissionEnds(run: seq<State>, steps: seq<Step>, i: nat, j: nat)
    requires IsRun(run, steps) && i <= j <= |steps|
    requires forall m :: i <= m <= j ==> !LowWhere(run[m]).Nowhere?
    ensures LowSteps(run, steps, i, j) + LowRank(LowWhere(run[j])) <= LowRank(LowWhere(run[i])) <= 17
  {
    hide Inv, Enabled, Apply, LowWhere, OwnLow;
    if i < j {
      TransmissionEnds(run, steps, i, j - 1);
      RunInv(run, steps, j - 1);
      TransmissionFalls(run[j - 1], steps[j - 1]);
    }
  }

  /** What a write may have to wait for: the ACK transmission ahead of it, a configuration thread that
      holds the radio, a callback being cancelled, or its own start of the window timer. */
  predicate Unblocks(s: State, t: Step)
  {
    match t
    case CfgDone(_) => true
    case CfgUnlock(_) => true
    case SackExpire => true
    case LplExpire => true
    case LplStart => true
    case _ => OwnLow(s, t)
  }

  /** A write is never stuck: in every reachable state in which one is under way, a step of its own is
      enabled, or a step of what it waits for. */
  lemma NeverStuck(s: State) returns (t: Step)
    requires Inv(s) && s.waiting != []
    ensures Enabled(s, t) && (Own(s, t) || Unblocks(s, t))
  {
    hide Receive, RxMsgs, LogOk, Heard, Sent, Last, Replied, Packet.RequiresAck, Apply;
    if s.up != [] {
      t := CallProceeds(s);
    } else if s.csma.timer.armed || s.csma.timer.running {
      t := if s.csma.timer.running then CsmaSample(true) else CsmaFire;
    } else if s.csma.work {
      t := CsmaWork;
    } else if s.sack.state.Tx? {
      t := LowProceeds(s);
    } else if s.sack.state.TxWait? {
      t := if s.sack.timer.running then SackExpire else SackFire;
    } else {
      t := if s.startPending then LplStart else WriteEnd(0);
    }
  }

  lemma LowProceeds(s: State) returns (t: Step)
    requires Inv(s) && (s.sack.state.Tx? || s.sack.state.TxAck?)
    ensures Enabled(s, t) && (OwnLow(s, t) || t.CfgDone? || t.CfgUnlock?)
  {
    hide Receive, RxMsgs, LogOk, Heard, Sent, Last, Replied, Packet.RequiresAck, Apply, CarriesAbove, SackTimer,
         LplTimer;
    if s.low != [] {
      if s.low[0].RadioTx? && s.radio.state.Config? {
        t := if s.cfgs[0].CfgInSync? then CfgDone(0) else CfgUnlock(0);
      } else {
        t := Low(0);
      }
    } else if s.txMsgs != [] {
      t := TxDone(0, false);
    } else {
      t := Sfd;
    }
  }

  lemma CallProceeds(s: State) returns (t: Step)
    requires Inv(s) && s.up != []
    ensures Enabled(s, t) && (Own(s, t) || Unblocks(s, t))
  {
    hide Receive, RxMsgs, LogOk, Heard, Sent, Last, Replied, Packet.RequiresAck, Apply, Transmit;
    Alone(s, 0);
    if s.up[0].SackTx? && !s.sack.state.Idle? {
      t := LowProceeds(s);
    } else if s.up[0].SackAcked? && s.sack.timer.running {
      t := SackExpire;
    } else if s.up[0].LplAcked? && s.lpl.timer.running {
      t := LplExpire;
    } else {
      t := Up(0);
    }
  }
}
