/** CSMA attempts in runs of the composed driver: what the channel said before a frame went down or
    CSMA gave up, and how long an attempt was asked to wait. */
module Attempts {
  import opened Bytes
  import opened Bags
  import opened Stack
  import opened StackInv
  import opened StackSteps
  import opened Token
  import Csma
  import Outcome

  /** The step starts the first backoff of an attempt. */
  predicate StartsBackoff(s: State, t: Step) { t.Up? && t.i < |s.up| && s.up[t.i].CsmaCopy? }

  /** How a step may change the place of a frame as far as CSMA is concerned. */
  predicate CsmaMoves(s: State, t: Step, p: Place, p': Place)
  {
    && (StartsBackoff(s, t) ==> p' == Backoff(false, false))
    && (t.CsmaSample? ==> p == Backoff(s.csma.state.Cong?, true) && p' == AfterSample(p.cong, t.clear))
    && (t.CsmaWork? ==> p == Queued)
    && (p'.Backoff? && !p.Backoff? ==> StartsBackoff(s, t))
    && (p'.Backoff? && p.Backoff? && !t.CsmaSample? ==> p'.cong == p.cong)
    && (p'.Queued? && !p.Queued? ==> t.CsmaSample?)
    && (p' == InCall(LplDone(TX_BUSY)) && p' != p ==> t.CsmaSample?)
  }

  function AfterSample(cong: bool, clear: bool): Place
  {
    if clear then Queued else if cong then InCall(LplDone(TX_BUSY)) else Backoff(true, false)
  }

  lemma CallMoves(s: State, i: nat)
    requires Inv(s) && EnabledUp(s, i)
    ensures CsmaMoves(s, Up(i), Where(s), Where(ApplyUp(s, i)))
  {
    hide Transmit, Latched, Receive, RxMsgs, LogOk, SackTimer, LplTimer, CarriesBelow, Last, Replied, Heard, Sent,
         Memcpy, LowAt, ApplyUp, LowHop;
    Alone(s, i);
    assert Moves(s, Up(i), ApplyUp(s, i)) by { UpPreserves(s, i); }
    if s.up[i].CsmaCopy? { CopyMoves(s); }
  }

  lemma CopyMoves(s: State)
    requires |s.waiting| == 1 && |s.up| == 1 && s.up[0].CsmaCopy? && EnabledUp(s, 0)
    requires s.csma.state.Tx? && Pending(s.csma) == 0
    ensures Where(ApplyUp(s, 0)) == Backoff(false, false)
  {
    hide Memcpy, LowAt;
  }

  lemma SampleMoves(s: State, t: Step)
    requires Inv(s) && EnabledTimer(s, t) && (t.CsmaSample? || t.CsmaFire? || t.CsmaWork?)
    ensures CsmaMoves(s, t, Where(s), Where(ApplyTimer(s, t)))
  {
    hide Transmit, Latched, Receive, RxMsgs, LogOk, SackTimer, LplTimer, CarriesBelow, Last, Replied, Heard, Sent,
         LowAt;
  }

  lemma OtherMoves(s: State, t: Step)
    requires Inv(s) && Enabled(s, t) && !t.Up? && !t.CsmaSample? && !t.CsmaFire? && !t.CsmaWork?
    ensures CsmaMoves(s, t, Where(s), Where(Apply(s, t)))
  {
    hide Apply, Transmit, Latched, Receive, RxMsgs, LogOk, SackTimer, LplTimer, CarriesBelow, Last, Replied, Heard,
         Sent, LowAt, LowHop;
    StepPreserves(s, t);
    Outcome.BesideHolds(s, t);
  }

  lemma MovesHold(s: State, t: Step)
    requires Inv(s) && Enabled(s, t)
    ensures CsmaMoves(s, t, Where(s), Where(Apply(s, t)))
  {
    hide Inv, Where, CsmaMoves, ApplyUp, ApplyTimer;
    if t.Up? {
      CallMoves(s, t.i);
    } else if t.CsmaSample? || t.CsmaFire? || t.CsmaWork? {
      SampleMoves(s, t);
    } else {
      OtherMoves(s, t);
    }
  }

  // ---------- over runs ----------

  /** How many samples the attempt under way has taken before step k that found the channel clear (or busy). */
  function Samples(run: seq<State>, steps: seq<Step>, k: nat, clear: bool): nat
    requires k < |run| && |run| == |steps| + 1
  {
    if k == 0 || StartsBackoff(run[k - 1], steps[k - 1]) then 0
    else Samples(run, steps, k - 1, clear) + B(steps[k - 1] == CsmaSample(clear))
  }

  datatype Range = Range(min: int, init: int, cong: int)
  {
    predicate Good() { Csma.GoodRange(min, init) && Csma.GoodRange(min, cong) }
  }

  /** The microseconds of delay the attempt under way has requested before step k; draws[i] is the random
      number step i would draw. */
  function Delay(run: seq<State>, steps: seq<Step>, draws: seq<nat>, r: Range, k: nat): int
    requires k < |run| && |run| == |steps| + 1 && |draws| == |steps| && r.Good()
    requires forall i :: 0 <= i < |draws| ==> draws[i] < Csma.U32
  {
    if k == 0 then 0
    else if StartsBackoff(run[k - 1], steps[k - 1]) then Csma.GetBackoff(r.min, r.init, draws[k - 1])
    else
      var before := Delay(run, steps, draws, r, k - 1);
      if steps[k - 1] == CsmaSample(false) && run[k - 1].csma.state.Tx?
      then before + Csma.GetBackoff(r.min, r.cong, draws[k - 1]) else before
  }

  /** What the samples of an attempt are, by place. */
  lemma {:induction false} SamplesByPlace(run: seq<State>, steps: seq<Step>, k: nat)
    requires IsRun(run, steps) && k < |run|
    ensures var p, busy, clear := Where(run[k]), Samples(run, steps, k, false), Samples(run, steps, k, true);
            && (p.Backoff? ==> clear == 0 && busy == B(p.cong))
            && (p.Queued? ==> clear == 1 && busy <= 1)
  {
    hide Inv, Enabled, Apply, Where;
    if k == 0 {
      StartsElsewhere(run[0]);
    } else {
      SamplesByPlace(run, steps, k - 1);
      RunInv(run, steps, k - 1);
      MovesHold(run[k - 1], steps[k - 1]);
    }
  }

  lemma StartsElsewhere(s: State)
    requires Init(s)
    ensures Where(s) == Rest
  {
  }

  /** In every run, whatever comes between: CSMA calls the layer below only after exactly one clear
      sample, its last, and at most one busy one; and it gives up only on a busy sample that is exactly
      the second, with no clear one. */
  lemma AttemptBound(run: seq<State>, steps: seq<Step>, k: nat)
    requires IsRun(run, steps) && k < |steps|
    ensures steps[k].CsmaWork? ==> Samples(run, steps, k, true) == 1 && Samples(run, steps, k, false) <= 1
    ensures Where(run[k + 1]) == InCall(LplDone(TX_BUSY)) && Where(run[k]) != Where(run[k + 1]) ==>
              steps[k] == CsmaSample(false)
              && Samples(run, steps, k + 1, false) == 2 && Samples(run, steps, k + 1, true) == 0
  {
    hide Inv, Enabled, Apply, Where;
    SamplesByPlace(run, steps, k);
    RunInv(run, steps, k);
    MovesHold(run[k], steps[k]);
  }

  /** Whatever numbers are drawn, while a frame waits in CSMA the requested delays of its attempt lie
      between as many minima as backoffs and the sum of the maxima; a whole attempt asks for less
      than init + cong. */
  lemma {:induction false} DelayBound(run: seq<State>, steps: seq<Step>, draws: seq<nat>, r: Range, k: nat)
    requires IsRun(run, steps) && k < |run| && |draws| == |steps| && r.Good()
    requires forall i :: 0 <= i < |draws| ==> draws[i] < Csma.U32
    ensures var p, d := Where(run[k]), Delay(run, steps, draws, r, k);
            && 0 <= d < r.init + r.cong
            && (p.Backoff? && !p.cong ==> r.min <= d < r.init)
            && (p.Backoff? && p.cong ==> 2 * r.min <= d)
  {
    hide Inv, Enabled, Apply, Where, Csma.GetBackoff;
    if k == 0 {
      StartsElsewhere(run[0]);
    } else {
      DelayBound(run, steps, draws, r, k - 1);
      RunInv(run, steps, k - 1);
      MovesHold(run[k - 1], steps[k - 1]);
      Csma.BackoffInRange(r.min, r.init, draws[k - 1]);
      Csma.BackoffInRange(r.min, r.cong, draws[k - 1]);
      SampleState(run[k - 1], steps[k - 1]);
    }
  }

  /** Each delay is drawn over its whole range by the random number of its own step: the first one in the
      initial range, the one after a busy first sample in the congestion range. */
  lemma DelayDrawn(run: seq<State>, steps: seq<Step>, draws: seq<nat>, r: Range, k: nat)
    requires IsRun(run, steps) && k < |steps| && |draws| == |steps| && r.Good()
    requires forall i :: 0 <= i < |draws| ==> draws[i] < Csma.U32
    ensures var d, d' := Delay(run, steps, draws, r, k), Delay(run, steps, draws, r, k + 1);
            && (StartsBackoff(run[k], steps[k]) ==> d' == r.min + draws[k] % (r.init - r.min))
            && (steps[k] == CsmaSample(false) && Where(run[k]) == Backoff(false, true) ==>
                  d' == d + r.min + draws[k] % (r.cong - r.min))
  {
    hide Inv, Enabled, Apply, Where, Csma.GetBackoff;
    RunInv(run, steps, k);
    SampleState(run[k], steps[k]);
    Csma.BackoffValue(r.min, r.init, draws[k]);
    Csma.BackoffValue(r.min, r.cong, draws[k]);
  }

  /** A sample in the first backoff finds CSMA in TX, one in the second does not. */
  lemma SampleState(s: State, t: Step)
    requires Inv(s) && Enabled(s, t)
    ensures t.CsmaSample? ==> Where(s).Backoff? && (s.csma.state.Tx? <==> !Where(s).cong)
  {
    hide Transmit, Latched, Receive, RxMsgs, LogOk, SackTimer, LplTimer, CarriesBelow, Last, Replied, Heard, Sent,
         LowAt;
  }
}
