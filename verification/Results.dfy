/** What a write can return: exactly which results, for which frames, under which settings. */
module Results {
  import opened Bytes
  import opened Stack
  import opened StackInv
  import opened Paths
  import Outcome
  import Packet
  import Theorems

  /** The run ends with the return of a write of f, with result r, under these settings. */
  ghost predicate Shows(run: seq<State>, steps: seq<Step>, on: Settings, f: Frame, r: nat)
  {
    && IsRun(run, steps) && On(run[|steps|]) == on
    && var log := run[|steps|].log; log != [] && log[|log| - 1] == Returned(f, r)
  }

  // ---------- the legs put together ----------

  /** The frame goes down and out, and soft-ACK hears of it. */
  lemma SendOut(s: State, f: Frame, on: Settings, low: LowCall) returns (ts: seq<Step>, s': State)
    requires Under(s, f, on, [], [low], []) && low.SackCopy? && s.sack.state.Tx? && s.radio.state.Idle?
    ensures Leads(s, ts, s') && NoneReturns(ts) && SameWindow(s, s')
    ensures if Packet.RequiresAck(f)
            then Under(s', f, on, [], [], []) && s'.sack.state.TxWait? && !s'.sack.timer.running
            else Under(s', f, on, [CsmaDone(TX_SUCCESS)], [], [])
  {
    hide Under, Leads, Packet.RequiresAck;
    var t1, s1 := Load(s, f, on, low);
    var t2, s2 := Write(s1, f, on);
    var t3, s3 := Report(s2, f, on);
    LeadsOn(s, t1, s1, t2, s2);
    LeadsOn(s, t1 + t2, s2, t3, s3);
    ts, s' := t1 + t2 + t3, s3;
  }

  /** An ACK for f is received during the wait for it. */
  lemma HearAck(s: State, f: Frame, on: Settings) returns (ts: seq<Step>, s': State)
    requires Under(s, f, on, [], [], []) && s.sack.state.TxWait? && !s.sack.timer.running
    ensures Leads(s, ts, s') && NoneReturns(ts) && SameWindow(s, s') && Under(s', f, on, [CsmaDone(TX_SUCCESS)], [], [])
  {
    hide Inv, Leads, Packet.IsAck, Packet.Dsn;
    var t1, s1 := Arrive(s, f, on);
    var t2, s2 := Read(s, s1, t1, f, on);
    var t3, s3 := Fetch(s2, f, on);
    var t4, s4 := Acked(s3, f, on);
    LeadsOn(s, t2, s2, t3, s3);
    LeadsOn(s, t2 + t3, s3, t4, s4);
    ts, s' := t2 + t3 + t4, s4;
  }

  /** Length byte and body are read. */
  lemma Read(s: State, s1: State, t1: seq<Step>, f: Frame, on: Settings) returns (ts: seq<Step>, s': State)
    requires Under(s, f, on, [], [], []) && s.sack.state.TxWait? && !s.sack.timer.running && Leads(s, t1, s1)
    requires NoneReturns(t1)
    requires s1 == s.(radio := s.radio.(pendingRx := true), rxMsgs := [ReadLen])
    ensures Leads(s, ts, s') && NoneReturns(ts) && SameWindow(s, s')
    ensures Hearing(s', f, on, Finish(5)) && s'.radio.rxIn == [0] + AckBody(f)
    ensures s1.rxMsgs == [ReadLen] && Enabled(s1, RxDone(0, [5]))
    ensures var m := Apply(s1, RxDone(0, [5]));
            m.rxMsgs == [ReadBody(5)] && Enabled(m, RxDone(0, AckBody(f))) && s' == Apply(m, RxDone(0, AckBody(f)))
  {
    hide Inv, Leads, AckBody;
    ts, s' := Then(s, t1, s1, RxDone(0, [5]));
    assert |AckBody(f)| == 5 by { BodyLength(f); }
    ts, s' := Then(s, ts, s', RxDone(0, AckBody(f)));
    LeadsInv(s, ts, s');
  }

  /** The writer is woken and returns. */
  lemma Return(s: State, f: Frame, on: Settings, st: u8, ts: seq<Step>, m: State)
    returns (run: seq<State>, steps: seq<Step>)
    requires s == Apply(Fresh(on), WriteBegin(f)) && Leads(s, ts, m) && Under(m, f, on, [LplDone(st)], [], [])
    requires Closes(m, f, on, st)
    ensures var st' := Passed(on, f, st); Shows(run, steps, on, f, if st' == TX_SUCCESS then |f| else st')
    ensures var st' := Passed(on, f, st);
            run[|steps|].log == m.log + [Returned(f, if st' == TX_SUCCESS then |f| else st')]
  {
    hide Inv, Leads, Packet.RequiresAck, Passed, Enabled, Apply, Init;
    FreshReady(f, on);
    var t1, s1 := Settle(m, f, on, st);
    LeadsOn(s, ts, m, t1, s1);
    var us, u := Release(s, ts + t1, s1, f, on);
    assert Enabled(u, WriteEnd(0)) by { CanEnd(u); }
    assert Inv(u) by { LeadsInv(s, us, u); }
    Outcome.ReturnsBound(u);
    var vs, v := Then(s, us, u, WriteEnd(0));
    assert On(v) == on by { EndKeeps(u, on); }
    assert IsRun([Fresh(on), s], [WriteBegin(f)]) by { FirstStep(f, on); }
    run := LeadsRun([Fresh(on), s], [WriteBegin(f)], vs, v);
    steps := [WriteBegin(f)] + vs;
  }

  lemma FirstStep(f: Frame, on: Settings)
    ensures IsRun([Fresh(on), Apply(Fresh(on), WriteBegin(f))], [WriteBegin(f)])
  {
  }

  lemma CanEnd(s: State)
    requires s.waiting != [] && s.iface.doneSem > 0 && !s.startPending
    ensures Enabled(s, WriteEnd(0))
  {
  }

  lemma EndKeeps(s: State, on: Settings)
    requires Enabled(s, WriteEnd(0)) && On(s) == on
    ensures On(Apply(s, WriteEnd(0))) == on
  {
  }

  /** The writer's thread comes back from starting the window timer. */
  lemma Release(s: State, ts: seq<Step>, m: State, f: Frame, on: Settings) returns (ts': seq<Step>, s': State)
    requires Inv(s) && Leads(s, ts, m) && m.iface.doneSem == 1 && m.waiting == [f]
    ensures Leads(s, ts', s') && Inv(s') && !s'.startPending && s'.log == m.log && On(s') == On(m)
    ensures s'.iface == m.iface && s'.waiting == m.waiting
  {
    hide Inv, Leads;
    ts', s' := ts, m;
    if m.startPending { ts', s' := Then(s, ts, m, LplStart); }
    LeadsInv(s, ts', s');
  }

  // ---------- one run for each result ----------

  /** The frame is on its way to the radio; with low power listening its window is open, or has expired. */
  lemma Descend(f: Frame, on: Settings, expire: bool) returns (s: State, ts: seq<Step>, m: State, low: LowCall)
    ensures s == Apply(Fresh(on), WriteBegin(f)) && Inv(s) && Leads(s, ts, m)
    ensures Under(m, f, on, [], [low], []) && low.SackCopy? && m.sack.state.Tx? && m.radio.state.Idle?
    ensures !m.lpl.timer.running && (on.lpl && expire ==> m.lpl.state.TimerExpired?)
  {
    hide Inv, Leads, Plain, Enabled, Apply, Init;
    FreshReady(f, on);
    s := Apply(Fresh(on), WriteBegin(f));
    var t1, s1, src := Enter(s, f, on);
    assert s1.sack.state.Idle? && s1.radio.state.Idle? && s1.lpl.timer == OFF by { FreshIdle(f, on); }
    var t2, s2, c := Pass(s1, f, on, src);
    LeadsOn(s, t1, s1, t2, s2);
    ts, m, low := t1 + t2, s2, c;
    if on.lpl && expire {
      var t3, s3 := Arm(s2, f, on, [], [c]);
      var t4, s4 := Expire(s3, f, on, [], [c]);
      LeadsOn(s, t1 + t2, s2, t3, s3);
      LeadsOn(s, t1 + t2 + t3, s3, t4, s4);
      ts, m := t1 + t2 + t3 + t4, s4;
    }
  }

  lemma FreshIdle(f: Frame, on: Settings)
    ensures var s := Apply(Fresh(on), WriteBegin(f)); s.sack.state.Idle? && s.radio.state.Idle? && s.lpl.timer == OFF
  {
  }

  /** An attempt that ends with this status makes the write return what it becomes on its way up. */
  lemma Ends(s: State, ts: seq<Step>, m: State, f: Frame, on: Settings, st: u8)
    returns (run: seq<State>, steps: seq<Step>)
    requires s == Apply(Fresh(on), WriteBegin(f)) && Leads(s, ts, m) && Under(m, f, on, [CsmaDone(st)], [], [])
    requires Closes(m, f, on, st)
    ensures var st' := Passed(on, f, st); Shows(run, steps, on, f, if st' == TX_SUCCESS then |f| else st')
  {
    hide Under, Leads, Passed, Shows, Apply, Packet.RequiresAck;
    var t1, s1 := Rise(m, f, on, st);
    LeadsOn(s, ts, m, t1, s1);
    run, steps := Return(s, f, on, st, ts + t1, s1);
  }

  /** The write returns its length, whatever the settings and the frame. */
  lemma LengthShown(f: Frame, on: Settings) returns (run: seq<State>, steps: seq<Step>)
    ensures Shows(run, steps, on, f, |f|)
  {
    hide Under, Leads, Shows, Apply, Packet.RequiresAck;
    var s, ts, m, low := Descend(f, on, !Packet.RequiresAck(f));
    var t1, s1 := SendOut(m, f, on, low);
    LeadsOn(s, ts, m, t1, s1);
    if Packet.RequiresAck(f) {
      var t2, s2 := HearAck(s1, f, on);
      LeadsOn(s, ts + t1, s1, t2, s2);
      run, steps := Ends(s, ts + t1 + t2, s2, f, on, TX_SUCCESS);
    } else {
      run, steps := Ends(s, ts + t1, s1, f, on, TX_SUCCESS);
    }
  }

  /** An ACK that does not come is a timeout, or FAILED once the window has expired. */
  lemma NoAckShown(f: Frame, on: Settings) returns (run: seq<State>, steps: seq<Step>)
    requires Packet.RequiresAck(f)
    ensures Shows(run, steps, on, f, if on.lpl then TX_FAILED else TX_ACK_TIMEOUT)
  {
    hide Under, Leads, Shows, Apply, Packet.RequiresAck;
    var s, ts, m, low := Descend(f, on, true);
    var t1, s1 := SendOut(m, f, on, low);
    LeadsOn(s, ts, m, t1, s1);
    var t2, s2 := TimeOut(s1, f, on);
    LeadsOn(s, ts + t1, s1, t2, s2);
    run, steps := Ends(s, ts + t1 + t2, s2, f, on, TX_ACK_TIMEOUT);
  }

  /** An underflow is FAILED for a frame that waits for no ACK, without low power listening. */
  lemma UnderflowShown(f: Frame, on: Settings) returns (run: seq<State>, steps: seq<Step>)
    requires !Packet.RequiresAck(f) && !on.lpl
    ensures Shows(run, steps, on, f, TX_FAILED)
  {
    hide Under, Leads, Shows, Apply, Packet.RequiresAck;
    var s, ts, m, low := Descend(f, on, false);
    var t1, s1 := Load(m, f, on, low);
    LeadsOn(s, ts, m, t1, s1);
    var t2, s2 := Underflow(s1, f, on);
    LeadsOn(s, ts + t1, s1, t2, s2);
    run, steps := Ends(s, ts + t1 + t2, s2, f, on, TX_FAILED);
  }

  /** CSMA gives up before anything is laid out; with low power listening the window has expired. */
  lemma GivenUp(f: Frame, on: Settings) returns (s: State, ts: seq<Step>, m: State)
    requires on.csma
    ensures s == Apply(Fresh(on), WriteBegin(f)) && Leads(s, ts, m) && Under(m, f, on, [LplDone(TX_BUSY)], [], [])
    ensures !m.lpl.timer.running && (on.lpl ==> m.lpl.state.TimerExpired?) && m.log == [Started(f)]
  {
    hide Inv, Leads, Plain, Enabled, Apply, Init;
    FreshReady(f, on);
    s := Apply(Fresh(on), WriteBegin(f));
    var t1, s1, src := Enter(s, f, on);
    assert s.log == [] && s1.lpl.timer == OFF by { FreshIdle(f, on); FreshLog(f, on); }
    var t2, s2 := GiveUp(s1, f, on, src);
    LeadsOn(s, t1, s1, t2, s2);
    ts, m := t1 + t2, s2;
    if on.lpl {
      var t3, s3 := Arm(s2, f, on, [LplDone(TX_BUSY)], []);
      var t4, s4 := Expire(s3, f, on, [LplDone(TX_BUSY)], []);
      LeadsOn(s, t1 + t2, s2, t3, s3);
      LeadsOn(s, t1 + t2 + t3, s3, t4, s4);
      ts, m := t1 + t2 + t3 + t4, s4;
    }
  }

  lemma FreshLog(f: Frame, on: Settings)
    ensures Apply(Fresh(on), WriteBegin(f)).log == []
  {
  }

  /** Without low power listening BUSY reaches the writer. */
  lemma BusyShown(f: Frame, on: Settings) returns (run: seq<State>, steps: seq<Step>)
    requires on.csma && !on.lpl
    ensures Shows(run, steps, on, f, TX_BUSY)
  {
    hide Under, Leads, Shows, Apply, Packet.RequiresAck;
    var s, ts, m := GivenUp(f, on);
    run, steps := Return(s, f, on, TX_BUSY, ts, m);
  }

  /** With both on, and for a frame that asks for no ACK, the same comes back as success: the write
      returns its length and nothing was ever laid out for the radio. */
  lemma SilentSuccess(f: Frame) returns (run: seq<State>, steps: seq<Step>)
    requires !Packet.RequiresAck(f)
    ensures IsRun(run, steps) && run[|steps|].log == [Started(f), Returned(f, |f|)]
    ensures On(run[|steps|]) == Settings(true, true)
  {
    hide Under, Leads, Apply, Packet.RequiresAck, Enabled, Init;
    var on := Settings(true, true);
    var s, ts, m := GivenUp(f, on);
    run, steps := Return(s, f, on, TX_BUSY, ts, m);
  }

  // ---------- the exact answer ----------

  lemma ShownPossible(run: seq<State>, steps: seq<Step>, on: Settings, f: Frame, r: nat)
    requires Shows(run, steps, on, f, r)
    ensures Possible(on, f, r)
  {
    hide Enabled, Apply, Possible;
    Theorems.ResultsPossible(run, steps, |steps|, |run[|steps|].log| - 1);
  }

  /** A write of f can return r if and only if: r is its length; or FAILED, with low power listening for
      a frame that asks for an ACK and without it for one that does not; or an ACK timeout, without low
      power listening for a frame that asks for an ACK; or BUSY, with CSMA and without low power
      listening. So BUSY bubbles up to the writer exactly when low power listening is off. */
  lemma ResultsExactly(on: Settings, f: Frame, r: nat)
    ensures (exists run: seq<State>, steps: seq<Step> :: Shows(run, steps, on, f, r)) <==> Possible(on, f, r)
  {
    hide Shows, Packet.RequiresAck;
    if Possible(on, f, r) {
      var run: seq<State>, steps: seq<Step>;
      if r == |f| {
        run, steps := LengthShown(f, on);
      } else if r == TX_BUSY {
        run, steps := BusyShown(f, on);
      } else if Packet.RequiresAck(f) {
        run, steps := NoAckShown(f, on);
      } else {
        run, steps := UnderflowShown(f, on);
      }
      assert Shows(run, steps, on, f, r);
    }
    forall run: seq<State>, steps: seq<Step> | Shows(run, steps, on, f, r) ensures Possible(on, f, r) {
      ShownPossible(run, steps, on, f, r);
    }
  }
}
