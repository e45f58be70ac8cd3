/** Runs of a single proxy that show where the delivery guarantees stop. */
module IrqWitnesses {
  import opened Options
  import opened KernelWait
  import opened IrqProxy
  import opened IrqLine
  import Runs

  /** A line with one proxy, number 0, and no delivery in progress. */
  function Solo(p: Proxy, depth: int): State
  {
    State(depth, false, {}, map[0 := p])
  }

  // ----- a stretch of reader steps -----

  /** The line after n steps of the reader. */
  function Reads(p: Proxy, depth: int, n: nat): Option<State>
    decreases n
  {
    if n == 0 then Some(Solo(p, depth))
    else match ReadStep(p, false)
      case None => None
      case Some(next) => Reads(next, if p.reader == Enabling then depth - 1 else depth, n - 1)
  }

  lemma {:induction false} ReadsLead(p: Proxy, depth: int, n: nat)
    requires Reads(p, depth, n).Some?
    ensures Runs.Leads(Step, Solo(p, depth), Reads(p, depth, n).value)
    decreases n
  {
    if n == 0 {
      Runs.VisitsLead(Step, [Solo(p, depth)], []);
    } else {
      var p' := ReadStep(p, false).value;
      var depth' := if p.reader == Enabling then depth - 1 else depth;
      assert Solo(p, depth).proxies[0 := p'] == Solo(p', depth').proxies;
      Runs.VisitsLead(Step, [Solo(p, depth), Solo(p', depth')], [Read(0, false)]);
      ReadsLead(p', depth', n - 1);
      Runs.LeadsOn(Step, Solo(p, depth), Solo(p', depth'), Reads(p, depth, n).value);
    }
  }

  // ----- an interrupt -----

  /** The proxy after a complete handler. */
  function Handled(p: Proxy): Proxy
  {
    Accept(p).(handler := HandlerIdle, disabled := true)
  }

  lemma RaiseSolo(p: Proxy)
    requires p.registered
    ensures Step(Solo(p, 0), Raise) == Some(State(0, true, {0}, map[0 := p]))
  {
    var s := Step(Solo(p, 0), Raise).value;
    assert s.left == {0};
  }

  /** The line during a delivery to the one proxy. */
  function Delivering(p: Proxy, depth: int, left: set<Pid>): State
  {
    State(depth, true, left, map[0 := p])
  }

  lemma AcceptLeads(p: Proxy)
    requires p.registered && p.handler == HandlerIdle
    ensures Runs.Leads(Step, Solo(p, 0), Delivering(Accept(p), 0, {}))
  {
    var s1 := Delivering(p, 0, {0});
    var s2 := Delivering(Accept(p), 0, {});
    RaiseSolo(p);
    assert Step(s1, Handle(0)) == Some(s2) by {
      assert s1.proxies[0 := Accept(p)] == s2.proxies && s1.left - {0} == {};
    }
    Runs.VisitsLead(Step, [Solo(p, 0), s1, s2], [Raise, Handle(0)]);
  }

  lemma MaskLeads(a: Proxy)
    requires a.handler == Raised
    ensures var done := a.(handler := HandlerIdle, disabled := true);
      Runs.Leads(Step, Delivering(a, 0, {}), Solo(done, 1))
  {
    var m := a.(handler := Masked);
    var done := a.(handler := HandlerIdle, disabled := true);
    var s2 := Delivering(a, 0, {});
    var s3 := Delivering(m, 1, {});
    var s4 := Delivering(done, 1, {});
    assert Step(s2, Handle(0)) == Some(s3) by {
      assert s2.proxies[0 := m] == s3.proxies;
    }
    assert Step(s3, Handle(0)) == Some(s4) by {
      assert s3.proxies[0 := done] == s4.proxies;
    }
    Runs.VisitsLead(Step, [s2, s3, s4, Solo(done, 1)], [Handle(0), Handle(0), EndDelivery]);
  }

  lemma HandlingLeads(p: Proxy)
    requires p.registered && p.handler == HandlerIdle
    ensures Runs.Leads(Step, Solo(p, 0), Solo(Handled(p), 1))
  {
    AcceptLeads(p);
    MaskLeads(Accept(p));
    Runs.LeadsOn(Step, Solo(p, 0), Delivering(Accept(p), 0, {}), Solo(Handled(p), 1));
  }

  // ----- one interrupt, two reads that return 0 -----

  /** A reader asleep in schedule(), and the same once its timer has run out. */
  function SleepingWait(): Waiter
  {
    Waiter(Blocked, READ_WAIT_MS, true, true, true, true, false, false, false, false)
  }

  function TimedOutWait(phase: Phase): Waiter
  {
    Waiter(phase, READ_WAIT_MS, true, false, false, false, true, false, false, false)
  }

  lemma FallAsleepLeads(p: Proxy)
    requires p.registered && p.reader == Idle && !p.disabled && !p.signaled && !p.undelivered
    ensures Runs.Leads(Step, Solo(p, 0),
                       Solo(p.(reader := Waiting(SleepingWait()), owed := false, crossed := false), 0))
  {
    var e := p.(reader := Entering, owed := false, crossed := false);
    var w := Enter(READ_WAIT_MS, true, false);
    var end := Some(Solo(e.(reader := Waiting(SleepingWait())), 0));
    assert Reads(e.(reader := Waiting(Move(w, Passed))), 0, 1) == end;
    assert Reads(e.(reader := Waiting(w)), 0, 2) == end;
    assert Reads(e, 0, 3) == end;
    assert Reads(p, 0, 4) == end;
    ReadsLead(p, 0, 4);
  }

  lemma TimerLeads(p: Proxy)
    requires p.reader == Waiting(SleepingWait())
    ensures Runs.Leads(Step, Solo(p, 0), Solo(p.(reader := Waiting(TimedOutWait(Blocked))), 0))
  {
    var t := p.(reader := Waiting(TimedOutWait(Blocked)));
    assert TimerStep(p) == Some(t);
    assert Solo(p, 0).proxies[0 := t] == Solo(t, 0).proxies;
    Runs.VisitsLead(Step, [Solo(p, 0), Solo(t, 0)], [TimerFires(0)]);
  }

  /** The read has failed. */
  function GaveUp(p: Proxy): Proxy
  {
    p.(reader := Idle, received := false, failures := p.failures + 1, lastFailed := true)
  }

  /** One step and n more. */
  lemma ReadsOn(p: Proxy, next: Proxy, n: nat)
    requires p.reader != Enabling && ReadStep(p, false) == Some(next)
    ensures Reads(p, 0, n + 1) == Reads(next, 0, n)
  {
  }

  lemma GiveUpReads(p: Proxy)
    requires p.reader == Waiting(TimedOutWait(Finished)) && !p.signaled && !p.owed
    ensures Reads(p, 0, 3) == Some(Solo(GaveUp(p), 0))
  {
    var judged := p.(reader := Waiting(TimedOutWait(Judged(Timeout))));
    var returned := p.(reader := Waiting(TimedOutWait(Returned(Timeout))));
    ReadsOn(p, judged, 2);
    ReadsOn(judged, returned, 1);
    ReadsOn(returned, GaveUp(p), 0);
  }

  /** The reader whose time has run out, about to look at its verdict. */
  function Expired(p: Proxy): Proxy
  {
    p.(reader := Waiting(TimedOutWait(Finished)))
  }

  lemma ExpireReads(p: Proxy)
    requires p.reader == Waiting(TimedOutWait(Blocked))
    ensures Reads(p, 0, 2) == Some(Solo(Expired(p), 0))
  {
    var awake := p.(reader := Waiting(TimedOutWait(Awake)));
    WaitMoves(p, TimedOutWait(Blocked), Awake);
    WaitMoves(awake, TimedOutWait(Awake), Finished);
    ReadsOn(p, awake, 1);
    ReadsOn(awake, Expired(p), 0);
  }

  /** A step between schedule() and the verdict concerns the waiter only. */
  lemma WaitMoves(p: Proxy, w: Waiter, phase: Phase)
    requires p.reader == Waiting(w) && (w.phase.Blocked? || w.phase.Awake?)
    requires NextPhase(w, p.signaled, false) == Some(phase)
    ensures ReadStep(p, false) == Some(p.(reader := Waiting(Move(w, phase))))
  {
  }

  lemma GiveUpLeads(p: Proxy)
    requires p.reader == Waiting(TimedOutWait(Blocked)) && !p.signaled && !p.owed
    ensures Runs.Leads(Step, Solo(p, 0), Solo(GaveUp(p), 0))
  {
    var q := Expired(p);
    ExpireReads(p);
    ReadsLead(p, 0, 2);
    GiveUpReads(q);
    ReadsLead(q, 0, 3);
    assert GaveUp(q) == GaveUp(p);
    Runs.LeadsOn(Step, Solo(p, 0), Solo(q, 0), Solo(GaveUp(p), 0));
  }

  /** The proxy after n interrupts each of which came between a read that timed out and the next:
      in `Quiet` nothing is pending, in `Late` a read has just timed out, in `Pending` the interrupt has come. */
  function Quiet(n: nat): Proxy
  {
    Opened().(accepted := n, viaFlag := n, viaEvent := n, failures := n)
  }

  function Late(n: nat): Proxy
  {
    Quiet(n).(received := false, failures := n + 1, lastFailed := true)
  }

  function Pending(n: nat): Proxy
  {
    Late(n).(signaled := true, disabled := true, undelivered := true, accepted := n + 1)
  }

  function Marked(n: nat): Proxy
  {
    Pending(n).(received := true, undelivered := false, viaFlag := n + 1, lastFailed := false)
  }

  /** A read with nothing to deliver. */
  lemma IdleReadLeads(n: nat)
    ensures Runs.Leads(Step, Solo(Quiet(n), 0), Solo(Late(n), 0))
  {
    var asleep := Quiet(n).(reader := Waiting(SleepingWait()));
    var expired := Quiet(n).(reader := Waiting(TimedOutWait(Blocked)));
    FallAsleepLeads(Quiet(n));
    TimerLeads(asleep);
    Runs.LeadsOn(Step, Solo(Quiet(n), 0), Solo(asleep, 0), Solo(expired, 0));
    GiveUpLeads(expired);
    Runs.LeadsOn(Step, Solo(Quiet(n), 0), Solo(expired, 0), Solo(Late(n), 0));
  }

  lemma InterruptLeads(n: nat)
    ensures Runs.Leads(Step, Solo(Late(n), 0), Solo(Pending(n), 1))
  {
    HandlingLeads(Late(n));
    assert Handled(Late(n)) == Pending(n);
  }

  /** The first read returns 0 from the flags alone and leaves the event up. */
  lemma MarkLeads(n: nat)
    ensures Runs.Leads(Step, Solo(Pending(n), 1), Solo(Marked(n), 1))
  {
    assert Reads(Pending(n), 1, 1) == Some(Solo(Marked(n), 1));
    ReadsLead(Pending(n), 1, 1);
  }

  /** The second re-enables the line and takes the event. */
  lemma TakeFlagLeads(p: Proxy)
    requires p.registered && p.reader == Idle && p.disabled && p.received && p.signaled && !p.undelivered
    ensures Runs.Leads(Step, Solo(p, 1), Solo(p.(disabled := false, signaled := false, viaEvent := p.viaEvent + 1,
                                                 owed := false, crossed := false, misses := 0, lastFailed := false), 0))
  {
    var c := p.(reader := Clearing, owed := false, crossed := false);
    var n := c.(reader := Enabling, disabled := false);
    var e := n.(reader := Entering);
    var w := Enter(READ_WAIT_MS, true, false);
    var f := e.(reader := Waiting(Move(w, Found)), signaled := false);
    var r := f.(reader := Waiting(Move(Move(w, Found), Returned(Success))));
    var end := Some(Solo(EndRead(r, Success), 0));
    assert Reads(r, 0, 1) == end;
    assert Reads(f, 0, 2) == end;
    assert Reads(e.(reader := Waiting(w)), 0, 3) == end;
    assert Reads(e, 0, 4) == end;
    assert Reads(n, 1, 5) == end;
    assert Reads(c, 1, 6) == end;
    assert Reads(p, 1, 7) == end;
    ReadsLead(p, 1, 7);
  }

  lemma RoundLeads(n: nat)
    ensures Runs.Leads(Step, Solo(Quiet(n), 0), Solo(Quiet(n + 1), 0))
  {
    IdleReadLeads(n);
    InterruptLeads(n);
    Runs.LeadsOn(Step, Solo(Quiet(n), 0), Solo(Late(n), 0), Solo(Pending(n), 1));
    MarkLeads(n);
    Runs.LeadsOn(Step, Solo(Quiet(n), 0), Solo(Pending(n), 1), Solo(Marked(n), 1));
    TakeFlagLeads(Marked(n));
    Runs.LeadsOn(Step, Solo(Quiet(n), 0), Solo(Marked(n), 1), Solo(Quiet(n + 1), 0));
  }

  lemma OpeningLeads()
    ensures Runs.Leads(Step, Start(), Solo(Opened(), 0))
  {
    assert Start().proxies[0 := Opened()] == Solo(Opened(), 0).proxies;
    Runs.VisitsLead(Step, [Start(), Solo(Opened(), 0)], [Open(0)]);
  }

  /** Two deliveries for every one of n interrupts: the bound of IrqLine.AtMostTwice is tight. */
  lemma {:induction false} TwiceIsTight(n: nat)
    ensures Reachable(Solo(Quiet(n), 0)) && Quiet(n).accepted == n && Delivered(Quiet(n)) == 2 * n
    ensures Quiet(n).failures == n
  {
    if n == 0 {
      OpeningLeads();
    } else {
      TwiceIsTight(n - 1);
      RoundLeads(n - 1);
      Runs.LeadsOn(Step, Start(), Solo(Quiet(n - 1), 0), Solo(Quiet(n), 0));
    }
  }

  // ----- an owed read that fails -----

  /** One interrupt handled, no read yet. */
  function FirstPending(): Proxy
  {
    Opened().(signaled := true, disabled := true, undelivered := true, accepted := 1)
  }

  /** The read has re-enabled the line and stands on the wait queue. */
  function Queued(): Proxy
  {
    FirstPending().(disabled := false, reader := Waiting(Enter(READ_WAIT_MS, true, false)), owed := true)
  }

  /** A second interrupt has taken the event down again and woken the reader; then a signal has come. */
  function Crossed(pendingSignal: bool): Proxy
  {
    Queued().(signaled := false, disabled := true, crossed := true, accepted := 2,
              reader := Waiting(HitWait(Prepared, pendingSignal)))
  }

  function HitWait(phase: Phase, pendingSignal: bool): Waiter
  {
    var armed := phase.Blocked? || phase.Awake? || phase.Finished?;
    Waiter(phase, READ_WAIT_MS, true, false, false, armed, false, pendingSignal, true, false)
  }

  /** The reader's verdict comes next. */
  function Hit(): Proxy
  {
    Crossed(true).(reader := Waiting(HitWait(Finished, true)))
  }

  /** Two interrupts accepted, none delivered, and the read that began after the first has failed. */
  function Missed(): Proxy
  {
    Crossed(true).(reader := Idle, received := false, misses := 1, failures := 1, lastFailed := true)
  }

  lemma QueueUpLeads()
    ensures Runs.Leads(Step, Solo(FirstPending(), 1), Solo(Queued(), 0))
  {
    var c := FirstPending().(reader := Clearing, owed := true);
    var n := c.(reader := Enabling, disabled := false);
    var e := n.(reader := Entering);
    var end := Some(Solo(Queued(), 0));
    assert Reads(e, 0, 1) == end;
    assert Reads(n, 1, 2) == end;
    assert Reads(c, 1, 3) == end;
    assert Reads(FirstPending(), 1, 4) == end;
    ReadsLead(FirstPending(), 1, 4);
  }

  lemma SignalLeads()
    ensures Runs.Leads(Step, Solo(Crossed(false), 1), Solo(Crossed(true), 1))
  {
    assert SignalStep(Crossed(false)) == Some(Crossed(true));
    assert Solo(Crossed(false), 1).proxies[0 := Crossed(true)] == Solo(Crossed(true), 1).proxies;
    Runs.VisitsLead(Step, [Solo(Crossed(false), 1), Solo(Crossed(true), 1)], [SignalArrives(0)]);
  }

  lemma HitToSleepLeads()
    ensures Runs.Leads(Step, Solo(Crossed(true), 1), Solo(Hit(), 1))
  {
    var p := Crossed(true);
    var end := Some(Solo(Hit(), 1));
    assert Reads(p.(reader := Waiting(HitWait(Awake, true))), 1, 1) == end;
    assert Reads(p.(reader := Waiting(HitWait(Blocked, true))), 1, 2) == end;
    assert Reads(p.(reader := Waiting(HitWait(Passed, true))), 1, 3) == end;
    assert Reads(p, 1, 4) == end;
    ReadsLead(p, 1, 4);
  }

  lemma HitFailsLeads()
    ensures Runs.Leads(Step, Solo(Hit(), 1), Solo(Missed(), 1))
  {
    var p := Crossed(true);
    var end := Some(Solo(Missed(), 1));
    assert Reads(p.(reader := Waiting(HitWait(Returned(NotDone), true))), 1, 1) == end;
    assert Reads(p.(reader := Waiting(HitWait(Judged(NotDone), true))), 1, 2) == end;
    assert Reads(Hit(), 1, 3) == end;
    ReadsLead(Hit(), 1, 3);
  }

  /** A read that began with the handler idle and an interrupt undelivered returns -EINTR: a second
      interrupt met it on the queue before its test, and a signal came before its verdict. */
  lemma CrossedReadFails()
    ensures Reachable(Solo(Missed(), 1)) && Missed().misses == 1 && Missed().undelivered
  {
    OpeningLeads();
    HandlingLeads(Opened());
    assert Handled(Opened()) == FirstPending();
    Runs.LeadsOn(Step, Start(), Solo(Opened(), 0), Solo(FirstPending(), 1));
    QueueUpLeads();
    Runs.LeadsOn(Step, Start(), Solo(FirstPending(), 1), Solo(Queued(), 0));
    HandlingLeads(Queued());
    assert Handled(Queued()) == Crossed(false);
    Runs.LeadsOn(Step, Start(), Solo(Queued(), 0), Solo(Crossed(false), 1));
    SignalLeads();
    Runs.LeadsOn(Step, Start(), Solo(Crossed(false), 1), Solo(Crossed(true), 1));
    HitToSleepLeads();
    HitFailsLeads();
    Runs.LeadsOn(Step, Start(), Solo(Crossed(true), 1), Solo(Hit(), 1));
    Runs.LeadsOn(Step, Start(), Solo(Hit(), 1), Solo(Missed(), 1));
  }
}
