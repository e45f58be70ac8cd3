/** Any number of interrupt proxies on one interrupt line. The line delivers only at disable depth 0
    and runs the handlers of one delivery one after the other. */
module IrqLine {
  import opened Options
  import opened Counting
  import opened KernelWait
  import opened IrqProxy
  import Runs

  type Pid = nat

  /** `left`: proxies whose handler the delivery in progress has still to run. */
  datatype State = State(depth: int, delivering: bool, left: set<Pid>, proxies: map<Pid, Proxy>)

  datatype Action =
    | Open(q: Pid)
    | Raise
    | Handle(q: Pid)
    | EndDelivery
    | Read(q: Pid, pendingSignal: bool)
    | TimerFires(q: Pid)
    | SignalArrives(q: Pid)
    | Unregister(q: Pid)
    | Release(q: Pid)

  function Start(): State
  {
    State(0, false, {}, map[])
  }

  predicate HandlersIdle(s: State)
  {
    forall q :: q in s.proxies ==> s.proxies[q].handler == HandlerIdle
  }

  function Put(s: State, q: Pid, p: Proxy): State
  {
    s.(proxies := s.proxies[q := p])
  }

  /** osal_irqproxy_release after the handler has been removed: a zero wait on the event, then
      enable_irq if anything was pending. */
  predicate EnablesOnRelease(p: Proxy)
  {
    p.disabled || p.signaled
  }

  function Step(s: State, a: Action): Option<State>
  {
    match a
    case Open(q) =>
      if q in s.proxies then None else Some(Put(s, q, Opened()))
    case Raise =>
      if s.depth == 0 && !s.delivering
      then Some(s.(delivering := true, left := set q | q in s.proxies && s.proxies[q].registered))
      else None
    case Handle(q) =>
      if q !in s.proxies then None
      else if q in s.left then
        (if HandlersIdle(s) then Some(Put(s, q, Accept(s.proxies[q])).(left := s.left - {q})) else None)
      else (match HandlerStep(s.proxies[q])
            case None => None
            case Some(p) => Some(Put(s, q, p).(depth := if p.handler == Masked then s.depth + 1 else s.depth)))
    case EndDelivery =>
      if s.delivering && s.left == {} && HandlersIdle(s) then Some(s.(delivering := false)) else None
    case Read(q, pendingSignal) =>
      if q !in s.proxies then None
      else (match ReadStep(s.proxies[q], pendingSignal)
            case None => None
            case Some(p) =>
              Some(Put(s, q, p).(depth := if s.proxies[q].reader == Enabling then s.depth - 1 else s.depth)))
    case TimerFires(q) =>
      if q in s.proxies && TimerStep(s.proxies[q]).Some?
      then Some(Put(s, q, TimerStep(s.proxies[q]).value))
      else None
    case SignalArrives(q) =>
      if q in s.proxies && SignalStep(s.proxies[q]).Some? then Some(Put(s, q, SignalStep(s.proxies[q]).value)) else None
    case Unregister(q) =>
      // free_irq waits for a delivery in progress; the file is released when no read is in progress
      if q in s.proxies && s.proxies[q].registered && s.proxies[q].reader == Idle && !s.delivering
      then Some(Put(s, q, s.proxies[q].(registered := false))) else None
    case Release(q) =>
      if q in s.proxies && !s.proxies[q].registered
      then Some(s.(proxies := s.proxies - {q},
                   depth := if EnablesOnRelease(s.proxies[q]) then s.depth - 1 else s.depth))
      else None
  }

  /** A proxy the delivery has still to reach holds nothing; outside a delivery every handler is idle. */
  ghost predicate Inv(s: State)
  {
    && s.depth == Count(s.proxies, Holding)
    && (forall q :: q in s.proxies ==> ProxyInv(s.proxies[q]))
    && (forall q :: q in s.proxies && !s.proxies[q].registered ==>
          s.proxies[q].reader == Idle && s.proxies[q].handler == HandlerIdle)
    && (!s.delivering ==> s.left == {} && HandlersIdle(s))
    && (forall q :: q in s.left ==>
          q in s.proxies && s.proxies[q].registered && s.proxies[q].handler == HandlerIdle && !Holding(s.proxies[q]))
  }

  /** Replacing one proxy keeps the invariant when the depth follows its share. */
  lemma ReplaceKeepsInv(s: State, q: Pid, p: Proxy, depth: int, left: set<Pid>)
    requires Inv(s) && q in s.proxies && ProxyInv(p)
    requires s.proxies[q].registered && p.registered
    requires depth == s.depth - One(Holding(s.proxies[q])) + One(Holding(p))
    requires left <= s.left && (q in left ==> p.handler == HandlerIdle && !Holding(p))
    requires s.delivering || p.handler == HandlerIdle
    ensures Inv(State(depth, s.delivering, left, s.proxies[q := p]))
  {
    CountUpdate(s.proxies, q, p, Holding);
  }

  lemma HandleKeepsInv(s: State, q: Pid)
    requires Inv(s) && Step(s, Handle(q)).Some?
    ensures Inv(Step(s, Handle(q)).value)
  {
    var p := s.proxies[q];
    if q in s.left {
      AcceptKeeps(p);
      ReplaceKeepsInv(s, q, Accept(p), s.depth, s.left - {q});
    } else {
      HandlerKeeps(p);
      var p' := HandlerStep(p).value;
      ReplaceKeepsInv(s, q, p', if p'.handler == Masked then s.depth + 1 else s.depth, s.left);
    }
  }

  lemma ReadKeepsInv(s: State, q: Pid, pendingSignal: bool)
    requires Inv(s) && Step(s, Read(q, pendingSignal)).Some?
    ensures Inv(Step(s, Read(q, pendingSignal)).value)
  {
    var p := s.proxies[q];
    ReadKeeps(p, pendingSignal);
    ReplaceKeepsInv(s, q, ReadStep(p, pendingSignal).value,
                    if p.reader == Enabling then s.depth - 1 else s.depth, s.left);
  }

  lemma InterruptKeepsInv(s: State, a: Action)
    requires Inv(s) && (a.TimerFires? || a.SignalArrives?) && Step(s, a).Some?
    ensures Inv(Step(s, a).value)
  {
    var p := s.proxies[a.q];
    if a.TimerFires? {
      TimerKeeps(p);
      ReplaceKeepsInv(s, a.q, TimerStep(p).value, s.depth, s.left);
    } else {
      SignalKeeps(p);
      ReplaceKeepsInv(s, a.q, SignalStep(p).value, s.depth, s.left);
    }
  }

  lemma OpenKeepsInv(s: State, q: Pid)
    requires Inv(s) && q !in s.proxies
    ensures Inv(Put(s, q, Opened()))
  {
    assert ProxyInv(Opened()) && !Holding(Opened());
    CountUpdate(s.proxies, q, Opened(), Holding);
  }

  lemma RaiseKeepsInv(s: State)
    requires Inv(s) && Step(s, Raise).Some?
    ensures Inv(Step(s, Raise).value)
  {
  }

  lemma UnregisterKeepsInv(s: State, q: Pid)
    requires Inv(s) && Step(s, Unregister(q)).Some?
    ensures Inv(Step(s, Unregister(q)).value)
  {
    var p' := s.proxies[q].(registered := false);
    assert ProxyInv(s.proxies[q]);
    assert ProxyInv(p') && (Holding(p') <==> Holding(s.proxies[q]));
    CountUpdate(s.proxies, q, p', Holding);
  }

  lemma ReleaseKeepsInv(s: State, q: Pid)
    requires Inv(s) && Step(s, Release(q)).Some?
    ensures Inv(Step(s, Release(q)).value)
    ensures EnablesOnRelease(s.proxies[q]) <==> s.proxies[q].disabled
    ensures EnablesOnRelease(s.proxies[q]) <==> Holding(s.proxies[q])
  {
    assert ProxyInv(s.proxies[q]);
    CountRemove(s.proxies, q, Holding);
  }

  lemma StepKeepsInv(s: State, a: Action)
    requires Inv(s) && Step(s, a).Some?
    ensures Inv(Step(s, a).value)
  {
    match a
    case Handle(q) => HandleKeepsInv(s, q);
    case Read(q, pendingSignal) => ReadKeepsInv(s, q, pendingSignal);
    case TimerFires(_) => InterruptKeepsInv(s, a);
    case SignalArrives(_) => InterruptKeepsInv(s, a);
    case Open(q) => OpenKeepsInv(s, q);
    case Raise => RaiseKeepsInv(s);
    case EndDelivery =>
    case Unregister(q) => UnregisterKeepsInv(s, q);
    case Release(q) => ReleaseKeepsInv(s, q);
  }

  lemma InvIsInductive()
    ensures Runs.Inductive(Step, Inv)
  {
    forall s, a | Inv(s) && Step(s, a).Some? ensures Inv(Step(s, a).value) {
      StepKeepsInv(s, a);
    }
  }

  ghost predicate Reachable(s: State)
  {
    Runs.Leads(Step, Start(), s)
  }

  lemma ReachableInv(s: State)
    requires Reachable(s)
    ensures Inv(s)
  {
    InvIsInductive();
    CountZero(Start().proxies, Holding);
    Runs.InvariantWhereLed(Step, Inv, Start(), s);
  }

  // ----- disable depth -----

  /** The depth is the number of proxies that hold the line, and nobody ever calls enable_irq at depth 0. */
  lemma DepthBalanced(s: State)
    requires Reachable(s)
    ensures s.depth == Count(s.proxies, Holding)
    ensures forall q :: q in s.proxies && s.proxies[q].reader == Enabling ==> s.depth > 0
    ensures forall q :: q in s.proxies && !s.proxies[q].registered && EnablesOnRelease(s.proxies[q]) ==> s.depth > 0
  {
    ReachableInv(s);
    CountZero(s.proxies, Holding);
    forall q | q in s.proxies && !s.proxies[q].registered && EnablesOnRelease(s.proxies[q])
      ensures Holding(s.proxies[q])
    {
      assert ProxyInv(s.proxies[q]);
    }
  }

  /** A handler never starts while its own proxy holds the line. */
  lemma HandlerStartsUnheld(s: State, q: Pid)
    requires Reachable(s) && q in s.left && Step(s, Handle(q)).Some?
    ensures !Holding(s.proxies[q]) && !s.proxies[q].disabled
  {
    ReachableInv(s);
  }

  /** Release takes exactly its own proxy's share off the depth: at that point a raised event
      implies `disabled`, so the extra zero wait never adds an enable. */
  lemma ReleaseIsExact(s: State, q: Pid)
    requires Reachable(s) && Step(s, Release(q)).Some?
    ensures EnablesOnRelease(s.proxies[q]) <==> s.proxies[q].disabled
    ensures Step(s, Release(q)).value.depth == s.depth - One(Holding(s.proxies[q]))
    ensures Step(s, Release(q)).value.depth == Count(s.proxies - {q}, Holding)
  {
    ReachableInv(s);
    ReleaseKeepsInv(s, q);
  }

  // ----- delivery -----

  /** No accepted interrupt is lost: while it is undelivered the event is up, or `received` is 0, or the read in
      progress has taken the flag or is awake in its wait; it never sleeps over an interrupt with both down. */
  lemma NoInterruptLost(s: State, q: Pid)
    requires Reachable(s) && q in s.proxies && s.proxies[q].undelivered
    ensures var p := s.proxies[q]; p.signaled || !p.received || Committed(p.reader)
  {
    ReachableInv(s);
    assert ProxyInv(s.proxies[q]);
  }

  /** A read that begins with the handler idle and an interrupt undelivered: with `received` at 0 it
      returns 0 at once, otherwise it finds the event up and goes on to take it. */
  lemma ReadAfterHandler(s: State, q: Pid)
    requires Reachable(s) && q in s.proxies && s.proxies[q].registered
    requires var p := s.proxies[q]; p.undelivered && p.handler == HandlerIdle && p.reader == Idle
    ensures var p := s.proxies[q];
      var p' := ReadStep(p, false).value;
      && p.disabled && (!p.received || p.signaled)
      && (!p.received ==> p'.reader == Idle && !p'.undelivered && Delivered(p') == Delivered(p) + 1)
      && (p.received ==> p'.reader == Clearing && p'.owed)
  {
    ReachableInv(s);
    assert ProxyInv(s.proxies[q]);
  }

  /** Such a read never sleeps and returns 0, unless a further set meets it between queueing and
      its locked test. */
  lemma OwedReadReturnsZero(s: State, q: Pid)
    requires Reachable(s) && q in s.proxies
    requires s.proxies[q].owed && !s.proxies[q].crossed && s.proxies[q].reader != Idle
    ensures var r := s.proxies[q].reader;
      && ReadStep(s.proxies[q], false).Some?
      && (r.Waiting? && r.w.phase.Returned? ==> r.w.phase.status == Success)
  {
    ReachableInv(s);
    assert ProxyInv(s.proxies[q]);
  }

  /** The reader's steps from here on, if it finds the event up. */
  function StepsToReturn(r: Reader): nat
  {
    match r
    case Idle => 0
    case Clearing => 6
    case Enabling => 5
    case Entering => 4
    case Waiting(w) => if w.phase.Prepared? then 3 else if w.phase.Found? then 2 else 1
  }

  function Reading(q: Pid, pendingSignal: bool, n: nat): seq<Action>
  {
    if n == 0 then [] else [Read(q, pendingSignal)] + Reading(q, pendingSignal, n - 1)
  }

  /** An owed, uncrossed read comes one step nearer to its end, or ends and delivers. */
  lemma OwedReadGoesOn(p: Proxy, pendingSignal: bool)
    requires ProxyInv(p) && p.owed && !p.crossed && p.reader != Idle
    ensures ReadStep(p, pendingSignal).Some?
    ensures var next := ReadStep(p, pendingSignal).value;
      if StepsToReturn(p.reader) == 1
      then next.reader == Idle && !next.undelivered && Delivered(next) == Delivered(p) + 1
      else && StepsToReturn(next.reader) == StepsToReturn(p.reader) - 1
           && next.owed && !next.crossed && Delivered(next) == Delivered(p)
  {
    match p.reader
    case Clearing =>
    case Enabling =>
    case Entering =>
    case Waiting(w) =>
  }

  /** The line after the proxy's reader has run to its end. */
  ghost predicate ReadDone(s: State, q: Pid, before: Proxy)
  {
    q in s.proxies && s.proxies[q].reader == Idle && !s.proxies[q].undelivered
    && Delivered(s.proxies[q]) == Delivered(before) + 1
  }

  lemma {:induction false} ReadRunsOut(s: State, q: Pid, pendingSignal: bool, n: nat)
    requires Inv(s) && q in s.proxies
    requires s.proxies[q].owed && !s.proxies[q].crossed && s.proxies[q].reader != Idle
    requires n == StepsToReturn(s.proxies[q].reader)
    ensures Runs.Run(Step, s, Reading(q, pendingSignal, n)).Some?
    ensures ReadDone(Runs.Run(Step, s, Reading(q, pendingSignal, n)).value, q, s.proxies[q])
    decreases n
  {
    var p := s.proxies[q];
    OwedReadGoesOn(p, pendingSignal);
    var next := Step(s, Read(q, pendingSignal)).value;
    assert next.proxies[q] == ReadStep(p, pendingSignal).value;
    assert Reading(q, pendingSignal, n)[1..] == Reading(q, pendingSignal, n - 1);
    if n > 1 {
      ReadKeepsInv(s, q, pendingSignal);
      ReadRunsOut(next, q, pendingSignal, n - 1);
    }
  }

  /** Left to itself it is back after at most six steps, with the interrupt delivered. */
  lemma OwedReadFinishes(s: State, q: Pid, pendingSignal: bool)
    requires Reachable(s) && q in s.proxies
    requires s.proxies[q].owed && !s.proxies[q].crossed && s.proxies[q].reader != Idle
    ensures exists n, t :: n <= 6 && Runs.Run(Step, s, Reading(q, pendingSignal, n)) == Some(t)
                           && ReadDone(t, q, s.proxies[q])
  {
    ReachableInv(s);
    ReadRunsOut(s, q, pendingSignal, StepsToReturn(s.proxies[q].reader));
  }

  /** Only a crossed read gets as far as a verdict, and it then fails exactly when a signal or its
      timer has come as well. */
  lemma CrossedReadFailsExactly(s: State, q: Pid)
    requires Reachable(s) && q in s.proxies && s.proxies[q].owed
    requires s.proxies[q].reader.Waiting? && s.proxies[q].reader.w.phase.Finished?
    ensures var w := s.proxies[q].reader.w;
      && s.proxies[q].crossed
      && ReadStep(s.proxies[q], false).value.reader.w.phase
         == Judged(if w.pendingSignal then NotDone else if w.timedout then Timeout else Success)
  {
    ReachableInv(s);
    assert ProxyInv(s.proxies[q]);
  }

  lemma NoTwoMissesInARow(s: State, q: Pid)
    requires Reachable(s) && q in s.proxies
    ensures s.proxies[q].misses <= 1
    ensures s.proxies[q].misses == 1 ==> !s.proxies[q].received
  {
    ReachableInv(s);
    assert ProxyInv(s.proxies[q]);
  }

  /** Each accepted interrupt makes at most two reads return 0. */
  lemma AtMostTwice(s: State, q: Pid)
    requires Reachable(s) && q in s.proxies
    ensures Delivered(s.proxies[q]) <= 2 * s.proxies[q].accepted
  {
    ReachableInv(s);
    assert ProxyInv(s.proxies[q]);
  }

  /** Every delivery beyond the number of interrupts has its failed read; with none failed there is no such delivery. */
  lemma TwiceOnlyAfterFailures(s: State, q: Pid)
    requires Reachable(s) && q in s.proxies
    ensures Delivered(s.proxies[q]) <= s.proxies[q].accepted + s.proxies[q].failures
    ensures s.proxies[q].failures == 0 ==> Delivered(s.proxies[q]) <= s.proxies[q].accepted
  {
    ReachableInv(s);
    assert ProxyInv(s.proxies[q]);
  }

  /** `received` is 0 exactly while the last read to finish is one that failed. */
  lemma ReceivedExactly(s: State, q: Pid)
    requires Reachable(s) && q in s.proxies
    ensures s.proxies[q].received <==> !s.proxies[q].lastFailed
  {
    ReachableInv(s);
    assert ProxyInv(s.proxies[q]);
  }

  /** A read that took the event is not followed by one that returns 0 for the flags alone. */
  lemma SuccessIsNotRepeated(s: State, q: Pid, pendingSignal: bool)
    requires Reachable(s) && q in s.proxies
    requires s.proxies[q].reader.Waiting? && s.proxies[q].reader.w.phase == Returned(Success)
    ensures var r := Runs.Run(Step, s, Reading(q, pendingSignal, 2));
      && r.Some? && q in r.value.proxies
      && Delivered(r.value.proxies[q]) == Delivered(s.proxies[q]) + 1
      && r.value.proxies[q].reader != Idle
  {
    ReachableInv(s);
    var p := s.proxies[q];
    var p1 := EndRead(p, Success);
    var p2 := BeginRead(p1);
    var s1 := Put(s, q, p1);
    var s2 := Put(s1, q, p2);
    assert Step(s, Read(q, pendingSignal)) == Some(s1);
    assert Step(s1, Read(q, pendingSignal)) == Some(s2);
    assert Reading(q, pendingSignal, 1)[1..] == [];
    assert Reading(q, pendingSignal, 2)[1..] == Reading(q, pendingSignal, 1);
    assert Runs.Run(Step, s1, Reading(q, pendingSignal, 1)) == Some(s2);
  }

  /** A delivery reaches every registered proxy once: all are due when it starts, one is no longer due only after its
      handler has accepted the interrupt, and the delivery cannot end before. */
  lemma DeliveryReachesAll(s: State, a: Action, q: Pid)
    requires Reachable(s) && Step(s, a).Some? && q in s.proxies && s.proxies[q].registered
    ensures var s' := Step(s, a).value;
      && (a.Raise? ==> q in s'.left)
      && (q in s.left && q !in s'.left ==>
            a == Handle(q) && s'.proxies[q].accepted == s.proxies[q].accepted + 1 && s'.proxies[q].undelivered)
      && (q !in s.left && q in s'.left ==> a.Raise?)
      && (q in s.left ==> !a.EndDelivery?)
  {
    ReachableInv(s);
  }
}
