/** The kernel event of linux_kernel/src/osal_event.c with any number of waiters, in both reset
    modes, under timers and signals. */
module KernelEvent {
  import opened Options
  import opened KernelWait
  import opened Words
  import Runs

  type Tid = nat

  /** History: `sets` counts the calls of set and `successes` the waits that returned success; `unanswered`
      says that since the last set there has been neither such a wait nor a reset. */
  datatype State = State(
    manual: bool,
    signaled: bool,
    waiters: map<Tid, Waiter>,
    sets: nat,
    successes: nat,
    unanswered: bool)

  datatype Action =
    | Set
    | Reset
    | EnterWait(t: Tid, ms: nat, interruptible: bool, pendingSignal: bool)
    | Go(t: Tid)
    | TimerFires(t: Tid)
    | SignalArrives(t: Tid)

  function Start(manual: bool): State
  {
    State(manual, false, map[], 0, 0, false)
  }

  /** waitqueue_active. */
  predicate QueueActive(waiters: map<Tid, Waiter>)
  {
    exists t :: t in waiters && waiters[t].queued
  }

  function NotifyAll(waiters: map<Tid, Waiter>): map<Tid, Waiter>
  {
    map t | t in waiters :: Notify(waiters[t])
  }

  function FireTimer(waiters: map<Tid, Waiter>, owner: Tid): map<Tid, Waiter>
  {
    map t | t in waiters :: if t == owner then Fire(waiters[t]) else Disturb(waiters[t])
  }

  function DoGo(s: State, t: Tid): State
    requires t in s.waiters && NextPhase(s.waiters[t], s.signaled, s.manual).Some?
  {
    var w := s.waiters[t];
    var phase := NextPhase(w, s.signaled, s.manual).value;
    s.(waiters := s.waiters[t := Move(w, phase)],
       signaled := FlagAfter(w, s.signaled, s.manual),
       successes := if phase == Returned(Success) then s.successes + 1 else s.successes,
       unanswered := s.unanswered && phase != Returned(Success))
  }

  function Step(s: State, a: Action): Option<State>
  {
    match a
    case Set =>
      Some(s.(signaled := s.manual || !QueueActive(s.waiters), waiters := NotifyAll(s.waiters),
              sets := s.sets + 1, unanswered := true))
    case Reset =>
      Some(s.(signaled := false, unanswered := false))
    case EnterWait(t, ms, interruptible, pendingSignal) =>
      if t in s.waiters && !s.waiters[t].phase.Returned? then None
      else Some(s.(waiters := s.waiters[t := Enter(ms, interruptible, pendingSignal)]))
    case Go(t) =>
      if t in s.waiters && NextPhase(s.waiters[t], s.signaled, s.manual).Some? then Some(DoGo(s, t)) else None
    case TimerFires(t) =>
      if t in s.waiters && s.waiters[t].armed then Some(s.(waiters := FireTimer(s.waiters, t))) else None
    case SignalArrives(t) =>
      if t in s.waiters then Some(s.(waiters := s.waiters[t := Interrupt(s.waiters[t])])) else None
  }

  /** A task that has passed the test and has not been made runnable. */
  predicate SleepsPastTest(w: Waiter)
  {
    (w.phase.Passed? || w.phase.Blocked?) && w.asleep
  }

  ghost predicate Fine(w: Waiter, signaled: bool)
  {
    Sound(w) && (SleepsPastTest(w) ==> !signaled)
  }

  ghost predicate Inv(s: State)
  {
    && (forall t :: t in s.waiters ==> Fine(s.waiters[t], s.signaled))
    && (s.manual && s.unanswered ==> s.signaled)
  }

  lemma GoKeepsInv(s: State, t: Tid)
    requires Inv(s) && Step(s, Go(t)).Some?
    ensures Inv(DoGo(s, t))
  {
    MoveKeepsSound(s.waiters[t], s.signaled, s.manual);
  }

  lemma StepKeepsInv(s: State, a: Action)
    requires Inv(s) && Step(s, a).Some?
    ensures Inv(Step(s, a).value)
  {
    if a.Go? {
      GoKeepsInv(s, a.t);
    } else {
      var s' := Step(s, a).value;
      forall t | t in s'.waiters ensures Fine(s'.waiters[t], s'.signaled) {
        if t in s.waiters {
          assert Fine(s.waiters[t], s.signaled);
          WakesKeepSound(s.waiters[t]);
        }
      }
    }
  }

  ghost predicate Reachable(manual: bool, s: State)
  {
    Runs.Leads(Step, Start(manual), s)
  }

  lemma ReachableInv(manual: bool, s: State)
    requires Reachable(manual, s)
    ensures Inv(s) && s.manual == manual
  {
    forall s, a | Inv(s) && Step(s, a).Some? ensures Inv(Step(s, a).value) {
      StepKeepsInv(s, a);
    }
    Runs.InvariantWhereLed(Step, Inv, Start(manual), s);
    var acts: seq<Action> :| Runs.Run(Step, Start(manual), acts) == Some(s);
    ModeIsFixed(Start(manual), acts);
  }

  lemma {:induction false} ModeIsFixed(s: State, acts: seq<Action>)
    requires Runs.Run(Step, s, acts).Some?
    ensures Runs.Run(Step, s, acts).value.manual == s.manual
    decreases |acts|
  {
    if acts != [] {
      ModeIsFixed(Step(s, acts[0]).value, acts[1..]);
    }
  }

  /** No task ever sleeps on a raised event once it has passed the locked test. */
  lemma NoSleepOnRaisedEvent(manual: bool, s: State, t: Tid)
    requires Reachable(manual, s) && t in s.waiters && SleepsPastTest(s.waiters[t])
    ensures !s.signaled
  {
    ReachableInv(manual, s);
  }

  /** A set leaves nobody asleep, and the flag is up afterwards exactly in manual mode or when the queue was empty. */
  lemma SetWakesEveryone(manual: bool, s: State)
    requires Reachable(manual, s)
    ensures var s' := Step(s, Set).value;
      && (forall t :: t in s'.waiters ==> !s'.waiters[t].asleep)
      && (s'.signaled <==> manual || forall t :: t in s.waiters ==> !s.waiters[t].queued)
  {
    ReachableInv(manual, s);
    forall t | t in s.waiters ensures !Notify(s.waiters[t]).asleep {
      assert Fine(s.waiters[t], s.signaled);
      WakesKeepSound(s.waiters[t]);
    }
  }

  /** A timer wakes the whole queue as well, leaves the flag alone, and marks its own task only. */
  lemma TimerWakesEveryone(manual: bool, s: State, owner: Tid)
    requires Reachable(manual, s) && Step(s, TimerFires(owner)).Some?
    ensures var s' := Step(s, TimerFires(owner)).value;
      && s'.signaled == s.signaled
      && (forall t :: t in s'.waiters ==> !s'.waiters[t].asleep)
      && (forall t :: t in s.waiters && t != owner ==>
            s'.waiters[t].timedout == s.waiters[t].timedout && s'.waiters[t].notified == s.waiters[t].notified)
      && s'.waiters[owner].timedout
  {
    ReachableInv(manual, s);
    forall t | t in s.waiters ensures !Disturb(s.waiters[t]).asleep && !Fire(s.waiters[t]).asleep {
      assert Fine(s.waiters[t], s.signaled);
      WakesKeepSound(s.waiters[t]);
    }
  }

  // ----- what a success means -----

  /** A wait that slept and reports success was woken by a set, or else by another waiter's timer, never both. */
  lemma SuccessHasOneCause(manual: bool, s: State, t: Tid)
    requires Reachable(manual, s) && t in s.waiters
    requires s.waiters[t].phase.Finished? && Verdict(s.waiters[t]) == Success
    ensures s.waiters[t].notified <==> !s.waiters[t].stray
  {
    ReachableInv(manual, s);
    assert Fine(s.waiters[t], s.signaled);
  }

  // ----- what a set can fail to do -----

  /** An auto-reset set goes unnoticed at once, leaving the flag down and waking nobody, exactly when the
      queue is occupied and all on it are awake already; each of these then has a signal. */
  lemma SetUnnoticedExactly(s: State)
    requires Reachable(false, s)
    ensures var s' := Step(s, Set).value;
      !s'.signaled && s'.waiters == s.waiters <==>
        && QueueActive(s.waiters)
        && forall t :: t in s.waiters && s.waiters[t].queued ==> !s.waiters[t].asleep
    ensures forall t :: t in s.waiters && s.waiters[t].queued && !s.waiters[t].asleep ==> Interrupted(s.waiters[t])
  {
    ReachableInv(false, s);
    var s' := Step(s, Set).value;
    if forall t :: t in s.waiters && s.waiters[t].queued ==> !s.waiters[t].asleep {
      assert s'.waiters == s.waiters;
    } else {
      var t :| t in s.waiters && s.waiters[t].queued && s.waiters[t].asleep;
      assert s'.waiters[t] != s.waiters[t];
    }
    forall t | t in s.waiters && s.waiters[t].queued && !s.waiters[t].asleep ensures Interrupted(s.waiters[t]) {
      assert Fine(s.waiters[t], s.signaled);
    }
  }

  /** With uninterruptible waits a set that finds the queue occupied always wakes somebody. */
  lemma SetReachesUninterruptible(s: State)
    requires Reachable(false, s) && QueueActive(s.waiters)
    requires forall t :: t in s.waiters && s.waiters[t].queued ==> !s.waiters[t].interruptible
    ensures exists t :: t in s.waiters && !s.waiters[t].notified && Step(s, Set).value.waiters[t].notified
  {
    ReachableInv(false, s);
    var t :| t in s.waiters && s.waiters[t].queued;
    assert Fine(s.waiters[t], s.signaled);
    assert !s.waiters[t].notified && Step(s, Set).value.waiters[t].notified;
  }

  /** A task's own step lowers a raised auto-reset flag without taking it exactly at the end of a wait that slept. */
  lemma FlagDroppedExactly(s: State, t: Tid)
    requires Reachable(false, s) && s.signaled && Step(s, Go(t)).Some?
    ensures var s' := Step(s, Go(t)).value;
      !s'.signaled && s'.waiters[t].phase != Found <==> s.waiters[t].phase.Judged?
  {
    ReachableInv(false, s);
    assert !s.manual;
    match s.waiters[t].phase
    case Prepared =>
    case Found =>
    case Polled =>
    case Passed =>
    case Blocked =>
    case Awake =>
    case Finished =>
    case Judged(_) =>
  }

  /** The event object with its wait queue; the methods are the pieces do_os_event_wait consists of
      between which other code can run. */
  class Event {
    var signaled: bool
    var manualReset: bool
    var waiters: map<Tid, Waiter>
    ghost var sets: nat
    ghost var successes: nat
    ghost var unanswered: bool

    ghost function View(): State
      reads this
    {
      State(manualReset, signaled, waiters, sets, successes, unanswered)
    }

    constructor Create(manual: bool)
      ensures View() == Start(manual)
      ensures !signaled && manualReset == manual && waiters == map[]
    {
      signaled, manualReset, waiters := false, manual, map[];
      sets, successes, unanswered := 0, 0, false;
    }

    method SetEvent()
      modifies this`signaled, this`waiters, this`sets, this`unanswered
      ensures Some(View()) == Step(old(View()), Set)
      ensures signaled <==> manualReset || forall t :: t in waiters ==> !old(waiters)[t].queued
    {
      signaled := true;
      if QueueActive(waiters) {
        if !manualReset {
          signaled := false;
        }
        NotifyQueue();
      } else {
        NobodyToNotify(waiters);
      }
      sets, unanswered := sets + 1, true;
    }

    /** wake_up on the queue by a set. */
    method NotifyQueue()
      modifies this`waiters
      ensures waiters == NotifyAll(old(waiters))
      ensures waiters.Keys == old(waiters).Keys
      ensures forall t :: t in waiters ==>
        waiters[t] == if old(waiters)[t].queued && old(waiters)[t].asleep
                      then old(waiters)[t].(queued := false, asleep := false, notified := true)
                      else old(waiters)[t]
    {
      waiters := map t | t in waiters ::
        if waiters[t].queued && waiters[t].asleep
        then waiters[t].(queued := false, asleep := false, notified := true)
        else waiters[t];
    }

    method ResetEvent()
      modifies this`signaled, this`unanswered
      ensures Some(View()) == Step(old(View()), Reset)
      ensures !signaled
    {
      signaled, unanswered := false, false;
    }

    method PrepareToWait(t: Tid, ms: nat, interruptible: bool, pendingSignal: bool)
      requires t in waiters ==> waiters[t].phase.Returned?
      modifies this`waiters
      ensures Some(View()) == Step(old(View()), EnterWait(t, ms, interruptible, pendingSignal))
      ensures waiters == old(waiters)[t :=
        Waiter(Prepared, ms, interruptible, true, true, false, false, pendingSignal, false, false)]
    {
      waiters := waiters[t := Enter(ms, interruptible, pendingSignal)];
    }

    /** The critical section around the test of the flag. */
    method TestFlag(t: Tid)
      requires t in waiters && waiters[t].phase.Prepared?
      modifies this`signaled, this`waiters
      ensures Some(View()) == Step(old(View()), Go(t))
      ensures signaled <==> old(signaled) && manualReset
      ensures var w := old(waiters)[t];
        waiters == old(waiters)[t :=
          w.(phase := if old(signaled) then Found else if w.ms == 0 then Polled else Passed)]
    {
      var w := waiters[t];
      var phase := Passed;
      if signaled {
        if !manualReset {
          signaled := false;
        }
        phase := Found;
      } else if w.ms == 0 {
        phase := Polled;
      }
      waiters := waiters[t := w.(phase := phase)];
    }

    /** From the timer through schedule() and finish_wait, one piece a call. */
    method WaitOn(t: Tid) returns (blocked: bool)
      requires t in waiters && PastTest(waiters[t]) && !waiters[t].phase.Finished?
      modifies this`waiters
      ensures blocked <==> Step(old(View()), Go(t)).None?
      ensures if blocked then View() == old(View()) else Some(View()) == Step(old(View()), Go(t))
      ensures var w := old(waiters)[t];
        && (w.phase.Passed? ==> waiters[t] == w.(phase := Blocked, armed := w.ms != NO_TIMEOUT))
        && (w.phase.Blocked? && !blocked ==> waiters[t] == w.(phase := Awake, asleep := false))
        && (w.phase.Awake? ==> waiters[t] == w.(phase := Finished, queued := false, asleep := false))
    {
      var w := waiters[t];
      blocked := false;
      match w.phase
      case Passed => waiters := waiters[t := w.(phase := Blocked, armed := w.ms != NO_TIMEOUT)];
      case Blocked =>
        if w.asleep && !(w.interruptible && w.pendingSignal) {
          blocked := true;
        } else {
          waiters := waiters[t := w.(phase := Awake, asleep := false)];
        }
      case Awake => waiters := waiters[t := w.(phase := Finished, queued := false, asleep := false)];
    }

    /** The result of a wait that slept: a signal outranks the time limit, which outranks a wake-up. */
    method Judge(w: Waiter) returns (status: Status)
      ensures status == Verdict(w)
      ensures status == NotDone <==> w.interruptible && w.pendingSignal
      ensures status == Timeout <==> !(w.interruptible && w.pendingSignal) && w.timedout && w.ms != NO_TIMEOUT
    {
      status := Success;
      if w.interruptible && w.pendingSignal {
        status := NotDone;
      } else if w.ms != NO_TIMEOUT && w.timedout {
        status := Timeout;
      }
    }

    /** The wait that slept gets its result, and its timer is deleted. */
    method Decide(t: Tid)
      requires t in waiters && waiters[t].phase.Finished?
      modifies this`waiters, this`successes, this`unanswered
      ensures Some(View()) == Step(old(View()), Go(t))
      ensures waiters == old(waiters)[t := Decided(old(waiters)[t], manualReset)]
    {
      var w := waiters[t];
      var status := Judge(w);
      var phase := if manualReset then Returned(status) else Judged(status);
      DecidedIsMove(w, signaled, manualReset);
      waiters := waiters[t := w.(phase := phase, queued := false, asleep := false, armed := false)];
      if manualReset && status == Success {
        successes, unanswered := successes + 1, false;
      }
    }

    method LeaveWait(t: Tid) returns (status: Status)
      requires t in waiters
      requires var phase := waiters[t].phase; phase.Found? || phase.Polled? || (phase.Judged? && !manualReset)
      modifies this`signaled, this`waiters, this`successes, this`unanswered
      ensures Some(View()) == Step(old(View()), Go(t))
      ensures status == match old(waiters)[t].phase case Found => Success case Polled => Timeout case Judged(v) => v
      ensures waiters ==
        old(waiters)[t := old(waiters)[t].(phase := Returned(status), queued := false, asleep := false)]
      ensures signaled <==> old(signaled) && !old(waiters)[t].phase.Judged?
    {
      var w := waiters[t];
      match w.phase {
        case Found => status := Success;
        case Polled => status := Timeout;
        case Judged(verdict) =>
          signaled := false;
          status := verdict;
      }
      waiters := waiters[t := w.(phase := Returned(status), queued := false, asleep := false)];
      successes := if status == Success then successes + 1 else successes;
      unanswered := unanswered && status != Success;
    }

    /** timeout_handler: the owner's mark, then one wake-up for everybody on the queue. */
    method TimeoutHandler(t: Tid)
      requires t in waiters && waiters[t].armed
      modifies this`waiters
      ensures Some(View()) == Step(old(View()), TimerFires(t))
      ensures forall u :: u in waiters ==> !(waiters[u].queued && waiters[u].asleep)
      ensures forall u :: u in waiters ==> waiters[u].timedout == (u == t || old(waiters)[u].timedout)
    {
      MarkThenWake(waiters, t);
      FireWakesQueue(waiters, t);
      waiters := waiters[t := waiters[t].(timedout := true, armed := false)];
      WakeQueue(t);
    }

    /** wake_up on the queue by the timer of task `owner`. */
    method WakeQueue(owner: Tid)
      modifies this`waiters
      ensures waiters == WokenBy(old(waiters), owner)
      ensures waiters.Keys == old(waiters).Keys
      ensures forall t :: t in waiters ==>
        waiters[t] == if old(waiters)[t].queued && old(waiters)[t].asleep
                      then old(waiters)[t].(queued := false, asleep := false,
                                            stray := old(waiters)[t].stray || t != owner)
                      else old(waiters)[t]
    {
      waiters := map u | u in waiters ::
        if waiters[u].queued && waiters[u].asleep
        then waiters[u].(queued := false, asleep := false, stray := waiters[u].stray || u != owner)
        else waiters[u];
    }
  }

  /** A waiter whose result is known: off the queue, no timer, in auto-reset mode the final reset to come. */
  function Decided(w: Waiter, manual: bool): Waiter
  {
    w.(phase := if manual then Returned(Verdict(w)) else Judged(Verdict(w)),
       queued := false, asleep := false, armed := false)
  }

  lemma DecidedIsMove(w: Waiter, signaled: bool, manual: bool)
    requires w.phase.Finished?
    ensures NextPhase(w, signaled, manual) == Some(Decided(w, manual).phase)
    ensures Decided(w, manual) == Move(w, Decided(w, manual).phase)
    ensures FlagAfter(w, signaled, manual) == signaled
  {
  }

  function WokenBy(waiters: map<Tid, Waiter>, owner: Tid): map<Tid, Waiter>
  {
    map t | t in waiters :: if t == owner then WakeUp(waiters[t]) else Disturb(waiters[t])
  }

  /** The timer's two steps together. */
  lemma MarkThenWake(waiters: map<Tid, Waiter>, owner: Tid)
    requires owner in waiters
    ensures WokenBy(waiters[owner := waiters[owner].(timedout := true, armed := false)], owner)
         == FireTimer(waiters, owner)
  {
  }

  /** Nobody sleeps on the queue afterwards, and only the owner is marked. */
  lemma FireWakesQueue(waiters: map<Tid, Waiter>, owner: Tid)
    requires owner in waiters
    ensures var woken := FireTimer(waiters, owner);
      && (forall t :: t in woken ==> !(woken[t].queued && woken[t].asleep))
      && (forall t :: t in woken ==> woken[t].timedout == (t == owner || waiters[t].timedout))
  {
  }

  lemma NobodyToNotify(waiters: map<Tid, Waiter>)
    requires !QueueActive(waiters)
    ensures NotifyAll(waiters) == waiters
  {
  }
}
