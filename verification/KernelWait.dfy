/** One task inside do_os_event_wait (linux_kernel/src/osal_event.c), over the kernel's wait-queue
    primitives: a queued task that is asleep is made runnable and taken off the queue by a wake-up. */
module KernelWait {
  import opened Options
  import opened Words

  datatype Status = Success | Timeout | NotDone

  datatype Phase =
    | Prepared                 // on the queue, the locked test comes next
    | Found                    // the test saw the flag, finish_wait comes next
    | Polled                   // flag down and a zero wait, finish_wait comes next
    | Passed                   // flag down, the timer comes next
    | Blocked                  // in schedule()
    | Awake                    // schedule() has returned, finish_wait comes next
    | Finished                 // off the queue, the verdict comes next
    | Judged(status: Status)   // the final reset of an auto-reset event comes next
    | Returned(status: Status)

  /** `asleep` is the task state set by prepare_to_wait, `queued` its place on the wait queue,
      `pendingSignal` the task's signal. History: `notified` when a set woke it, `stray` when another
      task's timer did. */
  datatype Waiter = Waiter(
    phase: Phase,
    ms: nat,
    interruptible: bool,
    queued: bool,
    asleep: bool,
    armed: bool,
    timedout: bool,
    pendingSignal: bool,
    notified: bool,
    stray: bool)

  /** prepare_to_wait. */
  function Enter(ms: nat, interruptible: bool, pendingSignal: bool): Waiter
  {
    Waiter(Prepared, ms, interruptible, true, true, false, false, pendingSignal, false, false)
  }

  function WakeUp(w: Waiter): Waiter
  {
    if w.queued && w.asleep then w.(queued := false, asleep := false) else w
  }

  /** The wake-up a set sends. */
  function Notify(w: Waiter): Waiter
  {
    WakeUp(w).(notified := w.notified || (w.queued && w.asleep))
  }

  /** The wake-up some other task's timer sends. */
  function Disturb(w: Waiter): Waiter
  {
    WakeUp(w).(stray := w.stray || (w.queued && w.asleep))
  }

  /** The task's own timer. */
  function Fire(w: Waiter): Waiter
  {
    WakeUp(w).(timedout := true, armed := false)
  }

  /** A signal makes an interruptible task runnable but leaves it on the queue. */
  function Interrupt(w: Waiter): Waiter
  {
    w.(pendingSignal := true, asleep := w.asleep && !w.interruptible)
  }

  predicate Interrupted(w: Waiter)
  {
    w.interruptible && w.pendingSignal
  }

  predicate Runnable(w: Waiter)
  {
    !w.asleep || Interrupted(w)
  }

  function Verdict(w: Waiter): Status
  {
    if Interrupted(w) then NotDone
    else if w.ms != NO_TIMEOUT && w.timedout then Timeout
    else Success
  }

  /** Where the task goes by itself next; None while schedule() keeps it and after it has returned.
      From Prepared this is the locked test. */
  function NextPhase(w: Waiter, signaled: bool, manual: bool): Option<Phase>
  {
    match w.phase
    case Prepared => Some(if signaled then Found else if w.ms == 0 then Polled else Passed)
    case Found => Some(Returned(Success))
    case Polled => Some(Returned(Timeout))
    case Passed => Some(Blocked)
    case Blocked => if Runnable(w) then Some(Awake) else None
    case Awake => Some(Finished)
    case Finished => Some(if manual then Returned(Verdict(w)) else Judged(Verdict(w)))
    case Judged(status) => Some(Returned(status))
    case Returned(_) => None
  }

  /** finish_wait has taken the task off the queue. */
  predicate OffQueue(phase: Phase)
  {
    phase.Finished? || phase.Judged? || phase.Returned?
  }

  /** The bookkeeping of entering a phase: the timer is set on the way into schedule() and deleted
      with the verdict; the task is running once schedule() has returned. */
  function Move(w: Waiter, phase: Phase): Waiter
  {
    w.(phase := phase,
       queued := w.queued && !OffQueue(phase),
       asleep := w.asleep && !OffQueue(phase) && !phase.Awake?,
       armed := if phase.Blocked? then w.ms != NO_TIMEOUT else w.armed && !w.phase.Finished?)
  }

  /** The flag after the task's next step: taken by an auto-reset test, cleared by the final reset. */
  function FlagAfter(w: Waiter, signaled: bool, manual: bool): bool
  {
    signaled && (manual || !(w.phase.Prepared? || w.phase.Judged?))
  }

  /** Past the locked test with the flag down, not yet decided. */
  predicate PastTest(w: Waiter)
  {
    w.phase.Passed? || w.phase.Blocked? || w.phase.Awake? || w.phase.Finished?
  }

  /** What holds of every waiter at every moment: it sleeps only on the queue and wakes only for a
      reason; a wake-up takes it off the queue for good, so it has at most one cause; only a signal
      makes it runnable in place. */
  predicate Sound(w: Waiter)
  {
    && (w.asleep ==> w.queued && !w.phase.Awake?)
    && (OffQueue(w.phase) ==> !w.queued)
    && (w.queued && !w.asleep ==> Interrupted(w))
    && (w.notified || w.stray ==> !w.queued)
    && !(w.notified && w.stray)
    && (w.armed ==> w.phase.Blocked? || w.phase.Awake? || w.phase.Finished?)
    && (PastTest(w) || w.phase.Judged? ==> w.ms != 0)
    && (w.phase.Prepared? || PastTest(w) ==> w.asleep || w.notified || w.stray || w.timedout || Interrupted(w))
    && (w.timedout || w.armed ==> w.ms != NO_TIMEOUT)
    && (w.phase.Judged? && w.phase.status == Success ==> w.notified || w.stray)
  }

  lemma WakesKeepSound(w: Waiter)
    requires Sound(w)
    ensures Sound(Notify(w)) && Sound(Disturb(w)) && Sound(Interrupt(w))
    ensures w.armed ==> Sound(Fire(w))
    ensures !Notify(w).asleep && !Disturb(w).asleep
  {
  }

  lemma MoveKeepsSound(w: Waiter, signaled: bool, manual: bool)
    requires Sound(w) && NextPhase(w, signaled, manual).Some?
    ensures Sound(Move(w, NextPhase(w, signaled, manual).value))
  {
    match w.phase
    case Prepared =>
    case Found =>
    case Polled =>
    case Passed =>
    case Blocked =>
    case Awake =>
    case Finished =>
    case Judged(_) =>
  }

  /** A bound on the steps a runnable task still takes. */
  function StepsLeft(phase: Phase): nat
  {
    match phase
    case Prepared => 7
    case Passed => 6
    case Blocked => 5
    case Awake => 4
    case Finished => 3
    case Judged(_) => 2
    case Found => 1
    case Polled => 1
    case Returned(_) => 0
  }
}
