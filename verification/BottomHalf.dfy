/** The bottom-half thread of linux_kernel/src/osal_irq.c: a top half that masks the line, stores
    `pending` and wakes; a kernel thread that runs the handler, clears `pending` and unmasks; and
    the release that frees the interrupt, clears `pending` and stops the thread. */
module BottomHalf {
  import opened Options
  import opened Counting
  import Runs

  datatype Top = TopIdle | TopMasked | TopStored

  datatype Thread =
    | AtTest        // tests kthread_should_stop next
    | BeforeQueue   // test passed, prepare_to_wait comes next
    | Queued        // on the queue, tests `pending` next
    | Scheduling    // saw `pending` false, in schedule()
    | Leaving       // finish_wait comes next
    | Testing       // tests `pending` again next
    | InHandler     // runs the handler
    | Clearing      // handler done, clears `pending` next
    | Unmasking     // unmasks the line next
    | Exited

  datatype Release = Active | Freed | Cleared | Stopped

  /** History: stores of `pending` by the top half, calls of the handler, completed bottom halves, and
      stores that the release wiped out before the thread had seen them. */
  datatype State = State(
    masked: bool,
    pending: bool,
    top: Top,
    thread: Thread,
    queued: bool,
    asleep: bool,
    release: Release,
    stores: nat,
    handled: nat,
    completed: nat,
    wiped: nat)

  datatype Action = TopMask | TopStore | TopWake | Go | FreeIrq | ClearPending | StopThread

  function Start(): State
  {
    State(false, false, TopIdle, AtTest, false, false, Active, 0, 0, 0, 0)
  }

  /** The thread is inside the branch that runs the handler, `pending` not yet cleared by it. */
  predicate Running(t: Thread)
  {
    t == InHandler || t == Clearing
  }

  function ThreadStep(s: State): Option<State>
  {
    match s.thread
    case AtTest => Some(s.(thread := if s.release == Stopped then Exited else BeforeQueue))
    case BeforeQueue => Some(s.(thread := Queued, queued := true, asleep := true))
    case Queued => Some(s.(thread := if s.pending then Leaving else Scheduling))
    case Scheduling => if s.asleep then None else Some(s.(thread := Leaving))
    case Leaving => Some(s.(thread := Testing, queued := false, asleep := false))
    case Testing => Some(s.(thread := if s.pending then InHandler else AtTest))
    case InHandler => Some(s.(thread := Clearing, handled := s.handled + 1))
    case Clearing => Some(s.(thread := Unmasking, pending := false, completed := s.completed + 1))
    case Unmasking => Some(s.(thread := AtTest, masked := false))
    case Exited => None
  }

  function Step(s: State, a: Action): Option<State>
  {
    match a
    case TopMask =>
      // the line delivers only while unmasked, one top half at a time, until free_irq
      if s.release == Active && s.top == TopIdle && !s.masked then Some(s.(top := TopMasked, masked := true)) else None
    case TopStore =>
      if s.top == TopMasked then Some(s.(top := TopStored, pending := true, stores := s.stores + 1)) else None
    case TopWake =>
      if s.top == TopStored
      then Some(s.(top := TopIdle, queued := s.queued && !s.asleep, asleep := s.asleep && !s.queued))
      else None
    case Go => ThreadStep(s)
    case FreeIrq =>
      // free_irq waits for a top half in progress
      if s.release == Active && s.top == TopIdle then Some(s.(release := Freed)) else None
    case ClearPending =>
      if s.release == Freed
      then Some(s.(release := Cleared, pending := false,
                   wiped := if s.pending && !Running(s.thread) then s.wiped + 1 else s.wiped))
      else None
    case StopThread =>
      if s.release == Cleared then Some(s.(release := Stopped, asleep := false)) else None
  }

  ghost predicate Inv(s: State)
  {
    && (s.masked <==> s.top == TopMasked || s.pending || Running(s.thread) || s.thread == Unmasking || s.wiped > 0)
    && (s.top == TopMasked ==> !s.pending && !Running(s.thread) && s.thread != Unmasking && s.wiped == 0)
    && (s.thread == Unmasking ==> !s.pending)
    && (s.wiped > 0 ==> !s.pending && !Running(s.thread) && s.thread != Unmasking)
    && s.stores == s.completed + One(s.pending || Running(s.thread)) + s.wiped
    && s.handled == s.completed + One(s.thread == Clearing)
    && (s.asleep ==> s.queued && (s.thread == Queued || s.thread == Scheduling || s.thread == Leaving))
    && (s.thread == Scheduling && s.asleep && s.pending ==> s.top == TopStored)
    && (Running(s.thread) && !s.pending ==> s.release == Cleared || s.release == Stopped)
    && (s.release != Active ==> s.top == TopIdle)
    && (s.release == Active ==> s.wiped == 0)
    && (s.release == Cleared || s.release == Stopped ==> !s.pending)
    && (s.release == Freed ==> s.wiped == 0)
    && (s.thread == Exited ==> s.release == Stopped)
  }

  lemma StepKeepsInv(s: State, a: Action)
    requires Inv(s) && Step(s, a).Some?
    ensures Inv(Step(s, a).value)
  {
    match a
    case TopMask =>
    case TopStore =>
    case TopWake =>
    case Go => ThreadKeepsInv(s);
    case FreeIrq =>
    case ClearPending =>
    case StopThread =>
  }

  lemma ThreadKeepsInv(s: State)
    requires Inv(s) && ThreadStep(s).Some?
    ensures Inv(ThreadStep(s).value)
  {
    match s.thread
    case AtTest =>
    case BeforeQueue =>
    case Queued =>
    case Scheduling =>
    case Leaving =>
    case Testing =>
    case InHandler =>
    case Clearing =>
    case Unmasking =>
  }

  ghost predicate Reachable(s: State)
  {
    Runs.Leads(Step, Start(), s)
  }

  lemma ReachableInv(s: State)
    requires Reachable(s)
    ensures Inv(s)
  {
    forall s, a | Inv(s) && Step(s, a).Some? ensures Inv(Step(s, a).value) {
      StepKeepsInv(s, a);
    }
    Runs.InvariantWhereLed(Step, Inv, Start(), s);
  }

  /** Until the release clears `pending`, every store of it is matched by exactly one call of the handler and
      one completed bottom half, the one now outstanding excepted. */
  lemma OncePerTopHalf(s: State)
    requires Reachable(s) && (s.release == Active || s.release == Freed)
    ensures s.stores == s.completed + if s.pending then 1 else 0
    ensures s.stores == s.handled + if s.pending && s.thread != Clearing then 1 else 0
    ensures Running(s.thread) ==> s.pending
  {
    ReachableInv(s);
  }

  /** The handler has been called once more than bottom halves have been completed exactly between its call and the
      clearing of `pending`; so none is ever completed without a call. */
  lemma CompletedMeansHandled(s: State)
    requires Reachable(s)
    ensures s.handled == s.completed + if s.thread == Clearing then 1 else 0
  {
    ReachableInv(s);
  }

  /** The line is masked exactly from the mask step to the matching unmask. */
  lemma MaskedExactly(s: State)
    requires Reachable(s) && (s.release == Active || s.release == Freed)
    ensures s.masked <==> s.top == TopMasked || s.pending || s.thread == Unmasking
  {
    ReachableInv(s);
  }

  /** The thread stays blocked over a stored `pending` only while the top half has its wake-up still to send. */
  lemma NeverBlockedOverPending(s: State)
    requires Reachable(s) && s.thread == Scheduling && s.asleep && s.pending
    ensures s.top == TopStored && !Step(s, TopWake).value.asleep
  {
    ReachableInv(s);
  }

  // ----- the thread left to itself -----

  /** How many steps the thread still takes before it sleeps or exits. */
  function StepsLeft(s: State): nat
  {
    match s.thread
    case Unmasking => if s.pending then 12 else 4
    case AtTest => if s.pending then 11 else 3
    case BeforeQueue => if s.pending then 10 else 2
    case Queued => if s.pending then 9 else if s.asleep then 1 else 7
    case Scheduling => if s.asleep then 0 else if s.pending then 9 else 6
    case Leaving => if s.pending then 8 else 5
    case Testing => if s.pending then 7 else 4
    case InHandler => 6
    case Clearing => 5
    case Exited => 0
  }

  /** Where the thread comes to rest when nobody else moves. */
  function Settle(s: State): State
    decreases StepsLeft(s)
  {
    match ThreadStep(s)
    case None => s
    case Some(next) => Settle(next)
  }

  lemma StepShortens(s: State)
    requires ThreadStep(s).Some?
    ensures StepsLeft(ThreadStep(s).value) < StepsLeft(s)
  {
    match s.thread
    case AtTest =>
    case BeforeQueue =>
    case Queued =>
    case Scheduling =>
    case Leaving =>
    case Testing =>
    case InHandler =>
    case Clearing =>
    case Unmasking =>
  }

  lemma SettleFollows(s: State)
    requires ThreadStep(s).Some?
    ensures Settle(s) == Settle(ThreadStep(s).value)
  {
  }

  lemma {:induction false} SettleLeads(s: State)
    ensures Runs.Leads(Step, s, Settle(s))
    decreases StepsLeft(s)
  {
    Runs.VisitsLead(Step, [s], []);
    if ThreadStep(s).Some? {
      var next := ThreadStep(s).value;
      Runs.VisitsLead(Step, [s, next], [Go]);
      SettleLeads(next);
      Runs.LeadsOn(Step, s, next, Settle(s));
    }
  }

  /** At rest the thread has no step, and neither the top half nor the release has moved. */
  lemma {:induction false} SettleKeepsInv(s: State)
    requires Inv(s)
    ensures Inv(Settle(s)) && ThreadStep(Settle(s)).None?
    ensures Settle(s).release == s.release && Settle(s).top == s.top
    decreases StepsLeft(s)
  {
    if ThreadStep(s).Some? {
      ThreadKeepsInv(s);
      SettleKeepsInv(ThreadStep(s).value);
    }
  }

  /** With no wake-up outstanding and before the release has cleared `pending`, the thread left to itself
      handles everything stored and goes back to sleep with the line as the top half has it. */
  lemma RestIsServed(s: State)
    requires Reachable(s) && (s.release == Active || s.release == Freed) && s.top != TopStored
    ensures var end := Settle(s);
      && Runs.Leads(Step, s, end)
      && end.thread == Scheduling && end.asleep
      && !end.pending && end.handled == end.completed == end.stores == s.stores
      && (end.masked <==> s.top == TopMasked)
  {
    ReachableInv(s);
    SettleLeads(s);
    ServedAtInv(s);
  }

  lemma ServedAtInv(s: State)
    requires Inv(s) && (s.release == Active || s.release == Freed) && s.top != TopStored
    ensures var end := Settle(s);
      && end.thread == Scheduling && end.asleep
      && !end.pending && end.handled == end.completed == end.stores == s.stores
      && (end.masked <==> s.top == TopMasked)
  {
    SettleKeepsInv(s);
    SettleKeepsStores(s);
  }

  lemma {:induction false} SettleKeepsStores(s: State)
    ensures Settle(s).stores == s.stores && Settle(s).wiped == s.wiped
    decreases StepsLeft(s)
  {
    if ThreadStep(s).Some? {
      SettleKeepsStores(ThreadStep(s).value);
    }
  }

  // ----- the release -----

  /** Once the thread has been told to stop nothing but the thread moves. */
  lemma OnlyThreadMoves(s: State, a: Action)
    requires Reachable(s) && s.release == Stopped && Step(s, a).Some?
    ensures a == Go
  {
    ReachableInv(s);
  }

  /** A stopped thread exits unless it is on its way into the queue or asleep there. */
  predicate WillExit(s: State)
  {
    s.thread != BeforeQueue && !(s.asleep && (s.thread == Queued || s.thread == Scheduling))
  }

  lemma {:induction false} SettlesByExiting(s: State)
    requires Inv(s) && s.release == Stopped
    ensures Settle(s).thread == Exited <==> WillExit(s)
    ensures !WillExit(s) ==> Settle(s).thread == Scheduling && Settle(s).asleep
    decreases StepsLeft(s)
  {
    if ThreadStep(s).Some? {
      ThreadKeepsInv(s);
      SettlesByExiting(ThreadStep(s).value);
    }
  }

  /** The release comes back exactly when kthread_stop does not fall between the thread's stop test and
      its prepare_to_wait; if it does, the thread sleeps and nothing can ever happen again. */
  lemma ReleaseReturnsExactly(s: State)
    requires Reachable(s) && Step(s, StopThread).Some?
    ensures var end := Settle(Step(s, StopThread).value);
      && Runs.Leads(Step, s, end)
      && (end.thread == Exited <==> s.thread != BeforeQueue)
      && forall a :: Step(end, a).None?
  {
    ReachableInv(s);
    StopLeads(s);
    StopSettles(s);
  }

  lemma StopLeads(s: State)
    requires Step(s, StopThread).Some?
    ensures Runs.Leads(Step, s, Settle(Step(s, StopThread).value))
  {
    var stopped := Step(s, StopThread).value;
    Runs.VisitsLead(Step, [s, stopped], [StopThread]);
    SettleLeads(stopped);
    Runs.LeadsOn(Step, s, stopped, Settle(stopped));
  }

  lemma StopSettles(s: State)
    requires Inv(s) && Step(s, StopThread).Some?
    ensures var end := Settle(Step(s, StopThread).value);
      && (end.thread == Exited <==> s.thread != BeforeQueue)
      && forall a :: Step(end, a).None?
  {
    var stopped := Step(s, StopThread).value;
    StepKeepsInv(s, StopThread);
    SettlesByExiting(stopped);
    SettleKeepsInv(stopped);
  }

  /** That moment is reachable: a release can hang. */
  lemma ReleaseCanHang()
    ensures exists s :: Reachable(s) && Step(s, StopThread).Some? && s.thread == BeforeQueue
  {
    var s1 := Start().(release := Freed);
    var s2 := s1.(release := Cleared);
    var s3 := s2.(thread := BeforeQueue);
    Runs.VisitsLead(Step, [Start(), s1, s2, s3], [FreeIrq, ClearPending, Go]);
    assert Reachable(s3);
  }

  /** When the release clears `pending`, the bottom half is lost and the line is left masked once the thread
      has exited, whatever happens in between, exactly if one was pending that the thread had not yet begun. */
  lemma WipeLeavesLineMasked(s: State, end: State)
    requires Reachable(s) && Step(s, ClearPending).Some?
    requires Runs.Leads(Step, Step(s, ClearPending).value, end) && end.thread == Exited
    ensures end.masked <==> s.pending && !Running(s.thread)
    ensures end.handled == end.completed
    ensures end.stores == end.handled + if s.pending && !Running(s.thread) then 1 else 0
  {
    ReachableInv(s);
    WipeAtInv(s);
    AfterWipe(Step(s, ClearPending).value, end);
    ExitAtInv(end);
  }

  lemma WipeAtInv(s: State)
    requires Inv(s) && Step(s, ClearPending).Some?
    ensures var cleared := Step(s, ClearPending).value;
      Inv(cleared) && cleared.release == Cleared && cleared.wiped == One(s.pending && !Running(s.thread))
  {
    StepKeepsInv(s, ClearPending);
  }

  lemma ExitAtInv(s: State)
    requires Inv(s) && s.thread == Exited
    ensures (s.masked <==> s.wiped > 0) && s.handled == s.completed && s.stores == s.handled + s.wiped
  {
  }

  /** After the release has cleared `pending` nothing is wiped any more. */
  ghost predicate WipedIs(s: State, wiped: nat)
  {
    Inv(s) && s.wiped == wiped && (s.release == Cleared || s.release == Stopped)
  }

  lemma AfterWipe(s: State, end: State)
    requires Inv(s) && s.release == Cleared && Runs.Leads(Step, s, end)
    ensures Inv(end) && end.wiped == s.wiped
  {
    var inv := (t: State) => WipedIs(t, s.wiped);
    forall t, a | inv(t) && Step(t, a).Some? ensures inv(Step(t, a).value) {
      StepKeepsInv(t, a);
    }
    Runs.InvariantWhereLed(Step, inv, s, end);
  }

  lemma MaskedAfterExit(s: State)
    requires Reachable(s) && s.thread == Exited
    ensures s.masked <==> s.wiped > 0
    ensures s.handled == s.completed && s.stores == s.handled + s.wiped
  {
    ReachableInv(s);
    ExitAtInv(s);
  }

  /** The interrupt object shared by the top half, the thread and the release. */
  class LinuxInt {
    var masked: bool
    var pending: bool
    var top: Top
    var thread: Thread
    var queued: bool
    var asleep: bool
    var release: Release
    ghost var stores: nat
    ghost var handled: nat
    ghost var completed: nat
    ghost var wiped: nat

    ghost function View(): State
      reads this
    {
      State(masked, pending, top, thread, queued, asleep, release, stores, handled, completed, wiped)
    }

    constructor Acquire()
      ensures View() == Start()
      ensures !masked && !pending && top == TopIdle && thread == AtTest && !queued && release == Active
    {
      masked, pending, top, thread := false, false, TopIdle, AtTest;
      queued, asleep, release := false, false, Active;
      stores, handled, completed, wiped := 0, 0, 0, 0;
    }

    method CheckAndDisableDeviceIrq()
      requires release == Active && top == TopIdle && !masked
      modifies this`masked, this`top
      ensures Some(View()) == Step(old(View()), TopMask)
      ensures masked && top == TopMasked
    {
      masked := true;
      top := TopMasked;
    }

    method StorePending()
      requires top == TopMasked
      modifies this`pending, this`top, this`stores
      ensures Some(View()) == Step(old(View()), TopStore)
      ensures pending && top == TopStored && stores == old(stores) + 1
    {
      pending := true;
      top, stores := TopStored, stores + 1;
    }

    method WakeThread()
      requires top == TopStored
      modifies this`queued, this`asleep, this`top
      ensures Some(View()) == Step(old(View()), TopWake)
      ensures top == TopIdle && !(queued && asleep) && (old(queued && !asleep) ==> queued)
    {
      if queued && asleep {
        queued, asleep := false, false;
      }
      top := TopIdle;
    }

    /** The loop of kthread_wrapper as far as the thread gets by itself; `blocked` when schedule() keeps it. */
    method RunLoop() returns (blocked: bool)
      modifies this
      ensures View() == Settle(old(View()))
      ensures blocked <==> thread != Exited
    {
      while thread != Exited && !(thread == Scheduling && asleep)
        invariant Settle(View()) == Settle(old(View()))
        decreases StepsLeft(View())
      {
        MoveOn();
      }
      blocked := thread != Exited;
    }

    method MoveOn()
      requires ThreadStep(View()).Some?
      modifies this
      ensures Settle(View()) == Settle(old(View())) && StepsLeft(View()) < StepsLeft(old(View()))
    {
      ghost var s := View();
      ThreadMoves();
      SettleFollows(s);
      StepShortens(s);
    }

    method ThreadMoves()
      requires ThreadStep(View()).Some?
      modifies this
      ensures Some(View()) == Step(old(View()), Go)
    {
      match thread
      case InHandler => CallHandler();
      case Clearing => ClearsPending();
      case Unmasking => EnableDeviceIrq();
      case _ => LoopTurns();
    }

    /** The loop around the handler: stop test, wait queue, the two tests of `pending`. */
    method LoopTurns()
      requires ThreadStep(View()).Some? && thread != InHandler && thread != Clearing && thread != Unmasking
      modifies this`thread, this`queued, this`asleep
      ensures Some(View()) == Step(old(View()), Go)
      ensures thread == match old(thread)
        case AtTest => if release == Stopped then Exited else BeforeQueue
        case BeforeQueue => Queued
        case Queued => if pending then Leaving else Scheduling
        case Scheduling => Leaving
        case Leaving => Testing
        case Testing => if pending then InHandler else AtTest
      ensures match old(thread)
        case BeforeQueue => queued && asleep
        case Leaving => !queued && !asleep
        case _ => queued == old(queued) && asleep == old(asleep)
    {
      match thread
      case AtTest =>
        thread := if release == Stopped then Exited else BeforeQueue;
      case BeforeQueue =>
        thread, queued, asleep := Queued, true, true;
      case Queued =>
        thread := if false == pending then Scheduling else Leaving;
      case Scheduling =>
        thread := Leaving;
      case Leaving =>
        thread, queued, asleep := Testing, false, false;
      case Testing =>
        thread := if true == pending then InHandler else AtTest;
    }

    /** The call of the caller's handler. */
    method CallHandler()
      requires thread == InHandler
      modifies this`thread, this`handled
      ensures Some(View()) == Step(old(View()), Go)
      ensures thread == Clearing && handled == old(handled) + 1
    {
      handled := handled + 1;
      thread := Clearing;
    }

    method ClearsPending()
      requires thread == Clearing
      modifies this`thread, this`pending, this`completed
      ensures Some(View()) == Step(old(View()), Go)
      ensures thread == Unmasking && !pending && completed == old(completed) + 1
    {
      pending := false;
      thread, completed := Unmasking, completed + 1;
    }

    method EnableDeviceIrq()
      requires thread == Unmasking
      modifies this`thread, this`masked
      ensures Some(View()) == Step(old(View()), Go)
      ensures thread == AtTest && !masked
    {
      masked := false;
      thread := AtTest;
    }

    method ReleaseFreesIrq()
      requires release == Active && top == TopIdle
      modifies this`release
      ensures Some(View()) == Step(old(View()), FreeIrq)
      ensures release == Freed
    {
      release := Freed;
    }

    method ReleaseClearsPending()
      requires release == Freed
      modifies this`pending, this`release, this`wiped
      ensures Some(View()) == Step(old(View()), ClearPending)
      ensures !pending && release == Cleared
      ensures wiped == old(wiped) + if old(pending) && thread != InHandler && thread != Clearing then 1 else 0
    {
      wiped := if pending && !Running(thread) then wiped + 1 else wiped;
      pending := false;
      release := Cleared;
    }

    method ReleaseStopsThread()
      requires release == Cleared
      modifies this`release, this`asleep
      ensures Some(View()) == Step(old(View()), StopThread)
      ensures release == Stopped && !asleep
    {
      release := Stopped;
      asleep := false;
    }
  }
}
