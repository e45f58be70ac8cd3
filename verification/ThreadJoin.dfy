/** os_thread_wait of linux_kernel/src/osal_thread.c: one caller waits, without timeout and
    uninterruptibly, on the auto-reset kill event of each initialised thread in turn. */
module ThreadJoin {
  import opened Options
  import opened KernelWait
  import opened Words
  import Runs

  datatype Joiner = AtLoop | Waiting(w: Waiter) | Done

  /** Per thread: whether its state is OSAL_INITIALIZED, its kill event's flag, and, as history,
      whether the event has ever been set. `i` is the loop variable. */
  datatype State = State(initialised: seq<bool>, signaled: seq<bool>, killed: seq<bool>, i: nat, joiner: Joiner)

  datatype Action = SetKill(k: nat) | Go

  function Start(initialised: seq<bool>): State
  {
    var none := seq(|initialised|, i => false);
    State(initialised, none, none, 0, AtLoop)
  }

  predicate WellFormed(s: State)
  {
    && |s.signaled| == |s.killed| == |s.initialised|
    && s.i <= |s.initialised|
    && (s.joiner.Waiting? ==> s.i < |s.initialised| && s.initialised[s.i])
    && (s.joiner.Done? ==> s.i == |s.initialised|)
  }

  /** os_event_set on thread k's kill event, by thread_wrapper or os_thread_exit; either may come first
      and both may happen. */
  function DoSet(s: State, k: nat): State
    requires WellFormed(s) && k < |s.initialised|
  {
    var watched := s.joiner.Waiting? && s.i == k;
    s.(signaled := s.signaled[k := !(watched && s.joiner.w.queued)],
       killed := s.killed[k := true],
       joiner := if watched then Waiting(Notify(s.joiner.w)) else s.joiner)
  }

  function JoinStep(s: State): Option<State>
    requires WellFormed(s)
  {
    match s.joiner
    case AtLoop =>
      if s.i == |s.initialised| then Some(s.(joiner := Done))
      else if !s.initialised[s.i] then Some(s.(i := s.i + 1))
      else Some(s.(joiner := Waiting(Enter(NO_TIMEOUT, false, false))))
    case Waiting(w) =>
      if w.phase.Returned? then Some(s.(i := s.i + 1, joiner := AtLoop))
      else (match NextPhase(w, s.signaled[s.i], false)
            case None => None
            case Some(phase) =>
              Some(s.(joiner := Waiting(Move(w, phase)),
                      signaled := s.signaled[s.i := FlagAfter(w, s.signaled[s.i], false)])))
    case Done => None
  }

  function Step(s: State, a: Action): Option<State>
  {
    if !WellFormed(s) then None
    else match a
      case SetKill(k) => if k < |s.initialised| && s.initialised[k] then Some(DoSet(s, k)) else None
      case Go => JoinStep(s)
  }

  /** The wait on one event: everything past a failed test that is awake owes it to a set. */
  predicate WaitFine(w: Waiter, signaled: bool, killed: bool)
  {
    && Sound(w) && w.ms == NO_TIMEOUT && !w.interruptible && !w.stray
    && w.phase != Polled
    && (w.notified ==> killed)
    && (w.phase.Prepared? && killed ==> signaled || !w.asleep)
    && ((w.phase.Passed? || w.phase.Blocked?) && killed ==> !w.asleep)
    && (w.phase.Found? || w.phase.Judged? || w.phase.Returned? ==> killed)
    && (w.phase.Judged? || w.phase.Returned? ==> w.phase.status == Success)
  }

  ghost predicate Inv(s: State)
  {
    && WellFormed(s)
    && (forall k :: 0 <= k < s.i && s.initialised[k] ==> s.killed[k])
    && (forall k :: 0 <= k < |s.signaled| && s.signaled[k] ==> s.killed[k])
    && (forall k :: s.i < k < |s.killed| && s.killed[k] ==> s.signaled[k])
    && (s.joiner.AtLoop? && s.i < |s.killed| && s.killed[s.i] ==> s.signaled[s.i])
    && (s.joiner.Waiting? ==> WaitFine(s.joiner.w, s.signaled[s.i], s.killed[s.i]))
  }

  lemma MoveKeepsFine(w: Waiter, signaled: bool, killed: bool)
    requires WaitFine(w, signaled, killed) && (signaled ==> killed)
    requires NextPhase(w, signaled, false).Some?
    ensures WaitFine(Move(w, NextPhase(w, signaled, false).value), FlagAfter(w, signaled, false), killed)
  {
  }

  lemma SetKeepsInv(s: State, k: nat)
    requires Inv(s) && Step(s, SetKill(k)).Some?
    ensures Inv(DoSet(s, k))
  {
  }

  lemma JoinKeepsInv(s: State)
    requires Inv(s) && JoinStep(s).Some?
    ensures Inv(JoinStep(s).value)
  {
    if s.joiner.Waiting? && !s.joiner.w.phase.Returned? {
      MoveKeepsFine(s.joiner.w, s.signaled[s.i], s.killed[s.i]);
    }
  }

  lemma StepKeepsInv(s: State, a: Action)
    requires Inv(s) && Step(s, a).Some?
    ensures Inv(Step(s, a).value)
  {
    match a
    case SetKill(k) => SetKeepsInv(s, k);
    case Go => JoinKeepsInv(s);
  }

  lemma ReachableInv(initialised: seq<bool>, s: State)
    requires Runs.Leads(Step, Start(initialised), s)
    ensures Inv(s)
  {
    forall s, a | Inv(s) && Step(s, a).Some? ensures Inv(Step(s, a).value) {
      StepKeepsInv(s, a);
    }
    Runs.InvariantWhereLed(Step, Inv, Start(initialised), s);
  }

  ghost predicate AllKilled(s: State)
    requires WellFormed(s)
  {
    forall k :: 0 <= k < |s.initialised| && s.initialised[k] ==> s.killed[k]
  }

  /** The call returns only after every initialised thread has set its kill event. */
  lemma ReturnsOnlyAfterAll(initialised: seq<bool>, s: State)
    requires Runs.Leads(Step, Start(initialised), s) && s.joiner.Done?
    ensures WellFormed(s) && AllKilled(s)
  {
    ReachableInv(initialised, s);
  }

  /** It is never left asleep on a thread that has already set its event. */
  lemma NeverStranded(initialised: seq<bool>, s: State)
    requires Runs.Leads(Step, Start(initialised), s) && WellFormed(s)
    requires s.joiner.Waiting? && JoinStep(s).None?
    ensures !s.killed[s.i]
  {
    ReachableInv(initialised, s);
  }

  /** A bound on the caller's steps in one pass of the loop. */
  function PiecesLeft(joiner: Joiner): nat
  {
    match joiner
    case AtLoop => 9
    case Waiting(w) => StepsLeft(w.phase) + 1
    case Done => 0
  }

  /** A set marks its own thread at once, and no step ever takes a mark back. */
  lemma KilledForGood(s: State, a: Action, k: nat)
    requires Step(s, a).Some? && k < |s.killed|
    ensures |Step(s, a).value.killed| == |s.killed|
    ensures Step(s, a).value.killed[k] <==> s.killed[k] || a == SetKill(k)
  {
  }

  /** The two together: a set is enough for the caller to get past its thread, whatever came before. */
  lemma SetReleasesJoin(initialised: seq<bool>, s: State, k: nat)
    requires Runs.Leads(Step, Start(initialised), s) && Step(s, SetKill(k)).Some?
    requires s.joiner.Waiting? && s.i == k
    ensures JoinStep(DoSet(s, k)).Some? && DoSet(s, k).killed[k]
  {
    ReachableInv(initialised, s);
    SetKeepsInv(s, k);
  }

  /** How far the caller gets without further sets. */
  function Settle(s: State): State
    requires WellFormed(s)
    decreases |s.initialised| - s.i, PiecesLeft(s.joiner)
  {
    match JoinStep(s)
    case None => s
    case Some(next) => Settle(next)
  }

  /** Once every initialised thread has set its event the call returns, whatever happened before. */
  lemma {:induction false} ReturnsOnceAllKilled(s: State)
    requires Inv(s) && AllKilled(s)
    ensures Settle(s).joiner.Done?
    decreases |s.initialised| - s.i, PiecesLeft(s.joiner)
  {
    if !s.joiner.Done? {
      if s.joiner.Waiting? {
        assert s.killed[s.i];
        assert JoinStep(s).Some?;
      }
      JoinKeepsInv(s);
      ReturnsOnceAllKilled(JoinStep(s).value);
    }
  }

  lemma ReachableReturns(initialised: seq<bool>, s: State)
    requires Runs.Leads(Step, Start(initialised), s) && WellFormed(s)
    requires AllKilled(s)
    ensures Settle(s).joiner.Done?
  {
    ReachableInv(initialised, s);
    ReturnsOnceAllKilled(s);
  }

  /** The call and the events it waits on. */
  class ThreadWait {
    var initialised: seq<bool>
    var signaled: seq<bool>
    var i: nat
    var joiner: Joiner
    ghost var killed: seq<bool>

    ghost function View(): State
      reads this
    {
      State(initialised, signaled, killed, i, joiner)
    }

    constructor (initialised: seq<bool>)
      ensures View() == Start(initialised)
    {
      this.initialised := initialised;
      signaled := seq(|initialised|, k => false);
      killed := seq(|initialised|, k => false);
      i, joiner := 0, AtLoop;
    }

    method SetKillEvent(k: nat)
      requires WellFormed(View()) && k < |initialised| && initialised[k]
      modifies this`signaled, this`joiner, this`killed
      ensures Some(View()) == Step(old(View()), SetKill(k))
      ensures killed == old(killed)[k := true]
      ensures signaled ==
        old(signaled)[k := !(i == k && old(joiner).Waiting? && old(joiner).w.queued)]
    {
      signaled := signaled[k := true];
      killed := killed[k := true];
      if joiner.Waiting? && i == k {
        if joiner.w.queued {
          signaled := signaled[k := false];
          assert signaled == old(signaled)[k := false];
        }
        joiner := Waiting(Notify(joiner.w));
      }
    }

    /** The loop of os_thread_wait; it comes back early when schedule() keeps the caller. */
    method WaitAll() returns (finished: bool)
      requires WellFormed(View())
      modifies this
      ensures WellFormed(View()) && View() == Settle(old(View()))
      ensures finished <==> joiner.Done?
    {
      var blocked := false;
      while !joiner.Done? && !blocked
        invariant WellFormed(View()) && Settle(View()) == Settle(old(View()))
        invariant blocked ==> JoinStep(View()).None?
        decreases !blocked, |initialised| - i, PiecesLeft(joiner)
      {
        blocked := WaitOneStep();
      }
      finished := joiner.Done?;
    }

    method WaitOneStep() returns (blocked: bool)
      requires WellFormed(View()) && !joiner.Done?
      modifies this
      ensures blocked <==> JoinStep(old(View())).None?
      ensures WellFormed(View())
      ensures if blocked then View() == old(View()) else Some(View()) == JoinStep(old(View()))
    {
      blocked := false;
      match joiner
      case AtLoop =>
        if i < |initialised| {
          if initialised[i] {
            joiner := Waiting(Enter(NO_TIMEOUT, false, false));
          } else {
            i := i + 1;
          }
        } else {
          joiner := Done;
        }
      case Waiting(w) =>
        if w.phase.Returned? {
          i, joiner := i + 1, AtLoop;
        } else if w.phase.Prepared? {
          TestFlag(w);
        } else if PastTest(w) {
          blocked := WaitOn(w);
        } else {
          LeaveWait(w);
        }
    }

    /** The locked test of os_event_wait. */
    method TestFlag(w: Waiter)
      requires WellFormed(View()) && joiner == Waiting(w) && w.phase.Prepared?
      modifies this
      ensures WellFormed(View()) && Some(View()) == JoinStep(old(View()))
    {
      assert !signaled[i] ==> signaled == signaled[i := false];
      var phase := Passed;
      if signaled[i] {
        signaled := signaled[i := false];
        phase := Found;
      } else if w.ms == 0 {
        phase := Polled;
      }
      joiner := Waiting(w.(phase := phase));
    }

    /** From the timer to the verdict. */
    method WaitOn(w: Waiter) returns (blocked: bool)
      requires WellFormed(View()) && joiner == Waiting(w) && PastTest(w)
      modifies this
      ensures WellFormed(View())
      ensures blocked <==> JoinStep(old(View())).None?
      ensures if blocked then View() == old(View()) else Some(View()) == JoinStep(old(View()))
    {
      assert signaled == signaled[i := signaled[i]];
      blocked := false;
      match w.phase
      case Passed =>
        joiner := Waiting(w.(phase := Blocked, armed := w.ms != NO_TIMEOUT));
      case Blocked =>
        if w.asleep && !(w.interruptible && w.pendingSignal) {
          blocked := true;
        } else {
          joiner := Waiting(w.(phase := Awake, asleep := false));
        }
      case Awake =>
        joiner := Waiting(w.(phase := Finished, queued := false, asleep := false));
      case Finished =>
        var status := Success;
        if w.interruptible && w.pendingSignal {
          status := NotDone;
        } else if w.ms != NO_TIMEOUT && w.timedout {
          status := Timeout;
        }
        joiner := Waiting(w.(phase := Judged(status), queued := false, asleep := false, armed := false));
    }

    /** The ways out; after a wait that slept the final reset takes the flag down. */
    method LeaveWait(w: Waiter)
      requires WellFormed(View()) && joiner == Waiting(w)
      requires w.phase.Found? || w.phase.Polled? || w.phase.Judged?
      modifies this
      ensures WellFormed(View()) && Some(View()) == JoinStep(old(View()))
    {
      assert signaled == signaled[i := signaled[i]];
      var status := Success;
      match w.phase {
        case Found =>
        case Polled => status := Timeout;
        case Judged(verdict) =>
          signaled := signaled[i := false];
          status := verdict;
      }
      joiner := Waiting(w.(phase := Returned(status), queued := false, asleep := false));
    }
  }
}
