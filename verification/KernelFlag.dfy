/** How long the raised flag of an auto-reset kernel event stays up, and what becomes of each set. */
module KernelFlag {
  import opened Options
  import opened KernelWait
  import opened KernelEvent
  import opened KernelLoss
  import opened Words
  import Runs

  // ----- how long a raised flag stays up -----

  predicate Takes(s: State, a: Action)
  {
    a.Go? && a.t in s.waiters && s.waiters[a.t].phase.Prepared?
  }

  function LeavesFlag(): (State, Action) -> bool
  {
    (s: State, a: Action) => !a.Set? && !a.Reset? && !Takes(s, a)
  }

  /** The steps that neither set nor reset the event and take no flag. */
  function Untaken(): (State, Action) -> Option<State>
  {
    Runs.Restrict(Step, LeavesFlag())
  }

  /** Past its test and with the final reset still to come. */
  predicate Leaving(w: Waiter)
  {
    PastTest(w) || w.phase.Judged?
  }

  ghost predicate NobodyLeaving(s: State)
  {
    forall t :: t in s.waiters ==> !Leaving(s.waiters[t])
  }

  ghost predicate Held(s: State)
  {
    !s.manual && s.signaled && NobodyLeaving(s)
  }

  ghost predicate StaysUp(s: State)
  {
    forall s' :: Runs.Leads(Untaken(), s, s') ==> s'.signaled
  }

  lemma StepKeepsHeld(s: State, a: Action)
    requires Held(s) && Step(s, a).Some? && !a.Set? && !a.Reset? && !Takes(s, a)
    ensures Held(Step(s, a).value)
  {
    if a.Go? {
      assert !Leaving(s.waiters[a.t]);
    }
  }

  lemma HeldStaysUp(s: State)
    requires Held(s)
    ensures StaysUp(s)
  {
    forall s, a | Held(s) && Untaken()(s, a).Some? ensures Held(Untaken()(s, a).value) {
      StepKeepsHeld(s, a);
    }
    forall s' | Runs.Leads(Untaken(), s, s') ensures s'.signaled {
      Runs.InvariantWhereLed(Untaken(), Held, s, s');
    }
  }

  /** A task past its test, on its own, takes the flag down without having it. */
  lemma {:induction false} LeavingDrops(s: State, t: Tid)
    requires Inv(s) && !s.manual && s.signaled && t in s.waiters && Leaving(s.waiters[t])
    ensures !StaysUp(s)
    decreases StepsLeft(s.waiters[t].phase)
  {
    assert Fine(s.waiters[t], s.signaled);
    var next := DoGo(s, t);
    Runs.RestrictedVisitsLead(Step, LeavesFlag(), [s, next], [Go(t)]);
    if !s.waiters[t].phase.Judged? {
      GoKeepsInv(s, t);
      LeavingDrops(next, t);
      var s' :| Runs.Leads(Untaken(), next, s') && !s'.signaled;
      Runs.LeadsOn(Untaken(), s, next, s');
    }
  }

  lemma StaysUpAtInv(s: State)
    requires Inv(s) && !s.manual && s.signaled
    ensures StaysUp(s) <==> NobodyLeaving(s)
  {
    if NobodyLeaving(s) {
      HeldStaysUp(s);
    } else {
      var t :| t in s.waiters && Leaving(s.waiters[t]);
      LeavingDrops(s, t);
    }
  }

  /** A raised auto-reset flag is sure to stay up until a wait takes it, or a set or reset comes, exactly if no
      task is past its test, whatever made it leave its sleep. */
  lemma FlagStaysUpExactly(s: State)
    requires Reachable(false, s) && s.signaled
    ensures StaysUp(s) <==> NobodyLeaving(s)
  {
    ReachableInv(false, s);
    StaysUpAtInv(s);
  }

  /** The set wakes this task. */
  predicate Notifies(s: State, t: Tid)
  {
    t in s.waiters && !s.waiters[t].notified && Step(s, Set).value.waiters[t].notified
  }

  /** What becomes of a single auto-reset set: it wakes a task, or its flag is sure to stay up until taken, exactly
      if a task sleeps on the queue, or the queue is empty and no task is past its test. */
  lemma SetHeldOrDeliveredExactly(s: State)
    requires Reachable(false, s)
    ensures var s' := Step(s, Set).value;
      (exists t :: Notifies(s, t)) || (s'.signaled && StaysUp(s')) <==>
        || (exists t :: t in s.waiters && s.waiters[t].queued && s.waiters[t].asleep)
        || (!QueueActive(s.waiters) && NobodyLeaving(s))
  {
    ReachableInv(false, s);
    StepKeepsInv(s, Set);
    var s' := Step(s, Set).value;
    if t :| t in s.waiters && s.waiters[t].queued && s.waiters[t].asleep {
      assert Fine(s.waiters[t], s.signaled);
      assert Notifies(s, t);
    } else if !QueueActive(s.waiters) {
      NobodyToNotify(s.waiters);
      StaysUpAtInv(s');
    }
  }

  /** The task's own next step takes a raised flag down without its having it. */
  predicate Drops(s: State, t: Tid)
  {
    !s.manual && s.signaled && t in s.waiters && s.waiters[t].phase.Judged?
  }

  ghost predicate OnlyPolls(allowed: Kinds)
  {
    forall t, ms, i :: allowed(t, ms, i) ==> ms == 0
  }

  ghost predicate Polling(s: State)
  {
    Inv(s) && forall t :: t in s.waiters ==> s.waiters[t].ms == 0
  }

  lemma StepKeepsPolling(allowed: Kinds, s: State, a: Action)
    requires OnlyPolls(allowed) && Polling(s) && Limited(allowed)(s, a).Some?
    ensures Polling(Limited(allowed)(s, a).value)
  {
    StepKeepsInv(s, a);
  }

  lemma PollsDropNothing(allowed: Kinds, s: State, t: Tid)
    requires OnlyPolls(allowed) && ReachableBy(allowed, false, s)
    ensures !Drops(s, t)
  {
    forall s, a | Polling(s) && Limited(allowed)(s, a).Some? ensures Polling(Limited(allowed)(s, a).value) {
      StepKeepsPolling(allowed, s, a);
    }
    Runs.InvariantWhereLed(Limited(allowed), Polling, Start(false), s);
    if t in s.waiters {
      assert Fine(s.waiters[t], s.signaled);
    }
  }

  /** The waiter of a task that a set has woken, its final reset still to come. */
  function Served(ms: nat, interruptible: bool): Waiter
  {
    Move(Woken(Notify(Asleep(ms, interruptible))), Judged(Success))
  }

  /** One set wakes the only task on the queue, and a second raises the flag before that task's final reset. */
  function SetTwice(t: Tid, ms: nat, interruptible: bool): State
  {
    State(false, true, map[t := Served(ms, interruptible)], 2, 0, true)
  }

  lemma NotifyLeads(allowed: Kinds, t: Tid, ms: nat, interruptible: bool)
    requires allowed(t, ms, interruptible) && ms != 0
    ensures ReachableBy(allowed, false, State(false, false, map[t := Notify(Asleep(ms, interruptible))], 1, 0, true))
  {
    var w := Asleep(ms, interruptible);
    var s0 := Start(false);
    var s1 := s0.(waiters := map[t := w]);
    var s2 := State(false, false, map[t := Notify(w)], 1, 0, true);
    SleepLeads(allowed, s0, t, ms, interruptible);
    assert s0.waiters[t := w] == s1.waiters;
    assert Step(s1, Set) == Some(s2) by {
      assert s1.waiters[t].queued && NotifyAll(s1.waiters) == s2.waiters;
    }
    AllowedVisitsLead(allowed, [s1, s2], [Set]);
    Runs.LeadsOn(Limited(allowed), s0, s1, s2);
  }

  lemma SetTwiceLeads(allowed: Kinds, t: Tid, ms: nat, interruptible: bool)
    requires allowed(t, ms, interruptible) && ms != 0
    ensures ReachableBy(allowed, false, SetTwice(t, ms, interruptible))
  {
    var s2 := State(false, false, map[t := Notify(Asleep(ms, interruptible))], 1, 0, true);
    var s3 := s2.(waiters := map[t := Served(ms, interruptible)]);
    var s4 := SetTwice(t, ms, interruptible);
    NotifyLeads(allowed, t, ms, interruptible);
    JudgeLeads(allowed, s2, t);
    assert s2.waiters[t := Served(ms, interruptible)] == s3.waiters;
    Runs.LeadsOn(Limited(allowed), Start(false), s2, s3);
    assert Step(s3, Set) == Some(s4) by {
      NobodyToNotify(s3.waiters);
    }
    AllowedVisitsLead(allowed, [s3, s4], [Set]);
    Runs.LeadsOn(Limited(allowed), Start(false), s3, s4);
  }

  /** No task ever takes down a raised flag it does not have exactly when every wait is a zero wait. */
  lemma FlagNeverDroppedExactly(allowed: Kinds)
    ensures (forall s, t :: ReachableBy(allowed, false, s) ==> !Drops(s, t)) <==> OnlyPolls(allowed)
  {
    if OnlyPolls(allowed) {
      forall s, t | ReachableBy(allowed, false, s) ensures !Drops(s, t) {
        PollsDropNothing(allowed, s, t);
      }
    } else {
      var t, ms, i :| allowed(t, ms, i) && ms != 0;
      SetTwiceLeads(allowed, t, ms, i);
      assert Drops(SetTwice(t, ms, i), t);
    }
  }

  predicate PatientOnly(t: Tid, ms: nat, interruptible: bool) { Patient(ms, interruptible) }

  /** Patient waits are not spared: two sets, one success, the flag down, and task 2 asleep with nothing to wake it.
      The second set is answered only by the wait that the first had woken. */
  lemma SecondSetDropped()
    ensures exists s :: ReachableBy(PatientOnly, false, s) && s.sets == 2 && s.successes == 1 && !s.signaled
                        && s.waiters.Keys == {1, 2} && s.waiters[1].phase == Returned(Success)
                        && s.waiters[2] == Asleep(NO_TIMEOUT, false)
  {
    var s1 := SetTwice(1, NO_TIMEOUT, false);
    SetTwiceLeads(PatientOnly, 1, NO_TIMEOUT, false);
    var s2 := Left(s1, 1, Served(NO_TIMEOUT, false), Success);
    ResetLeads(PatientOnly, s1, 1);
    Runs.LeadsOn(Limited(PatientOnly), Start(false), s1, s2);
    var s3 := s2.(waiters := s2.waiters[2 := Asleep(NO_TIMEOUT, false)]);
    SleepLeads(PatientOnly, s2, 2, NO_TIMEOUT, false);
    Runs.LeadsOn(Limited(PatientOnly), Start(false), s2, s3);
    assert ReachableBy(PatientOnly, false, s3);
  }

  // ----- resets, and the flag of a manual-reset event -----

  function NoSet(): (State, Action) -> bool
  {
    (s: State, a: Action) => !a.Set?
  }

  function NoReset(): (State, Action) -> bool
  {
    (s: State, a: Action) => !a.Reset?
  }

  lemma StepKeepsDown(s: State, a: Action)
    requires !s.signaled && !a.Set? && Step(s, a).Some?
    ensures !Step(s, a).value.signaled
  {
  }

  lemma StepKeepsUp(s: State, a: Action)
    requires s.manual && s.signaled && !a.Reset? && Step(s, a).Some?
    ensures Step(s, a).value.manual && Step(s, a).value.signaled
  {
  }

  lemma DownStaysDown(s: State, end: State)
    requires !s.signaled && Runs.Leads(Runs.Restrict(Step, NoSet()), s, end)
    ensures !end.signaled
  {
    var step := Runs.Restrict(Step, NoSet());
    var inv := (s: State) => !s.signaled;
    forall s, a | inv(s) && step(s, a).Some? ensures inv(step(s, a).value) {
      StepKeepsDown(s, a);
    }
    Runs.InvariantWhereLed(step, inv, s, end);
  }

  /** After a reset, in either mode, the flag is down until the next set, whatever else happens. */
  lemma ResetHoldsUntilSet(s: State, end: State)
    requires Runs.Leads(Runs.Restrict(Step, NoSet()), Step(s, Reset).value, end)
    ensures !end.signaled
  {
    DownStaysDown(Step(s, Reset).value, end);
  }

  /** The flag of a manual-reset event, once up, stays up until a reset. */
  lemma SetHoldsUntilReset(s: State, end: State)
    requires s.manual && Runs.Leads(Runs.Restrict(Step, NoReset()), Step(s, Set).value, end)
    ensures end.signaled
  {
    var step := Runs.Restrict(Step, NoReset());
    var inv := (s: State) => s.manual && s.signaled;
    forall s, a | inv(s) && step(s, a).Some? ensures inv(step(s, a).value) {
      StepKeepsUp(s, a);
    }
    Runs.InvariantWhereLed(step, inv, Step(s, Set).value, end);
  }

  /** No set, and task t does not enter another wait. */
  function NoSetNorEntry(t: Tid): (State, Action) -> bool
  {
    (s: State, a: Action) => !a.Set? && !(a.EnterWait? && a.t == t)
  }

  ghost predicate PollsInVain(s: State, t: Tid)
  {
    && !s.signaled && t in s.waiters && s.waiters[t].ms == 0
    && (s.waiters[t].phase.Prepared? || s.waiters[t].phase.Polled? || s.waiters[t].phase == Returned(Timeout))
  }

  lemma StepKeepsVain(s: State, a: Action, t: Tid)
    requires PollsInVain(s, t) && Step(s, a).Some? && NoSetNorEntry(t)(s, a)
    ensures PollsInVain(Step(s, a).value, t)
  {
    StepKeepsDown(s, a);
    match a
    case Go(u) =>
    case _ =>
  }

  /** So a zero wait entered between a reset and the next set never sees the flag and never succeeds, and run
      on by itself it times out in two steps. */
  lemma PollAfterResetTimesOut(s: State, entered: State, t: Tid, interruptible: bool, pendingSignal: bool, end: State)
    requires Runs.Leads(Runs.Restrict(Step, NoSet()), Step(s, Reset).value, entered)
    requires Step(entered, EnterWait(t, 0, interruptible, pendingSignal)).Some?
    requires Runs.Leads(Runs.Restrict(Step, NoSetNorEntry(t)),
                        Step(entered, EnterWait(t, 0, interruptible, pendingSignal)).value, end)
    ensures PollsInVain(end, t)
    ensures end.waiters[t].phase.Prepared? ==>
      Step(end, Go(t)).Some? && Step(Step(end, Go(t)).value, Go(t)).Some?
      && Step(Step(end, Go(t)).value, Go(t)).value.waiters[t].phase == Returned(Timeout)
  {
    ResetHoldsUntilSet(s, entered);
    var step := Runs.Restrict(Step, NoSetNorEntry(t));
    var inv := (s: State) => PollsInVain(s, t);
    forall s, a | inv(s) && step(s, a).Some? ensures inv(step(s, a).value) {
      StepKeepsVain(s, a, t);
    }
    Runs.InvariantWhereLed(step, inv, Step(entered, EnterWait(t, 0, interruptible, pendingSignal)).value, end);
  }
}
