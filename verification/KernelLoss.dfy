/** What a caller of the kernel event can rely on, by the kinds of wait it allows: when a success means a
    set, and when some wait is sure to return success after the last set. */
module KernelLoss {
  import opened Options
  import opened KernelWait
  import opened KernelEvent
  import opened Words
  import Runs

  /** Which tasks may wait, how long and how. */
  type Kinds = (Tid, nat, bool) -> bool

  function Allows(allowed: Kinds): (State, Action) -> bool
  {
    (s: State, a: Action) => a.EnterWait? ==> allowed(a.t, a.ms, a.interruptible)
  }

  /** The event's steps with only the allowed waits. */
  function Limited(allowed: Kinds): (State, Action) -> Option<State>
  {
    Runs.Restrict(Step, Allows(allowed))
  }

  ghost predicate ReachableBy(allowed: Kinds, manual: bool, s: State)
  {
    Runs.Leads(Limited(allowed), Start(manual), s)
  }

  lemma LimitedReachable(allowed: Kinds, manual: bool, s: State)
    requires ReachableBy(allowed, manual, s)
    ensures Reachable(manual, s)
  {
    Runs.RestrictedLeads(Step, Allows(allowed), Start(manual), s);
  }

  lemma AllowedVisitsLead(allowed: Kinds, states: seq<State>, acts: seq<Action>)
    requires Runs.Visits(Step, states, acts)
    requires forall a :: a in acts && a.EnterWait? ==> allowed(a.t, a.ms, a.interruptible)
    ensures Runs.Leads(Limited(allowed), states[0], states[|acts|])
  {
    forall i | 0 <= i < |acts| ensures Allows(allowed)(states[i], acts[i]) {
      assert acts[i] in acts;
    }
    Runs.RestrictedVisitsLead(Step, Allows(allowed), states, acts);
  }

  // ----- going to sleep and waking up -----

  /** The waiter of a task asleep in schedule(). */
  function Asleep(ms: nat, interruptible: bool): Waiter
  {
    Waiter(Blocked, ms, interruptible, true, true, ms != NO_TIMEOUT, false, false, false, false)
  }

  lemma SleepLeads(allowed: Kinds, s: State, t: Tid, ms: nat, interruptible: bool)
    requires allowed(t, ms, interruptible)
    requires !s.signaled && t !in s.waiters && ms != 0
    ensures Runs.Leads(Limited(allowed), s, s.(waiters := s.waiters[t := Asleep(ms, interruptible)]))
  {
    var w := Enter(ms, interruptible, false);
    var s1 := s.(waiters := s.waiters[t := w]);
    var s2 := s.(waiters := s.waiters[t := Move(w, Passed)]);
    var s3 := s.(waiters := s.waiters[t := Asleep(ms, interruptible)]);
    assert DoGo(s1, t) == s2 by {
      assert s1.waiters[t := Move(w, Passed)] == s2.waiters;
    }
    assert DoGo(s2, t) == s3 by {
      assert s2.waiters[t := Asleep(ms, interruptible)] == s3.waiters;
    }
    AllowedVisitsLead(allowed, [s, s1, s2, s3], [EnterWait(t, ms, interruptible, false), Go(t), Go(t)]);
  }

  /** A runnable task comes as far as its verdict. */
  function Woken(w: Waiter): Waiter
  {
    Move(Move(w, Awake), Finished)
  }

  lemma ResumeLeads(allowed: Kinds, s: State, t: Tid)
    requires t in s.waiters && s.waiters[t].phase.Blocked? && Runnable(s.waiters[t])
    ensures Runs.Leads(Limited(allowed), s, s.(waiters := s.waiters[t := Woken(s.waiters[t])]))
  {
    var w1 := Move(s.waiters[t], Awake);
    var s1 := s.(waiters := s.waiters[t := w1]);
    var s2 := s.(waiters := s.waiters[t := Woken(s.waiters[t])]);
    assert DoGo(s, t) == s1;
    assert s1.waiters[t := Woken(s.waiters[t])] == s2.waiters && DoGo(s1, t) == s2;
    AllowedVisitsLead(allowed, [s, s1, s2], [Go(t), Go(t)]);
  }

  /** The task has left an auto-reset wait with status `v`, and the flag is down. */
  function Left(s: State, t: Tid, w: Waiter, v: Status): State
  {
    s.(waiters := s.waiters[t := Move(w, Returned(v))],
       signaled := false,
       successes := if v == Success then s.successes + 1 else s.successes,
       unanswered := s.unanswered && v != Success)
  }

  /** A runnable task comes as far as its final reset. */
  lemma JudgeLeads(allowed: Kinds, s: State, t: Tid)
    requires !s.manual && t in s.waiters && s.waiters[t].phase.Blocked? && Runnable(s.waiters[t])
    ensures Runs.Leads(Limited(allowed), s,
                       s.(waiters := s.waiters[t := Move(Woken(s.waiters[t]), Judged(Verdict(s.waiters[t])))]))
  {
    var v := Verdict(s.waiters[t]);
    var w := Woken(s.waiters[t]);
    var s1 := s.(waiters := s.waiters[t := w]);
    var s2 := s.(waiters := s.waiters[t := Move(w, Judged(v))]);
    ResumeLeads(allowed, s, t);
    assert s1.waiters[t := Move(w, Judged(v))] == s2.waiters && DoGo(s1, t) == s2;
    AllowedVisitsLead(allowed, [s1, s2], [Go(t)]);
    Runs.LeadsOn(Limited(allowed), s, s1, s2);
  }

  lemma ResetLeads(allowed: Kinds, s: State, t: Tid)
    requires !s.manual && t in s.waiters && s.waiters[t].phase.Judged?
    ensures Runs.Leads(Limited(allowed), s, Left(s, t, s.waiters[t], s.waiters[t].phase.status))
  {
    var s1 := Left(s, t, s.waiters[t], s.waiters[t].phase.status);
    assert DoGo(s, t) == s1;
    AllowedVisitsLead(allowed, [s, s1], [Go(t)]);
  }

  /** How a runnable task leaves an auto-reset wait: with its verdict, and with the flag down. */
  lemma LeaveLeads(allowed: Kinds, s: State, t: Tid)
    requires !s.manual && t in s.waiters && s.waiters[t].phase.Blocked? && Runnable(s.waiters[t])
    ensures var v := Verdict(s.waiters[t]);
      Runs.Leads(Limited(allowed), s, Left(s, t, Move(Woken(s.waiters[t]), Judged(v)), v))
  {
    var v := Verdict(s.waiters[t]);
    var w := Move(Woken(s.waiters[t]), Judged(v));
    var s1 := s.(waiters := s.waiters[t := w]);
    JudgeLeads(allowed, s, t);
    ResetLeads(allowed, s1, t);
    assert s1.waiters[t := Move(w, Returned(v))] == s.waiters[t := Move(w, Returned(v))];
    assert Left(s1, t, w, v) == Left(s, t, w, v);
    Runs.LeadsOn(Limited(allowed), s, s1, Left(s, t, w, v));
  }

  // ----- when a success means a set -----

  /** Task t may sleep while task u has a timer. */
  predicate MayDisturb(allowed: Kinds, t: Tid, ms: nat, i: bool, u: Tid, limit: nat, j: bool)
  {
    t != u && allowed(t, ms, i) && allowed(u, limit, j) && ms != 0 && limit != 0 && limit != NO_TIMEOUT
  }

  ghost predicate Undisturbed(allowed: Kinds)
  {
    forall t, ms, i, u, limit, j :: !MayDisturb(allowed, t, ms, i, u, limit, j)
  }

  /** Every waiter is of an allowed kind; only zero waits are ever disturbed. */
  ghost predicate StraysOnlyPolls(allowed: Kinds, s: State)
  {
    && Inv(s)
    && forall t :: t in s.waiters ==>
         && allowed(t, s.waiters[t].ms, s.waiters[t].interruptible)
         && (s.waiters[t].stray ==> s.waiters[t].ms == 0)
  }

  lemma TimerKeepsStraysOnlyPolls(allowed: Kinds, s: State, owner: Tid)
    requires Undisturbed(allowed) && StraysOnlyPolls(allowed, s) && Step(s, TimerFires(owner)).Some?
    ensures StraysOnlyPolls(allowed, Step(s, TimerFires(owner)).value)
  {
    StepKeepsInv(s, TimerFires(owner));
    var w := s.waiters[owner];
    assert Fine(w, s.signaled);
    forall t | t in s.waiters && t != owner ensures s.waiters[t].ms == 0 {
      assert !MayDisturb(allowed, t, s.waiters[t].ms, s.waiters[t].interruptible, owner, w.ms, w.interruptible);
    }
  }

  lemma StepKeepsStraysOnlyPolls(allowed: Kinds, s: State, a: Action)
    requires Undisturbed(allowed) && StraysOnlyPolls(allowed, s) && Limited(allowed)(s, a).Some?
    ensures StraysOnlyPolls(allowed, Limited(allowed)(s, a).value)
  {
    if a.TimerFires? {
      TimerKeepsStraysOnlyPolls(allowed, s, a.t);
    } else {
      StepKeepsInv(s, a);
    }
  }

  lemma UndisturbedSuccess(allowed: Kinds, manual: bool, s: State, t: Tid)
    requires Undisturbed(allowed) && ReachableBy(allowed, manual, s)
    requires t in s.waiters && s.waiters[t].phase.Finished? && Verdict(s.waiters[t]) == Success
    ensures s.waiters[t].notified
  {
    var inv := (s: State) => StraysOnlyPolls(allowed, s);
    forall s, a | inv(s) && Limited(allowed)(s, a).Some? ensures inv(Limited(allowed)(s, a).value) {
      StepKeepsStraysOnlyPolls(allowed, s, a);
    }
    Runs.InvariantWhereLed(Limited(allowed), inv, Start(manual), s);
    LimitedReachable(allowed, manual, s);
    SuccessHasOneCause(manual, s, t);
    assert Fine(s.waiters[t], s.signaled);
  }

  ghost predicate FalseSuccess(s: State, t: Tid)
  {
    t in s.waiters && s.waiters[t].phase.Finished? && Verdict(s.waiters[t]) == Success && !s.waiters[t].notified
  }

  lemma BothAsleepLeads(allowed: Kinds, manual: bool, t: Tid, ms: nat, i: bool, u: Tid, limit: nat, j: bool)
    requires MayDisturb(allowed, t, ms, i, u, limit, j)
    ensures ReachableBy(allowed, manual, Start(manual).(waiters := map[t := Asleep(ms, i), u := Asleep(limit, j)]))
  {
    var s0 := Start(manual);
    var s1 := s0.(waiters := map[t := Asleep(ms, i)]);
    var s2 := s0.(waiters := map[t := Asleep(ms, i), u := Asleep(limit, j)]);
    SleepLeads(allowed, s0, t, ms, i);
    assert s0.waiters[t := Asleep(ms, i)] == s1.waiters;
    SleepLeads(allowed, s1, u, limit, j);
    assert s1.waiters[u := Asleep(limit, j)] == s2.waiters;
    Runs.LeadsOn(Limited(allowed), s0, s1, s2);
  }

  /** Both tasks asleep, then u's timer. */
  lemma DisturbLeads(allowed: Kinds, manual: bool, t: Tid, ms: nat, i: bool, u: Tid, limit: nat, j: bool)
    requires MayDisturb(allowed, t, ms, i, u, limit, j)
    ensures ReachableBy(allowed, manual,
                        Start(manual).(waiters := map[t := Disturb(Asleep(ms, i)), u := Fire(Asleep(limit, j))]))
  {
    var s2 := Start(manual).(waiters := map[t := Asleep(ms, i), u := Asleep(limit, j)]);
    var s3 := Start(manual).(waiters := map[t := Disturb(Asleep(ms, i)), u := Fire(Asleep(limit, j))]);
    BothAsleepLeads(allowed, manual, t, ms, i, u, limit, j);
    assert FireTimer(s2.waiters, u) == s3.waiters;
    AllowedVisitsLead(allowed, [s2, s3], [TimerFires(u)]);
    Runs.LeadsOn(Limited(allowed), Start(manual), s2, s3);
  }

  lemma DisturbedSuccess(allowed: Kinds, manual: bool, t: Tid, ms: nat, i: bool, u: Tid, limit: nat, j: bool)
    requires MayDisturb(allowed, t, ms, i, u, limit, j)
    ensures exists s :: ReachableBy(allowed, manual, s) && FalseSuccess(s, t)
  {
    DisturbLeads(allowed, manual, t, ms, i, u, limit, j);
    var w := Disturb(Asleep(ms, i));
    var s3 := Start(manual).(waiters := map[t := w, u := Fire(Asleep(limit, j))]);
    ResumeLeads(allowed, s3, t);
    var s4 := s3.(waiters := s3.waiters[t := Woken(w)]);
    Runs.LeadsOn(Limited(allowed), Start(manual), s3, s4);
    assert ReachableBy(allowed, manual, s4) && FalseSuccess(s4, t);
  }

  /** Every success after sleeping comes from a set exactly when no task's timer can run while another task sleeps. */
  lemma SuccessMeansSetExactly(allowed: Kinds, manual: bool)
    ensures (forall s, t :: ReachableBy(allowed, manual, s) ==> !FalseSuccess(s, t)) <==> Undisturbed(allowed)
  {
    if Undisturbed(allowed) {
      forall s, t | ReachableBy(allowed, manual, s) ensures !FalseSuccess(s, t) {
        if FalseSuccess(s, t) {
          UndisturbedSuccess(allowed, manual, s, t);
        }
      }
    } else {
      var t, ms, i, u, limit, j :| MayDisturb(allowed, t, ms, i, u, limit, j);
      DisturbedSuccess(allowed, manual, t, ms, i, u, limit, j);
    }
  }

  predicate Anything(t: Tid, ms: nat, interruptible: bool) { true }

  /** Task 2's timer makes task 1's untimed wait succeed with no set at all. */
  lemma StrayTimerFakesSuccess()
    ensures exists s :: Reachable(false, s) && s.sets == 0 && 1 in s.waiters && s.waiters[1].phase == Returned(Success)
  {
    DisturbLeads(Anything, false, 1, NO_TIMEOUT, false, 2, 5, true);
    var w := Disturb(Asleep(NO_TIMEOUT, false));
    var s3 := Start(false).(waiters := map[1 := w, 2 := Fire(Asleep(5, true))]);
    LeaveLeads(Anything, s3, 1);
    var s4 := Left(s3, 1, Move(Woken(w), Judged(Success)), Success);
    Runs.LeadsOn(Limited(Anything), Start(false), s3, s4);
    LimitedReachable(Anything, false, s4);
  }

  // ----- when a set is sure to be noticed -----

  /** Left to itself this wait returns success without needing the flag. */
  predicate Promising(w: Waiter)
  {
    match w.phase
    case Found => true
    case Judged(status) => status == Success
    case Prepared => w.ms != 0 && !w.asleep && Verdict(w) == Success
    case _ => PastTest(w) && !w.asleep && Verdict(w) == Success
  }

  ghost predicate SomeonePromising(s: State)
  {
    exists t :: t in s.waiters && Promising(s.waiters[t])
  }

  /** No wait has returned success since the last set, and neither the flag nor a wait in progress can
      still make one. A wait that an earlier set had woken counts if it returns after the last one. */
  ghost predicate Unanswerable(s: State)
  {
    s.unanswered && !s.signaled && !SomeonePromising(s)
  }

  /** Task t alone, n steps. */
  function Going(t: Tid, n: nat): seq<Action>
  {
    if n == 0 then [] else [Go(t)] + Going(t, n - 1)
  }

  ghost predicate SucceedsIn(s: State, t: Tid, n: nat)
  {
    var r := Runs.Run(Step, s, Going(t, n));
    r.Some? && t in r.value.waiters && r.value.waiters[t].phase == Returned(Success)
  }

  lemma {:induction false} PromisingSucceeds(s: State, t: Tid) returns (n: nat)
    requires t in s.waiters && Promising(s.waiters[t])
    ensures SucceedsIn(s, t, n)
    decreases StepsLeft(s.waiters[t].phase)
  {
    var next := DoGo(s, t);
    if next.waiters[t].phase == Returned(Success) {
      n := 1;
      assert Going(t, 1)[1..] == [];
    } else {
      var m := PromisingSucceeds(next, t);
      n := m + 1;
      assert Going(t, n)[1..] == Going(t, m);
    }
  }

  lemma {:induction false} UnpromisingFails(s: State, t: Tid, n: nat)
    requires Inv(s) && !s.signaled && t in s.waiters
    requires !Promising(s.waiters[t]) && s.waiters[t].phase != Returned(Success)
    ensures !SucceedsIn(s, t, n)
    decreases n
  {
    if n > 0 && Step(s, Go(t)).Some? {
      StepKeepsInv(s, Go(t));
      StaysUnpromising(s.waiters[t], s.manual);
      assert Going(t, n)[1..] == Going(t, n - 1);
      UnpromisingFails(DoGo(s, t), t, n - 1);
    }
  }

  /** With the flag down, a wait in progress is promising exactly if it returns success when it alone runs on. */
  lemma PromisingExactly(manual: bool, s: State, t: Tid)
    requires Reachable(manual, s) && !s.signaled && t in s.waiters && !s.waiters[t].phase.Returned?
    ensures Promising(s.waiters[t]) <==> exists n: nat :: SucceedsIn(s, t, n)
  {
    ReachableInv(manual, s);
    if Promising(s.waiters[t]) {
      var n := PromisingSucceeds(s, t);
    } else {
      forall n: nat ensures !SucceedsIn(s, t, n) {
        UnpromisingFails(s, t, n);
      }
    }
  }

  /** A task that a set has woken from an auto-reset wait is promising exactly if no signal and no timer of its own
      has come as well, and it does more than poll. */
  lemma NotifiedPromisesExactly(s: State, t: Tid)
    requires Reachable(false, s) && t in s.waiters && s.waiters[t].notified
    requires s.waiters[t].phase.Prepared? || PastTest(s.waiters[t])
    ensures Promising(s.waiters[t]) <==>
      !Interrupted(s.waiters[t]) && !s.waiters[t].timedout && s.waiters[t].ms != 0
  {
    ReachableInv(false, s);
    assert Fine(s.waiters[t], s.signaled);
  }

  /** Only another set, a reset, or the timer of one task waking another ends an unanswerable state. */
  lemma UnanswerableStays(s: State, a: Action)
    requires Reachable(false, s) && Unanswerable(s) && Step(s, a).Some? && !a.Set? && !a.Reset?
    requires a.TimerFires? ==> forall t :: t in s.waiters && t != a.t ==> !s.waiters[t].asleep
    ensures Unanswerable(Step(s, a).value)
  {
    ReachableInv(false, s);
    var s' := Step(s, a).value;
    forall t | t in s'.waiters ensures !Promising(s'.waiters[t]) {
      if t in s.waiters {
        assert Fine(s.waiters[t], s.signaled);
        StaysUnpromising(s.waiters[t], false);
      }
    }
  }

  lemma StaysUnpromising(w: Waiter, manual: bool)
    requires Sound(w) && !Promising(w)
    ensures !Promising(Interrupt(w)) && (w.armed ==> !Promising(Fire(w)))
    ensures !w.asleep ==> !Promising(Disturb(w))
    ensures NextPhase(w, false, manual).Some? ==> !Promising(Move(w, NextPhase(w, false, manual).value))
  {
  }

  /** A wait without time limit that no signal ends. */
  predicate Patient(ms: nat, interruptible: bool)
  {
    ms == NO_TIMEOUT && !interruptible
  }

  ghost predicate AllPatient(allowed: Kinds)
  {
    forall t, ms, i :: allowed(t, ms, i) ==> Patient(ms, i)
  }

  predicate PatientWaiter(w: Waiter)
  {
    && Patient(w.ms, w.interruptible)
    && !w.timedout && w.phase != Polled
    && (w.phase.Judged? ==> w.phase.status == Success)
  }

  ghost predicate Answered(s: State)
  {
    && Inv(s)
    && (forall t :: t in s.waiters ==> PatientWaiter(s.waiters[t]))
    && !Unanswerable(s)
  }

  lemma PatientSetNoticed(s: State)
    requires Answered(s)
    ensures !Unanswerable(Step(s, Set).value)
  {
    if t :| t in s.waiters && s.waiters[t].queued {
      assert Fine(s.waiters[t], s.signaled) && PatientWaiter(s.waiters[t]);
      assert Promising(Step(s, Set).value.waiters[t]);
    }
  }

  lemma PatientGoNoticed(s: State, t: Tid)
    requires Answered(s) && Step(s, Go(t)).Some?
    ensures PatientWaiter(DoGo(s, t).waiters[t]) && !Unanswerable(DoGo(s, t))
  {
    var s' := DoGo(s, t);
    assert Fine(s.waiters[t], s.signaled) && PatientWaiter(s.waiters[t]);
    if s.unanswered && !s.signaled {
      var u :| u in s.waiters && Promising(s.waiters[u]);
      assert s'.unanswered ==> Promising(s'.waiters[u]);
    } else if s.unanswered && s.waiters[t].phase.Prepared? && !s.manual {
      assert Promising(s'.waiters[t]);
    }
  }

  lemma StepKeepsAnswered(allowed: Kinds, s: State, a: Action)
    requires AllPatient(allowed) && Answered(s) && Limited(allowed)(s, a).Some?
    ensures Answered(Limited(allowed)(s, a).value)
  {
    StepKeepsInv(s, a);
    match a
    case Set => PatientSetNoticed(s);
    case Go(t) => PatientGoNoticed(s, t);
    case Reset =>
    case TimerFires(_) => assert false;
    case EnterWait(t, _, _, _) => OthersStayPromising(s, a, t);
    case SignalArrives(t) => OthersStayPromising(s, a, t);
  }

  lemma OthersStayPromising(s: State, a: Action, t: Tid)
    requires Answered(s) && Step(s, a).Some?
    requires a.EnterWait? || a.SignalArrives?
    requires a.t == t
    ensures !Unanswerable(Step(s, a).value)
  {
    if u :| u in s.waiters && Promising(s.waiters[u]) {
      assert PatientWaiter(s.waiters[u]);
      assert Promising(Step(s, a).value.waiters[u]);
    }
  }

  lemma PatientRunsLoseNothing(allowed: Kinds, manual: bool, s: State)
    requires AllPatient(allowed) && ReachableBy(allowed, manual, s)
    ensures !Unanswerable(s)
  {
    forall s, a | Answered(s) && Limited(allowed)(s, a).Some? ensures Answered(Limited(allowed)(s, a).value) {
      StepKeepsAnswered(allowed, s, a);
    }
    Runs.InvariantWhereLed(Limited(allowed), Answered, Start(manual), s);
  }

  /** A zero wait swallows the set that finds it on the queue before its test. */
  lemma PollSwallowsSet(allowed: Kinds, t: Tid, interruptible: bool)
    requires allowed(t, 0, interruptible)
    ensures exists s :: ReachableBy(allowed, false, s) && Unanswerable(s) && s.sets == 1
  {
    var w := Enter(0, interruptible, false);
    var s0 := Start(false);
    var s1 := s0.(waiters := map[t := w]);
    var s2 := s1.(waiters := map[t := Notify(w)], sets := 1, unanswered := true);
    assert s0.waiters[t := w] == s1.waiters;
    assert QueueActive(s1.waiters) by { assert s1.waiters[t].queued; }
    assert NotifyAll(s1.waiters) == s2.waiters;
    AllowedVisitsLead(allowed, [s0, s1, s2], [EnterWait(t, 0, interruptible, false), Set]);
    assert ReachableBy(allowed, false, s2);
  }

  /** A timed wait loses the set that woke it when its timer runs out before the verdict. */
  lemma TimerSwallowsSet(allowed: Kinds, t: Tid, ms: nat, interruptible: bool)
    requires allowed(t, ms, interruptible) && ms != 0 && ms != NO_TIMEOUT
    ensures exists s :: ReachableBy(allowed, false, s) && Unanswerable(s) && s.sets == 1
  {
    var w := Asleep(ms, interruptible);
    var s0 := Start(false);
    var s1 := s0.(waiters := map[t := w]);
    var s2 := s1.(waiters := map[t := Notify(w)], sets := 1, unanswered := true);
    var s3 := s2.(waiters := map[t := Fire(Notify(w))]);
    SleepLeads(allowed, s0, t, ms, interruptible);
    assert s0.waiters[t := w] == s1.waiters;
    assert QueueActive(s1.waiters) by { assert s1.waiters[t].queued; }
    assert NotifyAll(s1.waiters) == s2.waiters;
    assert FireTimer(s2.waiters, t) == s3.waiters;
    AllowedVisitsLead(allowed, [s1, s2, s3], [Set, TimerFires(t)]);
    Runs.LeadsOn(Limited(allowed), s0, s1, s3);
    assert ReachableBy(allowed, false, s3);
  }

  /** An interruptible wait keeps its place on the queue when a signal makes it runnable; a set that finds nobody
      else there is gone at once. */
  lemma SignalSwallowsSet(allowed: Kinds, t: Tid)
    requires allowed(t, NO_TIMEOUT, true)
    ensures exists s :: ReachableBy(allowed, false, s) && Unanswerable(s) && s.sets == 1
                        && s.waiters == map[t := Interrupt(Asleep(NO_TIMEOUT, true))]
  {
    var w := Asleep(NO_TIMEOUT, true);
    var s0 := Start(false);
    var s1 := s0.(waiters := map[t := w]);
    var s2 := s0.(waiters := map[t := Interrupt(w)]);
    var s3 := s2.(sets := 1, unanswered := true);
    SleepLeads(allowed, s0, t, NO_TIMEOUT, true);
    assert s0.waiters[t := w] == s1.waiters;
    assert s1.waiters[t := Interrupt(w)] == s2.waiters;
    assert QueueActive(s2.waiters) by { assert s2.waiters[t].queued; }
    assert NotifyAll(s2.waiters) == s3.waiters;
    AllowedVisitsLead(allowed, [s1, s2, s3], [SignalArrives(t), Set]);
    Runs.LeadsOn(Limited(allowed), s0, s1, s3);
    assert ReachableBy(allowed, false, s3);
  }

  /** Some wait returns success after the last set, or still can, exactly when the event is manual-reset or every
      wait on it is patient. */
  lemma LastSetAnsweredExactly(allowed: Kinds, manual: bool)
    ensures (forall s :: ReachableBy(allowed, manual, s) ==> !Unanswerable(s)) <==> manual || AllPatient(allowed)
  {
    if manual {
      forall s | ReachableBy(allowed, manual, s) ensures !Unanswerable(s) {
        LimitedReachable(allowed, manual, s);
        ReachableInv(manual, s);
      }
    } else if AllPatient(allowed) {
      forall s | ReachableBy(allowed, manual, s) ensures !Unanswerable(s) {
        PatientRunsLoseNothing(allowed, manual, s);
      }
    } else {
      var t, ms, i :| allowed(t, ms, i) && !Patient(ms, i);
      if ms == 0 {
        PollSwallowsSet(allowed, t, i);
      } else if ms != NO_TIMEOUT {
        TimerSwallowsSet(allowed, t, ms, i);
      } else {
        SignalSwallowsSet(allowed, t);
      }
    }
  }

  /** Without any race, too: a waiter whose timer has already fired clears the flag raised after it. */
  lemma TimedOutWaiterDropsSet()
    ensures exists s :: Reachable(false, s) && Unanswerable(s) && s.sets == 1
                        && s.waiters.Keys == {1} && s.waiters[1].phase == Returned(Timeout)
  {
    var one := Asleep(5, true);
    var s1 := Start(false).(waiters := map[1 := one]);
    SleepLeads(Anything, Start(false), 1, 5, true);
    assert Start(false).waiters[1 := one] == s1.waiters;
    var s2 := s1.(waiters := map[1 := Fire(one)]);
    var s3 := s2.(signaled := true, sets := 1, unanswered := true);
    assert FireTimer(s1.waiters, 1) == s2.waiters;
    assert NotifyAll(s2.waiters) == s3.waiters;
    AllowedVisitsLead(Anything, [s1, s2, s3], [TimerFires(1), Set]);
    Runs.LeadsOn(Limited(Anything), Start(false), s1, s3);
    LeaveLeads(Anything, s3, 1);
    var s4 := Left(s3, 1, Move(Woken(Fire(one)), Judged(Timeout)), Timeout);
    Runs.LeadsOn(Limited(Anything), Start(false), s3, s4);
    LimitedReachable(Anything, false, s4);
  }
}
