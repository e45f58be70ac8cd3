/** The user-space event of linux_user/src/osal_event.c: a flag and a condition variable under one lock. */
module UserEvent {
  import opened Options
  import opened Counting
  import opened Words
  import Runs

  type Tid = nat

  datatype Cause = BySignal | ByTimeout | Spurious

  /** A thread inside os_event_wait past the locked test; others have no entry.
      Woken: the condition wait is over, the lock has not been retaken yet. */
  datatype Pc = Blocked(timed: bool) | Woken(cause: Cause)

  datatype Status = Success | Timeout

  /** The last four fields are history: calls of set, successful waits through the flag and through the
      condition variable, flag waits that overtook a signalled thread, and tokens dropped unused. */
  datatype State = State(
    manual: bool,
    signaled: bool,
    waiters: map<Tid, Pc>,
    sets: nat,
    viaFlag: nat,
    viaSignal: nat,
    barges: nat,
    dropped: nat)

  datatype Action =
    | Set(unblocked: set<Tid>)
    | Reset
    | Wait(t: Tid, ms: nat)
    | WaitRefused(t: Tid, ms: nat)
    | Expire(t: Tid)
    | SpuriousWake(t: Tid)
    | Return(t: Tid)

  predicate IsSignalled(pc: Pc) { pc == Woken(BySignal) }

  function Start(manual: bool): State
  {
    State(manual, false, map[], 0, 0, 0, 0, 0)
  }

  predicate MayUnblock(waiters: map<Tid, Pc>, unblocked: set<Tid>)
  {
    && (forall t :: t in unblocked ==> t in waiters && waiters[t].Blocked?)
    && (unblocked == {} ==> forall t :: t in waiters ==> !waiters[t].Blocked?)
  }

  predicate NoneSignalled(s: State)
  {
    forall t :: t in s.waiters ==> !IsSignalled(s.waiters[t])
  }

  /** A raised flag nobody has been signalled for is a token of its own. */
  predicate FreeToken(s: State)
  {
    s.signaled && NoneSignalled(s)
  }

  function Bump(n: nat, b: bool): nat {
    if b then n + 1 else n
  }

  function StatusOf(cause: Cause): Status
  {
    if cause.ByTimeout? then Timeout else Success
  }

  function DoSet(s: State, unblocked: set<Tid>): State
  {
    s.(signaled := true,
       waiters := Repaint(s.waiters, unblocked, Woken(BySignal)),
       sets := s.sets + 1,
       dropped := Bump(s.dropped, if unblocked == {} then s.signaled || !NoneSignalled(s) else FreeToken(s)))
  }

  function DoReturn(s: State, t: Tid): State
    requires t in s.waiters && s.waiters[t].Woken?
  {
    var cause := s.waiters[t].cause;
    s.(signaled := s.manual && s.signaled,
       waiters := s.waiters - {t},
       viaSignal := Bump(s.viaSignal, StatusOf(cause) == Success),
       dropped := Bump(s.dropped, cause != BySignal && FreeToken(s)))
  }

  function DoWait(s: State, t: Tid, ms: nat): State
  {
    if s.signaled then
      s.(signaled := s.manual, viaFlag := s.viaFlag + 1, barges := Bump(s.barges, !NoneSignalled(s)))
    else if ms == 0 then s
    else s.(waiters := s.waiters[t := Blocked(ms != NO_TIMEOUT)])
  }

  function Step(s: State, a: Action): Option<State>
  {
    match a
    case Set(unblocked) =>
      if MayUnblock(s.waiters, unblocked) then Some(DoSet(s, unblocked)) else None
    case Reset =>
      Some(s.(signaled := false, dropped := Bump(s.dropped, FreeToken(s))))
    case Wait(t, ms) =>
      if t in s.waiters then None else Some(DoWait(s, t, ms))
    case WaitRefused(t, ms) =>
      // the clock cannot be read or the condition wait reports an error: the flag is cleared all the same
      if t in s.waiters || s.signaled || ms == 0 then None else Some(s.(signaled := s.manual && s.signaled))
    case Expire(t) =>
      if t in s.waiters && s.waiters[t] == Blocked(true)
      then Some(s.(waiters := s.waiters[t := Woken(ByTimeout)])) else None
    case SpuriousWake(t) =>
      if t in s.waiters && s.waiters[t].Blocked?
      then Some(s.(waiters := s.waiters[t := Woken(Spurious)])) else None
    case Return(t) =>
      if t in s.waiters && s.waiters[t].Woken? then Some(DoReturn(s, t)) else None
  }

  /** Schedulers that unblock one thread per signal and never wake a thread without cause. */
  function StrictStep(s: State, a: Action): Option<State>
  {
    if a.SpuriousWake? || (a.Set? && |a.unblocked| > 1) then None else Step(s, a)
  }

  // ----- nobody is stranded -----

  ghost predicate SomeoneBlocked(s: State)
  {
    exists t :: t in s.waiters && s.waiters[t].Blocked?
  }

  ghost predicate SomeoneWoken(s: State)
  {
    exists t :: t in s.waiters && s.waiters[t].Woken?
  }

  ghost predicate Served(s: State)
  {
    !s.manual && (s.signaled && SomeoneBlocked(s) ==> SomeoneWoken(s))
  }

  lemma StepKeepsServed(s: State, a: Action)
    requires Served(s) && Step(s, a).Some?
    ensures Served(Step(s, a).value)
  {
    var s' := Step(s, a).value;
    if s'.signaled && SomeoneBlocked(s') {
      var b :| b in s'.waiters && s'.waiters[b].Blocked?;
      assert b in s.waiters && s.waiters[b].Blocked?;
      if a.Set? {
        var w :| w in a.unblocked;
        assert s'.waiters[w].Woken?;
      } else if a.Expire? || a.SpuriousWake? {
        assert s'.waiters[a.t].Woken?;
      }
    }
  }

  /** A raised auto-reset event never leaves a blocked thread behind unless some woken thread is
      still on its way back to the lock; any number of threads, spurious wake-ups and broad signals included. */
  lemma NoSleeperStranded(s: State)
    requires Runs.Leads(Step, Start(false), s)
    ensures s.signaled && SomeoneBlocked(s) ==> SomeoneWoken(s)
  {
    forall s, a | Served(s) && Step(s, a).Some? ensures Served(Step(s, a).value) {
      StepKeepsServed(s, a);
    }
    Runs.InvariantWhereLed(Step, Served, Start(false), s);
  }

  // ----- a manual-reset event does strand sleepers -----

  /** One signal for a manual-reset set: it unblocks every blocked thread exactly when there was at most one. */
  lemma ManualSetReachesAllExactly(s: State, unblocked: set<Tid>)
    requires s.manual && StrictStep(s, Set(unblocked)).Some?
    ensures var s' := StrictStep(s, Set(unblocked)).value;
      !SomeoneBlocked(s') <==>
        forall t, u :: t in s.waiters && u in s.waiters && s.waiters[t].Blocked? && s.waiters[u].Blocked? ==> t == u
  {
    var s' := StrictStep(s, Set(unblocked)).value;
    if unblocked != {} {
      var w :| w in unblocked;
      assert |unblocked - {w}| == 0;
      assert unblocked == {w};
      forall t | t in s.waiters && s.waiters[t].Blocked? && t != w
        ensures SomeoneBlocked(s')
      {
        assert s'.waiters[t].Blocked?;
      }
    }
  }

  /** Two waiters, one set: the flag stays up, the woken thread has gone, the other still sleeps. */
  lemma ManualSetStrandsSecondSleeper()
    ensures exists s :: Runs.Leads(StrictStep, Start(true), s) && s.signaled && s.waiters == map[2 := Blocked(false)]
  {
    var acts := [Wait(1, NO_TIMEOUT), Wait(2, NO_TIMEOUT), Set({1}), Return(1)];
    var s1 := Start(true).(waiters := map[1 := Blocked(false)]);
    var s2 := s1.(waiters := map[1 := Blocked(false), 2 := Blocked(false)]);
    var s3 := s2.(waiters := map[1 := Woken(BySignal), 2 := Blocked(false)], signaled := true, sets := 1);
    var s4 := s3.(waiters := map[2 := Blocked(false)], viaSignal := 1);
    assert DoWait(s1, 2, NO_TIMEOUT) == s2;
    assert DoSet(s2, {1}).waiters == s3.waiters;
    assert DoReturn(s3, 1).waiters == s4.waiters;
    Runs.VisitsLead(StrictStep, [Start(true), s1, s2, s3, s4], acts);
  }

  // ----- how many waits one set can satisfy -----

  ghost function Signalled(s: State): nat
  {
    Count(s.waiters, IsSignalled)
  }

  /** Successful waits so far. */
  function Released(s: State): nat
  {
    s.viaFlag + s.viaSignal
  }

  /** Tokens not yet turned into a successful wait. */
  ghost function Outstanding(s: State): nat
  {
    Signalled(s) + One(FreeToken(s))
  }

  ghost predicate Balanced(s: State)
  {
    && !s.manual
    && (forall t :: t in s.waiters ==> s.waiters[t] != Woken(Spurious))
    && s.viaFlag + One(s.signaled) <= s.sets
    && s.viaSignal + Signalled(s) <= s.sets
    && Released(s) + Outstanding(s) + s.dropped == s.sets + s.barges
  }

  lemma SetKeepsBalanced(s: State, unblocked: set<Tid>)
    requires Balanced(s) && StrictStep(s, Set(unblocked)).Some?
    ensures Balanced(StrictStep(s, Set(unblocked)).value)
  {
    var s' := DoSet(s, unblocked);
    CountRepaint(s.waiters, unblocked, Woken(BySignal), IsSignalled);
    CountZero(s.waiters, IsSignalled);
    CountZero(s'.waiters, IsSignalled);
    if unblocked == {} {
      assert s'.waiters == s.waiters;
    } else {
      var w :| w in unblocked;
      assert |unblocked - {w}| == |unblocked| - 1;
      assert |unblocked| == 1;
    }
  }

  lemma StepKeepsBalanced(s: State, a: Action)
    requires Balanced(s) && StrictStep(s, a).Some?
    ensures Balanced(StrictStep(s, a).value)
  {
    var s' := StrictStep(s, a).value;
    CountZero(s.waiters, IsSignalled);
    CountZero(s'.waiters, IsSignalled);
    match a
    case Set(unblocked) => SetKeepsBalanced(s, unblocked);
    case Reset =>
    case Wait(t, ms) => CountUpdate(s.waiters, t, Blocked(ms != NO_TIMEOUT), IsSignalled);
    case WaitRefused(_, _) =>
    case Expire(t) => CountUpdate(s.waiters, t, Woken(ByTimeout), IsSignalled);
    case Return(t) => CountRemove(s.waiters, t, IsSignalled);
  }

  lemma BalancedIsInductive()
    ensures Runs.Inductive(StrictStep, Balanced)
  {
    forall s, a | Balanced(s) && StrictStep(s, a).Some? ensures Balanced(StrictStep(s, a).value) {
      StepKeepsBalanced(s, a);
    }
  }

  lemma UnusedIsBalanced(s: State)
    requires !s.manual && !s.signaled && s.waiters == map[]
    requires s.sets == s.viaFlag == s.viaSignal == s.barges == s.dropped == 0
    ensures Balanced(s)
  {
  }

  /** The exact account of an auto-reset event, and its two consequences: successful waits never
      exceed twice the sets, and they exceed the sets at all only when a caller took the flag
      while a thread signalled for it had not yet come back. */
  lemma ReleaseAccount(s: State)
    requires Runs.Leads(StrictStep, Start(false), s)
    ensures Released(s) + Outstanding(s) + s.dropped == s.sets + s.barges
    ensures Released(s) <= 2 * s.sets
    ensures Released(s) + Outstanding(s) > s.sets <==> s.barges > s.dropped
  {
    BalancedIsInductive();
    UnusedIsBalanced(Start(false));
    Runs.InvariantWhereLed(StrictStep, Balanced, Start(false), s);
  }

  /** A set is remembered, whether or not anybody was blocked: the next wait succeeds at once through the flag,
      and takes it exactly in auto-reset mode. */
  lemma SetIsRemembered(s: State, unblocked: set<Tid>, t: Tid, ms: nat)
    requires Step(s, Set(unblocked)).Some? && t !in s.waiters
    ensures var after := Step(Step(s, Set(unblocked)).value, Wait(t, ms));
      && after.Some? && after.value.viaFlag == s.viaFlag + 1
      && t !in after.value.waiters && (after.value.signaled <==> s.manual)
  {
  }

  /** Only these steps can drop a token, and each drops one at most. */
  lemma DropsExactly(s: State, a: Action)
    requires Step(s, a).Some?
    ensures Step(s, a).value.dropped == s.dropped + One(DropsToken(s, a))
  {
  }

  /** A set that finds the flag up, or nobody to signal while a signalled thread has not yet come back; a reset,
      or the end of a wait that no signal ended, over a flag nobody has been signalled for. */
  predicate DropsToken(s: State, a: Action)
  {
    match a
    case Set(unblocked) =>
      (s.signaled || exists t :: t in s.waiters && s.waiters[t] == Woken(BySignal))
      && (unblocked == {} || forall t :: t in s.waiters ==> s.waiters[t] != Woken(BySignal))
    case Reset => s.signaled && forall t :: t in s.waiters ==> s.waiters[t] != Woken(BySignal)
    case Return(t) =>
      t in s.waiters && s.waiters[t] != Woken(BySignal)
      && s.signaled && forall u :: u in s.waiters ==> s.waiters[u] != Woken(BySignal)
    case _ => false
  }

  /** A timed wait whose time runs out before a signal comes back without success, takes an auto-reset flag down
      with it, and so loses the set that raised it meanwhile. */
  lemma ExpiredWaitDropsFlag(s: State, t: Tid)
    requires t in s.waiters && s.waiters[t] == Blocked(true)
    ensures var after := Step(Step(s, Expire(t)).value, Return(t));
      && Step(s, Expire(t)).Some? && after.Some?
      && after.value.waiters == s.waiters - {t}
      && after.value.viaSignal == s.viaSignal && after.value.viaFlag == s.viaFlag
      && (after.value.signaled <==> s.manual && s.signaled)
  {
    var woken := s.waiters[t := Woken(ByTimeout)];
    assert woken - {t} == s.waiters - {t};
  }

  /** After n rounds in each of which a blocked thread and an overtaking thread both lived on one set. */
  function AfterDoubleRounds(n: nat): State
  {
    State(false, false, map[], n, n, n, n, 0)
  }

  lemma DoubleRoundLeads(n: nat)
    ensures Runs.Leads(StrictStep, AfterDoubleRounds(n), AfterDoubleRounds(n + 1))
  {
    var s := AfterDoubleRounds(n);
    var s1 := s.(waiters := map[1 := Blocked(false)]);
    var s2 := s1.(waiters := map[1 := Woken(BySignal)], signaled := true, sets := n + 1);
    var s3 := s2.(signaled := false, viaFlag := n + 1, barges := n + 1);
    assert DoSet(s1, {1}).waiters == s2.waiters;
    assert IsSignalled(s2.waiters[1]);
    assert DoWait(s2, 2, NO_TIMEOUT) == s3;
    assert DoReturn(s3, 1).waiters == map[];
    Runs.VisitsLead(StrictStep, [s, s1, s2, s3, AfterDoubleRounds(n + 1)],
                    [Wait(1, NO_TIMEOUT), Set({1}), Wait(2, NO_TIMEOUT), Return(1)]);
  }

  /** The factor two is tight for every number of sets. */
  lemma {:induction false} TwiceIsTight(n: nat)
    ensures Runs.Leads(StrictStep, Start(false), AfterDoubleRounds(n))
    ensures AfterDoubleRounds(n).sets == n && Released(AfterDoubleRounds(n)) == 2 * n
  {
    if n == 0 {
      Runs.VisitsLead(StrictStep, [Start(false)], []);
    } else {
      TwiceIsTight(n - 1);
      DoubleRoundLeads(n - 1);
      Runs.LeadsOn(StrictStep, Start(false), AfterDoubleRounds(n - 1), AfterDoubleRounds(n));
    }
  }

  /** The event object; the methods are the locked regions of the C code. */
  class Event {
    var signaled: bool
    var manualReset: bool
    var waiters: map<Tid, Pc>
    ghost var sets: nat
    ghost var viaFlag: nat
    ghost var viaSignal: nat
    ghost var barges: nat
    ghost var dropped: nat

    ghost function View(): State
      reads this
    {
      State(manualReset, signaled, waiters, sets, viaFlag, viaSignal, barges, dropped)
    }

    constructor Create(manual: bool)
      ensures View() == Start(manual)
      ensures !signaled && manualReset == manual && waiters == map[]
    {
      signaled, manualReset, waiters := false, manual, map[];
      sets, viaFlag, viaSignal, barges, dropped := 0, 0, 0, 0, 0;
    }

    method SetEvent(unblocked: set<Tid>)
      requires MayUnblock(waiters, unblocked)
      modifies this`signaled, this`waiters, this`sets, this`dropped
      ensures View() == Step(old(View()), Set(unblocked)).value
      ensures signaled && sets == old(sets) + 1
      ensures waiters.Keys == old(waiters).Keys
      ensures forall t :: t in waiters ==>
        waiters[t] == if t in unblocked then Woken(BySignal) else old(waiters)[t]
    {
      dropped := Bump(dropped, if unblocked == {} then signaled || !NoneSignalled(View()) else FreeToken(View()));
      sets := sets + 1;
      signaled := true;
      waiters := Repaint(waiters, unblocked, Woken(BySignal));
    }

    method ResetEvent()
      modifies this`signaled, this`dropped
      ensures View() == Step(old(View()), Reset).value
      ensures !signaled
    {
      dropped := Bump(dropped, FreeToken(View()));
      signaled := false;
    }

    /** The first locked region of os_event_wait; None means that the thread has gone to sleep. */
    method BeginWait(t: Tid, ms: nat) returns (status: Option<Status>)
      requires t !in waiters
      modifies this`signaled, this`waiters, this`viaFlag, this`barges
      ensures View() == Step(old(View()), Wait(t, ms)).value
      ensures status == if old(signaled) then Some(Success) else if ms == 0 then Some(Timeout) else None
      ensures signaled <==> old(signaled) && manualReset
      ensures waiters == if status == None then old(waiters)[t := Blocked(ms != 0xFFFF_FFFF)] else old(waiters)
      ensures viaFlag == old(viaFlag) + if status == Some(Success) then 1 else 0
    {
      if signaled {
        viaFlag := viaFlag + 1;
        barges := Bump(barges, !NoneSignalled(View()));
        if !manualReset {
          signaled := false;
        }
        return Some(Success);
      }
      if ms == 0 {
        return Some(Timeout);
      }
      waiters := waiters[t := Blocked(ms != NO_TIMEOUT)];
      return None;
    }

    /** The second locked region: the lock has been retaken after the condition wait. */
    method EndWait(t: Tid) returns (status: Status)
      requires t in waiters && waiters[t].Woken?
      modifies this`signaled, this`waiters, this`viaSignal, this`dropped
      ensures View() == Step(old(View()), Return(t)).value
      ensures status == Timeout <==> old(waiters)[t] == Woken(ByTimeout)
      ensures signaled <==> old(signaled) && manualReset
      ensures waiters == old(waiters) - {t}
      ensures viaSignal == old(viaSignal) + if status == Success then 1 else 0
    {
      var cause := waiters[t].cause;
      dropped := Bump(dropped, cause != BySignal && FreeToken(View()));
      status := StatusOf(cause);
      viaSignal := Bump(viaSignal, status == Success);
      if !manualReset {
        signaled := false;
      }
      waiters := waiters - {t};
    }
  }
}
