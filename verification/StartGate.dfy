/** The start gate of linux_user/src/osal_thread.c: a new thread waits on its condition variable
    while its state is OS_THREAD_CREATE_SUSPENDED; os_thread_resume tests the state without the
    mutex, then stores THREAD_ACTIVE and signals under it. */
module StartGate {
  import opened Options
  import Runs

  type Tid = nat

  datatype Life = CreateSuspended | Active | Inactive

  /** The new thread. Asleep: in the condition wait. Woken: unblocked, mutex not retaken. */
  datatype Wrapper = BeforeGate | Asleep | Woken | Running | Ended

  /** A caller of os_thread_resume past its test; Stored: holds the mutex, signals next. */
  datatype Resumer = Passed | Stored

  /** `succeeded` and `rejected` count finished resume calls, `activated` records the first store
      of THREAD_ACTIVE and `spurious` a wake-up nobody sent. */
  datatype State = State(
    life: Life,
    wrapper: Wrapper,
    resumers: map<Tid, Resumer>,
    succeeded: nat,
    rejected: nat,
    activated: bool,
    spurious: bool)

  datatype Action =
    | EnterGate
    | Retake
    | SpuriousWake
    | CallbackEnds
    | TestState(t: Tid)
    | StoreActive(t: Tid)
    | SignalAndUnlock(t: Tid)

  /** What os_thread_create leaves when it has created the thread. */
  function Start(): State
  {
    State(CreateSuspended, BeforeGate, map[], 0, 0, false, false)
  }

  /** The mutex: only a resumer between its store and its signal keeps it across steps. */
  predicate MutexFree(s: State)
  {
    forall t :: t in s.resumers ==> s.resumers[t] != Stored
  }

  function Step(s: State, a: Action): Option<State>
  {
    match a
    case EnterGate =>
      if s.wrapper == BeforeGate && MutexFree(s)
      then Some(s.(wrapper := if s.life == CreateSuspended then Asleep else Running)) else None
    case Retake =>
      if s.wrapper == Woken && MutexFree(s) then Some(s.(wrapper := Running)) else None
    case SpuriousWake =>
      if s.wrapper == Asleep then Some(s.(wrapper := Woken, spurious := true)) else None
    case CallbackEnds =>
      if s.wrapper == Running then Some(s.(wrapper := Ended, life := Inactive)) else None
    case TestState(t) =>
      if t in s.resumers then None
      else if s.life == CreateSuspended then Some(s.(resumers := s.resumers[t := Passed]))
      else Some(s.(rejected := s.rejected + 1))
    case StoreActive(t) =>
      if t in s.resumers && s.resumers[t] == Passed && MutexFree(s)
      then Some(s.(life := Active, activated := true, resumers := s.resumers[t := Stored])) else None
    case SignalAndUnlock(t) =>
      if t in s.resumers && s.resumers[t] == Stored
      then Some(s.(wrapper := if s.wrapper == Asleep then Woken else s.wrapper,
                   resumers := s.resumers - {t}, succeeded := s.succeeded + 1))
      else None
  }

  ghost predicate Inv(s: State)
  {
    && (s.wrapper == Asleep && s.life != CreateSuspended ==> !MutexFree(s) && s.succeeded == 0)
    && (s.life != CreateSuspended && !s.spurious ==> s.activated)
    && (s.life == CreateSuspended ==> !s.activated && s.succeeded == 0 && MutexFree(s))
    && (s.succeeded > 0 ==> s.activated && s.wrapper != Asleep)
    && (s.wrapper == Woken || s.wrapper == Running || s.wrapper == Ended ==> s.activated || s.spurious)
    && (!MutexFree(s) ==> s.activated)
    && (s.rejected > 0 ==> s.life != CreateSuspended)
  }

  lemma StepKeepsInv(s: State, a: Action)
    requires Inv(s) && Step(s, a).Some?
    ensures Inv(Step(s, a).value)
  {
    var s' := Step(s, a).value;
    match a
    case StoreActive(t) => assert s'.resumers[t] == Stored;
    case SignalAndUnlock(t) => assert !MutexFree(s);
    case TestState(t) =>
      if !MutexFree(s) {
        var u :| u in s.resumers && s.resumers[u] == Stored;
        assert s'.resumers[u] == Stored;
      }
    case _ =>
  }

  ghost predicate Reachable(s: State)
  {
    Runs.Leads(Step, Start(), s)
  }

  lemma ReachableInv(s: State)
    requires Reachable(s)
    ensures Inv(s)
  {
    forall s, a | Inv(s) && Step(s, a).Some? ensures Inv(Step(s, a).value) {
      StepKeepsInv(s, a);
    }
    Runs.InvariantWhereLed(Step, Inv, Start(), s);
  }

  /** Whichever side runs first, and however many callers resume, the thread is not asleep once a
      resume has succeeded, and can then always reach its callback. */
  lemma NotAsleepOnceResumed(s: State)
    requires Reachable(s) && s.succeeded > 0
    ensures s.wrapper != Asleep
    ensures MutexFree(s) && s.wrapper == BeforeGate ==> Step(s, EnterGate).value.wrapper == Running
    ensures MutexFree(s) && s.wrapper == Woken ==> Step(s, Retake).value.wrapper == Running
  {
    ReachableInv(s);
  }

  /** A resume rejected with OSAL_NOT_IMPLEMENTED promises less: the thread can still be asleep, but
      only while another resumer is between its store and its signal. */
  lemma AsleepAfterRejection(s: State)
    requires Reachable(s) && s.rejected > 0 && s.wrapper == Asleep
    ensures !MutexFree(s)
  {
    ReachableInv(s);
  }

  function Calls(callers: set<Tid>): (State, Action) -> bool
  {
    (s: State, a: Action) => a.TestState? ==> a.t in callers
  }

  /** The same with only these threads calling os_thread_resume, each as often as it likes. */
  function ResumedBy(callers: set<Tid>): (State, Action) -> Option<State>
  {
    Runs.Restrict(Step, Calls(callers))
  }

  ghost predicate ReachableBy(callers: set<Tid>, s: State)
  {
    Runs.Leads(ResumedBy(callers), Start(), s)
  }

  /** A completed resume, rejected or not, finds the thread out of its sleep. */
  ghost predicate AwakeOnceRejected(s: State)
  {
    s.rejected > 0 ==> s.wrapper != Asleep
  }

  ghost predicate AtMostOne(callers: set<Tid>)
  {
    forall t, u :: t in callers && u in callers ==> t == u
  }

  ghost predicate SoleInv(callers: set<Tid>, s: State)
  {
    Inv(s) && s.resumers.Keys <= callers && AwakeOnceRejected(s)
  }

  lemma StepKeepsSoleInv(callers: set<Tid>, s: State, a: Action)
    requires AtMostOne(callers) && SoleInv(callers, s) && ResumedBy(callers)(s, a).Some?
    ensures SoleInv(callers, ResumedBy(callers)(s, a).value)
  {
    StepKeepsInv(s, a);
    if a.TestState? {
      NobodyElse(callers, s.resumers, a.t);
    }
  }

  lemma NobodyElse(callers: set<Tid>, resumers: map<Tid, Resumer>, t: Tid)
    requires AtMostOne(callers) && resumers.Keys <= callers && t in callers
    ensures forall u :: u in resumers ==> u == t
  {
    forall u | u in resumers ensures u == t {
      assert u in resumers.Keys;
    }
  }

  lemma SoleCallerFindsAwake(callers: set<Tid>, s: State)
    requires AtMostOne(callers) && ReachableBy(callers, s)
    ensures AwakeOnceRejected(s)
  {
    var inv := (s: State) => SoleInv(callers, s);
    forall s, a | inv(s) && ResumedBy(callers)(s, a).Some? ensures inv(ResumedBy(callers)(s, a).value) {
      StepKeepsSoleInv(callers, s, a);
    }
    Runs.InvariantWhereLed(ResumedBy(callers), inv, Start(), s);
  }

  /** One caller is rejected between another's store and its signal. */
  lemma RejectedBetween(callers: set<Tid>, t: Tid, u: Tid)
    requires t in callers && u in callers && t != u
    ensures exists s :: ReachableBy(callers, s) && !AwakeOnceRejected(s)
  {
    var s1 := Start().(wrapper := Asleep);
    var s2 := s1.(resumers := map[t := Passed]);
    var s3 := s2.(life := Active, activated := true, resumers := map[t := Stored]);
    var s4 := s3.(rejected := 1);
    assert s1.resumers[t := Passed] == s2.resumers && s2.resumers[t := Stored] == s3.resumers;
    Runs.RestrictedVisitsLead(Step, Calls(callers), [Start(), s1, s2, s3, s4],
                              [EnterGate, TestState(t), StoreActive(t), TestState(u)]);
    assert ReachableBy(callers, s4);
  }

  /** A rejected resume promises that the thread is not asleep exactly when at most one thread ever resumes it. */
  lemma RejectionPromisesExactly(callers: set<Tid>)
    ensures (forall s :: ReachableBy(callers, s) ==> AwakeOnceRejected(s)) <==> AtMostOne(callers)
  {
    if AtMostOne(callers) {
      forall s | ReachableBy(callers, s) ensures AwakeOnceRejected(s) {
        SoleCallerFindsAwake(callers, s);
      }
    } else {
      var t, u :| t in callers && u in callers && t != u;
      RejectedBetween(callers, t, u);
    }
  }

  lemma RejectionCanComeFirst()
    ensures exists s :: Reachable(s) && s.rejected > 0 && s.wrapper == Asleep
  {
    RejectedBetween({1, 2}, 1, 2);
    var s :| ReachableBy({1, 2}, s) && !AwakeOnceRejected(s);
    Runs.RestrictedLeads(Step, Calls({1, 2}), Start(), s);
  }

  /** The callback never starts before a resume has stored THREAD_ACTIVE, unless the thread woke without a signal. */
  lemma CallbackWaitsForResume(s: State)
    requires Reachable(s) && (s.wrapper == Running || s.wrapper == Ended)
    ensures s.activated || s.spurious
  {
    ReachableInv(s);
  }

  /** The exception is real: the gate tests its state once, not in a loop. */
  lemma SpuriousWakeOpensGate()
    ensures exists s :: Reachable(s) && s.wrapper == Running && !s.activated && s.life == CreateSuspended
  {
    var s1 := Start().(wrapper := Asleep);
    var s2 := s1.(wrapper := Woken, spurious := true);
    var s3 := s2.(wrapper := Running);
    Runs.VisitsLead(Step, [Start(), s1, s2, s3], [EnterGate, SpuriousWake, Retake]);
    assert Reachable(s3);
  }

  /** The life of the thread as its state word tells it: suspended until the first store, inactive from the
      callback's end, unless a resumer that had passed its test earlier stores once more. */
  ghost predicate LifeInv(s: State)
  {
    && (s.life == CreateSuspended ==> !s.activated && s.wrapper != Ended)
    && (s.life == Active ==> s.activated)
    && (s.life == Inactive ==> s.wrapper == Ended)
    && (s.wrapper != Ended && s.activated ==> s.life == Active)
  }

  lemma StateTellsLife(s: State)
    requires Reachable(s)
    ensures LifeInv(s)
  {
    forall s, a | LifeInv(s) && Step(s, a).Some? ensures LifeInv(Step(s, a).value) {
      StepKeepsLife(s, a);
    }
    Runs.InvariantWhereLed(Step, LifeInv, Start(), s);
  }

  lemma StepKeepsLife(s: State, a: Action)
    requires LifeInv(s) && Step(s, a).Some?
    ensures LifeInv(Step(s, a).value)
    ensures a.StoreActive? ==> Step(s, a).value.life == Active
    ensures a.CallbackEnds? ==> Step(s, a).value.life == Inactive
  {
  }

  datatype ResumeResult = Success | NotImplemented

  /** The thread object with its mutex and condition variable. */
  class ThreadObject {
    var life: Life
    var wrapper: Wrapper
    var resumers: map<Tid, Resumer>
    ghost var succeeded: nat
    ghost var rejected: nat
    ghost var activated: bool
    ghost var spurious: bool

    ghost function View(): State
      reads this
    {
      State(life, wrapper, resumers, succeeded, rejected, activated, spurious)
    }

    constructor Create()
      ensures View() == Start()
      ensures life == CreateSuspended && wrapper == BeforeGate && resumers == map[]
    {
      life, wrapper, resumers := CreateSuspended, BeforeGate, map[];
      succeeded, rejected, activated, spurious := 0, 0, false, false;
    }

    /** The locked region at the start of __osal_thread_wrapper. */
    method Gate()
      requires wrapper == BeforeGate && MutexFree(View())
      modifies this`wrapper
      ensures Some(View()) == Step(old(View()), EnterGate)
      ensures wrapper == if life == CreateSuspended then Asleep else Running
    {
      if life == CreateSuspended {
        wrapper := Asleep;
      } else {
        wrapper := Running;
      }
    }

    method RetakeMutex()
      requires wrapper == Woken && MutexFree(View())
      modifies this`wrapper
      ensures Some(View()) == Step(old(View()), Retake)
      ensures wrapper == Running
    {
      wrapper := Running;
    }

    method CallbackReturns()
      requires wrapper == Running
      modifies this`wrapper, this`life
      ensures Some(View()) == Step(old(View()), CallbackEnds)
      ensures wrapper == Ended && life == Inactive
    {
      wrapper, life := Ended, Inactive;
    }

    /** The unlocked test of os_thread_resume; Some when the call ends here. */
    method ResumeTests(t: Tid) returns (result: Option<ResumeResult>)
      requires t !in resumers
      modifies this`resumers, this`rejected
      ensures Some(View()) == Step(old(View()), TestState(t))
      ensures resumers == if life == CreateSuspended then old(resumers)[t := Passed] else old(resumers)
      ensures result == if old(life) == CreateSuspended then None else Some(NotImplemented)
    {
      if life == CreateSuspended {
        resumers := resumers[t := Passed];
        return None;
      }
      rejected := rejected + 1;
      return Some(NotImplemented);
    }

    method ResumeStores(t: Tid)
      requires t in resumers && resumers[t] == Passed && MutexFree(View())
      modifies this`life, this`activated, this`resumers
      ensures Some(View()) == Step(old(View()), StoreActive(t))
      ensures life == Active && resumers == old(resumers)[t := Stored]
    {
      life, activated := Active, true;
      resumers := resumers[t := Stored];
    }

    method ResumeSignals(t: Tid) returns (result: ResumeResult)
      requires t in resumers && resumers[t] == Stored
      modifies this`wrapper, this`resumers, this`succeeded
      ensures Some(View()) == Step(old(View()), SignalAndUnlock(t)) && result == Success
      ensures wrapper == if old(wrapper) == Asleep then Woken else old(wrapper)
      ensures resumers == old(resumers) - {t} && succeeded == old(succeeded) + 1
    {
      if wrapper == Asleep {
        wrapper := Woken;
      }
      resumers := resumers - {t};
      succeeded := succeeded + 1;
      result := Success;
    }
  }
}
