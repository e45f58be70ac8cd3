/** The counting semaphore of linux_user/src/osal_sema.c: a count guarded by a mutex and a
    condition variable that is signalled after the mutex has been released. */
module Semaphore {
  import opened Options
  import opened Counting
  import Runs

  type Tid = nat

  /** Where a thread is; a thread outside get and put has no entry.
      Sleeping: blocked in the condition wait. Woken: unblocked, has not yet re-tested the count.
      Signalling: incremented and unlocked in put, has not yet signalled. */
  datatype Pc = Sleeping | Woken | Signalling

  /** `initial`, `puts` and `gets` record the history; nothing reads them. */
  datatype State = State(
    staticInit: int,
    count: int,
    threads: map<Tid, Pc>,
    initial: int,
    puts: nat,
    gets: nat)

  datatype Action =
    | InitPreInited(value: int)
    | Get(t: Tid)
    | SpuriousWake(t: Tid)
    | Recheck(t: Tid)
    | Put(t: Tid)
    | Signal(t: Tid, unblocked: set<Tid>)

  predicate IsWoken(pc: Pc) { pc.Woken? }

  predicate IsSignalling(pc: Pc) { pc.Signalling? }

  function Start(staticInit: int, initial: int): State
  {
    State(staticInit, initial, map[], initial, 0, 0)
  }

  /** The locked test of get: take a unit, or block when the count is zero. */
  function Test(s: State, t: Tid): State
  {
    if s.count == 0 then s.(threads := s.threads[t := Sleeping])
    else s.(count := s.count - 1, gets := s.gets + 1, threads := s.threads - {t})
  }

  /** POSIX lets a signal unblock any non-empty set of the sleepers, and nothing when there are none. */
  predicate MayUnblock(threads: map<Tid, Pc>, unblocked: set<Tid>)
  {
    && (forall t :: t in unblocked ==> t in threads && threads[t].Sleeping?)
    && (unblocked == {} ==> forall t :: t in threads ==> !threads[t].Sleeping?)
  }

  function Step(s: State, a: Action): Option<State>
  {
    match a
    case InitPreInited(value) =>
      if s.staticInit == 0 then Some(s.(count := value, staticInit := 1)) else Some(s)
    case Get(t) =>
      if t in s.threads then None else Some(Test(s, t))
    case SpuriousWake(t) =>
      if t in s.threads && s.threads[t].Sleeping? then Some(s.(threads := s.threads[t := Woken])) else None
    case Recheck(t) =>
      if t in s.threads && s.threads[t].Woken? then Some(Test(s, t)) else None
    case Put(t) =>
      if t in s.threads then None
      else Some(s.(count := s.count + 1, puts := s.puts + 1, threads := s.threads[t := Signalling]))
    case Signal(t, unblocked) =>
      if t in s.threads && s.threads[t].Signalling? && MayUnblock(s.threads, unblocked)
      then Some(s.(threads := Repaint(s.threads, unblocked, Woken) - {t}))
      else None
  }

  ghost predicate SomeoneSleeps(s: State)
  {
    exists t :: t in s.threads && s.threads[t].Sleeping?
  }

  /** Wake-ups on their way: puts that have yet to signal and woken threads that have yet to re-test. */
  ghost function WakesInFlight(s: State): nat
  {
    Count(s.threads, IsSignalling) + Count(s.threads, IsWoken)
  }

  ghost predicate Inv(s: State)
  {
    && s.staticInit != 0
    && s.count == s.initial + s.puts - s.gets
    && (s.initial >= 0 ==> s.count >= 0)
    && (SomeoneSleeps(s) ==> s.count <= WakesInFlight(s))
  }

  lemma TestKeepsInv(s: State, t: Tid)
    requires Inv(s) && (t in s.threads ==> s.threads[t].Woken?)
    ensures Inv(Test(s, t))
  {
    CountUpdate(s.threads, t, Sleeping, IsSignalling);
    CountUpdate(s.threads, t, Sleeping, IsWoken);
    CountRemove(s.threads, t, IsSignalling);
    CountRemove(s.threads, t, IsWoken);
  }

  lemma SignalKeepsInv(s: State, t: Tid, unblocked: set<Tid>)
    requires Inv(s) && Step(s, Signal(t, unblocked)).Some?
    ensures Inv(Step(s, Signal(t, unblocked)).value)
  {
    var painted := Repaint(s.threads, unblocked, Woken);
    CountRepaint(s.threads, unblocked, Woken, IsSignalling);
    CountRepaint(s.threads, unblocked, Woken, IsWoken);
    CountRemove(painted, t, IsSignalling);
    CountRemove(painted, t, IsWoken);
    var s' := Step(s, Signal(t, unblocked)).value;
    if u :| u in s'.threads && s'.threads[u].Sleeping? {
      assert s.threads[u].Sleeping?;
      assert |unblocked| >= 1;
    }
  }

  lemma StepKeepsInv(s: State, a: Action)
    requires Inv(s) && Step(s, a).Some?
    ensures Inv(Step(s, a).value)
  {
    match a
    case InitPreInited(_) =>
    case Get(t) => TestKeepsInv(s, t);
    case Recheck(t) => TestKeepsInv(s, t);
    case SpuriousWake(t) =>
      CountUpdate(s.threads, t, Woken, IsSignalling);
      CountUpdate(s.threads, t, Woken, IsWoken);
    case Put(t) =>
      CountUpdate(s.threads, t, Signalling, IsSignalling);
      CountUpdate(s.threads, t, Signalling, IsWoken);
      var s' := Step(s, a).value;
      if u :| u in s'.threads && s'.threads[u].Sleeping? {
        assert s.threads[u].Sleeping?;
      }
    case Signal(t, unblocked) => SignalKeepsInv(s, t, unblocked);
  }

  ghost predicate Reachable(staticInit: int, initial: int, s: State)
  {
    Runs.Leads(Step, Start(staticInit, initial), s)
  }

  lemma ReachableInv(staticInit: int, initial: int, s: State)
    requires staticInit != 0 && Reachable(staticInit, initial, s)
    ensures Inv(s) && s.initial == initial
  {
    forall s, a | Inv(s) && Step(s, a).Some? ensures Inv(Step(s, a).value) {
      StepKeepsInv(s, a);
    }
    Runs.InvariantWhereLed(Step, Inv, Start(staticInit, initial), s);
    var acts: seq<Action> :| Runs.Run(Step, Start(staticInit, initial), acts) == Some(s);
    InitialIsFixed(Start(staticInit, initial), acts);
  }

  lemma {:induction false} InitialIsFixed(s: State, acts: seq<Action>)
    requires Runs.Run(Step, s, acts).Some?
    ensures Runs.Run(Step, s, acts).value.initial == s.initial
    decreases |acts|
  {
    if acts != [] {
      InitialIsFixed(Step(s, acts[0]).value, acts[1..]);
    }
  }

  /** While a thread sleeps the count never exceeds the wake-ups on their way; so once every put
      has signalled and every woken thread has re-tested, a sleeper means nothing is available. */
  lemma NoLostWakeup(staticInit: int, initial: int, s: State)
    requires staticInit != 0 && Reachable(staticInit, initial, s)
    ensures SomeoneSleeps(s) ==> s.count <= WakesInFlight(s)
    ensures initial >= 0 && SomeoneSleeps(s) && (forall t :: t in s.threads ==> s.threads[t].Sleeping?) ==> s.count == 0
  {
    ReachableInv(staticInit, initial, s);
    CountZero(s.threads, IsSignalling);
    CountZero(s.threads, IsWoken);
  }

  ghost predicate Conserves(staticInit: int, initial: int)
  {
    forall s :: Reachable(staticInit, initial, s) ==> s.count == initial + s.puts - s.gets
  }

  /** No unit is made or lost in any run exactly when the static-initialisation mark is set:
      os_sema_init_pre_inited sets it, os_sema_init leaves it as it was. */
  lemma ConservationExactly(staticInit: int, initial: int)
    ensures Conserves(staticInit, initial) <==> staticInit != 0
  {
    if staticInit != 0 {
      forall s | Reachable(staticInit, initial, s) ensures s.count == initial + s.puts - s.gets {
        ReachableInv(staticInit, initial, s);
      }
    } else {
      var s := Start(1, initial).(count := initial + 1);
      Runs.VisitsLead(Step, [Start(staticInit, initial), s], [InitPreInited(initial + 1)]);
      assert Reachable(staticInit, initial, s);
    }
  }

  ghost predicate NeverNegative(staticInit: int, initial: int)
  {
    forall s :: Reachable(staticInit, initial, s) ==> s.count >= 0
  }

  lemma NeverNegativeExactly(staticInit: int, initial: int)
    requires staticInit != 0
    ensures NeverNegative(staticInit, initial) <==> initial >= 0
  {
    if initial >= 0 {
      forall s | Reachable(staticInit, initial, s) ensures s.count >= 0 {
        ReachableInv(staticInit, initial, s);
      }
    } else {
      Runs.VisitsLead(Step, [Start(staticInit, initial)], []);
      assert Reachable(staticInit, initial, Start(staticInit, initial));
    }
  }

  /** A put is worth one get: at count 0 a get sleeps, and after a put it goes through and leaves 0 again. */
  lemma PutServesOneGet(s: State, t: Tid, u: Tid)
    requires s.count == 0 && t !in s.threads && u !in s.threads && t != u
    ensures Step(s, Get(u)).value.threads == s.threads[u := Sleeping]
    ensures var put := Step(s, Put(t));
      && put.Some? && put.value.count == 1
      && Step(put.value, Get(u)).Some?
      && Step(put.value, Get(u)).value.count == 0 && u !in Step(put.value, Get(u)).value.threads
      && Step(put.value, Get(u)).value.gets == s.gets + 1
  {
  }

  /** A thread comes out of get, and then with one unit, exactly when its test finds the count other than 0. */
  lemma GetTakesExactly(s: State, a: Action)
    requires Step(s, a).Some? && (a.Get? || a.Recheck?)
    ensures var s' := Step(s, a).value;
      && (a.t !in s'.threads <==> s.count != 0)
      && s'.count == s.count - One(s.count != 0) && s'.gets == s.gets + One(s.count != 0)
  {
  }

  /** The semaphore object. Each method is one critical section (or the unlocked signal) of the C code. */
  class Sema {
    var staticInit: int
    var count: int
    var threads: map<Tid, Pc>
    ghost var initial: int
    ghost var puts: nat
    ghost var gets: nat

    ghost function View(): State
      reads this
    {
      State(staticInit, count, threads, initial, puts, gets)
    }

    /** A zeroed object, as OS_DEFINE_INITIALIZED_SEMA leaves it, after its first initialisation. */
    constructor PreInited(value: int)
      ensures View() == Start(1, value)
      ensures count == value && threads == map[]
    {
      staticInit, count, threads := 1, value, map[];
      initial, puts, gets := value, 0, 0;
    }

    method InitPreInitedAgain(value: int)
      modifies this`count, this`staticInit
      ensures View() == Step(old(View()), InitPreInited(value)).value
      ensures count == if old(staticInit) == 0 then value else old(count)
      ensures staticInit == if old(staticInit) == 0 then 1 else old(staticInit)
    {
      if 0 == staticInit {
        count := value;
        staticInit := 1;
      }
    }

    method TestCount(t: Tid)
      requires t in threads ==> threads[t].Woken?
      modifies this`count, this`threads, this`gets
      ensures View() == Step(old(View()), if t in old(threads) then Recheck(t) else Get(t)).value
      ensures old(count) == 0 ==> count == 0 && threads == old(threads)[t := Sleeping]
      ensures old(count) != 0 ==> count == old(count) - 1 && threads == old(threads) - {t} && gets == old(gets) + 1
    {
      if count == 0 {
        threads := threads[t := Sleeping];
      } else {
        count := count - 1;
        gets := gets + 1;
        threads := threads - {t};
      }
    }

    method Increment(t: Tid)
      requires t !in threads
      modifies this`count, this`puts, this`threads
      ensures View() == Step(old(View()), Put(t)).value
      ensures count == old(count) + 1 && puts == old(puts) + 1 && threads == old(threads)[t := Signalling]
    {
      count := count + 1;
      puts := puts + 1;
      threads := threads[t := Signalling];
    }

    method SignalNonZero(t: Tid, unblocked: set<Tid>)
      requires t in threads && threads[t].Signalling? && MayUnblock(threads, unblocked)
      modifies this`threads
      ensures View() == Step(old(View()), Signal(t, unblocked)).value
      ensures threads.Keys == old(threads).Keys - {t}
      ensures forall u :: u in threads ==> threads[u] == if u in unblocked then Woken else old(threads)[u]
    {
      threads := Repaint(threads, unblocked, Woken) - {t};
    }
  }
}
