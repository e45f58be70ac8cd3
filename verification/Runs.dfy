/** The usual optional value; a step function answers None when an action is not enabled. */
module Options {
  datatype Option<+T> = None | Some(value: T)
}

/** Finite executions of a step system. A system is a function `step` from a state
    and an action to the next state, None when the action cannot happen. */
module Runs {
  import opened Options

  /** The state reached by performing `acts` in order, None if one of them is not enabled. */
  function Run<S, A>(step: (S, A) -> Option<S>, s: S, acts: seq<A>): Option<S>
  {
    if acts == [] then Some(s)
    else match step(s, acts[0])
      case None => None
      case Some(next) => Run(step, next, acts[1..])
  }

  ghost predicate Inductive<S(!new), A(!new)>(step: (S, A) -> Option<S>, inv: S -> bool)
  {
    forall s, a :: inv(s) && step(s, a).Some? ==> inv(step(s, a).value)
  }

  /** An inductive predicate true at the start is true after every run. */
  lemma {:induction false} InvariantOverRun<S(!new), A(!new)>(
    step: (S, A) -> Option<S>, inv: S -> bool, s: S, acts: seq<A>)
    requires Inductive(step, inv) && inv(s)
    requires Run(step, s, acts).Some?
    ensures inv(Run(step, s, acts).value)
    decreases |acts|
  {
    if acts != [] {
      InvariantOverRun(step, inv, step(s, acts[0]).value, acts[1..]);
    }
  }

  lemma {:induction false} RunConcat<S, A>(step: (S, A) -> Option<S>, s: S, xs: seq<A>, ys: seq<A>)
    requires Run(step, s, xs).Some?
    ensures Run(step, s, xs + ys) == Run(step, Run(step, s, xs).value, ys)
    decreases |xs|
  {
    if xs == [] {
      assert xs + ys == ys;
    } else {
      assert (xs + ys)[1..] == xs[1..] + ys;
      RunConcat(step, step(s, xs[0]).value, xs[1..], ys);
    }
  }

  /** A run given state by state. */
  ghost predicate Visits<S, A>(step: (S, A) -> Option<S>, states: seq<S>, acts: seq<A>)
  {
    |states| == |acts| + 1 && forall i :: 0 <= i < |acts| ==> step(states[i], acts[i]) == Some(states[i + 1])
  }

  lemma {:induction false} RunVisits<S, A>(step: (S, A) -> Option<S>, states: seq<S>, acts: seq<A>)
    requires Visits(step, states, acts)
    ensures Run(step, states[0], acts) == Some(states[|acts|])
    decreases |acts|
  {
    if acts != [] {
      assert step(states[0], acts[0]) == Some(states[1]);
      RunVisits(step, states[1..], acts[1..]);
    }
  }

  /** Some run goes from `s` to `t`. */
  ghost predicate Leads<S(!new), A(!new)>(step: (S, A) -> Option<S>, s: S, t: S)
  {
    exists acts: seq<A> :: Run(step, s, acts) == Some(t)
  }

  lemma VisitsLead<S(!new), A(!new)>(step: (S, A) -> Option<S>, states: seq<S>, acts: seq<A>)
    requires Visits(step, states, acts)
    ensures Leads(step, states[0], states[|acts|])
  {
    RunVisits(step, states, acts);
  }

  lemma LeadsOn<S(!new), A(!new)>(step: (S, A) -> Option<S>, s: S, t: S, u: S)
    requires Leads(step, s, t) && Leads(step, t, u)
    ensures Leads(step, s, u)
  {
    var xs: seq<A> :| Run(step, s, xs) == Some(t);
    var ys: seq<A> :| Run(step, t, ys) == Some(u);
    RunConcat(step, s, xs, ys);
  }

  /** The same system with only some of its actions. */
  function Restrict<S, A>(step: (S, A) -> Option<S>, allowed: (S, A) -> bool): (S, A) -> Option<S>
  {
    (s, a) => if allowed(s, a) then step(s, a) else None
  }

  lemma RestrictedVisitsLead<S(!new), A(!new)>(
    step: (S, A) -> Option<S>, allowed: (S, A) -> bool, states: seq<S>, acts: seq<A>)
    requires Visits(step, states, acts)
    requires forall i :: 0 <= i < |acts| ==> allowed(states[i], acts[i])
    ensures Leads(Restrict(step, allowed), states[0], states[|acts|])
  {
    VisitsLead(Restrict(step, allowed), states, acts);
  }

  lemma {:induction false} RestrictedRun<S, A>(
    step: (S, A) -> Option<S>, allowed: (S, A) -> bool, s: S, acts: seq<A>)
    requires Run(Restrict(step, allowed), s, acts).Some?
    ensures Run(step, s, acts) == Run(Restrict(step, allowed), s, acts)
    decreases |acts|
  {
    if acts != [] {
      RestrictedRun(step, allowed, step(s, acts[0]).value, acts[1..]);
    }
  }

  lemma RestrictedLeads<S(!new), A(!new)>(step: (S, A) -> Option<S>, allowed: (S, A) -> bool, s: S, t: S)
    requires Leads(Restrict(step, allowed), s, t)
    ensures Leads(step, s, t)
  {
    var acts: seq<A> :| Run(Restrict(step, allowed), s, acts) == Some(t);
    RestrictedRun(step, allowed, s, acts);
  }

  lemma InvariantWhereLed<S(!new), A(!new)>(step: (S, A) -> Option<S>, inv: S -> bool, s: S, t: S)
    requires Inductive(step, inv) && inv(s) && Leads(step, s, t)
    ensures inv(t)
  {
    var acts: seq<A> :| Run(step, s, acts) == Some(t);
    InvariantOverRun(step, inv, s, acts);
  }
}
