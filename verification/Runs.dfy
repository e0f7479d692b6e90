/** Runs of a system whose steps are labelled: `step(s, e)` is None where `e` is blocked in `s`. */
module Runs {
  datatype Option<+T> = None | Some(value: T)

  function Run<S, E>(step: (S, E) -> Option<S>, s: S, es: seq<E>): Option<S> {
    if es == [] then Some(s)
    else
      match step(s, es[0])
      case None => None
      case Some(t) => Run(step, t, es[1..])
  }

  lemma {:induction false} RunAppend<S, E>(step: (S, E) -> Option<S>, s: S, es: seq<E>, fs: seq<E>)
    requires Run(step, s, es).Some?
    ensures Run(step, s, es + fs) == Run(step, Run(step, s, es).value, fs)
  {
    if es == [] {
      assert es + fs == fs;
    } else {
      assert (es + fs)[1..] == es[1..] + fs;
      RunAppend(step, step(s, es[0]).value, es[1..], fs);
    }
  }

  ghost predicate Reachable<S(!new), E(!new)>(step: (S, E) -> Option<S>, init: S, s: S) {
    exists es: seq<E> :: Run(step, init, es) == Some(s)
  }

  lemma {:induction false} ReachesInit<S(!new), E(!new)>(step: (S, E) -> Option<S>, init: S)
    ensures Reachable(step, init, init)
  {
    var none: seq<E> := [];
    assert Run(step, init, none) == Some(init);
  }

  lemma {:induction false} ReachesNext<S(!new), E(!new)>(step: (S, E) -> Option<S>, init: S, s: S, e: E)
    requires Reachable(step, init, s) && step(s, e).Some?
    ensures Reachable(step, init, step(s, e).value)
  {
    var es: seq<E> :| Run(step, init, es) == Some(s);
    RunAppend(step, init, es, [e]);
    assert Run(step, s, [e]) == Run(step, step(s, e).value, [e][1..]);
    assert Run(step, init, es + [e]) == step(s, e);
  }

  lemma {:induction false} RunOne<S(!new), E(!new)>(step: (S, E) -> Option<S>, s: S, e: E, t: S)
    requires step(s, e) == Some(t)
    ensures Run(step, s, [e]) == Some(t)
  {
    assert [e][1..] == [];
    assert Run(step, t, []) == Some(t);
  }

  lemma {:induction false} ReachesOn<S(!new), E(!new)>(
    step: (S, E) -> Option<S>, init: S, s: S, es: seq<E>, t: S)
    requires Reachable(step, init, s) && Run(step, s, es) == Some(t)
    ensures Reachable(step, init, t)
  {
    var fs: seq<E> :| Run(step, init, fs) == Some(s);
    RunAppend(step, init, fs, es);
  }

  ghost predicate Inductive<S(!new), E(!new)>(step: (S, E) -> Option<S>, inv: S -> bool) {
    forall s, e :: inv(s) && step(s, e).Some? ==> inv(step(s, e).value)
  }

  /** What a method reports that carries out a specified change in place: it moved and the new state
      is the specified one, or the change is blocked and nothing happened. */
  predicate Became<S(==)>(result: Option<S>, s: S, moved: bool, t: S) {
    match result
    case Some(u) => moved && t == u
    case None => !moved && t == s
  }

  predicate Performs<S(==), E>(step: (S, E) -> Option<S>, s: S, e: E, moved: bool, t: S) {
    Became(step(s, e), s, moved, t)
  }

  lemma {:induction false} Always<S(!new), E(!new)>(step: (S, E) -> Option<S>, inv: S -> bool, s: S, es: seq<E>)
    requires Inductive(step, inv) && inv(s)
    requires Run(step, s, es).Some?
    ensures inv(Run(step, s, es).value)
  {
    if es != [] {
      Always(step, inv, step(s, es[0]).value, es[1..]);
    }
  }

  lemma {:induction false} AlwaysReachable<S(!new), E(!new)>(step: (S, E) -> Option<S>, inv: S -> bool, init: S, s: S)
    requires Inductive(step, inv) && inv(init)
    requires Reachable(step, init, s)
    ensures inv(s)
  {
    var es: seq<E> :| Run(step, init, es) == Some(s);
    Always(step, inv, init, es);
  }

  /** The weights of the steps of a run, added up. */
  function Charge<S, E>(step: (S, E) -> Option<S>, weight: (S, E) -> int, s: S, es: seq<E>): int {
    if es == [] then 0
    else
      weight(s, es[0]) +
      match step(s, es[0])
      case None => 0
      case Some(t) => Charge(step, weight, t, es[1..])
  }

  lemma {:induction false} ChargeAppend<S(!new), E(!new)>(
    step: (S, E) -> Option<S>, weight: (S, E) -> int, s: S, es: seq<E>, t: S, fs: seq<E>)
    requires Run(step, s, es) == Some(t)
    ensures Charge(step, weight, s, es + fs) == Charge(step, weight, s, es) + Charge(step, weight, t, fs)
    decreases |es|
  {
    if es == [] {
      assert es + fs == fs;
    } else {
      assert (es + fs)[1..] == es[1..] + fs;
      ChargeAppend(step, weight, step(s, es[0]).value, es[1..], t, fs);
    }
  }

  /** What is observed of the steps of a run, in order. */
  function Observed<S, E, O>(step: (S, E) -> Option<S>, observe: (S, E) -> seq<O>, s: S, es: seq<E>): seq<O> {
    if es == [] then []
    else
      observe(s, es[0]) +
      match step(s, es[0])
      case None => []
      case Some(t) => Observed(step, observe, t, es[1..])
  }

  lemma {:induction false} ObservedAppend<S(!new), E(!new), O>(
    step: (S, E) -> Option<S>, observe: (S, E) -> seq<O>, s: S, es: seq<E>, t: S, fs: seq<E>)
    requires Run(step, s, es) == Some(t)
    ensures Observed(step, observe, s, es + fs) == Observed(step, observe, s, es) + Observed(step, observe, t, fs)
    decreases |es|
  {
    if es == [] {
      assert es + fs == fs;
    } else {
      assert (es + fs)[1..] == es[1..] + fs;
      ObservedAppend(step, observe, step(s, es[0]).value, es[1..], t, fs);
    }
  }

  lemma {:induction false} ObservedOne<S(!new), E(!new), O>(
    step: (S, E) -> Option<S>, observe: (S, E) -> seq<O>, s: S, e: E)
    ensures Observed(step, observe, s, [e]) == observe(s, e)
  {
    assert [e][1..] == [];
  }

  lemma {:induction false} ZeroCharge<S(!new), E(!new)>(
    step: (S, E) -> Option<S>, weight: (S, E) -> int, s: S, es: seq<E>)
    requires forall s, e :: weight(s, e) == 0
    ensures Charge(step, weight, s, es) == 0
    decreases |es|
  {
    if es != [] && step(s, es[0]).Some? {
      ZeroCharge(step, weight, step(s, es[0]).value, es[1..]);
    }
  }

  /** Amortised accounting: if every step is paid for by its credit and a drop in `rank`, a run is. */
  lemma {:induction false} Spend<S(!new), E(!new)>(
    step: (S, E) -> Option<S>, inv: S -> bool, rank: S -> int,
    debit: (S, E) -> int, credit: (S, E) -> int, s: S, es: seq<E>)
    requires Inductive(step, inv) && inv(s)
    requires forall s, e :: inv(s) && step(s, e).Some? ==>
               rank(step(s, e).value) + debit(s, e) <= rank(s) + credit(s, e)
    requires Run(step, s, es).Some?
    ensures rank(Run(step, s, es).value) + Charge(step, debit, s, es) <= rank(s) + Charge(step, credit, s, es)
  {
    if es != [] {
      Spend(step, inv, rank, debit, credit, step(s, es[0]).value, es[1..]);
    }
  }

  /** Exact accounting: if every step changes `rank` by its weight, a run changes it by its charge. */
  lemma {:induction false} Ledger<S(!new), E(!new)>(
    step: (S, E) -> Option<S>, inv: S -> bool, rank: S -> int, weight: (S, E) -> int, s: S, es: seq<E>)
    requires Inductive(step, inv) && inv(s)
    requires forall s, e :: inv(s) && step(s, e).Some? ==> rank(step(s, e).value) == rank(s) + weight(s, e)
    requires Run(step, s, es).Some?
    ensures rank(Run(step, s, es).value) == rank(s) + Charge(step, weight, s, es)
  {
    if es != [] {
      Ledger(step, inv, rank, weight, step(s, es[0]).value, es[1..]);
    }
  }

  /** If every step lowers `rank`, the rank a run starts from bounds its length. */
  lemma {:induction false} Descent<S(!new), E(!new)>(
    step: (S, E) -> Option<S>, inv: S -> bool, rank: S -> int, s: S, es: seq<E>)
    requires Inductive(step, inv) && inv(s)
    requires forall s, e :: inv(s) && step(s, e).Some? ==> rank(step(s, e).value) < rank(s)
    requires Run(step, s, es).Some?
    ensures rank(Run(step, s, es).value) + |es| <= rank(s)
  {
    if es != [] {
      Descent(step, inv, rank, step(s, es[0]).value, es[1..]);
    }
  }

  /** The same when a step may first add its cost: the length of a run is bounded by the rank it starts
      from and the costs of its steps. */
  lemma {:induction false} StepBound<S(!new), E(!new)>(
    step: (S, E) -> Option<S>, inv: S -> bool, rank: S -> int, cost: (S, E) -> int, s: S, es: seq<E>)
    requires Inductive(step, inv) && inv(s)
    requires forall s, e :: inv(s) && step(s, e).Some? ==> rank(step(s, e).value) + 1 <= rank(s) + cost(s, e)
    requires Run(step, s, es).Some?
    ensures rank(Run(step, s, es).value) + |es| <= rank(s) + Charge(step, cost, s, es)
  {
    if es != [] {
      StepBound(step, inv, rank, cost, step(s, es[0]).value, es[1..]);
    }
  }
}
