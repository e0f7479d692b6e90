/**
 Every order of the increments of thread_template/mutex/mutex.cpp is possible: for any sequence in which
 each thread occurs as often as it loops, some schedule stores the counter in that order and finishes.
 */
module IncrementOrder {
  import opened Integers
  import opened Runs
  import opened MutexCounter

  /** The thread that stores the counter. */
  function Stores(s: State, e: Label): seq<nat> {
    match Step(s, e)
    case None => []
    case Some(t) => if t.num != s.num && e.Worker? then [e.j] else []
  }

  /** `es` leads from s to t and stores the counter in this order. */
  ghost predicate Leads(s: State, es: seq<Label>, t: State, order: seq<nat>) {
    Run(Step, s, es) == Some(t) && Observed(Step, Stores, s, es) == order
  }

  lemma {:induction false} LeadsOn(
    s: State, es: seq<Label>, t: State, order: seq<nat>, fs: seq<Label>, u: State, more: seq<nat>)
    requires Leads(s, es, t, order) && Leads(t, fs, u, more)
    ensures Leads(s, es + fs, u, order + more)
  {
    RunAppend(Step, s, es, fs);
    ObservedAppend(Step, Stores, s, es, t, fs);
  }

  lemma {:induction false} StepOn(s: State, es: seq<Label>, t: State, order: seq<nat>, e: Label, u: State)
    requires Leads(s, es, t, order) && Step(t, e) == Some(u)
    ensures Leads(s, es + [e], u, order + Stores(t, e))
  {
    RunOne(Step, t, e, u);
    ObservedOne(Step, Stores, t, e);
    LeadsOn(s, es, t, order, [e], u, Stores(t, e));
  }

  lemma {:induction false} Nothing(s: State)
    ensures Leads(s, [], s, [])
  {
  }

  // ----- one increment

  predicate AtTest(s: State, j: nat, i: int) {
    j < |s.threads| && s.threads[j].pc.TestLoop? && s.threads[j].i == i && s.owner.None?
  }

  function Incremented(s: State, j: nat): State
    requires j < |s.threads|
  {
    s.(threads := s.threads[j := s.threads[j].(i := s.threads[j].i + 1, loaded := s.num)], num := s.num + 1)
  }

  lemma {:induction false} Increments(s: State, j: nat) returns (es: seq<Label>)
    requires j < |s.threads| && AtTest(s, j, s.threads[j].i) && s.threads[j].i < s.threads[j].loop
    requires 0 <= s.num < LLONG_MAX
    ensures Leads(s, es, Incremented(s, j), [j])
  {
    var t, e := s.threads[j], Worker(j);
    var s1 := Put(s, j, t.(pc := Locking));
    var s2 := Put(s1, j, t.(pc := Loading)).(owner := Some(j));
    var s3 := Put(s2, j, t.(pc := Storing, loaded := s.num));
    var s4 := Put(s3, j, t.(pc := Unlocking, loaded := s.num)).(num := s.num + 1);
    var u := Incremented(s, j);
    assert u.threads == s4.threads[j := u.threads[j]];
    Nothing(s);
    StepOn(s, [], s, [], e, s1);
    StepOn(s, [] + [e], s1, [], e, s2);
    StepOn(s, [] + [e] + [e], s2, [], e, s3);
    StepOn(s, [] + [e] + [e] + [e], s3, [], e, s4);
    StepOn(s, [] + [e] + [e] + [e] + [e], s4, [j], e, u);
    es := [] + [e] + [e] + [e] + [e] + [e];
  }

  // ----- a sequence of increments

  function Count(order: seq<nat>, j: nat): nat {
    if order == [] then 0
    else Count(order[..|order| - 1], j) + (if order[|order| - 1] == j then 1 else 0)
  }

  /** After increments in this order, with both threads at the test of their loops. */
  ghost predicate After(s: State, loop: int, order: seq<nat>) {
    && s.loop == loop && |s.threads| == 2 && s.main == Join(0) && s.num == |order|
    && forall j: nat | j < 2 :: AtTest(s, j, Count(order, j)) && s.threads[j].loop == loop
  }

  lemma {:induction false} BothCreated(loop: int) returns (es: seq<Label>, t: State)
    requires 0 < loop
    ensures Leads(Init(loop), es, t, []) && After(t, loop, [])
  {
    var s := Init(loop);
    var s1 := s.(main := Create(0));
    var s2 := Put(s1, 0, s1.threads[0].(pc := TestLoop)).(main := Create(1));
    var s3 := Put(s2, 1, s2.threads[1].(pc := TestLoop)).(main := Create(2));
    t := s3.(main := Join(0));
    Nothing(s);
    StepOn(s, [], s, [], Main, s1);
    StepOn(s, [] + [Main], s1, [], Main, s2);
    StepOn(s, [] + [Main] + [Main], s2, [], Main, s3);
    StepOn(s, [] + [Main] + [Main] + [Main], s3, [], Main, t);
    es := [] + [Main] + [Main] + [Main] + [Main];
  }

  lemma {:induction false} CountOne(order: seq<nat>, j: nat, i: nat)
    ensures Count(order + [j], i) == Count(order, i) + (if i == j then 1 else 0)
  {
    var all := order + [j];
    assert all[..|all| - 1] == order;
  }

  lemma {:induction false} OneMore(loop: int, order: seq<nat>, j: nat, s: State)
    returns (es: seq<Label>, t: State)
    requires loop <= INT_MAX && |order| <= 2 * loop && j < 2
    requires After(s, loop, order) && Count(order, j) < loop
    ensures Leads(s, es, t, [j]) && After(t, loop, order + [j])
  {
    assert AtTest(s, j, Count(order, j));
    es := Increments(s, j);
    t := Incremented(s, j);
    forall i: nat | i < 2 ensures AtTest(t, i, Count(order + [j], i)) && t.threads[i].loop == loop {
      assert AtTest(s, i, Count(order, i));
      CountOne(order, j, i);
    }
  }

  lemma {:induction false} OrderRun(loop: int, order: seq<nat>) returns (es: seq<Label>, t: State)
    requires 0 < loop <= INT_MAX && |order| <= 2 * loop
    requires forall k | 0 <= k < |order| :: order[k] < 2
    requires Count(order, 0) <= loop && Count(order, 1) <= loop
    ensures Leads(Init(loop), es, t, order) && After(t, loop, order)
    decreases |order|
  {
    if order == [] {
      es, t := BothCreated(loop);
    } else {
      var j, rest := order[|order| - 1], order[..|order| - 1];
      assert order == rest + [j];
      CountOne(rest, j, 0);
      CountOne(rest, j, 1);
      var fs, s := OrderRun(loop, rest);
      var gs: seq<Label>;
      gs, t := OneMore(loop, rest, j, s);
      LeadsOn(Init(loop), fs, s, rest, gs, t, [j]);
      es := fs + gs;
    }
  }

  // ----- to the end

  lemma {:induction false} Finishes(loop: int, s: State, order: seq<nat>) returns (es: seq<Label>, t: State)
    requires After(s, loop, order) && Count(order, 0) == loop && Count(order, 1) == loop
    ensures Leads(s, es, t, []) && t.main.Done? && t.num == s.num
  {
    assert AtTest(s, 0, loop) && AtTest(s, 1, loop);
    var s1 := Put(s, 0, s.threads[0].(pc := Returned));
    var s2 := Put(s1, 1, s.threads[1].(pc := Returned));
    var s3 := Put(s2, 0, s.threads[0].(pc := Joined)).(main := Join(1));
    var s4 := Put(s3, 1, s.threads[1].(pc := Joined)).(main := Join(2));
    t := s4.(main := Done);
    Nothing(s);
    StepOn(s, [], s, [], Worker(0), s1);
    StepOn(s, [] + [Worker(0)], s1, [], Worker(1), s2);
    StepOn(s, [] + [Worker(0)] + [Worker(1)], s2, [], Main, s3);
    StepOn(s, [] + [Worker(0)] + [Worker(1)] + [Main], s3, [], Main, s4);
    StepOn(s, [] + [Worker(0)] + [Worker(1)] + [Main] + [Main], s4, [], Main, t);
    es := [] + [Worker(0)] + [Worker(1)] + [Main] + [Main] + [Main];
  }

  /** Whatever the order: some finished schedule makes the increments in it. */
  lemma {:induction false} EveryOrderOccurs(loop: int, order: seq<nat>) returns (es: seq<Label>, t: State)
    requires 0 < loop <= INT_MAX && |order| == 2 * loop
    requires forall k | 0 <= k < |order| :: order[k] < 2
    requires Count(order, 0) == loop && Count(order, 1) == loop
    ensures Run(Step, Init(loop), es) == Some(t) && t.main.Done? && t.num == 2 * loop
    ensures Observed(Step, Stores, Init(loop), es) == order
  {
    var fs, s := OrderRun(loop, order);
    var gs: seq<Label>;
    gs, t := Finishes(loop, s, order);
    LeadsOn(Init(loop), fs, s, order, gs, t, []);
    es := fs + gs;
  }
}
