/**
 The two incrementing threads of thread_template/mutex/mutex.cpp. The increment of the shared 64-bit
 counter is a load and a store, which only the mutex keeps together.
 */
module MutexCounter {
  import opened Integers
  import opened Sums
  import opened Runs

  const NUM_THREADS: nat := 2

  datatype ThreadPc = Unborn | TestLoop | Locking | Loading | Storing | Unlocking | Returned | Joined

  /** A thread's own variables: the bound it copied, its loop index and the value it loaded. */
  datatype Thread = Thread(pc: ThreadPc, loop: int, i: int, loaded: int)

  datatype MainPc = CheckLoop | Create(k: nat) | Join(k: nat) | Done | Rejected

  datatype State = State(loop: int, threads: seq<Thread>, main: MainPc, owner: Option<nat>, num: int)

  datatype Label = Main | Worker(j: nat)

  function Init(loop: int): State {
    State(loop, seq(NUM_THREADS, _ => Thread(Unborn, loop, 0, 0)), CheckLoop, None, 0)
  }

  function Put(s: State, j: nat, t: Thread): State
    requires j < |s.threads|
  {
    s.(threads := s.threads[j := t])
  }

  function Step(s: State, e: Label): Option<State> {
    match e
    case Main => MainStep(s)
    case Worker(j) => if j < |s.threads| then WorkerStep(s, j) else None
  }

  function MainStep(s: State): Option<State> {
    match s.main
    case CheckLoop => Some(s.(main := if s.loop <= 0 then Rejected else Create(0)))
    case Create(k) =>
      if k < |s.threads| then Some(Put(s, k, s.threads[k].(pc := TestLoop)).(main := Create(k + 1)))
      else Some(s.(main := Join(0)))
    case Join(k) =>
      if k >= |s.threads| then Some(s.(main := Done))
      else if s.threads[k].pc.Returned? then Some(Put(s, k, s.threads[k].(pc := Joined)).(main := Join(k + 1)))
      else None
    case Done => None
    case Rejected => None
  }

  function WorkerStep(s: State, j: nat): Option<State>
    requires j < |s.threads|
  {
    var t := s.threads[j];
    match t.pc
    case Unborn => None
    case TestLoop => Some(Put(s, j, t.(pc := if t.i < t.loop then Locking else Returned)))
    case Locking => if s.owner.None? then Some(Put(s, j, t.(pc := Loading)).(owner := Some(j))) else None
    case Loading => Some(Put(s, j, t.(pc := Storing, loaded := s.num)))
    case Storing => Some(Put(s, j, t.(pc := Unlocking)).(num := Wrap64(t.loaded + 1)))
    case Unlocking => Some(Put(s, j, t.(pc := TestLoop, i := t.i + 1)).(owner := None))
    case Returned => None
    case Joined => None
  }

  // ----- invariant

  predicate HoldsMutex(pc: ThreadPc) { pc.Loading? || pc.Storing? || pc.Unlocking? }

  /** The increments a thread has stored. */
  function Stored(t: Thread): int { t.i + (if t.pc.Unlocking? then 1 else 0) }

  function Completed(t: Thread): int { t.i }

  ghost predicate ThreadInv(t: Thread, loop: int, num: int) {
    && t.loop == loop
    && (loop > 0 ==> 0 <= t.i <= loop)
    && (t.pc.Unborn? ==> t.i == 0)
    && (t.pc.Locking? || HoldsMutex(t.pc) ==> t.i < loop)
    && (t.pc.Returned? || t.pc.Joined? ==> t.i == loop)
    && (t.pc.Storing? ==> t.loaded == num)
  }

  ghost predicate ThreadsInv(s: State) {
    && |s.threads| == NUM_THREADS
    && s.loop <= INT_MAX
    && (forall j: nat | j < |s.threads| :: ThreadInv(s.threads[j], s.loop, s.num))
    && (forall j: nat | j < |s.threads| :: HoldsMutex(s.threads[j].pc) <==> s.owner == Some(j))
    && (s.owner.Some? ==> s.owner.value < |s.threads|)
  }

  ghost predicate MainInv(s: State) {
    && (s.main.CheckLoop? || s.main.Rejected? ==> forall j | 0 <= j < |s.threads| :: s.threads[j].pc.Unborn?)
    && (s.main.Rejected? ==> s.loop <= 0)
    && (!s.main.CheckLoop? && !s.main.Rejected? ==> s.loop > 0)
    && (s.main.Create? ==> s.main.k <= |s.threads| && forall j | 0 <= j < |s.threads| ::
                             !s.threads[j].pc.Joined? && (j < s.main.k <==> !s.threads[j].pc.Unborn?))
    && (s.main.Join? ==> s.main.k <= |s.threads| && forall j | 0 <= j < |s.threads| ::
                           !s.threads[j].pc.Unborn? && (j < s.main.k <==> s.threads[j].pc.Joined?))
    && (s.main.Done? ==> forall j | 0 <= j < |s.threads| :: s.threads[j].pc.Joined?)
  }

  ghost predicate CountInv(s: State) {
    s.num == Sum(Stored, s.threads)
  }

  ghost predicate Inv(s: State) {
    ThreadsInv(s) && MainInv(s) && CountInv(s)
  }

  lemma {:induction false} InitInv(loop: int)
    requires loop <= INT_MAX
    ensures Inv(Init(loop))
  {
    Bounds(Stored, Init(loop).threads, 0, 0);
  }

  /** The counter stays far from the limits of its type. */
  lemma {:induction false} NumInRange(s: State)
    requires Inv(s)
    ensures 0 <= s.num <= 2 * INT_MAX
  {
    if s.loop > 0 {
      Bounds(Stored, s.threads, 0, s.loop);
    } else {
      Bounds(Stored, s.threads, 0, 0);
    }
  }

  lemma {:induction false} WorkerKeepsThreads(s: State, j: nat)
    requires ThreadsInv(s) && MainInv(s) && j < |s.threads| && WorkerStep(s, j).Some?
    ensures ThreadsInv(WorkerStep(s, j).value)
  {
    assert ThreadInv(s.threads[j], s.loop, s.num);
    assert s.threads[j].pc.Storing? ==> forall i: nat | i < |s.threads| && i != j :: !s.threads[i].pc.Storing?;
  }

  lemma {:induction false} StepKeepsCount(s: State, e: Label)
    requires Inv(s) && Step(s, e).Some?
    ensures CountInv(Step(s, e).value)
  {
    NumInRange(s);
    var t := Step(s, e).value;
    match e
    case Main =>
      if (s.main.Create? || s.main.Join?) && s.main.k < |s.threads| {
        Update(Stored, s.threads, s.main.k, t.threads[s.main.k]);
      }
    case Worker(j) =>
      assert ThreadInv(s.threads[j], s.loop, s.num);
      Update(Stored, s.threads, j, t.threads[j]);
  }

  lemma {:induction false} WorkerKeepsMain(s: State, j: nat)
    requires MainInv(s) && j < |s.threads| && WorkerStep(s, j).Some?
    ensures MainInv(WorkerStep(s, j).value)
  {
  }

  lemma {:induction false} MainKeepsMain(s: State)
    requires MainInv(s) && MainStep(s).Some?
    ensures MainInv(MainStep(s).value)
  {
  }

  lemma {:induction false} MainKeepsThreads(s: State)
    requires Inv(s) && MainStep(s).Some?
    ensures ThreadsInv(MainStep(s).value)
  {
  }

  lemma {:induction false} StepKeepsInv(s: State, e: Label)
    requires Inv(s) && Step(s, e).Some?
    ensures Inv(Step(s, e).value)
  {
    StepKeepsCount(s, e);
    match e
    case Main => MainKeepsMain(s); MainKeepsThreads(s);
    case Worker(j) => WorkerKeepsMain(s, j); WorkerKeepsThreads(s, j);
  }

  lemma {:induction false} InvInductive()
    ensures Inductive(Step, Inv)
  {
    forall s: State, e: Label | Inv(s) && Step(s, e).Some? ensures Inv(Step(s, e).value) {
      StepKeepsInv(s, e);
    }
  }

  lemma {:induction false} ReachableInv(loop: int, s: State)
    requires loop <= INT_MAX && Reachable(Step, Init(loop), s)
    ensures Inv(s) && s.loop == loop
  {
    InvInductive();
    InitInv(loop);
    AlwaysReachable(Step, Inv, Init(loop), s);
    AlwaysReachable(Step, (s: State) => s.loop == loop, Init(loop), s);
  }

  // ----- which steps are possible

  /** A thread runs from its creation to its end, also before the other is created; it waits for nothing
      but the mutex. */
  lemma {:induction false} WorkerPossible(loop: int, s: State, j: nat)
    requires loop <= INT_MAX && Reachable(Step, Init(loop), s) && j < |s.threads|
    ensures s.threads[j].pc.Unborn? <==> s.main.CheckLoop? || s.main.Rejected? || (s.main.Create? && s.main.k <= j)
    ensures Step(s, Worker(j)).None? <==>
            || s.threads[j].pc.Unborn? || s.threads[j].pc.Returned? || s.threads[j].pc.Joined?
            || (s.threads[j].pc.Locking? && s.owner.Some?)
  {
    ReachableInv(loop, s);
  }

  /** Main waits for nothing but the end of the thread it joins, the first one first. */
  lemma {:induction false} MainPossible(loop: int, s: State)
    requires loop <= INT_MAX && Reachable(Step, Init(loop), s)
    ensures Step(s, Main).None? <==>
            || s.main.Done? || s.main.Rejected?
            || (s.main.Join? && s.main.k < |s.threads| && !s.threads[s.main.k].pc.Returned?)
    ensures s.main.Done? ==> |s.threads| == 2 && s.threads[0].pc.Joined? && s.threads[1].pc.Joined?
  {
    ReachableInv(loop, s);
  }

  // ----- no update is lost

  lemma {:induction false} FinalCount(loop: int, s: State)
    requires loop <= INT_MAX && Reachable(Step, Init(loop), s)
    requires s.main.Done?
    ensures s.num == 2 * loop
  {
    ReachableInv(loop, s);
    forall j | 0 <= j < |s.threads| ensures Stored(s.threads[j]) == loop {
      assert ThreadInv(s.threads[j], loop, s.num);
    }
    Bounds(Stored, s.threads, loop, loop);
  }

  lemma {:induction false} CountWhenFree(loop: int, s: State)
    requires loop <= INT_MAX && Reachable(Step, Init(loop), s)
    requires s.owner.None?
    ensures s.num == Sum(Completed, s.threads)
  {
    ReachableInv(loop, s);
    Same(Stored, s.threads, Completed, s.threads);
  }

  lemma {:induction false} NeverOverflows(loop: int, s: State)
    requires loop <= INT_MAX && Reachable(Step, Init(loop), s)
    ensures 0 <= s.num < LLONG_MAX
  {
    ReachableInv(loop, s);
    NumInRange(s);
  }

  /** Between a thread's load and its store nobody else changes the counter. */
  lemma {:induction false} LoadedIsCurrent(loop: int, s: State, j: nat)
    requires loop <= INT_MAX && Reachable(Step, Init(loop), s)
    requires j < |s.threads| && s.threads[j].pc.Storing?
    ensures s.threads[j].loaded == s.num && Step(s, Worker(j)).value.num == s.num + 1
  {
    ReachableInv(loop, s);
    NumInRange(s);
    assert ThreadInv(s.threads[j], s.loop, s.num);
  }

  // ----- progress

  lemma {:induction false} DeadlockFree(loop: int, s: State) returns (e: Label)
    requires loop <= INT_MAX && Reachable(Step, Init(loop), s)
    requires !s.main.Done? && !s.main.Rejected?
    ensures Step(s, e).Some?
  {
    ReachableInv(loop, s);
    e := if MainStep(s).Some? then Main
         else if s.owner.Some? then Worker(s.owner.value) else Worker(s.main.k);
  }

  function Work(t: Thread): int {
    5 * (t.loop - t.i) +
    match t.pc
    case Unborn => 1
    case TestLoop => 1
    case Locking => 0
    case Loading => -1
    case Storing => -2
    case Unlocking => -3
    case Returned => 0
    case Joined => 0
  }

  function MainWork(s: State): int {
    match s.main
    case CheckLoop => 7
    case Create(k) => 6 - k
    case Join(k) => 3 - k
    case Done => 0
    case Rejected => 0
  }

  function Rank(s: State): int { MainWork(s) + Sum(Work, s.threads) }

  lemma {:induction false} WorkerLowersRank(s: State, j: nat)
    requires j < |s.threads| && WorkerStep(s, j).Some?
    ensures Rank(WorkerStep(s, j).value) < Rank(s)
  {
    var t := WorkerStep(s, j).value;
    assert Work(t.threads[j]) < Work(s.threads[j]);
    Update(Work, s.threads, j, t.threads[j]);
  }

  lemma {:induction false} MainLowersRank(s: State)
    requires MainInv(s) && |s.threads| == NUM_THREADS && MainStep(s).Some?
    ensures Rank(MainStep(s).value) < Rank(s)
  {
    var t := MainStep(s).value;
    if (s.main.Create? || s.main.Join?) && s.main.k < |s.threads| {
      Update(Work, s.threads, s.main.k, t.threads[s.main.k]);
    }
  }

  lemma {:induction false} StepLowersRank(s: State, e: Label)
    requires MainInv(s) && |s.threads| == NUM_THREADS && Step(s, e).Some?
    ensures Rank(Step(s, e).value) < Rank(s)
  {
    match e
    case Main => MainLowersRank(s);
    case Worker(j) => WorkerLowersRank(s, j);
  }

  lemma {:induction false} AcceptedRunsAreBounded(loop: int, es: seq<Label>)
    requires 0 < loop <= INT_MAX
    requires Run(Step, Init(loop), es).Some?
    ensures |es| <= 10 * loop + 9
  {
    InvInductive();
    InitInv(loop);
    forall s: State, e: Label | Inv(s) && Step(s, e).Some? ensures Rank(Step(s, e).value) < Rank(s) {
      StepLowersRank(s, e);
    }
    Descent(Step, Inv, Rank, Init(loop), es);
    Always(Step, Inv, Init(loop), es);
    var t := Run(Step, Init(loop), es).value;
    ReachableInv(loop, t);
    forall j | 0 <= j < |t.threads| ensures 0 <= Work(t.threads[j]) {
      assert ThreadInv(t.threads[j], loop, t.num);
    }
    NonNegative(Work, t.threads);
    Bounds(Work, Init(loop).threads, 5 * loop + 1, 5 * loop + 1);
  }

  /** A loop count that is not positive is rejected at once; any other takes a bounded time. */
  lemma {:induction false} RunsAreBounded(loop: int, es: seq<Label>)
    requires loop <= INT_MAX
    requires Run(Step, Init(loop), es).Some?
    ensures |es| <= if loop > 0 then 10 * loop + 9 else 1
  {
    if loop > 0 {
      AcceptedRunsAreBounded(loop, es);
    }
  }

  /** A schedule that goes on as long as it can reports 2 * loop. */
  lemma {:induction false} MaximalRunsFinish(loop: int, es: seq<Label>, t: State)
    requires 0 < loop <= INT_MAX && Run(Step, Init(loop), es) == Some(t)
    requires forall e: Label :: Step(t, e).None?
    ensures t.main.Done? && t.num == 2 * loop
  {
    ReachableInv(loop, t);
    if !t.main.Done? {
      var e := DeadlockFree(loop, t);
    }
    FinalCount(loop, t);
  }

  // ----- the program

  /** The program's variables, updated in place, one atomic step of a thread per call. */
  class Program {
    const loop: int
    const threads: array<Thread>
    var num: int
    var owner: Option<nat>
    var main: MainPc

    ghost function View(): State
      reads this, threads
    {
      State(loop, threads[..], main, owner, num)
    }

    ghost predicate Valid()
      reads this, threads
    {
      Inv(View())
    }

    constructor (loop: int)
      requires loop <= INT_MAX
      ensures Valid() && View() == Init(loop)
      ensures fresh(threads)
    {
      this.loop := loop;
      threads := new Thread[NUM_THREADS](_ => Thread(Unborn, loop, 0, 0));
      num, owner, main := 0, None, CheckLoop;
      new;
      assert threads[..] == Init(loop).threads;
      InitInv(loop);
    }

    /** ThreadWrite, lines 110-125, outside the calls for the mutex. */
    method StepWorker(j: nat) returns (moved: bool)
      requires Valid() && (j < threads.Length ==> !threads[j].pc.Locking? && !threads[j].pc.Unlocking?)
      modifies this, threads
      ensures Valid()
      ensures Performs(Step, old(View()), Worker(j), moved, View())
    {
      ghost var s := View();
      moved := j < threads.Length && (threads[j].pc.TestLoop? || threads[j].pc.Loading? || threads[j].pc.Storing?);
      if moved {
        var t := threads[j];
        if t.pc.TestLoop? {
          threads[j] := t.(pc := if t.i < t.loop then Locking else Returned);
        } else if t.pc.Loading? {
          threads[j] := t.(pc := Storing, loaded := num);
        } else {
          num := Wrap64(t.loaded + 1);
          threads[j] := t.(pc := Unlocking);
        }
        StepKeepsInv(s, Worker(j));
      }
    }

    /** Line 111: the mutex is taken, or somebody holds it. */
    method LockMutex(j: nat) returns (moved: bool)
      requires Valid() && j < threads.Length && threads[j].pc.Locking?
      modifies this, threads
      ensures Valid()
      ensures moved <==> old(owner.None?)
      ensures Performs(Step, old(View()), Worker(j), moved, View())
    {
      ghost var s := View();
      moved := owner.None?;
      if moved {
        owner := Some(j);
        threads[j] := threads[j].(pc := Loading);
        StepKeepsInv(s, Worker(j));
      }
    }

    /** Lines 119 and 110: the mutex is given up and the loop goes on. */
    method UnlockMutex(j: nat)
      requires Valid() && j < threads.Length && threads[j].pc.Unlocking?
      modifies this, threads
      ensures Valid()
      ensures Performs(Step, old(View()), Worker(j), true, View())
    {
      ghost var s := View();
      owner := None;
      threads[j] := threads[j].(pc := TestLoop, i := threads[j].i + 1);
      StepKeepsInv(s, Worker(j));
    }

    /** main, lines 162-205. */
    method StepMain() returns (moved: bool)
      requires Valid()
      modifies this, threads
      ensures Valid()
      ensures Performs(Step, old(View()), Main, moved, View())
    {
      ghost var s := View();
      moved := true;
      match main {
        case CheckLoop => main := if loop <= 0 then Rejected else Create(0);
        case Create(k) =>
          if k < threads.Length {
            threads[k] := threads[k].(pc := TestLoop);
            main := Create(k + 1);
          } else {
            main := Join(0);
          }
        case Join(k) =>
          if k >= threads.Length {
            main := Done;
          } else if threads[k].pc == Returned {
            threads[k] := threads[k].(pc := Joined);
            main := Join(k + 1);
          } else {
            moved := false;
          }
        case Done => moved := false;
        case Rejected => moved := false;
      }
      if moved {
        StepKeepsInv(s, Main);
      }
    }
  }
}
