/**
 What schedules of thread_template/condition/condition.cpp are possible: the workers can end in any
 order before main has waited for the first of them, and with n workers main can make any number of
 passes from 1 to n, and no other, with any number of spurious wakeups before them.
 */
module PassRange {
  import opened Runs
  import opened ThreadReaper

  const RUNNING: Thread := Thread(Alive, Locking)
  const ENDED: Thread := Thread(Terminated, Returned)
  const REAPED: Thread := Thread(Joined, Reaped)

  // ----- runs with their passes and spurious wakeups counted

  function SpuriousOne(s: State, e: Label): int { if e.Spurious? then 1 else 0 }

  /** `es` leads from s to t with so many passes and so many spurious wakeups. */
  ghost predicate Leads(s: State, es: seq<Label>, t: State, passes: int, spurious: int) {
    && Run(Step, s, es) == Some(t)
    && Charge(Step, PassEnd, s, es) == passes
    && Charge(Step, SpuriousOne, s, es) == spurious
  }

  lemma {:induction false} LeadsOn(
    s: State, es: seq<Label>, t: State, p: int, w: int, fs: seq<Label>, u: State, q: int, v: int)
    requires Leads(s, es, t, p, w) && Leads(t, fs, u, q, v)
    ensures Leads(s, es + fs, u, p + q, w + v)
  {
    RunAppend(Step, s, es, fs);
    ChargeAppend(Step, PassEnd, s, es, t, fs);
    ChargeAppend(Step, SpuriousOne, s, es, t, fs);
  }

  lemma {:induction false} OneStep(s: State, e: Label, t: State)
    requires Step(s, e) == Some(t)
    ensures Leads(s, [e], t, PassEnd(s, e), SpuriousOne(s, e))
  {
    RunOne(Step, s, e, t);
    assert [e][1..] == [];
    assert Charge(Step, PassEnd, t, []) == 0 && Charge(Step, SpuriousOne, t, []) == 0;
  }

  /** One more step of main that neither ends a pass nor is blocked. */
  lemma {:induction false} MainOn(s: State, es: seq<Label>, t: State, p: int, w: int, u: State)
    requires Leads(s, es, t, p, w) && MainStep(t) == Some(u) && !t.main.UnlockPass?
    ensures Leads(s, es + [Main], u, p, w)
  {
    OneStep(t, Main, u);
    LeadsOn(s, es, t, p, w, [Main], u, 0, 0);
  }

  lemma {:induction false} WorkerOn(s: State, es: seq<Label>, t: State, i: nat, u: State)
    requires Leads(s, es, t, 0, 0) && i < |t.threads| && WorkerStep(t, i) == Some(u)
    ensures Leads(s, es + [Worker(i)], u, 0, 0)
  {
    OneStep(t, Worker(i), u);
    LeadsOn(s, es, t, 0, 0, [Worker(i)], u, 0, 0);
  }

  // ----- a worker from its lock to its end

  /** Worker i has ended, with nobody in its way. */
  function Over(s: State, i: nat): State
    requires i < |s.threads|
  {
    s.(threads := s.threads[i := ENDED], numUnjoined := s.numUnjoined + 1,
       main := if s.main.Waiting? then Relock(true) else s.main)
  }

  function FiveSteps(i: nat): seq<Label> {
    [Worker(i)] + [Worker(i)] + [Worker(i)] + [Worker(i)] + [Worker(i)]
  }

  lemma {:induction false} Ends(s: State, i: nat)
    requires i < |s.threads| && s.threads[i] == RUNNING && s.owner.NoOne?
    ensures Leads(s, FiveSteps(i), Over(s, i), 0, 0)
    ensures Announcements(s, FiveSteps(i)) == [i]
  {
    var e := Worker(i);
    var s1 := s.(threads := s.threads[i := Thread(Alive, Incrementing)], owner := WorkerThread(i));
    var s2 := s1.(threads := s1.threads[i := Thread(Alive, Marking)], numUnjoined := s.numUnjoined + 1);
    var s3 := s2.(threads := s2.threads[i := Thread(Terminated, Unlocking)]);
    var s4 := s3.(threads := s3.threads[i := Thread(Terminated, Signalling)], owner := NoOne);
    assert s3.threads == SetPc(SetState(s2, i, Terminated), i, Unlocking).threads;
    assert s4.threads[i := ENDED] == s.threads[i := ENDED];
    OneStep(s, e, s1);
    WorkerOn(s, [e], s1, i, s2);
    WorkerOn(s, [e] + [e], s2, i, s3);
    WorkerOn(s, [e] + [e] + [e], s3, i, s4);
    WorkerOn(s, [e] + [e] + [e] + [e], s4, i, Over(s, i));
    ObservedAppend(Step, Announced, s, [e], s1, [e]);
    ObservedAppend(Step, Announced, s, [e] + [e], s2, [e]);
    ObservedAppend(Step, Announced, s, [e] + [e] + [e], s3, [e]);
    ObservedAppend(Step, Announced, s, [e] + [e] + [e] + [e], s4, [e]);
    ObservedOne(Step, Announced, s, e);
    ObservedOne(Step, Announced, s1, e);
    ObservedOne(Step, Announced, s2, e);
    ObservedOne(Step, Announced, s3, e);
    ObservedOne(Step, Announced, s4, e);
  }

  // ----- every order of the workers

  /** The worker that increments num_unjoined. */
  function Announced(s: State, e: Label): seq<nat> {
    match Step(s, e)
    case None => []
    case Some(t) => if t.numUnjoined > s.numUnjoined && e.Worker? then [e.i] else []
  }

  /** The workers that incremented num_unjoined along a run, in that order. */
  function Announcements(s: State, es: seq<Label>): seq<nat> { Observed(Step, Announced, s, es) }

  /** Main has created k workers and none has run. */
  function Created(n: nat, k: nat): State {
    State(seq(n, i => if i < k then RUNNING else Thread(Alive, Unborn)), Create(k), NoOne, 0, 0, 0)
  }

  lemma {:induction false} Creates(n: nat, k: nat) returns (es: seq<Label>)
    requires k <= n
    ensures Leads(Init(n), es, Created(n, k), 0, 0) && Announcements(Init(n), es) == []
  {
    if k == 0 {
      es := [];
      assert Init(n).threads == Created(n, 0).threads;
    } else {
      var s, t := Created(n, k - 1), Created(n, k);
      es := Creates(n, k - 1);
      assert t.threads == s.threads[k - 1 := RUNNING];
      MainOn(Init(n), es, s, 0, 0, t);
      ObservedAppend(Step, Announced, Init(n), es, s, [Main]);
      ObservedOne(Step, Announced, s, Main);
      es := es + [Main];
    }
  }

  /** Main has created all workers and not gone on; the workers in `order` have ended. */
  function EndedIn(n: nat, order: seq<nat>): State {
    State(seq(n, i => if i in order then ENDED else RUNNING), Create(n), NoOne, 0, |order|, 0)
  }

  predicate Order(order: seq<nat>, n: nat) {
    (forall i | 0 <= i < |order| :: order[i] < n) && forall i, j | 0 <= i < j < |order| :: order[i] != order[j]
  }

  lemma {:induction false} NextEnds(n: nat, order: seq<nat>, i: nat)
    requires i < n && i !in order
    ensures Leads(EndedIn(n, order), FiveSteps(i), EndedIn(n, order + [i]), 0, 0)
    ensures Announcements(EndedIn(n, order), FiveSteps(i)) == [i]
  {
    var s := EndedIn(n, order);
    Ends(s, i);
    assert EndedIn(n, order + [i]).threads == s.threads[i := ENDED];
  }

  lemma {:induction false} NoneEnded(n: nat)
    ensures EndedIn(n, []) == Created(n, n)
  {
    assert EndedIn(n, []).threads == Created(n, n).threads;
  }

  lemma {:induction false} OrderRun(n: nat, order: seq<nat>) returns (es: seq<Label>)
    requires Order(order, n)
    ensures Leads(Init(n), es, EndedIn(n, order), 0, 0) && Announcements(Init(n), es) == order
  {
    if order == [] {
      es := Creates(n, n);
      NoneEnded(n);
    } else {
      var i, rest := order[|order| - 1], order[..|order| - 1];
      assert order == rest + [i];
      var fs := OrderRun(n, rest);
      NextEnds(n, rest, i);
      LeadsOn(Init(n), fs, EndedIn(n, rest), 0, 0, FiveSteps(i), EndedIn(n, rest + [i]), 0, 0);
      ObservedAppend(Step, Announced, Init(n), fs, EndedIn(n, rest), FiveSteps(i));
      es := fs + FiveSteps(i);
    }
  }

  /** In whatever order: some workers end and announce it while main is still in its creation loop. */
  lemma {:induction false} EveryOrderOccurs(n: nat, order: seq<nat>) returns (es: seq<Label>, t: State)
    requires Order(order, n)
    ensures Run(Step, Init(n), es) == Some(t) && Announcements(Init(n), es) == order
    ensures t.main == Create(n) && |t.threads| == n && t.numUnjoined == |order| && t.owner.NoOne?
    ensures forall i: nat | i < n ::
              t.threads[i] == if i in order then Thread(Terminated, Returned) else Thread(Alive, Locking)
  {
    t := EndedIn(n, order);
    es := OrderRun(n, order);
  }

  // ----- one pass

  /** The first a threads are joined, the next up to b have ended and the others run. */
  function Row(n: nat, a: nat, b: nat): seq<Thread> {
    seq(n, i => if i < a then REAPED else if i < b then ENDED else RUNNING)
  }

  function At(n: nat, main: MainPc, owner: Owner, a: nat, b: nat, live: int): State {
    State(Row(n, a, b), main, owner, n - a, b - a, live)
  }

  function JoinSteps(): seq<Label> { [Main] + [Main] + [Main] + [Main] + [Main] }

  /** Main joins the thread at index a, which has ended. */
  lemma {:induction false} Joins(n: nat, a: nat, b: nat, live: int)
    requires a < b <= n
    ensures Leads(At(n, Scan(a), MainThread, a, b, live), JoinSteps(),
                  At(n, Scan(a + 1), MainThread, a + 1, b, live), 0, 0)
  {
    var s, t := At(n, Scan(a), MainThread, a, b, live), At(n, Scan(a + 1), MainThread, a + 1, b, live);
    var s1 := s.(main := JoinThread(a));
    var s2 := s1.(threads := s1.threads[a := Thread(Terminated, Reaped)], main := MarkJoined(a));
    var s3 := s2.(threads := s2.threads[a := REAPED], main := DropLive(a));
    var s4 := s3.(numLive := s3.numLive - 1, main := DropUnjoined(a));
    assert t.threads == s3.threads;
    OneStep(s, Main, s1);
    MainOn(s, [Main], s1, 0, 0, s2);
    MainOn(s, [Main] + [Main], s2, 0, 0, s3);
    MainOn(s, [Main] + [Main] + [Main], s3, 0, 0, s4);
    MainOn(s, [Main] + [Main] + [Main] + [Main], s4, 0, 0, t);
  }

  /** The scan up to index i, which passes joined and running threads and joins those that have ended. */
  lemma {:induction false} Scans(n: nat, a: nat, b: nat, live: int, i: nat) returns (es: seq<Label>)
    requires a <= b <= n && i <= n
    ensures Leads(At(n, Scan(0), MainThread, a, b, live), es,
                  At(n, Scan(i), MainThread, if i < a then a else if i < b then i else b, b, live), 0, 0)
  {
    var start := At(n, Scan(0), MainThread, a, b, live);
    if i == 0 {
      es := [];
    } else {
      var j := i - 1;
      var c := if j < a then a else if j < b then j else b;
      es := Scans(n, a, b, live, j);
      var s := At(n, Scan(j), MainThread, c, b, live);
      if a <= j < b {
        Joins(n, j, b, live);
        LeadsOn(start, es, s, 0, 0, JoinSteps(), At(n, Scan(i), MainThread, i, b, live), 0, 0);
        es := es + JoinSteps();
      } else {
        MainOn(start, es, s, 0, 0, s.(main := Scan(i)));
        es := es + [Main];
      }
    }
  }

  /** A pass from the loop test to the next one joins all that have ended. */
  lemma {:induction false} PassOn(n: nat, a: nat, b: nat, live: int) returns (es: seq<Label>)
    requires a < b <= n
    ensures Leads(At(n, TestUnjoined, MainThread, a, b, live), es, At(n, TestLive, NoOne, b, b, live), 1, 0)
  {
    var s := At(n, TestUnjoined, MainThread, a, b, live);
    var t, u := At(n, Scan(n), MainThread, b, b, live), At(n, UnlockPass, MainThread, b, b, live);
    OneStep(s, Main, At(n, Scan(0), MainThread, a, b, live));
    var scan := Scans(n, a, b, live, n);
    LeadsOn(s, [Main], At(n, Scan(0), MainThread, a, b, live), 0, 0, scan, t, 0, 0);
    MainOn(s, [Main] + scan, t, 0, 0, u);
    OneStep(u, Main, At(n, TestLive, NoOne, b, b, live));
    LeadsOn(s, [Main] + scan + [Main], u, 0, 0, [Main], At(n, TestLive, NoOne, b, b, live), 1, 0);
    es := [Main] + scan + [Main] + [Main];
  }

  // ----- the wait before it

  /** Main waits for the threads from a on, and wakes up w times without a signal. */
  lemma {:induction false} Waits(n: nat, a: nat, live: int, w: nat) returns (es: seq<Label>)
    requires a < n
    ensures Leads(At(n, TestLive, NoOne, a, a, live), es, At(n, Waiting, NoOne, a, a, n - a), 0, w)
  {
    var s, t := At(n, TestLive, NoOne, a, a, live), At(n, Waiting, NoOne, a, a, n - a);
    var lock, test := At(n, LockPass, NoOne, a, a, n - a), At(n, TestUnjoined, MainThread, a, a, n - a);
    if w == 0 {
      OneStep(s, Main, lock);
      MainOn(s, [Main], lock, 0, 0, test);
      MainOn(s, [Main] + [Main], test, 0, 0, t);
      es := [Main] + [Main] + [Main];
    } else {
      var relock := At(n, Relock(false), NoOne, a, a, n - a);
      es := Waits(n, a, live, w - 1);
      OneStep(t, Spurious, relock);
      LeadsOn(s, es, t, 0, w - 1, [Spurious], relock, 0, 1);
      MainOn(s, es + [Spurious], relock, 0, w, test);
      MainOn(s, es + [Spurious] + [Main], test, 0, w, t);
      es := es + [Spurious] + [Main] + [Main];
    }
  }

  /** Threads a to b - 1 end while main waits; the first signal wakes it. */
  lemma {:induction false} EndWhileWaiting(n: nat, a: nat, b: nat) returns (es: seq<Label>)
    requires a < b <= n
    ensures Leads(At(n, Waiting, NoOne, a, a, n - a), es, At(n, Relock(true), NoOne, a, b, n - a), 0, 0)
    decreases b
  {
    var s, t := At(n, Waiting, NoOne, a, a, n - a), At(n, Relock(true), NoOne, a, b, n - a);
    if b == a + 1 {
      Ends(s, a);
      assert t.threads == s.threads[a := ENDED];
      es := FiveSteps(a);
    } else {
      var u := At(n, Relock(true), NoOne, a, b - 1, n - a);
      es := EndWhileWaiting(n, a, b - 1);
      Ends(u, b - 1);
      assert t.threads == u.threads[b - 1 := ENDED];
      LeadsOn(s, es, u, 0, 0, FiveSteps(b - 1), t, 0, 0);
      es := es + FiveSteps(b - 1);
    }
  }

  /** Main waits, threads a to b - 1 end, and one pass joins them. */
  lemma {:induction false} Round(n: nat, a: nat, b: nat, live: int, w: nat) returns (es: seq<Label>)
    requires a < b <= n
    ensures Leads(At(n, TestLive, NoOne, a, a, live), es, At(n, TestLive, NoOne, b, b, n - a), 1, w)
  {
    var s, t := At(n, TestLive, NoOne, a, a, live), At(n, TestLive, NoOne, b, b, n - a);
    var wait, woken := At(n, Waiting, NoOne, a, a, n - a), At(n, Relock(true), NoOne, a, b, n - a);
    var test := At(n, TestUnjoined, MainThread, a, b, n - a);
    var waits := Waits(n, a, live, w);
    var ends := EndWhileWaiting(n, a, b);
    LeadsOn(s, waits, wait, 0, w, ends, woken, 0, 0);
    MainOn(s, waits + ends, woken, 0, w, test);
    var pass := PassOn(n, a, b, n - a);
    LeadsOn(s, waits + ends + [Main], test, 0, w, pass, t, 1, 0);
    es := waits + ends + [Main] + pass;
  }

  // ----- how many passes

  lemma {:induction false} FirstTest(n: nat) returns (es: seq<Label>)
    ensures Leads(Init(n), es, At(n, TestLive, NoOne, 0, 0, 0), 0, 0)
  {
    es := Creates(n, n);
    assert Created(n, n).threads == Row(n, 0, 0);
    MainOn(Init(n), es, Created(n, n), 0, 0, At(n, TestLive, NoOne, 0, 0, 0));
    es := es + [Main];
  }

  /** m threads end and are joined one by one. */
  lemma {:induction false} Rounds(n: nat, m: nat, w: nat) returns (es: seq<Label>, live: int)
    requires 0 < m <= n
    ensures Leads(Init(n), es, At(n, TestLive, NoOne, m, m, live), m, w)
    decreases m
  {
    var init := Init(n);
    if m == 1 {
      var first := FirstTest(n);
      var round := Round(n, 0, 1, 0, w);
      LeadsOn(init, first, At(n, TestLive, NoOne, 0, 0, 0), 0, 0, round, At(n, TestLive, NoOne, 1, 1, n), 1, w);
      es, live := first + round, n;
    } else {
      var fs, l := Rounds(n, m - 1, w);
      live := n - (m - 1);
      var round := Round(n, m - 1, m, l, 0);
      LeadsOn(init, fs, At(n, TestLive, NoOne, m - 1, m - 1, l), m - 1, w,
              round, At(n, TestLive, NoOne, m, m, live), 1, 0);
      es := fs + round;
    }
  }

  lemma {:induction false} Finish(n: nat, es: seq<Label>, live: int, p: int, w: int) returns (fs: seq<Label>, t: State)
    requires Leads(Init(n), es, At(n, TestLive, NoOne, n, n, live), p, w)
    ensures Leads(Init(n), fs, t, p, w) && t.main.Done?
  {
    var s := At(n, TestLive, NoOne, n, n, live);
    t := s.(main := Done);
    MainOn(Init(n), es, s, p, w, s.(main := Free));
    MainOn(Init(n), es + [Main], s.(main := Free), p, w, t);
    fs := es + [Main] + [Main];
  }

  /** For every m from 1 to n and every w some schedule ends after m passes and w spurious wakeups. */
  lemma {:induction false} EveryPassCountOccurs(n: nat, m: nat, w: nat) returns (es: seq<Label>, t: State)
    requires 1 <= m <= n
    ensures Leads(Init(n), es, t, m, w) && t.main.Done?
  {
    var live: int;
    if m == 1 {
      var first := FirstTest(n);
      var round := Round(n, 0, n, 0, w);
      LeadsOn(Init(n), first, At(n, TestLive, NoOne, 0, 0, 0), 0, 0, round, At(n, TestLive, NoOne, n, n, n), 1, w);
      es, live := first + round, n;
    } else {
      var fs, l := Rounds(n, m - 1, w);
      live := n - (m - 1);
      var round := Round(n, m - 1, n, l, 0);
      LeadsOn(Init(n), fs, At(n, TestLive, NoOne, m - 1, m - 1, l), m - 1, w,
              round, At(n, TestLive, NoOne, n, n, live), 1, 0);
      es := fs + round;
    }
    es, t := Finish(n, es, live, m, w);
  }

  ghost predicate PassCountOccurs(n: nat, m: int, w: nat) {
    exists es, t :: Leads(Init(n), es, t, m, w) && t.main.Done?
  }

  /** A finished schedule has made a pass if there was a worker. */
  lemma {:induction false} SomePass(n: nat, es: seq<Label>, t: State)
    requires Run(Step, Init(n), es) == Some(t) && t.main.Done? && n > 0
    ensures Charge(Step, PassEnd, Init(n), es) >= 1
  {
    PassesPay(n, es);
    assert Reachable(Step, Init(n), t);
    FreedAfterAllReturned(n, t);
    LengthKept(n, es, t);
    assert t.threads[0].state.Joined?;
  }

  /** Whatever is joined was joined by a pass that has ended or is under way. */
  lemma {:induction false} PassesPay(n: nat, es: seq<Label>)
    requires Run(Step, Init(n), es).Some?
    ensures Charge(Step, PassEnd, Init(n), es) >= Owing(Run(Step, Init(n), es).value)
  {
    InvInductive();
    InitInv(n);
    forall s: State, e: Label | Inv(s) && Step(s, e).Some?
      ensures Owing(Step(s, e).value) + Nothing(s, e) <= Owing(s) + PassEnd(s, e)
    {
      StepOwes(s, e);
    }
    Spend(Step, Inv, Owing, Nothing, PassEnd, Init(n), es);
    ZeroCharge(Step, Nothing, Init(n), es);
  }

  /** 1 when a thread was joined before the current pass. */
  function Owing(s: State): int {
    if !InPass(s.main) && exists i | 0 <= i < |s.threads| :: s.threads[i].state.Joined? then 1 else 0
  }

  lemma {:induction false} StepOwes(s: State, e: Label)
    requires Inv(s) && Step(s, e).Some?
    ensures Owing(Step(s, e).value) <= Owing(s) + PassEnd(s, e)
  {
    var t := Step(s, e).value;
    if Owing(t) == 1 {
      var i: nat :| i < |t.threads| && t.threads[i].state.Joined?;
      StepAdvances(s, e, i);
    }
  }

  /** With workers the numbers of passes that occur are those from 1 to n, whatever the number of spurious
      wakeups. */
  lemma {:induction false} PassesExactly(n: nat, m: int, w: nat)
    requires n > 0
    ensures PassCountOccurs(n, m, w) <==> 1 <= m <= n
  {
    forall es, t | Leads(Init(n), es, t, m, w) && t.main.Done? ensures 1 <= m <= n {
      AtMostNPasses(n, es);
      SomePass(n, es, t);
    }
    if 1 <= m <= n {
      var es, t := EveryPassCountOccurs(n, m, w);
    }
  }
}
