/**
 How many signals the parent of process_template/sigchld/sigchld.cpp can count, with exits as the only
 source of SIGCHLD: with n forked children every number from 1 to n, also 0 if at least n children were
 inherited, and no other. A schedule that counts m signals lets m - 1 children exit one at a time and the
 others that are reaped die while one signal is pending. The same schedules leave a forked child behind
 when some are inherited.
 */
module SignalRange {
  import opened Runs
  import opened ChildReaper

  /** The first a of the o inherited and n forked children are reaped, the next up to b are dead, those
      up to f run and the rest are not forked yet. */
  function Kids(o: nat, n: nat, f: nat, a: nat, b: nat): seq<Child> {
    seq(o + n, i => if i < a then Reaped else if i < b then Zombie else if i < f then Running else Unborn)
  }

  /** Main is at m with the signal unblocked, and c signals are counted. */
  function Unmasked(o: nat, n: nat, m: MainPc, f: nat, a: nat, b: nat, c: int): State {
    State(o, Kids(o, n, f, a, b), m, Idle, true, false, a < b, n - a, c)
  }

  function Handling(o: nat, n: nat, m: MainPc, f: nat, a: nat, b: nat, c: int): State {
    State(o, Kids(o, n, f, a, b), m, WaitPid, true, true, false, n - a, c)
  }

  /** Main is at m with the signal blocked and no child left to be noticed. */
  function Masked(o: nat, n: nat, m: MainPc, f: nat, a: nat, c: int): State {
    State(o, Kids(o, n, f, a, a), m, Idle, true, true, false, n - a, c)
  }

  /** Where the handler returns to. */
  function Returned(o: nat, n: nat, m: MainPc, f: nat, a: nat, c: int): State {
    if m.Suspended? then Masked(o, n, Resumed, f, a, c) else Unmasked(o, n, m, f, a, a, c)
  }

  /** Where the loop test leads. */
  function Tested(o: nat, n: nat, a: nat, c: int): State {
    if a < n then Unmasked(o, n, Suspended, o + n, a, a, c) else Masked(o, n, Done, o + n, a, c)
  }

  predicate Quiet(es: seq<Label>) { forall e | e in es :: !e.Stop? && !e.Continue? }

  /** `es` takes the program from s to t and stops no child. */
  ghost predicate Leads(s: State, es: seq<Label>, t: State) {
    Run(Step, s, es) == Some(t) && Quiet(es)
  }

  lemma {:induction false} LeadsOn(s: State, es: seq<Label>, t: State, fs: seq<Label>, u: State)
    requires Leads(s, es, t) && Leads(t, fs, u)
    ensures Leads(s, es + fs, u)
  {
    RunAppend(Step, s, es, fs);
  }

  lemma {:induction false} OneStep(s: State, e: Label, t: State)
    requires Step(s, e) == Some(t) && !e.Stop? && !e.Continue?
    ensures Leads(s, [e], t)
  {
    assert [e][1..] == [];
    assert Run(Step, t, []) == Some(t);
  }

  // ----- one signal

  lemma {:induction false} Exits(o: nat, n: nat, m: MainPc, f: nat, a: nat, b: nat, c: int)
    returns (es: seq<Label>)
    requires a <= b <= f <= o + n
    ensures Leads(Unmasked(o, n, m, f, a, a, c), es, Unmasked(o, n, m, f, a, b, c))
    decreases b
  {
    if a == b {
      es := [];
    } else {
      var s, t := Unmasked(o, n, m, f, a, b - 1, c), Unmasked(o, n, m, f, a, b, c);
      var fs := Exits(o, n, m, f, a, b - 1, c);
      assert t.children == s.children[b - 1 := Zombie];
      OneStep(s, Exit(b - 1), t);
      LeadsOn(Unmasked(o, n, m, f, a, a, c), fs, s, [Exit(b - 1)], t);
      es := fs + [Exit(b - 1)];
    }
  }

  lemma {:induction false} Reaps(o: nat, n: nat, m: MainPc, f: nat, a: nat, b: nat, c: int)
    returns (es: seq<Label>)
    requires a <= b <= o + n
    ensures Leads(Handling(o, n, m, f, a, b, c), es, Handling(o, n, m, f, b, b, c))
    decreases b - a
  {
    if a == b {
      es := [];
    } else {
      var s, u := Handling(o, n, m, f, a, b, c), Handling(o, n, m, f, a + 1, b, c);
      var t := u.(handler := DropLive, numLive := n - a);
      assert u.children == s.children[a := Reaped];
      OneStep(s, Reap(a, false), t);
      OneStep(t, Handler, u);
      LeadsOn(s, [Reap(a, false)], t, [Handler], u);
      var fs := Reaps(o, n, m, f, a + 1, b, c);
      LeadsOn(s, [Reap(a, false)] + [Handler], u, fs, Handling(o, n, m, f, b, b, c));
      es := [Reap(a, false)] + [Handler] + fs;
    }
  }

  lemma {:induction false} HandlerReturns(o: nat, n: nat, m: MainPc, f: nat, a: nat, c: int)
    returns (es: seq<Label>)
    ensures Leads(Handling(o, n, m, f, a, a, c), es, Returned(o, n, m, f, a, c))
  {
    var s, t := Handling(o, n, m, f, a, a, c), Returned(o, n, m, f, a, c);
    assert Zombie !in s.children;
    var s1, s2 := s.(handler := Sleeping), s.(handler := Returning);
    OneStep(s, Handler, s1);
    OneStep(s1, Handler, s2);
    OneStep(s2, Handler, t);
    LeadsOn(s, [Handler], s1, [Handler], s2);
    LeadsOn(s, [Handler] + [Handler], s2, [Handler], t);
    es := [Handler] + [Handler] + [Handler];
  }

  /** One signal for the deaths of children a to b - 1. */
  lemma {:induction false} Signal(o: nat, n: nat, m: MainPc, f: nat, a: nat, b: nat, c: int)
    returns (es: seq<Label>)
    requires a < b <= f <= o + n
    ensures Leads(Unmasked(o, n, m, f, a, a, c), es, Returned(o, n, m, f, b, c))
  {
    var s, t := Unmasked(o, n, m, f, a, a, c), Unmasked(o, n, m, f, a, b, c);
    var u, v := Handling(o, n, m, f, a, b, c), Handling(o, n, m, f, b, b, c);
    var exits := Exits(o, n, m, f, a, b, c);
    OneStep(t, Deliver, u);
    LeadsOn(s, exits, t, [Deliver], u);
    var reaps := Reaps(o, n, m, f, a, b, c);
    LeadsOn(s, exits + [Deliver], u, reaps, v);
    var finish := HandlerReturns(o, n, m, f, b, c);
    LeadsOn(s, exits + [Deliver] + reaps, v, finish, Returned(o, n, m, f, b, c));
    es := exits + [Deliver] + reaps + finish;
  }

  // ----- the suspend loop

  lemma {:induction false} Test(o: nat, n: nat, a: nat, c: int)
    ensures Leads(Masked(o, n, TestLive, o + n, a, c), [Main], Tested(o, n, a, c))
  {
    OneStep(Masked(o, n, TestLive, o + n, a, c), Main, Tested(o, n, a, c));
  }

  lemma {:induction false} Round(o: nat, n: nat, a: nat, b: nat, c: int) returns (es: seq<Label>)
    requires a < b <= o + n
    ensures Leads(Unmasked(o, n, Suspended, o + n, a, a, c), es, Tested(o, n, b, c + 1))
  {
    var s := Unmasked(o, n, Suspended, o + n, a, a, c);
    var t, u := Masked(o, n, Resumed, o + n, b, c), Masked(o, n, TestLive, o + n, b, c + 1);
    var signal := Signal(o, n, Suspended, o + n, a, b, c);
    OneStep(t, Main, u);
    LeadsOn(s, signal, t, [Main], u);
    Test(o, n, b, c + 1);
    LeadsOn(s, signal + [Main], u, [Main], Tested(o, n, b, c + 1));
    es := signal + [Main] + [Main];
  }

  lemma {:induction false} Rounds(o: nat, n: nat, m: nat) returns (es: seq<Label>)
    requires m < n
    ensures Leads(Unmasked(o, n, Suspended, o + n, 0, 0, 0), es, Unmasked(o, n, Suspended, o + n, m, m, m))
    decreases m
  {
    var start, t := Unmasked(o, n, Suspended, o + n, 0, 0, 0), Unmasked(o, n, Suspended, o + n, m, m, m);
    if m == 0 {
      es := [];
    } else {
      var fs := Rounds(o, n, m - 1);
      var gs := Round(o, n, m - 1, m, m - 1);
      LeadsOn(start, fs, Unmasked(o, n, Suspended, o + n, m - 1, m - 1, m - 1), gs, t);
      es := fs + gs;
    }
  }

  // ----- the start

  lemma {:induction false} Installed(o: nat, n: nat) returns (es: seq<Label>)
    ensures Leads(Init(o, n), es, Unmasked(o, n, Block, o, 0, 0, 0))
  {
    var s, t := Init(o, n), Unmasked(o, n, Block, o, 0, 0, 0);
    var s1 := s.(numLive := n, main := Install);
    assert s.children == t.children;
    OneStep(s, Main, s1);
    OneStep(s1, Main, t);
    LeadsOn(s, [Main], s1, [Main], t);
    es := [Main] + [Main];
  }

  /** Main blocks the signal and forks k children, after a of the inherited ones were reaped. */
  lemma {:induction false} Forks(o: nat, n: nat, a: nat, k: nat) returns (es: seq<Label>)
    requires a <= o && k <= n
    ensures Leads(Unmasked(o, n, Block, o, a, a, 0), es, Masked(o, n, Fork(k), o + k, a, 0))
    decreases k
  {
    var s, t := Unmasked(o, n, Block, o, a, a, 0), Masked(o, n, Fork(k), o + k, a, 0);
    if k == 0 {
      OneStep(s, Main, t);
      es := [Main];
    } else {
      var u := Masked(o, n, Fork(k - 1), o + (k - 1), a, 0);
      var fs := Forks(o, n, a, k - 1);
      assert t.children == u.children[o + (k - 1) := Running];
      OneStep(u, Main, t);
      LeadsOn(s, fs, u, [Main], t);
      es := fs + [Main];
    }
  }

  lemma {:induction false} LoopReached(o: nat, n: nat, a: nat) returns (es: seq<Label>)
    requires a <= o
    ensures Leads(Unmasked(o, n, Block, o, a, a, 0), es, Tested(o, n, a, 0))
  {
    var s, t, u := Unmasked(o, n, Block, o, a, a, 0), Masked(o, n, Fork(n), o + n, a, 0),
                   Masked(o, n, TestLive, o + n, a, 0);
    var fs := Forks(o, n, a, n);
    OneStep(t, Main, u);
    LeadsOn(s, fs, t, [Main], u);
    Test(o, n, a, 0);
    LeadsOn(s, fs + [Main], u, [Main], Tested(o, n, a, 0));
    es := fs + [Main] + [Main];
  }

  // ----- which counts occur

  /** For every m from 1 to n some schedule ends with sig_cnt equal to m; it reaps the first n children. */
  lemma {:induction false} EveryCountOccurs(o: nat, n: nat, m: nat) returns (es: seq<Label>, t: State)
    requires 1 <= m <= n
    ensures Leads(Init(o, n), es, t) && t.main.Done? && t.sigCnt == m && t.children == Kids(o, n, o + n, n, n)
  {
    var block, start := Unmasked(o, n, Block, o, 0, 0, 0), Unmasked(o, n, Suspended, o + n, 0, 0, 0);
    t := Tested(o, n, n, m);
    var setup := Installed(o, n);
    var loop := LoopReached(o, n, 0);
    LeadsOn(Init(o, n), setup, block, loop, start);
    var rounds := Rounds(o, n, m - 1);
    LeadsOn(Init(o, n), setup + loop, start, rounds, Unmasked(o, n, Suspended, o + n, m - 1, m - 1, m - 1));
    var last := Round(o, n, m - 1, n, m - 1);
    LeadsOn(
      Init(o, n), setup + loop + rounds, Unmasked(o, n, Suspended, o + n, m - 1, m - 1, m - 1), last, t);
    es := setup + loop + rounds + last;
  }

  /** With enough inherited children the loop may not be entered at all. */
  lemma {:induction false} ZeroOccurs(o: nat, n: nat) returns (es: seq<Label>, t: State)
    requires n <= o
    ensures Leads(Init(o, n), es, t) && t.main.Done? && t.sigCnt == 0
  {
    var s := Unmasked(o, n, Block, o, 0, 0, 0);
    t := Tested(o, n, n, 0);
    es := Installed(o, n);
    if n > 0 {
      var signal := Signal(o, n, Block, o, 0, n, 0);
      LeadsOn(Init(o, n), es, s, signal, Unmasked(o, n, Block, o, n, n, 0));
      es := es + signal;
    }
    var loop := LoopReached(o, n, n);
    LeadsOn(Init(o, n), es, Unmasked(o, n, Block, o, n, n, 0), loop, t);
    es := es + loop;
  }

  lemma {:induction false} QuietIsFree(s: State, es: seq<Label>)
    requires Quiet(es)
    ensures Charge(Step, StopOrContinue, s, es) == 0
    decreases |es|
  {
    if es != [] {
      assert es[0] in es;
      if Step(s, es[0]).Some? {
        assert forall e | e in es[1..] :: e in es;
        QuietIsFree(Step(s, es[0]).value, es[1..]);
      }
    }
  }

  /** No other count occurs. */
  lemma {:induction false} OnlyTheseCounts(o: nat, n: nat, es: seq<Label>, t: State)
    requires Leads(Init(o, n), es, t) && t.main.Done?
    ensures (if n <= o then 0 else 1) <= t.sigCnt <= n
  {
    assert Reachable(Step, Init(o, n), t);
    ReachableInv(o, n, t);
    FinishedReapedAll(o, n, t);
    SigCountBound(o, n, es, t);
    QuietIsFree(Init(o, n), es);
  }

  ghost predicate CountOccurs(o: nat, n: nat, m: int) {
    exists es, t :: Leads(Init(o, n), es, t) && t.main.Done? && t.sigCnt == m
  }

  lemma {:induction false} CountsExactly(o: nat, n: nat, m: int)
    ensures CountOccurs(o, n, m) <==> (if n <= o then 0 else 1) <= m <= n
  {
    forall es, t | Leads(Init(o, n), es, t) && t.main.Done? && t.sigCnt == m
      ensures (if n <= o then 0 else 1) <= m <= n
    {
      OnlyTheseCounts(o, n, es, t);
    }
    if 1 <= m <= n {
      var es, t := EveryCountOccurs(o, n, m);
    } else if m == 0 && n <= o {
      var es, t := ZeroOccurs(o, n);
    }
  }

  // ----- deaths in the handler

  /** With two children or more, one can die while the handler sleeps after its loop: it is left a zombie,
      and its signal pending. */
  lemma {:induction false} DiesWhileSleeping(o: nat, n: nat) returns (es: seq<Label>, t: State)
    requires n >= 2
    ensures Leads(Init(o, n), es, t) && t.handler.Sleeping? && t.pending
    ensures |t.children| == o + n && t.children[o + n - 1].Zombie?
  {
    var block, s := Unmasked(o, n, Block, o, 0, 0, 0), Unmasked(o, n, Suspended, o + n, 0, 0, 0);
    var one, handling, reaped := Unmasked(o, n, Suspended, o + n, 0, 1, 0),
                                 Handling(o, n, Suspended, o + n, 0, 1, 0), Handling(o, n, Suspended, o + n, 1, 1, 0);
    var sleeping := reaped.(handler := Sleeping);
    t := sleeping.(children := sleeping.children[o + n - 1 := Zombie], pending := true);
    var setup := Installed(o, n);
    var loop := LoopReached(o, n, 0);
    LeadsOn(Init(o, n), setup, block, loop, s);
    var exit := Exits(o, n, Suspended, o + n, 0, 1, 0);
    LeadsOn(Init(o, n), setup + loop, s, exit, one);
    OneStep(one, Deliver, handling);
    LeadsOn(Init(o, n), setup + loop + exit, one, [Deliver], handling);
    var reap := Reaps(o, n, Suspended, o + n, 0, 1, 0);
    LeadsOn(Init(o, n), setup + loop + exit + [Deliver], handling, reap, reaped);
    assert Zombie !in reaped.children;
    OneStep(reaped, Handler, sleeping);
    LeadsOn(Init(o, n), setup + loop + exit + [Deliver] + reap, reaped, [Handler], sleeping);
    OneStep(sleeping, Exit(o + n - 1), t);
    LeadsOn(Init(o, n), setup + loop + exit + [Deliver] + reap + [Handler], sleeping, [Exit(o + n - 1)], t);
    es := setup + loop + exit + [Deliver] + reap + [Handler] + [Exit(o + n - 1)];
  }

  // ----- children left behind

  /** The program has ended its loop, and a child that it forked is not reaped. */
  predicate LeavesChild(s: State) {
    s.main.Done? && exists i | s.others <= i < |s.children| :: !s.children[i].Reaped?
  }

  ghost predicate CanLeaveChild(init: State) { exists s: State :: Reachable(Step, init, s) && LeavesChild(s) }

  /** The loop can end with a forked child unreaped exactly when there are inherited children. */
  lemma {:induction false} LeavesChildExactly(o: nat, n: nat)
    ensures CanLeaveChild(Init(o, n)) <==> o > 0 && n > 0
  {
    forall s: State | Reachable(Step, Init(o, n), s) && LeavesChild(s) ensures o > 0 && n > 0 {
      ReachableInv(o, n, s);
      FinishedReapedAll(o, n, s);
    }
    if o > 0 && n > 0 {
      var es, t := EveryCountOccurs(o, n, 1);
      assert Reachable(Step, Init(o, n), t);
      ReachableInv(o, n, t);
      assert !t.children[o + n - 1].Reaped?;
      assert LeavesChild(t);
    }
  }
}
