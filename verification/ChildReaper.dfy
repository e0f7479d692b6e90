/**
 The parent of process_template/sigchld/sigchld.cpp, which reaps its children from a SIGCHLD handler.

 SIGCHLD is one pending bit: signals that arrive while it is set coalesce. It is delivered only while
 unblocked, is blocked while its handler runs, and sigsuspend unblocks it and blocks it again as one
 step (POSIX.1-2017, signal generation and delivery, and the sigsuspend page). The handler runs on the
 parent's own thread, so the parent's code stands still while it does. A label names what moves: the
 parent, a child that exits or is stopped and continued, the delivery, or the handler, whose waitpid
 may return any zombie.

 A process keeps its children across exec, so the program may start with children of its own. waitpid
 returns those as well: the first `others` entries are inherited children, which run from the start, and
 the n entries after them are the children that main forks.
 */
module ChildReaper {
  import opened Sums
  import opened Runs

  datatype Child = Unborn | Running | Stopped | Zombie | Reaped

  datatype MainPc = SetLive | Install | Block | Fork(k: nat) | TestLive | Suspended | Resumed | Done

  datatype HandlerPc = Idle | WaitPid | DropLive | Sleeping | Returning

  datatype State = State(
    others: nat, children: seq<Child>, main: MainPc, handler: HandlerPc,
    installed: bool, blocked: bool, pending: bool, numLive: int, sigCnt: int)

  datatype Label =
    | Main | Exit(i: nat) | Stop(i: nat) | Continue(i: nat) | Deliver | Reap(i: nat, clears: bool) | Handler

  function Init(others: nat, n: nat): State {
    State(others, seq(others + n, i => if i < others then Running else Unborn),
          SetLive, Idle, false, false, false, 0, 0)
  }

  /** The number of children that main forks. */
  function Own(s: State): int { |s.children| - s.others }

  function Step(s: State, e: Label): Option<State> {
    match e
    case Main => if s.handler.Idle? then MainStep(s) else None
    case Exit(i) =>
      if i < |s.children| && s.children[i].Running?
      then Some(Generate(s.(children := s.children[i := Zombie]))) else None
    case Stop(i) =>
      if i < |s.children| && s.children[i].Running?
      then Some(Generate(s.(children := s.children[i := Stopped]))) else None
    case Continue(i) =>
      if i < |s.children| && s.children[i].Stopped?
      then Some(Generate(s.(children := s.children[i := Running]))) else None
    case Deliver =>
      if s.pending && !s.blocked then Some(s.(pending := false, blocked := true, handler := WaitPid)) else None
    case Reap(i, clears) => ReapStep(s, i, clears)
    case Handler => HandlerStep(s)
  }

  /** waitpid returns a zombie. It may also discard a pending blocked SIGCHLD if it leaves no other zombie. */
  function ReapStep(s: State, i: nat, clears: bool): Option<State> {
    if !(s.handler.WaitPid? && i < |s.children| && s.children[i].Zombie?) then None
    else
      var left := s.children[i := Reaped];
      if clears && (!s.blocked || Zombie in left) then None
      else Some(s.(children := left, handler := DropLive, pending := s.pending && !clears))
  }

  /** Without a handler the default action discards SIGCHLD. */
  function Generate(s: State): State {
    s.(pending := s.pending || s.installed)
  }

  function MainStep(s: State): Option<State> {
    match s.main
    case SetLive => Some(s.(numLive := Own(s), main := Install))
    case Install => Some(s.(installed := true, main := Block))
    case Block => Some(s.(blocked := true, main := Fork(0)))
    case Fork(k) =>
      if k < Own(s) then Some(s.(children := s.children[s.others + k := Running], main := Fork(k + 1)))
      else Some(s.(main := TestLive))
    case TestLive => if s.numLive > 0 then Some(s.(blocked := false, main := Suspended)) else Some(s.(main := Done))
    case Suspended => None
    case Resumed => Some(s.(sigCnt := s.sigCnt + 1, main := TestLive))
    case Done => None
  }

  /** Returning from the handler restores the mask: the one before sigsuspend when it interrupted that. */
  function HandlerStep(s: State): Option<State> {
    match s.handler
    case Idle => None
    case WaitPid => if Zombie in s.children then None else Some(s.(handler := Sleeping))
    case DropLive => Some(s.(numLive := s.numLive - 1, handler := WaitPid))
    case Sleeping => Some(s.(handler := Returning))
    case Returning =>
      Some(s.(handler := Idle, blocked := s.main.Suspended?, main := if s.main.Suspended? then Resumed else s.main))
  }

  // ----- invariant

  predicate SettingUp(m: MainPc) { m.SetLive? || m.Install? || m.Block? }

  function UnreapedOne(c: Child): int { if c.Reaped? then 0 else 1 }

  function ExitedOne(c: Child): int { if c.Zombie? || c.Reaped? then 1 else 0 }

  /** A delivery in the suspend loop that is being handled, or was handled without being counted yet. */
  predicate Counting(s: State) { (s.main.Suspended? && !s.handler.Idle?) || s.main.Resumed? }

  predicate Born(s: State, i: nat) {
    if SettingUp(s.main) then i < s.others
    else if s.main.Fork? then i < s.others + s.main.k
    else true
  }

  ghost predicate ForkInv(s: State) {
    && s.others <= |s.children|
    && (s.main.Fork? ==> s.main.k <= Own(s))
    && forall i: nat | i < |s.children| :: Born(s, i) <==> !s.children[i].Unborn?
  }

  /** Only inherited children can raise a signal before it is blocked. */
  ghost predicate MaskInv(s: State) {
    && (s.installed <==> !s.main.SetLive? && !s.main.Install?)
    && (s.blocked <==> s.installed && !((s.main.Block? || s.main.Suspended?) && s.handler.Idle?))
    && (!s.handler.Idle? ==> s.main.Suspended? || (s.main.Block? && s.others > 0))
    && (s.pending ==> s.installed && (s.main.Block? ==> s.others > 0))
  }

  /** A dead child that main forked and that is not reaped is still to be noticed. */
  ghost predicate SignalInv(s: State) {
    forall i | s.others <= i < |s.children| && s.children[i].Zombie? ::
      s.pending || s.handler.WaitPid? || s.handler.DropLive?
  }

  ghost predicate CountInv(s: State) {
    && s.numLive == (if s.main.SetLive? then 0
                     else Sum(UnreapedOne, s.children) - s.others + (if s.handler.DropLive? then 1 else 0))
    && (s.main.SetLive? || s.main.Install? ==> Sum(UnreapedOne, s.children) == |s.children|)
    && (s.main.Suspended? && s.handler.Idle? ==> s.numLive > 0)
    && (s.main.Done? ==> s.numLive <= 0)
  }

  /** The count of handled signals starts with the first forked child that is reaped at the latest. */
  ghost predicate SigCntInv(s: State) {
    && 0 <= s.sigCnt
    && forall i | s.others <= i < |s.children| && s.children[i].Reaped? :: 0 < s.sigCnt || Counting(s)
  }

  ghost predicate Inv(s: State) {
    ForkInv(s) && MaskInv(s) && SignalInv(s) && CountInv(s) && SigCntInv(s)
  }

  lemma {:induction false} InitInv(others: nat, n: nat)
    ensures Inv(Init(others, n))
  {
    Bounds(UnreapedOne, Init(others, n).children, 1, 1);
  }

  predicate OfChild(e: Label) { e.Exit? || e.Stop? || e.Continue? || e.Reap? }

  lemma {:induction false} StepKeepsSize(s: State, e: Label)
    requires Step(s, e).Some?
    ensures var t := Step(s, e).value; t.others == s.others && |t.children| == |s.children|
  {
  }

  lemma {:induction false} ChildKeepsForks(s: State, e: Label)
    requires ForkInv(s) && Step(s, e).Some? && OfChild(e)
    ensures ForkInv(Step(s, e).value)
  {
    var t := Step(s, e).value;
    assert t.main == s.main && t.children == s.children[e.i := t.children[e.i]] && !t.children[e.i].Unborn?;
    assert forall i: nat | i < |s.children| :: Born(t, i) == Born(s, i);
  }

  lemma {:induction false} MainKeepsForks(s: State)
    requires ForkInv(s) && MainStep(s).Some?
    ensures ForkInv(MainStep(s).value)
  {
    var t := MainStep(s).value;
    forall i: nat | i < |t.children| ensures Born(t, i) <==> !t.children[i].Unborn? {
      assert Born(s, i) <==> !s.children[i].Unborn?;
    }
  }

  lemma {:induction false} StepKeepsForks(s: State, e: Label)
    requires ForkInv(s) && Step(s, e).Some?
    requires !s.handler.Idle? ==> s.main.Suspended? || s.main.Block?
    ensures ForkInv(Step(s, e).value)
  {
    if OfChild(e) {
      ChildKeepsForks(s, e);
    } else if e.Main? {
      MainKeepsForks(s);
    } else {
      var t := Step(s, e).value;
      assert forall i: nat | i < |s.children| :: Born(t, i) == Born(s, i);
    }
  }

  lemma {:induction false} StepKeepsMask(s: State, e: Label)
    requires ForkInv(s) && MaskInv(s) && Step(s, e).Some?
    ensures MaskInv(Step(s, e).value)
  {
    if e.Exit? || e.Stop? || e.Continue? {
      assert Born(s, e.i);
    }
  }

  lemma {:induction false} StepKeepsSignal(s: State, e: Label)
    requires ForkInv(s) && MaskInv(s) && SignalInv(s) && Step(s, e).Some?
    ensures SignalInv(Step(s, e).value)
  {
    var t := Step(s, e).value;
    forall i: nat | s.others <= i < |t.children| && t.children[i].Zombie?
      ensures t.pending || t.handler.WaitPid? || t.handler.DropLive?
    {
      if e == Exit(i) {
        assert Born(s, i);
      } else {
        assert s.children[i].Zombie?;
      }
    }
  }

  lemma {:induction false} ChildKeepsCounts(s: State, e: Label)
    requires MaskInv(s) && CountInv(s) && Step(s, e).Some? && OfChild(e)
    ensures CountInv(Step(s, e).value)
  {
    Update(UnreapedOne, s.children, e.i, Step(s, e).value.children[e.i]);
  }

  lemma {:induction false} StepKeepsCounts(s: State, e: Label)
    requires ForkInv(s) && MaskInv(s) && CountInv(s) && Step(s, e).Some?
    ensures CountInv(Step(s, e).value)
  {
    if OfChild(e) {
      ChildKeepsCounts(s, e);
    } else if e.Main? && s.main.Fork? && s.main.k < Own(s) {
      var i := s.others + s.main.k;
      assert !Born(s, i);
      Update(UnreapedOne, s.children, i, Running);
    }
  }

  lemma {:induction false} StepKeepsSigCnt(s: State, e: Label)
    requires ForkInv(s) && MaskInv(s) && SigCntInv(s) && Step(s, e).Some?
    ensures SigCntInv(Step(s, e).value)
  {
    var t := Step(s, e).value;
    forall i: nat | s.others <= i < |t.children| && t.children[i].Reaped? ensures 0 < t.sigCnt || Counting(t) {
      assert Born(s, i) <==> !s.children[i].Unborn?;
      assert s.children[i].Reaped? || (e.Reap? && e.i == i);
    }
  }

  lemma {:induction false} StepKeepsInv(s: State, e: Label)
    requires Inv(s) && Step(s, e).Some?
    ensures Inv(Step(s, e).value)
  {
    StepKeepsForks(s, e);
    StepKeepsMask(s, e);
    StepKeepsSignal(s, e);
    StepKeepsCounts(s, e);
    StepKeepsSigCnt(s, e);
  }

  lemma {:induction false} InvInductive()
    ensures Inductive(Step, Inv)
  {
    forall s: State, e: Label | Inv(s) && Step(s, e).Some? ensures Inv(Step(s, e).value) {
      StepKeepsInv(s, e);
    }
  }

  lemma {:induction false} ReachableInv(others: nat, n: nat, s: State)
    requires Reachable(Step, Init(others, n), s)
    ensures Inv(s) && s.others == others && |s.children| == others + n
  {
    InvInductive();
    InitInv(others, n);
    AlwaysReachable(Step, Inv, Init(others, n), s);
    var size := (s: State) => s.others == others && |s.children| == others + n;
    forall s: State, e: Label | size(s) && Step(s, e).Some? ensures size(Step(s, e).value) {
      StepKeepsSize(s, e);
    }
    AlwaysReachable(Step, size, Init(others, n), s);
  }

  // ----- which steps are possible

  /** A child lives its life whatever main and the handler do: a running child can exit, and a child can be
      stopped and continued. Each raises SIGCHLD once the handler is installed. */
  lemma {:induction false} ChildPossible(others: nat, n: nat, s: State, i: nat)
    requires Reachable(Step, Init(others, n), s) && i < |s.children|
    ensures s.children[i].Unborn? <==> (SettingUp(s.main) && others <= i) || (s.main.Fork? && others + s.main.k <= i)
    ensures var pending := s.pending || !(s.main.SetLive? || s.main.Install?);
            && Step(s, Exit(i)) == (if s.children[i].Running?
                                    then Some(s.(children := s.children[i := Zombie], pending := pending)) else None)
            && Step(s, Stop(i)) == (if s.children[i].Running?
                                    then Some(s.(children := s.children[i := Stopped], pending := pending)) else None)
            && Step(s, Continue(i)) == (if s.children[i].Stopped?
                                        then Some(s.(children := s.children[i := Running], pending := pending))
                                        else None)
  {
    ReachableInv(others, n, s);
    assert Born(s, i) <==> !s.children[i].Unborn?;
  }

  /** waitpid can return any zombie, and its reap may clear the pending signal exactly if it is the last. */
  lemma {:induction false} ReapPossible(others: nat, n: nat, s: State, i: nat, clears: bool)
    requires Reachable(Step, Init(others, n), s)
    ensures Step(s, Reap(i, clears)).Some? <==>
            && s.handler.WaitPid? && i < |s.children| && s.children[i].Zombie?
            && (clears ==> forall j | 0 <= j < |s.children| && j != i :: !s.children[j].Zombie?)
    ensures Step(s, Reap(i, clears)).Some? ==>
              Step(s, Reap(i, clears)).value.pending == (s.pending && !clears)
  {
    ReachableInv(others, n, s);
    if i < |s.children| {
      var left := s.children[i := Reaped];
      forall j | 0 <= j < |s.children| && j != i && s.children[j].Zombie? ensures Zombie in left {
        assert left[j] == Zombie;
      }
      if Zombie in left {
        var j :| 0 <= j < |left| && left[j] == Zombie;
        assert s.children[j].Zombie? && j != i;
      }
    }
  }

  /** Main stands still only while the handler runs, in sigsuspend and at its end; a pending signal is
      delivered where it is not blocked, which is before main blocks it and in sigsuspend; the handler goes
      on, except that its loop reaps first while there are zombies. */
  lemma {:induction false} ParentPossible(others: nat, n: nat, s: State)
    requires Reachable(Step, Init(others, n), s)
    ensures Step(s, Main).None? <==> !s.handler.Idle? || s.main.Suspended? || s.main.Done?
    ensures Step(s, Deliver).Some? <==> s.pending && s.handler.Idle? && (s.main.Block? || s.main.Suspended?)
    ensures Step(s, Deliver).Some? ==>
              Step(s, Deliver).value == s.(pending := false, blocked := true, handler := WaitPid)
    ensures Step(s, Handler).None? <==> s.handler.Idle? || (s.handler.WaitPid? && Zombie in s.children)
  {
    ReachableInv(others, n, s);
  }

  // ----- safety over every schedule

  /** A dead child that main forked is never forgotten, although signals coalesce and children die
      inside the handler. */
  lemma {:induction false} NoLostSignal(others: nat, n: nat, s: State, i: nat)
    requires Reachable(Step, Init(others, n), s)
    requires others <= i < |s.children| && s.children[i].Zombie?
    ensures s.pending || s.handler.WaitPid? || s.handler.DropLive?
  {
    ReachableInv(others, n, s);
  }

  /** While the handler runs, main stands still and no second handler starts; without inherited
      children that is only in sigsuspend. */
  lemma {:induction false} HandlerOnlyInSuspend(others: nat, n: nat, s: State)
    requires Reachable(Step, Init(others, n), s)
    requires !s.handler.Idle?
    ensures s.blocked && !Step(s, Main).Some? && !Step(s, Deliver).Some?
    ensures others == 0 || !s.main.Block? ==> s.main.Suspended?
  {
    ReachableInv(others, n, s);
  }

  ghost predicate HandlesEarly(init: State) {
    exists s: State :: Reachable(Step, init, s) && !s.handler.Idle? && !s.main.Suspended?
  }

  /** The handler can run outside sigsuspend, before the signal is blocked, exactly when there are
      inherited children. */
  lemma {:induction false} HandlesEarlyExactly(others: nat, n: nat)
    ensures HandlesEarly(Init(others, n)) <==> others > 0
  {
    var init := Init(others, n);
    forall s: State | Reachable(Step, init, s) && !s.handler.Idle? && !s.main.Suspended? ensures others > 0 {
      HandlerOnlyInSuspend(others, n, s);
    }
    if others > 0 {
      ReachesInit(Step, init);
      ReachesNext(Step, init, init, Main);
      var s1 := Step(init, Main).value;
      ReachesNext(Step, init, s1, Main);
      var s2 := Step(s1, Main).value;
      ReachesNext(Step, init, s2, Exit(0));
      var s3 := Step(s2, Exit(0)).value;
      ReachesNext(Step, init, s3, Deliver);
      var s4 := Step(s3, Deliver).value;
      assert !s4.handler.Idle? && !s4.main.Suspended?;
    }
  }

  lemma {:induction false} LiveCount(others: nat, n: nat, s: State)
    requires Reachable(Step, Init(others, n), s)
    requires !s.main.SetLive? && !s.handler.DropLive?
    ensures s.numLive == Sum(UnreapedOne, s.children) - others
  {
    ReachableInv(others, n, s);
  }

  /** While more children are unreaped than were inherited, one of them was forked by main. */
  lemma {:induction false} OwnUnreaped(s: State) returns (i: nat)
    requires s.others <= |s.children| && Sum(UnreapedOne, s.children) > s.others
    ensures s.others <= i < |s.children| && !s.children[i].Reaped?
  {
    var before, own := s.children[..s.others], s.children[s.others..];
    assert before + own == s.children;
    Append(UnreapedOne, before, own);
    Bounds(UnreapedOne, before, 0, 1);
    i := Witness(UnreapedOne, own);
    i := i + s.others;
  }

  /** When no forked child is reaped, at least n children are not. */
  lemma {:induction false} NoneReaped(s: State)
    requires s.others <= |s.children|
    requires forall i | s.others <= i < |s.children| :: !s.children[i].Reaped?
    ensures Sum(UnreapedOne, s.children) >= Own(s)
  {
    var before, own := s.children[..s.others], s.children[s.others..];
    assert before + own == s.children;
    Append(UnreapedOne, before, own);
    NonNegative(UnreapedOne, before);
    Bounds(UnreapedOne, own, 1, 1);
  }

  /** When the loop ends at least n children were reaped: all of them unless some were inherited. With
      more forked than inherited children a signal was counted. */
  lemma {:induction false} FinishedReapedAll(others: nat, n: nat, s: State)
    requires Reachable(Step, Init(others, n), s) && s.main.Done?
    ensures |s.children| == others + n && Sum(UnreapedOne, s.children) <= others
    ensures others == 0 ==> forall i | 0 <= i < n :: s.children[i].Reaped?
    ensures n > others ==> s.sigCnt >= 1
  {
    ReachableInv(others, n, s);
    if others == 0 {
      forall i | 0 <= i < n ensures s.children[i].Reaped? {
        AtLeast(UnreapedOne, s.children, i);
      }
    }
    if n > others && forall i | others <= i < |s.children| :: !s.children[i].Reaped? {
      NoneReaped(s);
    }
  }

  // ----- each child is reaped exactly once

  function ReapCall(i: nat): (State, Label) -> int {
    (s: State, e: Label) => if e.Reap? && e.i == i then 1 else 0
  }

  function ReapedFlag(i: nat): State -> int {
    (s: State) => if i < |s.children| && s.children[i].Reaped? then 1 else 0
  }

  lemma {:induction false} StepReaps(s: State, e: Label, i: nat)
    requires Inv(s) && Step(s, e).Some?
    ensures ReapedFlag(i)(Step(s, e).value) == ReapedFlag(i)(s) + ReapCall(i)(s, e)
  {
  }

  lemma {:induction false} ReapedOnce(others: nat, n: nat, es: seq<Label>, i: nat, t: State)
    requires Run(Step, Init(others, n), es) == Some(t)
    ensures Charge(Step, ReapCall(i), Init(others, n), es) == ReapedFlag(i)(t)
    ensures t.main.Done? && others == 0 && i < n ==> Charge(Step, ReapCall(i), Init(others, n), es) == 1
  {
    InvInductive();
    InitInv(others, n);
    forall s: State, e: Label | Inv(s) && Step(s, e).Some?
      ensures ReapedFlag(i)(Step(s, e).value) == ReapedFlag(i)(s) + ReapCall(i)(s, e)
    {
      StepReaps(s, e, i);
    }
    Ledger(Step, Inv, ReapedFlag(i), ReapCall(i), Init(others, n), es);
    if t.main.Done? {
      FinishedReapedAll(others, n, t);
    }
  }

  // ----- how often the handler runs

  /** Signals counted, and the one about to be. */
  function Counted(s: State): int { s.sigCnt + (if Counting(s) then 1 else 0) }

  /** By how much the counted and pending signals exceed the exits. */
  function OverExits(s: State): int {
    Counted(s) + (if s.pending then 1 else 0) - Sum(ExitedOne, s.children)
  }

  /** By how much the counted signals exceed the reaped children, unless the handler is reaping. */
  function OverReaped(s: State): int {
    if s.handler.WaitPid? || s.handler.DropLive? then OverExits(s)
    else Counted(s) - |s.children| + Sum(UnreapedOne, s.children)
  }

  function Max(a: int, b: int): int { if a < b then b else a }

  /** The third: by how much the counted signals exceed the forked children. */
  function Excess(s: State): int { Max(Max(OverExits(s), OverReaped(s)), Counted(s) - Own(s)) }

  function StopOrContinue(s: State, e: Label): int { if e.Stop? || e.Continue? then 1 else 0 }

  function Nothing(s: State, e: Label): int { 0 }

  lemma {:induction false} NoZombies(children: seq<Child>)
    requires Zombie !in children
    ensures Sum(ExitedOne, children) + Sum(UnreapedOne, children) == |children|
  {
    if children != [] {
      assert children[0] in children;
      NoZombies(children[1..]);
    }
  }

  lemma {:induction false} ChildExcess(s: State, e: Label)
    requires Step(s, e).Some? && OfChild(e)
    ensures Excess(Step(s, e).value) <= Excess(s) + StopOrContinue(s, e)
  {
    var t := Step(s, e).value;
    Update(ExitedOne, s.children, e.i, t.children[e.i]);
    Update(UnreapedOne, s.children, e.i, t.children[e.i]);
  }

  lemma {:induction false} ForkExcess(s: State)
    requires ForkInv(s) && s.handler.Idle? && s.main.Fork? && s.main.k < Own(s)
    ensures MainStep(s).Some? && Excess(MainStep(s).value) <= Excess(s)
  {
    var i := s.others + s.main.k;
    assert !Born(s, i);
    Update(ExitedOne, s.children, i, Running);
    Update(UnreapedOne, s.children, i, Running);
  }

  lemma {:induction false} MainExcess(s: State)
    requires ForkInv(s) && s.handler.Idle? && MainStep(s).Some?
    ensures Excess(MainStep(s).value) <= Excess(s)
  {
    if s.main.Fork? && s.main.k < Own(s) {
      ForkExcess(s);
    } else {
      var t := MainStep(s).value;
      assert t.children == s.children && t.handler == s.handler && t.pending == s.pending;
      assert Counted(t) == Counted(s);
    }
  }

  lemma {:induction false} HandlerExcess(s: State)
    requires HandlerStep(s).Some? && (s.main.Suspended? || s.main.Block?)
    ensures Excess(HandlerStep(s).value) <= Excess(s)
  {
    if s.handler.WaitPid? {
      NoZombies(s.children);
    }
  }

  lemma {:induction false} StepExcess(s: State, e: Label)
    requires Inv(s) && Step(s, e).Some?
    ensures Excess(Step(s, e).value) <= Excess(s) + StopOrContinue(s, e)
  {
    match e
    case Main => MainExcess(s);
    case Handler => HandlerExcess(s);
    case Deliver =>
    case _ => ChildExcess(s, e);
  }

  /** sig_cnt is at most the number of forked children, plus the stop and continue events when there are
      any, however many children were inherited. */
  lemma {:induction false} SigCountBound(others: nat, n: nat, es: seq<Label>, t: State)
    requires Run(Step, Init(others, n), es) == Some(t)
    ensures t.sigCnt <= n + Charge(Step, StopOrContinue, Init(others, n), es)
  {
    var init := Init(others, n);
    InvInductive();
    InitInv(others, n);
    Bounds(ExitedOne, init.children, 0, 0);
    Bounds(UnreapedOne, init.children, 1, 1);
    forall s: State, e: Label | Inv(s) && Step(s, e).Some?
      ensures Excess(Step(s, e).value) + Nothing(s, e) <= Excess(s) + StopOrContinue(s, e)
    {
      StepExcess(s, e);
    }
    Spend(Step, Inv, Excess, Nothing, StopOrContinue, init, es);
    ZeroCharge(Step, Nothing, init, es);
    ReachableInv(others, n, t);
  }

  // ----- progress

  /** Something other than a stop can move in every state but the last: the parent is never
      suspended for good. */
  lemma {:induction false} DeadlockFree(others: nat, n: nat, s: State) returns (e: Label)
    requires Reachable(Step, Init(others, n), s)
    requires !s.main.Done?
    ensures !e.Stop? && Step(s, e).Some?
  {
    ReachableInv(others, n, s);
    if Zombie in s.children && s.handler.WaitPid? {
      var i :| 0 <= i < |s.children| && s.children[i].Zombie?;
      e := Reap(i, false);
    } else if !s.handler.Idle? {
      e := Handler;
    } else if !s.main.Suspended? {
      e := Main;
    } else if s.pending {
      e := Deliver;
    } else {
      var i := OwnUnreaped(s);
      assert Born(s, i);
      e := if s.children[i].Stopped? then Continue(i) else Exit(i);
    }
  }

  /** Each exit pays for one delivery: handler, count, test and the next suspension. */
  function ChildWork(c: Child): int {
    match c
    case Unborn => 9
    case Running => 9
    case Stopped => 16
    case Zombie => 2
    case Reaped => 0
  }

  function MainWork(s: State): int {
    var n := Own(s);
    match s.main
    case SetLive => n + 5
    case Install => n + 4
    case Block => n + 3
    case Fork(k) => n - k + 2
    case TestLive => 1
    case Suspended => 0
    case Resumed => 2
    case Done => 0
  }

  function HandlerWork(s: State): int {
    match s.handler
    case Idle => 0
    case WaitPid => 5
    case DropLive => 6
    case Sleeping => 4
    case Returning => 3
  }

  function Rank(s: State): int {
    MainWork(s) + HandlerWork(s) + (if s.pending then 6 else 0) + Sum(ChildWork, s.children)
  }

  function StopCost(s: State, e: Label): int { if e.Stop? then 14 else 0 }

  lemma {:induction false} ChildLowersRank(s: State, e: Label)
    requires Step(s, e).Some? && OfChild(e)
    ensures Rank(Step(s, e).value) + 1 <= Rank(s) + StopCost(s, e)
  {
    var t := Step(s, e).value;
    assert t.main == s.main && |t.children| == |s.children| && t.others == s.others;
    Update(ChildWork, s.children, e.i, t.children[e.i]);
    assert MainWork(t) == MainWork(s);
    match e
    case Exit(i) => assert t.children == s.children[i := Zombie] && t.handler == s.handler;
    case Stop(i) => assert t.children == s.children[i := Stopped] && t.handler == s.handler;
    case Continue(i) => assert t.children == s.children[i := Running] && t.handler == s.handler;
    case Reap(i, _) => assert t.children == s.children[i := Reaped] && t.handler.DropLive?;
  }

  lemma {:induction false} StepLowersRank(s: State, e: Label)
    requires Inv(s) && Step(s, e).Some?
    ensures Rank(Step(s, e).value) + 1 <= Rank(s) + StopCost(s, e)
  {
    if OfChild(e) {
      ChildLowersRank(s, e);
    } else if e.Main? && s.main.Fork? && s.main.k < Own(s) {
      var i := s.others + s.main.k;
      assert !Born(s, i);
      Update(ChildWork, s.children, i, Running);
    }
  }

  /** Every schedule is finite when the children are stopped finitely often. */
  lemma {:induction false} RunsAreBounded(others: nat, n: nat, es: seq<Label>)
    requires Run(Step, Init(others, n), es).Some?
    ensures |es| <= 10 * n + 9 * others + 5 + Charge(Step, StopCost, Init(others, n), es)
  {
    InvInductive();
    InitInv(others, n);
    Bounds(ChildWork, Init(others, n).children, 9, 9);
    forall s: State, e: Label | Inv(s) && Step(s, e).Some?
      ensures Rank(Step(s, e).value) + 1 <= Rank(s) + StopCost(s, e)
    {
      StepLowersRank(s, e);
    }
    StepBound(Step, Inv, Rank, StopCost, Init(others, n), es);
    var t := Run(Step, Init(others, n), es).value;
    Always(Step, Inv, Init(others, n), es);
    NonNegative(ChildWork, t.children);
  }

  /** A schedule that goes on as long as it can without stop events ends, with every child dead; they are
      all reaped unless some were inherited, and at least n of them are. */
  lemma {:induction false} MaximalRunsFinish(others: nat, n: nat, es: seq<Label>, t: State)
    requires Run(Step, Init(others, n), es) == Some(t)
    requires forall e: Label :: e.Stop? || Step(t, e).None?
    ensures t.main.Done? && |t.children| == others + n
    ensures forall i | 0 <= i < others + n :: t.children[i].Zombie? || t.children[i].Reaped?
    ensures others == 0 ==> forall i | 0 <= i < n :: t.children[i].Reaped?
    ensures Sum(UnreapedOne, t.children) <= others
  {
    ReachableInv(others, n, t);
    if !t.main.Done? {
      var e := DeadlockFree(others, n, t);
    }
    FinishedReapedAll(others, n, t);
    forall i: nat | i < others + n ensures t.children[i].Zombie? || t.children[i].Reaped? {
      assert Born(t, i);
      assert Step(t, Exit(i)).None? && Step(t, Continue(i)).None?;
    }
  }

  // ----- the program

  /** The parent's variables and the kernel's view of it, updated in place, one step per call. */
  class Program {
    const others: nat
    var numLiveChildren: int
    var sigCnt: int
    var main: MainPc
    var handler: HandlerPc
    var children: seq<Child>
    var installed: bool
    var blocked: bool
    var pending: bool

    ghost function View(): State
      reads this
    {
      State(others, children, main, handler, installed, blocked, pending, numLiveChildren, sigCnt)
    }

    ghost predicate Valid()
      reads this
    {
      Inv(View())
    }

    constructor (others: nat, n: nat)
      ensures View() == Init(others, n) && Valid()
    {
      this.others := others;
      children, main, handler := seq(others + n, i => if i < others then Running else Unborn), SetLive, Idle;
      installed, blocked, pending, numLiveChildren, sigCnt := false, false, false, 0, 0;
      new;
      InitInv(others, n);
    }

    /** main before it forks: lines 58-78. */
    method SetUp() returns (moved: bool)
      requires Valid() && SettingUp(main)
      modifies this
      ensures Valid()
      ensures moved <==> old(handler.Idle?)
      ensures Performs(Step, old(View()), Main, moved, View())
    {
      ghost var s := View();
      moved := handler.Idle?;
      if moved {
        match main {
          case SetLive =>
            numLiveChildren := |children| - others;
            main := Install;
          case Install =>
            installed := true;
            main := Block;
          case Block =>
            blocked := true;
            main := Fork(0);
        }
        StepKeepsInv(s, Main);
      }
    }

    /** Lines 80-92: the next fork, or the end of the loop. */
    method ForkNext() returns (moved: bool)
      requires Valid() && main.Fork?
      modifies this
      ensures Valid()
      ensures moved && Performs(Step, old(View()), Main, moved, View())
    {
      ghost var s := View();
      var k := main.k;
      if k < |children| - others {
        children := children[others + k := Running];
        main := Fork(k + 1);
      } else {
        main := TestLive;
      }
      StepKeepsInv(s, Main);
      moved := true;
    }

    /** The suspend loop: lines 97-104. */
    method Suspend() returns (moved: bool)
      requires Valid() && !SettingUp(main) && !main.Fork?
      modifies this
      ensures Valid()
      ensures moved <==> old(main.TestLive? || main.Resumed?)
      ensures Performs(Step, old(View()), Main, moved, View())
    {
      ghost var s := View();
      moved := main.TestLive? || main.Resumed?;
      if moved {
        if main.Resumed? {
          sigCnt := sigCnt + 1;
          main := TestLive;
        } else if numLiveChildren > 0 {
          blocked := false;
          main := Suspended;
        } else {
          main := Done;
        }
        StepKeepsInv(s, Main);
      }
    }

    /** Lines 37-50 of SigchldHanlder; waitpid finds no child that could be reaped. */
    method StepHandler() returns (moved: bool)
      requires Valid() && !handler.Returning?
      modifies this
      ensures Valid()
      ensures Performs(Step, old(View()), Handler, moved, View())
    {
      ghost var s := View();
      moved := !handler.Idle? && !(handler.WaitPid? && Zombie in children);
      if moved {
        if handler.DropLive? {
          numLiveChildren := numLiveChildren - 1;
          handler := WaitPid;
        } else {
          handler := if handler.WaitPid? then Sleeping else Returning;
        }
        StepKeepsInv(s, Handler);
      }
    }

    /** Line 51: the mask is restored, and an interrupted sigsuspend returns. */
    method ReturnFromHandler() returns (moved: bool)
      requires Valid() && handler.Returning?
      modifies this
      ensures Valid()
      ensures moved && Performs(Step, old(View()), Handler, moved, View())
    {
      ghost var s := View();
      handler := Idle;
      blocked := main.Suspended?;
      main := if main.Suspended? then Resumed else main;
      StepKeepsInv(s, Handler);
      moved := true;
    }

    /** Line 37: waitpid returns the zombie i. */
    method ReapChild(i: nat, clears: bool) returns (moved: bool)
      requires Valid()
      modifies this
      ensures Valid()
      ensures Performs(Step, old(View()), Reap(i, clears), moved, View())
    {
      ghost var s := View();
      moved := handler == WaitPid && i < |children| && children[i] == Zombie;
      if moved {
        var left := children[i := Reaped];
        moved := !clears || (blocked && Zombie !in left);
        if moved {
          children, handler, pending := left, DropLive, pending && !clears;
          StepKeepsInv(s, Reap(i, clears));
        }
      }
    }

    /** Line 88: the child exits and its parent is sent SIGCHLD. */
    method ExitChild(i: nat) returns (moved: bool)
      requires Valid()
      modifies this
      ensures Valid()
      ensures Performs(Step, old(View()), Exit(i), moved, View())
    {
      ghost var s := View();
      moved := i < |children| && children[i] == Running;
      if moved {
        children := children[i := Zombie];
        pending := pending || installed;
        StepKeepsInv(s, Exit(i));
      }
    }

    method StopChild(i: nat) returns (moved: bool)
      requires Valid()
      modifies this
      ensures Valid()
      ensures Performs(Step, old(View()), Stop(i), moved, View())
    {
      ghost var s := View();
      moved := i < |children| && children[i] == Running;
      if moved {
        children := children[i := Stopped];
        pending := pending || installed;
        StepKeepsInv(s, Stop(i));
      }
    }

    method ContinueChild(i: nat) returns (moved: bool)
      requires Valid()
      modifies this
      ensures Valid()
      ensures Performs(Step, old(View()), Continue(i), moved, View())
    {
      ghost var s := View();
      moved := i < |children| && children[i] == Stopped;
      if moved {
        children := children[i := Running];
        pending := pending || installed;
        StepKeepsInv(s, Continue(i));
      }
    }

    method DeliverSignal() returns (moved: bool)
      requires Valid()
      modifies this
      ensures Valid()
      ensures Performs(Step, old(View()), Deliver, moved, View())
    {
      ghost var s := View();
      moved := pending && !blocked;
      if moved {
        pending, blocked, handler := false, true, WaitPid;
        StepKeepsInv(s, Deliver);
      }
    }
  }
}
