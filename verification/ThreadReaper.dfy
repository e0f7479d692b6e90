/**
 The worker threads and the joining main thread of thread_template/condition/condition.cpp.

 A label names the thread that moves; each thread is deterministic given its program counter, so a
 sequence of labels is a schedule. Acquiring a held mutex, waiting for a signal and joining a thread
 that has not returned are blocked steps. A condition wait may also end spuriously.
 */
module ThreadReaper {
  import opened Sums
  import opened Runs

  datatype ThreadState = Alive | Terminated | Joined

  /** Where a worker stands in ThreadFunc; Unborn before pthread_create, Reaped after pthread_join. */
  datatype WorkerPc = Unborn | Locking | Incrementing | Marking | Unlocking | Signalling | Returned | Reaped

  datatype Thread = Thread(state: ThreadState, pc: WorkerPc)

  datatype MainPc =
    | Create(k: nat)
    | TestLive
    | LockPass
    | TestUnjoined
    | Waiting
    | Relock(signalled: bool) // woken by a signal, or spuriously; must take the mutex again
    | Scan(i: nat)
    | JoinThread(i: nat)
    | MarkJoined(i: nat)
    | DropLive(i: nat)
    | DropUnjoined(i: nat)
    | UnlockPass
    | Free
    | Done

  datatype Owner = NoOne | MainThread | WorkerThread(i: nat)

  /** liveAtTest records the value of num_live that the outer loop last tested; no step reads it. */
  datatype State = State(
    threads: seq<Thread>, main: MainPc, owner: Owner, numLive: int, numUnjoined: int, liveAtTest: int)

  datatype Label = Main | Worker(i: nat) | Spurious

  /** calloc leaves every entry zero, which is Alive. */
  function Init(n: nat): State {
    State(seq(n, _ => Thread(Alive, Unborn)), Create(0), NoOne, 0, 0, 0)
  }

  function Step(s: State, e: Label): Option<State> {
    match e
    case Main => MainStep(s)
    case Worker(i) => if i < |s.threads| then WorkerStep(s, i) else None
    case Spurious => if s.main.Waiting? then Some(s.(main := Relock(false))) else None
  }

  function SetPc(s: State, i: nat, pc: WorkerPc): State
    requires i < |s.threads|
  {
    s.(threads := s.threads[i := s.threads[i].(pc := pc)])
  }

  function SetState(s: State, i: nat, state: ThreadState): State
    requires i < |s.threads|
  {
    s.(threads := s.threads[i := s.threads[i].(state := state)])
  }

  function WorkerStep(s: State, i: nat): Option<State>
    requires i < |s.threads|
  {
    match s.threads[i].pc
    case Unborn => None
    case Locking => if s.owner.NoOne? then Some(SetPc(s, i, Incrementing).(owner := WorkerThread(i))) else None
    case Incrementing => Some(SetPc(s, i, Marking).(numUnjoined := s.numUnjoined + 1))
    case Marking => Some(SetPc(SetState(s, i, Terminated), i, Unlocking))
    case Unlocking => Some(SetPc(s, i, Signalling).(owner := NoOne))
    case Signalling => Some(SetPc(s, i, Returned).(main := if s.main.Waiting? then Relock(true) else s.main))
    case Returned => None
    case Reaped => None
  }

  function MainStep(s: State): Option<State> {
    var n := |s.threads|;
    match s.main
    case Create(k) =>
      if k < n then Some(s.(threads := s.threads[k := Thread(Alive, Locking)], main := Create(k + 1)))
      else Some(s.(main := TestLive, numLive := n))
    case TestLive =>
      if s.numLive > 0 then Some(s.(main := LockPass, liveAtTest := s.numLive)) else Some(s.(main := Free))
    case LockPass => if s.owner.NoOne? then Some(s.(main := TestUnjoined, owner := MainThread)) else None
    case TestUnjoined =>
      if s.numUnjoined == 0 then Some(s.(main := Waiting, owner := NoOne)) else Some(s.(main := Scan(0)))
    case Waiting => None
    case Relock(_) => if s.owner.NoOne? then Some(s.(main := TestUnjoined, owner := MainThread)) else None
    case Scan(i) =>
      if i < n then Some(s.(main := if s.threads[i].state.Terminated? then JoinThread(i) else Scan(i + 1)))
      else Some(s.(main := UnlockPass))
    case JoinThread(i) =>
      if i < n && s.threads[i].pc.Returned? then Some(SetPc(s, i, Reaped).(main := MarkJoined(i))) else None
    case MarkJoined(i) => if i < n then Some(SetState(s, i, Joined).(main := DropLive(i))) else None
    case DropLive(i) => Some(s.(numLive := s.numLive - 1, main := DropUnjoined(i)))
    case DropUnjoined(i) => Some(s.(numUnjoined := s.numUnjoined - 1, main := Scan(i + 1)))
    case UnlockPass => Some(s.(owner := NoOne, main := TestLive))
    case Free => Some(s.(main := Done))
    case Done => None
  }

  // ----- invariant

  predicate HoldsMutex(pc: WorkerPc) { pc.Incrementing? || pc.Marking? || pc.Unlocking? }

  predicate MainHolds(m: MainPc) {
    m.TestUnjoined? || m.Scan? || m.JoinThread? || m.MarkJoined? || m.DropLive? || m.DropUnjoined? || m.UnlockPass?
  }

  predicate Announced(pc: WorkerPc) { pc.Marking? || pc.Unlocking? || pc.Signalling? || pc.Returned? }

  predicate MarkedTerminated(pc: WorkerPc) { pc.Unlocking? || pc.Signalling? || pc.Returned? }

  function AnnouncedOne(t: Thread): int { if Announced(t.pc) then 1 else 0 }

  function UnreapedOne(t: Thread): int { if t.pc.Reaped? then 0 else 1 }

  function TerminatedOne(t: Thread): int { if t.state.Terminated? then 1 else 0 }

  function UnjoinedOne(t: Thread): int { if t.state.Joined? then 0 else 1 }

  ghost predicate CreationInv(s: State) {
    match s.main
    case Create(k) =>
      && k <= |s.threads|
      && (forall i | 0 <= i < |s.threads| :: i < k <==> !s.threads[i].pc.Unborn?)
      && (forall i | 0 <= i < |s.threads| :: !s.threads[i].pc.Reaped?)
    case _ => forall i | 0 <= i < |s.threads| :: !s.threads[i].pc.Unborn?
  }

  ghost predicate MutexInv(s: State) {
    && (forall i: nat | i < |s.threads| :: HoldsMutex(s.threads[i].pc) <==> s.owner == WorkerThread(i))
    && (s.owner.WorkerThread? ==> s.owner.i < |s.threads|)
    && (s.owner == MainThread <==> MainHolds(s.main))
  }

  /** The recorded state of an entry is determined by its thread's program counter. */
  ghost predicate EntryInv(s: State) {
    && (forall i: nat | i < |s.threads| ::
          s.threads[i].state ==
          if MarkedTerminated(s.threads[i].pc) || s.main == MarkJoined(i) then Terminated
          else if s.threads[i].pc.Reaped? then Joined else Alive)
    && (s.main.JoinThread? ==> s.main.i < |s.threads| && MarkedTerminated(s.threads[s.main.i].pc))
    && (s.main.MarkJoined? ==> s.main.i < |s.threads| && s.threads[s.main.i].pc.Reaped?)
    && (s.main.DropLive? || s.main.DropUnjoined? ==> s.main.i < |s.threads|)
  }

  ghost predicate CountInv(s: State) {
    && s.numUnjoined == Sum(AnnouncedOne, s.threads)
                        + (if s.main.MarkJoined? || s.main.DropLive? || s.main.DropUnjoined? then 1 else 0)
    && s.numLive == if s.main.Create? then 0
                    else Sum(UnreapedOne, s.threads) + (if s.main.MarkJoined? || s.main.DropLive? then 1 else 0)
  }

  /** While main waits nobody has signalled yet; once it was signalled, the signaller is unjoined. */
  ghost predicate WakeInv(s: State) {
    && (s.main.Waiting? ==> forall i | 0 <= i < |s.threads| :: !s.threads[i].pc.Returned?)
    && (s.main == Relock(true) ==> exists i :: 0 <= i < |s.threads| && s.threads[i].pc.Returned?)
  }

  predicate BeforeScan(m: MainPc) { m.LockPass? || m.TestUnjoined? || m.Waiting? || m.Relock? }

  predicate InScan(m: MainPc) { m.Scan? || m.JoinThread? || m.MarkJoined? || m.DropLive? || m.DropUnjoined? }

  predicate InPass(m: MainPc) { BeforeScan(m) || InScan(m) || m.UnlockPass? }

  ghost predicate SomeTerminatedFrom(ts: seq<Thread>, i: nat) {
    exists j :: i <= j < |ts| && ts[j].state.Terminated?
  }

  ghost predicate NoneTerminatedBefore(ts: seq<Thread>, i: nat) {
    i <= |ts| && forall j | 0 <= j < i :: !ts[j].state.Terminated?
  }

  /** The scan leaves no terminated entry behind; the mutex keeps new ones from appearing. */
  ghost predicate ScanInv(s: State) {
    && (InScan(s.main) ==> NoneTerminatedBefore(s.threads, s.main.i))
    && (s.main.DropLive? || s.main.DropUnjoined? ==>
          s.main.i < |s.threads| && !s.threads[s.main.i].state.Terminated?)
    && (s.main.UnlockPass? ==> NoneTerminatedBefore(s.threads, |s.threads|))
  }

  /** A pass joins something: until it has, a terminated entry lies ahead of the scan. */
  ghost predicate PassInv(s: State) {
    && (InPass(s.main) ==> 0 < s.liveAtTest && s.numLive <= s.liveAtTest)
    && (BeforeScan(s.main) ==> s.numLive == s.liveAtTest)
    && (s.main.Scan? ==> s.numLive < s.liveAtTest || SomeTerminatedFrom(s.threads, s.main.i))
    && (s.main.DropUnjoined? || s.main.UnlockPass? ==> s.numLive < s.liveAtTest)
    && (s.main.Free? || s.main.Done? ==> s.numLive <= 0)
  }

  ghost predicate Inv(s: State) {
    CreationInv(s) && MutexInv(s) && EntryInv(s) && CountInv(s) && WakeInv(s) && ScanInv(s) && PassInv(s)
  }

  lemma {:induction false} InitInv(n: nat)
    ensures Inv(Init(n))
  {
    Bounds(AnnouncedOne, Init(n).threads, 0, 0);
  }

  lemma {:induction false} WorkerCounts(s: State, i: nat)
    requires i < |s.threads| && MutexInv(s) && EntryInv(s) && CountInv(s) && CreationInv(s)
    requires WorkerStep(s, i).Some?
    ensures CountInv(WorkerStep(s, i).value)
  {
    var t := WorkerStep(s, i).value;
    Update(AnnouncedOne, s.threads, i, t.threads[i]);
    Update(UnreapedOne, s.threads, i, t.threads[i]);
    if s.threads[i].pc.Marking? {
      assert t.threads == s.threads[i := t.threads[i]];
    }
  }

  lemma {:induction false} WorkerKeepsCreation(s: State, i: nat)
    requires CreationInv(s) && i < |s.threads| && WorkerStep(s, i).Some?
    ensures CreationInv(WorkerStep(s, i).value)
  {
    assert forall j | 0 <= j < |s.threads| && j != i :: WorkerStep(s, i).value.threads[j] == s.threads[j];
  }

  lemma {:induction false} WorkerKeepsMutex(s: State, i: nat)
    requires MutexInv(s) && i < |s.threads| && WorkerStep(s, i).Some?
    ensures MutexInv(WorkerStep(s, i).value)
  {
    assert forall j | 0 <= j < |s.threads| && j != i :: WorkerStep(s, i).value.threads[j] == s.threads[j];
  }

  lemma {:induction false} WorkerKeepsEntries(s: State, i: nat)
    requires MutexInv(s) && EntryInv(s) && i < |s.threads| && WorkerStep(s, i).Some?
    ensures EntryInv(WorkerStep(s, i).value)
  {
    assert forall j | 0 <= j < |s.threads| && j != i :: WorkerStep(s, i).value.threads[j] == s.threads[j];
  }

  lemma {:induction false} WorkerKeepsWake(s: State, i: nat)
    requires WakeInv(s) && MutexInv(s) && i < |s.threads| && WorkerStep(s, i).Some?
    ensures WakeInv(WorkerStep(s, i).value)
  {
    var t := WorkerStep(s, i).value;
    assert forall j | 0 <= j < |s.threads| && j != i :: t.threads[j] == s.threads[j];
    if s.main == Relock(true) {
      var j :| 0 <= j < |s.threads| && s.threads[j].pc.Returned?;
      assert t.threads[j].pc.Returned?;
    }
    assert s.threads[i].pc.Signalling? ==> t.threads[i].pc.Returned?;
  }

  lemma {:induction false} WorkerKeepsScan(s: State, i: nat)
    requires MutexInv(s) && EntryInv(s) && ScanInv(s) && i < |s.threads| && WorkerStep(s, i).Some?
    ensures ScanInv(WorkerStep(s, i).value)
  {
    assert forall j | 0 <= j < |s.threads| && j != i :: WorkerStep(s, i).value.threads[j] == s.threads[j];
  }

  lemma {:induction false} WorkerKeepsPass(s: State, i: nat)
    requires MutexInv(s) && EntryInv(s) && PassInv(s) && i < |s.threads| && WorkerStep(s, i).Some?
    ensures PassInv(WorkerStep(s, i).value)
  {
    if s.main.Scan? && SomeTerminatedFrom(s.threads, s.main.i) {
      var j :| s.main.i <= j < |s.threads| && s.threads[j].state.Terminated?;
      assert WorkerStep(s, i).value.threads[j].state.Terminated?;
    }
  }

  lemma {:induction false} MainCounts(s: State)
    requires CreationInv(s) && EntryInv(s) && CountInv(s) && MainStep(s).Some?
    ensures CountInv(MainStep(s).value)
  {
    var t := MainStep(s).value;
    match s.main
    case Create(k) =>
      if k < |s.threads| {
        Update(AnnouncedOne, s.threads, k, t.threads[k]);
        Update(UnreapedOne, s.threads, k, t.threads[k]);
      } else {
        Bounds(UnreapedOne, s.threads, 1, 1);
      }
    case JoinThread(i) =>
      Update(AnnouncedOne, s.threads, i, t.threads[i]);
      Update(UnreapedOne, s.threads, i, t.threads[i]);
    case MarkJoined(i) =>
      Update(AnnouncedOne, s.threads, i, t.threads[i]);
      Update(UnreapedOne, s.threads, i, t.threads[i]);
    case _ =>
  }

  /** num_unjoined is positive exactly when some entry is announced. */
  lemma {:induction false} AnnouncedExists(ts: seq<Thread>)
    ensures Sum(AnnouncedOne, ts) >= 0
    ensures Sum(AnnouncedOne, ts) > 0 <==> exists i :: 0 <= i < |ts| && Announced(ts[i].pc)
  {
    NonNegative(AnnouncedOne, ts);
    if Sum(AnnouncedOne, ts) > 0 {
      var i := Witness(AnnouncedOne, ts);
    }
    forall i | 0 <= i < |ts| && Announced(ts[i].pc) ensures Sum(AnnouncedOne, ts) > 0 {
      AtLeast(AnnouncedOne, ts, i);
    }
  }

  lemma {:induction false} MainKeepsCreation(s: State)
    requires CreationInv(s) && EntryInv(s) && MainStep(s).Some?
    ensures CreationInv(MainStep(s).value)
  {
  }

  lemma {:induction false} MainKeepsMutex(s: State)
    requires CreationInv(s) && MutexInv(s) && MainStep(s).Some?
    ensures MutexInv(MainStep(s).value)
  {
  }

  lemma {:induction false} MainKeepsEntries(s: State)
    requires CreationInv(s) && EntryInv(s) && MainStep(s).Some?
    ensures EntryInv(MainStep(s).value)
  {
  }

  lemma {:induction false} MainKeepsWake(s: State)
    requires CreationInv(s) && MutexInv(s) && CountInv(s) && WakeInv(s) && MainStep(s).Some?
    ensures WakeInv(MainStep(s).value)
  {
    AnnouncedExists(s.threads);
  }

  lemma {:induction false} MainKeepsScan(s: State)
    requires EntryInv(s) && ScanInv(s) && MainStep(s).Some?
    ensures ScanInv(MainStep(s).value)
  {
  }

  /** Whoever raised num_unjoined has let go of the mutex, so its entry is marked. */
  lemma {:induction false} UnjoinedIsTerminated(s: State)
    requires MutexInv(s) && EntryInv(s) && CountInv(s) && s.main.TestUnjoined? && s.numUnjoined != 0
    ensures SomeTerminatedFrom(s.threads, 0)
  {
    AnnouncedExists(s.threads);
    var i: nat :| i < |s.threads| && Announced(s.threads[i].pc);
    assert s.threads[i].state.Terminated?;
  }

  lemma {:induction false} ScanMovesOn(s: State)
    requires s.main.Scan? && SomeTerminatedFrom(s.threads, s.main.i)
    ensures var m := MainStep(s).value.main;
            m.JoinThread? || (m.Scan? && SomeTerminatedFrom(s.threads, m.i))
  {
    var j :| s.main.i <= j < |s.threads| && s.threads[j].state.Terminated?;
  }

  lemma {:induction false} MainKeepsPass(s: State)
    requires MutexInv(s) && EntryInv(s) && CountInv(s) && PassInv(s) && MainStep(s).Some?
    ensures PassInv(MainStep(s).value)
  {
    if s.main.TestUnjoined? && s.numUnjoined != 0 {
      UnjoinedIsTerminated(s);
    } else if s.main.Scan? && SomeTerminatedFrom(s.threads, s.main.i) {
      ScanMovesOn(s);
    }
  }

  lemma {:induction false} StepKeepsInv(s: State, e: Label)
    requires Inv(s) && Step(s, e).Some?
    ensures Inv(Step(s, e).value)
  {
    match e
    case Main =>
      MainCounts(s);
      MainKeepsCreation(s);
      MainKeepsMutex(s);
      MainKeepsEntries(s);
      MainKeepsWake(s);
      MainKeepsScan(s);
      MainKeepsPass(s);
    case Worker(i) =>
      WorkerCounts(s, i);
      WorkerKeepsCreation(s, i);
      WorkerKeepsMutex(s, i);
      WorkerKeepsEntries(s, i);
      WorkerKeepsWake(s, i);
      WorkerKeepsScan(s, i);
      WorkerKeepsPass(s, i);
    case Spurious =>
  }

  lemma {:induction false} InvInductive()
    ensures Inductive(Step, Inv)
  {
    forall s: State, e: Label | Inv(s) && Step(s, e).Some? ensures Inv(Step(s, e).value) {
      StepKeepsInv(s, e);
    }
  }

  lemma {:induction false} ReachableInv(n: nat, s: State)
    requires Reachable(Step, Init(n), s)
    ensures Inv(s)
  {
    InvInductive();
    InitInv(n);
    AlwaysReachable(Step, Inv, Init(n), s);
  }

  // ----- which steps are possible

  /** A worker runs from its creation until it has signalled, also before main has created the others;
      it waits for nothing but the mutex. */
  lemma {:induction false} WorkerPossible(n: nat, s: State, i: nat)
    requires Reachable(Step, Init(n), s) && i < |s.threads|
    ensures s.threads[i].pc.Unborn? <==> s.main.Create? && s.main.k <= i
    ensures Step(s, Worker(i)).None? <==>
            || s.threads[i].pc.Unborn? || s.threads[i].pc.Returned? || s.threads[i].pc.Reaped?
            || (s.threads[i].pc.Locking? && !s.owner.NoOne?)
  {
    ReachableInv(n, s);
  }

  /** Main waits for nothing but a signal, the mutex and the end of the thread it joins; a wakeup without
      a signal is possible whenever it waits for one. */
  lemma {:induction false} MainPossible(n: nat, s: State)
    requires Reachable(Step, Init(n), s)
    ensures Step(s, Main).None? <==>
            || s.main.Waiting? || s.main.Done?
            || ((s.main.LockPass? || s.main.Relock?) && !s.owner.NoOne?)
            || (s.main.JoinThread? && s.main.i < |s.threads| && !s.threads[s.main.i].pc.Returned?)
    ensures Step(s, Spurious).Some? <==> s.main.Waiting?
  {
    ReachableInv(n, s);
  }

  // ----- safety over every schedule

  lemma {:induction false} NoLostWakeup(n: nat, s: State)
    requires Reachable(Step, Init(n), s)
    requires s.main.Waiting? && s.numUnjoined > 0
    ensures exists i :: 0 <= i < |s.threads| &&
              (s.threads[i].pc.Marking? || s.threads[i].pc.Unlocking? || s.threads[i].pc.Signalling?)
  {
    ReachableInv(n, s);
    var i := Witness(AnnouncedOne, s.threads);
    assert !s.threads[i].pc.Returned?;
  }

  lemma {:induction false} SignalledWakeFindsWork(n: nat, s: State)
    requires Reachable(Step, Init(n), s)
    requires s.main == Relock(true)
    ensures s.numUnjoined > 0
  {
    ReachableInv(n, s);
    AnnouncedExists(s.threads);
  }

  lemma {:induction false} CountsWhenFree(n: nat, s: State)
    requires Reachable(Step, Init(n), s)
    requires s.owner.NoOne?
    ensures s.numUnjoined == Sum(TerminatedOne, s.threads)
    ensures !s.main.Create? ==> s.numLive == Sum(UnjoinedOne, s.threads)
  {
    ReachableInv(n, s);
    Same(AnnouncedOne, s.threads, TerminatedOne, s.threads);
    Same(UnreapedOne, s.threads, UnjoinedOne, s.threads);
  }

  /** A pass ends with every announced thread joined, and it has joined at least one. */
  lemma {:induction false} PassReapsAll(n: nat, s: State)
    requires Reachable(Step, Init(n), s)
    requires s.main.UnlockPass?
    ensures s.numUnjoined == 0
    ensures s.numLive < s.liveAtTest
  {
    ReachableInv(n, s);
    AnnouncedExists(s.threads);
  }

  lemma {:induction false} FreedAfterAllReturned(n: nat, s: State)
    requires Reachable(Step, Init(n), s)
    requires s.main.Free? || s.main.Done?
    ensures forall i | 0 <= i < |s.threads| :: s.threads[i] == Thread(Joined, Reaped)
  {
    ReachableInv(n, s);
    forall i | 0 <= i < |s.threads| ensures s.threads[i] == Thread(Joined, Reaped) {
      AtLeast(UnreapedOne, s.threads, i);
      assert UnreapedOne(s.threads[i]) == 0;
    }
  }

  function States(s: State): seq<ThreadState> {
    seq(|s.threads|, i requires 0 <= i < |s.threads| => s.threads[i].state)
  }

  /** Shared data is written by the holder of the mutex only. */
  lemma {:induction false} OnlyHolderWrites(n: nat, s: State, e: Label)
    requires Reachable(Step, Init(n), s) && Step(s, e).Some?
    requires var t := Step(s, e).value; t.numUnjoined != s.numUnjoined || States(t) != States(s)
    ensures s.owner == if e.Worker? then WorkerThread(e.i) else MainThread
  {
    ReachableInv(n, s);
    var t := Step(s, e).value;
    if t.numUnjoined == s.numUnjoined && !s.main.Create? {
      var i :| 0 <= i < |s.threads| && States(t)[i] != States(s)[i];
    }
  }

  // ----- each thread is joined exactly once

  function JoinCall(i: nat): (State, Label) -> int {
    (s: State, e: Label) => if s.main == JoinThread(i) && e.Main? then 1 else 0
  }

  function ReapedFlag(i: nat): State -> int {
    (s: State) => if i < |s.threads| && s.threads[i].pc.Reaped? then 1 else 0
  }

  lemma {:induction false} StepReaps(s: State, e: Label, i: nat)
    requires CreationInv(s) && Step(s, e).Some?
    ensures ReapedFlag(i)(Step(s, e).value) == ReapedFlag(i)(s) + JoinCall(i)(s, e)
  {
  }

  lemma {:induction false} JoinedOnce(n: nat, es: seq<Label>, i: nat, t: State)
    requires Run(Step, Init(n), es) == Some(t)
    ensures Charge(Step, JoinCall(i), Init(n), es) == ReapedFlag(i)(t)
    ensures t.main.Done? && i < n ==> Charge(Step, JoinCall(i), Init(n), es) == 1
  {
    InvInductive();
    InitInv(n);
    forall s: State, e: Label | Inv(s) && Step(s, e).Some?
      ensures ReapedFlag(i)(Step(s, e).value) == ReapedFlag(i)(s) + JoinCall(i)(s, e)
    {
      StepReaps(s, e, i);
    }
    Ledger(Step, Inv, ReapedFlag(i), JoinCall(i), Init(n), es);
    LengthKept(n, es, t);
    if t.main.Done? && i < n {
      FreedAfterAllReturned(n, t);
    }
  }

  lemma {:induction false} LengthKept(n: nat, es: seq<Label>, t: State)
    requires Run(Step, Init(n), es) == Some(t)
    ensures |t.threads| == n
  {
    Always(Step, (s: State) => |s.threads| == n, Init(n), es);
  }

  /** Entries only move forward: a worker marks itself, then main marks it joined. */
  ghost predicate Advances(before: Thread, after: Thread, e: Label, i: nat) {
    || after.state == before.state
    || (before.state.Alive? && after.state.Terminated? && e == Worker(i))
    || (before.state.Terminated? && after.state.Joined? && e == Main && after.pc.Reaped?)
  }

  lemma {:induction false} StepAdvances(s: State, e: Label, i: nat)
    requires CreationInv(s) && EntryInv(s) && Step(s, e).Some? && i < |s.threads|
    ensures |Step(s, e).value.threads| == |s.threads|
    ensures Advances(s.threads[i], Step(s, e).value.threads[i], e, i)
  {
  }

  lemma {:induction false} EntriesAdvance(n: nat, s: State, e: Label, i: nat)
    requires Reachable(Step, Init(n), s) && Step(s, e).Some? && i < |s.threads|
    ensures |Step(s, e).value.threads| == |s.threads|
    ensures Advances(s.threads[i], Step(s, e).value.threads[i], e, i)
  {
    ReachableInv(n, s);
    StepAdvances(s, e, i);
  }

  // ----- progress

  lemma {:induction false} HolderCanMove(s: State, i: nat)
    requires i < |s.threads| && HoldsMutex(s.threads[i].pc)
    ensures Step(s, Worker(i)).Some?
  {
  }

  /** Some thread can move in every state but the last, without the help of spurious wakeups. */
  lemma {:induction false} DeadlockFree(n: nat, s: State) returns (e: Label)
    requires Reachable(Step, Init(n), s)
    requires !s.main.Done?
    ensures !e.Spurious? && Step(s, e).Some?
  {
    ReachableInv(n, s);
    if MainStep(s).Some? {
      e := Main;
    } else if s.owner.WorkerThread? {
      HolderCanMove(s, s.owner.i);
      e := Worker(s.owner.i);
    } else if s.main.Waiting? {
      var i := Witness(UnreapedOne, s.threads);
      e := Worker(i);
    } else {
      e := Worker(s.main.i);
    }
  }

  function Work(t: Thread): int {
    match t.pc
    case Unborn => 5
    case Locking => 5
    case Incrementing => 4
    case Marking => 3
    case Unlocking => 2
    case Signalling => 1
    case Returned => 0
    case Reaped => 0
  }

  function PassesLeft(s: State): int {
    if s.main.Create? then |s.threads|
    else if InPass(s.main) then s.liveAtTest
    else if s.main.TestLive? then s.numLive
    else 0
  }

  /** How far main is from the end of its current pass, whose length is at most PassLength(n). */
  function Position(s: State): int {
    var n := |s.threads|;
    match s.main
    case Create(k) => 5 * n + 9 + n - k
    case TestLive => 5 * n + 8
    case LockPass => 5 * n + 7
    case Relock(signalled) => if signalled then 5 * n + 4 else 5 * n + 7
    case TestUnjoined => if s.numUnjoined == 0 then 5 * n + 6 else 5 * n + 3
    case Waiting => 5 * n + 5
    case Scan(i) => 5 * (n - i) + 2
    case JoinThread(i) => 5 * (n - i) + 1
    case MarkJoined(i) => 5 * (n - i)
    case DropLive(i) => 5 * (n - i) - 1
    case DropUnjoined(i) => 5 * (n - i) - 2
    case UnlockPass => 1
    case Free => 1
    case Done => 0
  }

  function PassLength(n: nat): nat { 5 * n + 8 }

  function Rank(s: State): int {
    PassLength(|s.threads|) * PassesLeft(s) + Position(s) + Sum(Work, s.threads)
  }

  function SpuriousCost(s: State, e: Label): int { if e.Spurious? then 3 else 0 }

  lemma {:induction false} WorkerStepLowersRank(s: State, i: nat)
    requires MutexInv(s) && i < |s.threads| && WorkerStep(s, i).Some?
    ensures Rank(WorkerStep(s, i).value) + 1 <= Rank(s)
  {
    var t := WorkerStep(s, i).value;
    Update(Work, s.threads, i, t.threads[i]);
    if s.threads[i].pc.Marking? {
      assert t.threads == s.threads[i := t.threads[i]];
    }
    assert PassesLeft(t) == PassesLeft(s);
    assert Position(t) <= Position(s);
  }

  lemma {:induction false} MainStepKeepsWork(s: State)
    requires Inv(s) && MainStep(s).Some?
    ensures Sum(Work, MainStep(s).value.threads) == Sum(Work, s.threads)
  {
    var t := MainStep(s).value;
    match s.main
    case Create(k) => if k < |s.threads| { Update(Work, s.threads, k, t.threads[k]); }
    case JoinThread(i) => Update(Work, s.threads, i, t.threads[i]);
    case MarkJoined(i) => Update(Work, s.threads, i, t.threads[i]);
    case _ =>
  }

  lemma {:induction false} MulDrop(k: nat, a: int, b: int)
    requires a < b
    ensures k * a + k <= k * b
  {
    var d := b - a - 1;
    assert k * b == k * (a + 1 + d) == k * a + k + k * d;
  }

  lemma {:induction false} PassLowersRank(s: State)
    requires Inv(s) && s.main.UnlockPass?
    ensures Rank(MainStep(s).value) + 1 <= Rank(s)
  {
    MulDrop(PassLength(|s.threads|), s.numLive, s.liveAtTest);
  }

  lemma {:induction false} MainStepKeepsPasses(s: State)
    requires Inv(s) && MainStep(s).Some? && !s.main.UnlockPass?
    ensures PassesLeft(MainStep(s).value) == PassesLeft(s)
  {
    NonNegative(UnreapedOne, s.threads);
  }

  lemma {:induction false} SignalledMeansUnjoined(s: State)
    requires CountInv(s) && WakeInv(s)
    ensures s.main == Relock(true) ==> s.numUnjoined > 0
  {
    AnnouncedExists(s.threads);
  }

  lemma {:induction false} MainStepAdvances(s: State)
    requires CreationInv(s) && ScanInv(s) && MainStep(s).Some? && !s.main.UnlockPass?
    requires s.main == Relock(true) ==> s.numUnjoined > 0
    ensures Position(MainStep(s).value) + 1 <= Position(s)
  {
  }

  lemma {:induction false} StepLowersRank(s: State, e: Label)
    requires Inv(s) && Step(s, e).Some?
    ensures Rank(Step(s, e).value) + 1 <= Rank(s) + SpuriousCost(s, e)
  {
    match e
    case Main =>
      if s.main.UnlockPass? {
        PassLowersRank(s);
      } else {
        MainStepKeepsWork(s);
        MainStepKeepsPasses(s);
        SignalledMeansUnjoined(s);
        MainStepAdvances(s);
      }
    case Worker(i) => WorkerStepLowersRank(s, i);
    case Spurious =>
  }

  lemma {:induction false} RankParts(s: State)
    requires Inv(s)
    ensures 0 <= PassesLeft(s) && 0 <= Position(s) && 0 <= Sum(Work, s.threads)
  {
    NonNegative(Work, s.threads);
    NonNegative(UnreapedOne, s.threads);
  }

  lemma {:induction false} InitRank(n: nat)
    ensures Rank(Init(n)) == 5 * n * n + 19 * n + 9
  {
    Bounds(Work, Init(n).threads, 5, 5);
    assert PassLength(n) * n == 5 * n * n + 8 * n;
  }

  lemma {:induction false} RankNonNegative(s: State)
    requires Inv(s)
    ensures 0 <= Rank(s)
  {
    RankParts(s);
    assert 0 <= PassLength(|s.threads|) * PassesLeft(s);
  }

  lemma {:induction false} RunLowersRank(s: State, es: seq<Label>)
    requires Inv(s) && Run(Step, s, es).Some?
    ensures |es| <= Rank(s) + Charge(Step, SpuriousCost, s, es)
  {
    InvInductive();
    forall s: State, e: Label | Inv(s) && Step(s, e).Some?
      ensures Rank(Step(s, e).value) + 1 <= Rank(s) + SpuriousCost(s, e)
    {
      StepLowersRank(s, e);
    }
    StepBound(Step, Inv, Rank, SpuriousCost, s, es);
    Always(Step, Inv, s, es);
    RankNonNegative(Run(Step, s, es).value);
  }

  /** Every schedule of n workers is finite: its length is bounded up to the spurious wakeups in it. */
  lemma {:induction false} RunsAreBounded(n: nat, es: seq<Label>)
    requires Run(Step, Init(n), es).Some?
    ensures |es| <= 5 * n * n + 19 * n + 9 + Charge(Step, SpuriousCost, Init(n), es)
  {
    InitInv(n);
    InitRank(n);
    RunLowersRank(Init(n), es);
  }

  function PassEnd(s: State, e: Label): int { if s.main.UnlockPass? && e.Main? then 1 else 0 }

  function Nothing(s: State, e: Label): int { 0 }

  lemma {:induction false} StepSpendsPasses(s: State, e: Label)
    requires Inv(s) && Step(s, e).Some?
    ensures PassesLeft(Step(s, e).value) + PassEnd(s, e) <= PassesLeft(s)
  {
    if e.Main? && !s.main.UnlockPass? {
      MainStepKeepsPasses(s);
    }
  }

  /** At most one pass per thread, whatever the schedule and however many wakeups are spurious. */
  lemma {:induction false} AtMostNPasses(n: nat, es: seq<Label>)
    requires Run(Step, Init(n), es).Some?
    ensures Charge(Step, PassEnd, Init(n), es) <= n
  {
    InvInductive();
    InitInv(n);
    forall s: State, e: Label | Inv(s) && Step(s, e).Some?
      ensures PassesLeft(Step(s, e).value) + PassEnd(s, e) <= PassesLeft(s) + Nothing(s, e)
    {
      StepSpendsPasses(s, e);
    }
    Spend(Step, Inv, PassesLeft, PassEnd, Nothing, Init(n), es);
    ZeroCharge(Step, Nothing, Init(n), es);
    Always(Step, Inv, Init(n), es);
    RankParts(Run(Step, Init(n), es).value);
  }

  /** A schedule that goes on as long as it can without spurious wakeups joins every worker and ends. */
  lemma {:induction false} MaximalRunsFinish(n: nat, es: seq<Label>, t: State)
    requires Run(Step, Init(n), es) == Some(t)
    requires forall e: Label :: e.Spurious? || Step(t, e).None?
    ensures t.main.Done? && |t.threads| == n && forall i | 0 <= i < n :: t.threads[i] == Thread(Joined, Reaped)
  {
    if !t.main.Done? {
      var e := DeadlockFree(n, t);
    }
    FreedAfterAllReturned(n, t);
    LengthKept(n, es, t);
  }

  // ----- the program

  /** The program's variables, updated in place, one atomic step of a thread per call. */
  class Program {
    const thread: array<Thread>
    var numLive: int
    var numUnjoined: int
    var owner: Owner
    var main: MainPc
    ghost var liveAtTest: int

    ghost function View(): State
      reads this, thread
    {
      State(thread[..], main, owner, numLive, numUnjoined, liveAtTest)
    }

    ghost predicate Valid()
      reads this, thread
    {
      Inv(View())
    }

    constructor (n: nat)
      ensures View() == Init(n)
      ensures Valid() && fresh(thread)
    {
      thread := new Thread[n](_ => Thread(Alive, Unborn));
      numLive, numUnjoined, owner, main, liveAtTest := 0, 0, NoOne, Create(0), 0;
      new;
      assert thread[..] == Init(n).threads;
      InitInv(n);
    }

    method StepWorker(i: nat) returns (moved: bool)
      requires Valid()
      modifies this, thread
      ensures Valid()
      ensures Performs(Step, old(View()), Worker(i), moved, View())
    {
      ghost var s := View();
      moved := i < thread.Length;
      if moved {
        match thread[i].pc
        case Unborn => moved := false;
        case Locking =>
          if owner.NoOne? {
            owner := WorkerThread(i);
            thread[i] := thread[i].(pc := Incrementing);
          } else {
            moved := false;
          }
        case Incrementing =>
          numUnjoined := numUnjoined + 1;
          thread[i] := thread[i].(pc := Marking);
        case Marking =>
          thread[i] := Thread(Terminated, Unlocking);
        case Unlocking =>
          owner := NoOne;
          thread[i] := thread[i].(pc := Signalling);
        case Signalling =>
          if main.Waiting? {
            main := Relock(true);
          }
          thread[i] := thread[i].(pc := Returned);
        case Returned => moved := false;
        case Reaped => moved := false;
      }
      assert Performs(Step, s, Worker(i), moved, View());
      if moved {
        StepKeepsInv(s, Worker(i));
      }
    }

    /** Lines 79-93 and 130: the creation loop, the outer loop's test and the end of the program. */
    method CreateAndTest() returns (moved: bool)
      requires Valid()
      requires main.Create? || main.TestLive? || main.Free? || main.Done?
      modifies this, thread
      ensures Performs(Step, old(View()), Main, moved, View())
    {
      moved := true;
      match main
      case Create(k) =>
        if k < thread.Length {
          thread[k] := Thread(Alive, Locking);
          main := Create(k + 1);
        } else {
          numLive := thread.Length;
          main := TestLive;
        }
      case TestLive =>
        if numLive > 0 {
          liveAtTest := numLive;
          main := LockPass;
        } else {
          main := Free;
        }
      case Free => main := Done;
      case Done => moved := false;
    }

    /** Lines 94-107: the mutex and the condition wait. */
    method WaitForWork() returns (moved: bool)
      requires Valid()
      requires BeforeScan(main)
      modifies this
      ensures Performs(Step, old(View()), Main, moved, View())
    {
      moved := false;
      if main.TestUnjoined? {
        moved := true;
        if numUnjoined == 0 {
          owner := NoOne;
          main := Waiting;
        } else {
          main := Scan(0);
        }
      } else if !main.Waiting? && owner.NoOne? {
        moved := true;
        owner := MainThread;
        main := TestUnjoined;
      }
    }

    /** Lines 110-124: the joining scan and the unlock after it. */
    method JoinTerminated() returns (moved: bool)
      requires Valid()
      requires InScan(main) || main.UnlockPass?
      modifies this, thread
      ensures Performs(Step, old(View()), Main, moved, View())
    {
      moved := true;
      match main
      case Scan(i) =>
        if i >= thread.Length {
          main := UnlockPass;
        } else if thread[i].state == Terminated {
          main := JoinThread(i);
        } else {
          main := Scan(i + 1);
        }
      case JoinThread(i) =>
        if thread[i].pc == Returned {
          thread[i] := thread[i].(pc := Reaped);
          main := MarkJoined(i);
        } else {
          moved := false;
        }
      case MarkJoined(i) =>
        thread[i] := thread[i].(state := Joined);
        main := DropLive(i);
      case DropLive(i) =>
        numLive := numLive - 1;
        main := DropUnjoined(i);
      case DropUnjoined(i) =>
        numUnjoined := numUnjoined - 1;
        main := Scan(i + 1);
      case UnlockPass =>
        owner := NoOne;
        main := TestLive;
    }

    method StepMain() returns (moved: bool)
      requires Valid()
      modifies this, thread
      ensures Valid()
      ensures Performs(Step, old(View()), Main, moved, View())
    {
      ghost var s := View();
      if BeforeScan(main) {
        moved := WaitForWork();
      } else if InScan(main) || main.UnlockPass? {
        moved := JoinTerminated();
      } else {
        moved := CreateAndTest();
      }
      if moved {
        StepKeepsInv(s, Main);
      }
    }

    method WakeSpuriously() returns (moved: bool)
      requires Valid()
      modifies this
      ensures Valid()
      ensures Performs(Step, old(View()), Spurious, moved, View())
    {
      moved := main.Waiting?;
      if moved {
        main := Relock(false);
      }
    }
  }
}
