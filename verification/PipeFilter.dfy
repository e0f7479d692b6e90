/**
 The three processes of process_comm_template/pipe_filter/pipe_filter.cpp: the parent (process 0), a
 producer whose standard output becomes the pipe (process 1) and a consumer whose standard input does
 (process 2). The executed programs are any finite producer and any consumer that reads until end of
 file. `base` is the set of descriptors open before pipe() was called, with any numbers; r and w are
 the two distinct numbers that pipe() returned. The parent may have children of its own, kept across
 exec: `others` of them, for which its waits may return as well.
 */
module PipeFilter {
  import opened Runs
  import opened PipeKernel

  const STDIN_FILENO: nat := 0
  const STDOUT_FILENO: nat := 1

  datatype ParentPc = Fork1 | Fork2 | CloseRead | CloseWrite | Wait1 | Wait2 | Done

  /** Finished is a consumer that has seen end of file and is about to exit. */
  datatype ChildPc = Absent | CloseOther | Dup | CloseOriginal | Running | Finished | Zombie | Reaped

  /** left counts the inherited children that were not waited for yet. */
  datatype State = State(
    k: Kernel, base: Table, r: nat, w: nat, others: nat,
    parent: ParentPc, child1: ChildPc, child2: ChildPc, output: string, input: string, left: nat)

  datatype Label =
    | Parent | Child1 | Child2 | Produce(count: nat) | Consume(count: nat) | WaitFor1 | WaitFor2 | WaitForOther

  function Init(base: Table, r: nat, w: nat, output: string, others: nat, cap: nat): State {
    State(Create(base, r, w, cap), base, r, w, others, Fork1, Absent, Absent, output, "", others)
  }

  function Step(s: State, e: Label): Option<State> {
    match e
    case Parent => ParentStep(s)
    case Child1 => Child1Step(s)
    case Child2 => Child2Step(s)
    case Produce(count) => ProduceStep(s, count)
    case Consume(count) => ConsumeStep(s, count)
    case WaitFor1 => if s.child1.Zombie? then Waited(s.(child1 := Reaped)) else None
    case WaitFor2 => if s.child2.Zombie? then Waited(s.(child2 := Reaped)) else None
    case WaitForOther => if s.left > 0 then Waited(s.(left := s.left - 1)) else None
  }

  /** Continues with the changed kernel; a failing call stops the process, which no run does. */
  function With(s: State, k: Option<Kernel>): Option<State> {
    match k
    case None => None
    case Some(k') => Some(s.(k := k'))
  }

  function Waited(s: State): Option<State> {
    match s.parent
    case Wait1 => Some(s.(parent := Wait2))
    case Wait2 => Some(s.(parent := Done))
    case _ => None
  }

  function ParentStep(s: State): Option<State> {
    match s.parent
    case Fork1 => With(s.(parent := Fork2, child1 := CloseOther), Fork(s.k, 0))
    case Fork2 => With(s.(parent := CloseRead, child2 := CloseOther), Fork(s.k, 0))
    case CloseRead => With(s.(parent := CloseWrite), Close(s.k, 0, s.r))
    case CloseWrite => With(s.(parent := Wait1), Close(s.k, 0, s.w))
    case _ => None
  }

  function Child1Step(s: State): Option<State> {
    match s.child1
    case CloseOther => With(s.(child1 := Dup), Close(s.k, 1, s.r))
    case Dup =>
      if s.w == STDOUT_FILENO then Some(s.(child1 := Running))
      else With(s.(child1 := CloseOriginal), Dup2(s.k, 1, s.w, STDOUT_FILENO))
    case CloseOriginal => With(s.(child1 := Running), Close(s.k, 1, s.w))
    case Running => if s.output == "" then With(s.(child1 := Zombie), Exit(s.k, 1)) else None
    case _ => None
  }

  function Child2Step(s: State): Option<State> {
    match s.child2
    case CloseOther => With(s.(child2 := Dup), Close(s.k, 2, s.w))
    case Dup =>
      if s.r == STDIN_FILENO then Some(s.(child2 := Running))
      else With(s.(child2 := CloseOriginal), Dup2(s.k, 2, s.r, STDIN_FILENO))
    case CloseOriginal => With(s.(child2 := Running), Close(s.k, 2, s.r))
    case Finished => With(s.(child2 := Zombie), Exit(s.k, 2))
    case _ => None
  }

  /** Writing to a pipe without readers raises SIGPIPE, which ends the producer. */
  function ProduceStep(s: State, count: nat): Option<State> {
    if !s.child1.Running? || count == 0 || count > |s.output| then None
    else if s.k.readers <= 0 then With(s.(child1 := Zombie), Exit(s.k, 1))
    else With(s.(output := s.output[count..]), Write(s.k, 1, STDOUT_FILENO, s.output[..count]))
  }

  function ConsumeStep(s: State, count: nat): Option<State> {
    if !s.child2.Running? || count > |s.k.buffer| then None
    else
      With(s.(input := s.input + s.k.buffer[..count], child2 := if count == 0 then Finished else Running),
           Read(s.k, 2, STDIN_FILENO, count, count))
  }

  // ----- invariant

  function FullTable(base: Table, r: nat, w: nat): Table { base[r := ReadEnd][w := WriteEnd] }

  function ParentTable(base: Table, r: nat, w: nat, pc: ParentPc): Table {
    match pc
    case CloseWrite => base[w := WriteEnd]
    case Wait1 => base
    case Wait2 => base
    case Done => base
    case _ => FullTable(base, r, w)
  }

  function Child1Table(base: Table, r: nat, w: nat, pc: ChildPc): Table {
    match pc
    case Dup => base[w := WriteEnd]
    case CloseOriginal => base[w := WriteEnd][STDOUT_FILENO := WriteEnd]
    case Running => base[STDOUT_FILENO := WriteEnd]
    case Zombie => map[]
    case Reaped => map[]
    case _ => FullTable(base, r, w)
  }

  function Child2Table(base: Table, r: nat, w: nat, pc: ChildPc): Table {
    match pc
    case Dup => base[r := ReadEnd]
    case CloseOriginal => base[r := ReadEnd][STDIN_FILENO := ReadEnd]
    case Running => base[STDIN_FILENO := ReadEnd]
    case Finished => base[STDIN_FILENO := ReadEnd]
    case Zombie => map[]
    case Reaped => map[]
    case _ => FullTable(base, r, w)
  }

  ghost predicate TablesInv(s: State) {
    && FreshPipe(s.base, s.r, s.w)
    && (s.child1.Absent? <==> s.parent.Fork1?)
    && (s.child2.Absent? <==> s.parent.Fork1? || s.parent.Fork2?)
    && !s.child1.Finished?
    && |s.k.tables| == (if s.child1.Absent? then 1 else if s.child2.Absent? then 2 else 3)
    && s.k.tables[0] == ParentTable(s.base, s.r, s.w, s.parent)
    && (!s.child1.Absent? ==> s.k.tables[1] == Child1Table(s.base, s.r, s.w, s.child1))
    && (!s.child2.Absent? ==> s.k.tables[2] == Child2Table(s.base, s.r, s.w, s.child2))
    && (s.child1.CloseOriginal? ==> s.w != STDOUT_FILENO)
    && (s.child2.CloseOriginal? ==> s.r != STDIN_FILENO)
  }

  predicate Exited(c: ChildPc) { c.Zombie? || c.Reaped? }

  ghost predicate DataInv(s: State, data: string) {
    && s.input + s.k.buffer + s.output == data
    && (Exited(s.child1) ==> s.output == "")
    && (s.child2.Finished? || Exited(s.child2) ==> Exited(s.child1) && s.k.buffer == "")
  }

  function Waits(pc: ParentPc): int { if pc.Wait2? then 1 else if pc.Done? then 2 else 0 }

  /** Each wait has taken one child, forked or inherited. */
  ghost predicate WaitInv(s: State) {
    && s.left <= s.others
    && Waits(s.parent) == One(s.child1.Reaped?) + One(s.child2.Reaped?) + (s.others - s.left)
  }

  ghost predicate Inv(s: State, data: string) {
    Consistent(s.k) && TablesInv(s) && DataInv(s, data) && WaitInv(s)
  }

  lemma {:induction false} InitInv(base: Table, r: nat, w: nat, output: string, others: nat, cap: nat)
    requires FreshPipe(base, r, w)
    ensures Inv(Init(base, r, w, output, others, cap), output)
  {
    CreateConsistent(base, r, w, cap);
  }

  lemma {:induction false} StepKeepsConsistent(s: State, e: Label)
    requires Consistent(s.k) && Step(s, e).Some?
    ensures Consistent(Step(s, e).value.k)
  {
    match e
    case Parent =>
      if s.parent.Fork1? || s.parent.Fork2? {
        ForkConsistent(s.k, 0);
      } else {
        CloseConsistent(s.k, 0, if s.parent.CloseRead? then s.r else s.w);
      }
    case Child1 =>
      match s.child1 {
        case CloseOther => CloseConsistent(s.k, 1, s.r);
        case Dup => if s.w != STDOUT_FILENO { Dup2Consistent(s.k, 1, s.w, STDOUT_FILENO); }
        case CloseOriginal => CloseConsistent(s.k, 1, s.w);
        case Running => ExitConsistent(s.k, 1);
        case _ =>
      }
    case Child2 =>
      match s.child2 {
        case CloseOther => CloseConsistent(s.k, 2, s.w);
        case Dup => if s.r != STDIN_FILENO { Dup2Consistent(s.k, 2, s.r, STDIN_FILENO); }
        case CloseOriginal => CloseConsistent(s.k, 2, s.r);
        case Finished => ExitConsistent(s.k, 2);
        case _ =>
      }
    case Produce(_) => if s.k.readers <= 0 { ExitConsistent(s.k, 1); }
    case _ =>
  }

  lemma {:induction false} ParentKeepsTables(s: State)
    requires TablesInv(s) && ParentStep(s).Some?
    ensures TablesInv(ParentStep(s).value)
  {
    Rewired(s.base, s.r, s.w, STDIN_FILENO);
  }

  lemma {:induction false} Child1Table1(s: State)
    requires FreshPipe(s.base, s.r, s.w) && |s.k.tables| > 1 && s.k.tables[1] == Child1Table(s.base, s.r, s.w, s.child1)
    requires !s.child1.Absent? && (s.child1.CloseOriginal? ==> s.w != STDOUT_FILENO) && Child1Step(s).Some?
    ensures var t := Child1Step(s).value;
            |t.k.tables| == |s.k.tables| && t.k.tables[1] == Child1Table(t.base, t.r, t.w, t.child1)
  {
    Rewired(s.base, s.r, s.w, STDOUT_FILENO);
  }

  lemma {:induction false} Child1KeepsTables(s: State)
    requires TablesInv(s) && Child1Step(s).Some?
    ensures TablesInv(Child1Step(s).value)
  {
    var t := Child1Step(s).value;
    Child1Table1(s);
    assert t.k.tables == s.k.tables[1 := t.k.tables[1]];
  }

  lemma {:induction false} Child2Table2(s: State)
    requires FreshPipe(s.base, s.r, s.w) && |s.k.tables| > 2 && s.k.tables[2] == Child2Table(s.base, s.r, s.w, s.child2)
    requires !s.child2.Absent? && (s.child2.CloseOriginal? ==> s.r != STDIN_FILENO) && Child2Step(s).Some?
    ensures var t := Child2Step(s).value;
            |t.k.tables| == |s.k.tables| && t.k.tables[2] == Child2Table(t.base, t.r, t.w, t.child2)
  {
    Rewired(s.base, s.r, s.w, STDIN_FILENO);
  }

  lemma {:induction false} Child2KeepsTables(s: State)
    requires TablesInv(s) && Child2Step(s).Some?
    ensures TablesInv(Child2Step(s).value)
  {
    var t := Child2Step(s).value;
    Child2Table2(s);
    assert t.k.tables == s.k.tables[2 := t.k.tables[2]];
  }

  /** A producer that still runs holds the write end, and somebody still holds the read end. */
  lemma {:induction false} RunningEnds(s: State, data: string)
    requires Inv(s, data)
    ensures !s.child1.Absent? && !Exited(s.child1) ==> s.k.writers > 0
    ensures !s.child2.Absent? && !Exited(s.child2) ==> s.k.readers > 0
    ensures !s.child1.Absent? && !Exited(s.child1) ==> s.k.readers > 0
  {
    if !s.child1.Absent? && !Exited(s.child1) {
      HolderCounts(s.k, 1, if s.child1.Running? then STDOUT_FILENO else s.w, WriteEnd);
    }
    if !s.child2.Absent? && !Exited(s.child2) {
      HolderCounts(s.k, 2, if s.child2.Running? || s.child2.Finished? then STDIN_FILENO else s.r, ReadEnd);
    }
    if s.child2.Absent? {
      HolderCounts(s.k, 0, s.r, ReadEnd);
    }
  }

  lemma {:induction false} StepKeepsTables(s: State, e: Label, data: string)
    requires Inv(s, data) && Step(s, e).Some?
    ensures TablesInv(Step(s, e).value)
  {
    match e
    case Parent => ParentKeepsTables(s);
    case Child1 => Child1KeepsTables(s);
    case Child2 => Child2KeepsTables(s);
    case Produce(_) => RunningEnds(s, data);
    case _ =>
  }

  lemma {:induction false} ProduceKeepsData(s: State, count: nat, data: string)
    requires DataInv(s, data) && ProduceStep(s, count).Some? && s.k.readers > 0
    ensures DataInv(ProduceStep(s, count).value, data)
  {
    assert s.output == s.output[..count] + s.output[count..];
  }

  lemma {:induction false} ConsumeKeepsData(s: State, count: nat, data: string)
    requires DataInv(s, data) && ConsumeStep(s, count).Some?
    requires s.k.writers == 0 ==> Exited(s.child1)
    ensures DataInv(ConsumeStep(s, count).value, data)
  {
    assert s.k.buffer == s.k.buffer[..count] + s.k.buffer[count..];
  }

  lemma {:induction false} MovingKeepsData(s: State, e: Label, data: string)
    requires DataInv(s, data) && Step(s, e).Some? && !e.Produce? && !e.Consume?
    requires s.parent.Fork1? || s.parent.Fork2? ==> s.child2.Absent?
    ensures DataInv(Step(s, e).value, data)
  {
    var t := Step(s, e).value;
    assert t.k.buffer == s.k.buffer && t.output == s.output && t.input == s.input;
  }

  lemma {:induction false} StepKeepsData(s: State, e: Label, data: string)
    requires Inv(s, data) && Step(s, e).Some?
    ensures DataInv(Step(s, e).value, data)
  {
    match e
    case Produce(count) =>
      RunningEnds(s, data);
      ProduceKeepsData(s, count, data);
    case Consume(count) =>
      RunningEnds(s, data);
      ConsumeKeepsData(s, count, data);
    case _ => MovingKeepsData(s, e, data);
  }

  lemma {:induction false} StepKeepsWait(s: State, e: Label)
    requires WaitInv(s) && Step(s, e).Some?
    ensures WaitInv(Step(s, e).value)
  {
  }

  lemma {:induction false} StepKeepsInv(s: State, e: Label, data: string)
    requires Inv(s, data) && Step(s, e).Some?
    ensures Inv(Step(s, e).value, data)
  {
    StepKeepsConsistent(s, e);
    StepKeepsTables(s, e, data);
    StepKeepsData(s, e, data);
    StepKeepsWait(s, e);
  }

  ghost function InvOf(data: string): State -> bool { s => Inv(s, data) }

  lemma {:induction false} InvInductive(data: string)
    ensures Inductive(Step, InvOf(data))
  {
    forall s: State, e: Label | InvOf(data)(s) && Step(s, e).Some? ensures InvOf(data)(Step(s, e).value) {
      StepKeepsInv(s, e, data);
    }
  }

  /** Numbers and sizes that no step changes. */
  ghost predicate Setting(s: State, base: Table, r: nat, w: nat, others: nat, cap: nat) {
    s.base == base && s.r == r && s.w == w && s.others == others && s.k.cap == cap
  }

  lemma {:induction false} StepKeepsSetting(s: State, e: Label)
    requires Step(s, e).Some?
    ensures Setting(Step(s, e).value, s.base, s.r, s.w, s.others, s.k.cap)
  {
  }

  ghost predicate Reached(base: Table, r: nat, w: nat, data: string, others: nat, cap: nat, s: State) {
    Reachable(Step, Init(base, r, w, data, others, cap), s)
  }

  lemma {:induction false} SettingKept(base: Table, r: nat, w: nat, data: string, others: nat, cap: nat, s: State)
    requires Reached(base, r, w, data, others, cap, s)
    ensures Setting(s, base, r, w, others, cap)
  {
    var setting := (s: State) => Setting(s, base, r, w, others, cap);
    forall s: State, e: Label | setting(s) && Step(s, e).Some? ensures setting(Step(s, e).value) {
      StepKeepsSetting(s, e);
    }
    AlwaysReachable(Step, setting, Init(base, r, w, data, others, cap), s);
  }

  lemma {:induction false} ReachableInv(base: Table, r: nat, w: nat, data: string, others: nat, cap: nat, s: State)
    requires FreshPipe(base, r, w) && Reached(base, r, w, data, others, cap, s)
    ensures Inv(s, data) && Setting(s, base, r, w, others, cap)
  {
    InvInductive(data);
    InitInv(base, r, w, data, others, cap);
    AlwaysReachable(Step, InvOf(data), Init(base, r, w, data, others, cap), s);
    SettingKept(base, r, w, data, others, cap, s);
  }

  // ----- plumbing

  /** When the programs are executed, the pipe is standard output of the first, standard input of the
      second and nothing else, whatever numbers pipe() returned; other descriptors are as inherited. */
  lemma {:induction false} ExecutedWithPipe(base: Table, r: nat, w: nat, data: string, others: nat, cap: nat, s: State)
    requires FreshPipe(base, r, w) && Reached(base, r, w, data, others, cap, s)
    ensures s.child1.Running? ==>
              |s.k.tables| > 1 && s.k.tables[1] == base[1 := WriteEnd]
              && Fds(s.k.tables[1], WriteEnd) == {1} && Fds(s.k.tables[1], ReadEnd) == {}
    ensures s.child2.Running? ==>
              |s.k.tables| > 2 && s.k.tables[2] == base[0 := ReadEnd]
              && Fds(s.k.tables[2], ReadEnd) == {0} && Fds(s.k.tables[2], WriteEnd) == {}
  {
    ReachableInv(base, r, w, data, others, cap, s);
  }

  lemma {:induction false} CountsAgree(base: Table, r: nat, w: nat, data: string, others: nat, cap: nat, s: State)
    requires FreshPipe(base, r, w) && Reached(base, r, w, data, others, cap, s)
    ensures Consistent(s.k)
  {
    ReachableInv(base, r, w, data, others, cap, s);
  }

  // ----- the stream

  /** Nothing is lost; a consumer past its end of file has everything, and so, when both waits have
      returned, has every consumer whose parent inherited no children. */
  lemma {:induction false} NothingLost(base: Table, r: nat, w: nat, data: string, others: nat, cap: nat, s: State)
    requires FreshPipe(base, r, w) && Reached(base, r, w, data, others, cap, s)
    ensures s.input + s.k.buffer + s.output == data
    ensures s.child2.Finished? || Exited(s.child2) ==> s.input == data && Exited(s.child1)
    ensures s.parent.Done? && others == 0 ==> s.input == data && s.child1.Reaped? && s.child2.Reaped?
  {
    ReachableInv(base, r, w, data, others, cap, s);
  }

  /** While the producer runs somebody can still read, so it is never ended by SIGPIPE. */
  lemma {:induction false} NoBrokenPipe(base: Table, r: nat, w: nat, data: string, others: nat, cap: nat, s: State)
    requires FreshPipe(base, r, w) && Reached(base, r, w, data, others, cap, s)
    requires s.child1.Running?
    ensures s.k.readers > 0
  {
    ReachableInv(base, r, w, data, others, cap, s);
    RunningEnds(s, data);
  }

  /** The consumer sees end of file exactly when it has everything, the producer has exited and the
      parent has closed its write end. */
  lemma {:induction false} EndOfFileExactly(base: Table, r: nat, w: nat, data: string, others: nat, cap: nat, s: State)
    requires FreshPipe(base, r, w) && Reached(base, r, w, data, others, cap, s)
    requires s.child2.Running?
    ensures Step(s, Consume(0)).Some? <==>
              s.input == data && Exited(s.child1) && !s.parent.CloseRead? && !s.parent.CloseWrite?
  {
    ReachableInv(base, r, w, data, others, cap, s);
    if s.k.buffer == "" {
      EndOfFile(s.k, 2, STDIN_FILENO, 0);
      if Exited(s.child1) && !s.parent.CloseRead? && !s.parent.CloseWrite? {
        assert forall q: nat, f: nat :: !Holds(s.k, q, f, WriteEnd);
      } else if !Exited(s.child1) {
        RunningEnds(s, data);
      } else {
        assert Holds(s.k, 0, w, WriteEnd);
      }
    }
  }

  // ----- which steps are possible

  /** The parent goes on until it waits; a child goes on until it runs its program. */
  lemma {:induction false} MovesPossible(
    base: Table, r: nat, w: nat, data: string, others: nat, cap: nat, s: State)
    requires FreshPipe(base, r, w) && Reached(base, r, w, data, others, cap, s)
    ensures Step(s, Parent).None? <==> s.parent.Wait1? || s.parent.Wait2? || s.parent.Done?
    ensures Step(s, Child1).None? <==> s.child1.Absent? || Exited(s.child1) || (s.child1.Running? && s.output != "")
    ensures Step(s, Child2).None? <==> s.child2.Absent? || Exited(s.child2) || s.child2.Running?
  {
    ReachableInv(base, r, w, data, others, cap, s);
  }

  /** A wait returns for any child that is dead, in either order. */
  lemma {:induction false} WaitsPossible(
    base: Table, r: nat, w: nat, data: string, others: nat, cap: nat, s: State)
    requires FreshPipe(base, r, w) && Reached(base, r, w, data, others, cap, s)
    ensures var waiting := s.parent.Wait1? || s.parent.Wait2?;
            && (Step(s, WaitFor1).Some? <==> waiting && s.child1.Zombie?)
            && (Step(s, WaitFor2).Some? <==> waiting && s.child2.Zombie?)
            && (Step(s, WaitForOther).Some? <==> waiting && s.left > 0)
  {
  }

  /** Any piece that fits is written, and any number of bytes that are there is read. */
  lemma {:induction false} DataPossible(
    base: Table, r: nat, w: nat, data: string, others: nat, cap: nat, s: State, count: nat)
    requires FreshPipe(base, r, w) && Reached(base, r, w, data, others, cap, s)
    ensures Step(s, Produce(count)).Some? <==>
            s.child1.Running? && 0 < count <= |s.output| && |s.k.buffer| + count <= cap
    ensures Step(s, Produce(count)).Some? ==>
              Step(s, Produce(count)).value.k.buffer == s.k.buffer + s.output[..count]
    ensures count > 0 ==> (Step(s, Consume(count)).Some? <==> s.child2.Running? && count <= |s.k.buffer|)
    ensures count > 0 && Step(s, Consume(count)).Some? ==>
              Step(s, Consume(count)).value.input == s.input + s.k.buffer[..count]
              && Step(s, Consume(count)).value.child2.Running?
    ensures Step(s, Consume(0)).Some? ==> Step(s, Consume(0)).value == s.(child2 := Finished)
  {
    ReachableInv(base, r, w, data, others, cap, s);
    if s.child1.Running? {
      RunningEnds(s, data);
    }
  }

  // ----- progress

  predicate AllEnded(s: State) { s.parent.Done? && Exited(s.child1) && Exited(s.child2) }

  /** Some process can move until all have ended; in particular no call ever fails. */
  lemma {:induction false} DeadlockFree(base: Table, r: nat, w: nat, data: string, others: nat, cap: nat, s: State)
    returns (e: Label)
    requires FreshPipe(base, r, w) && cap > 0
    requires Reached(base, r, w, data, others, cap, s)
    requires !AllEnded(s)
    ensures Step(s, e).Some?
  {
    ReachableInv(base, r, w, data, others, cap, s);
    if s.parent.Fork1? || s.parent.Fork2? || s.parent.CloseRead? || s.parent.CloseWrite? {
      e := Parent;
    } else if s.child1.Zombie? && !s.parent.Done? {
      e := WaitFor1;
    } else if s.child2.Zombie? && !s.parent.Done? {
      e := WaitFor2;
    } else if !s.child2.Running? && !Exited(s.child2) {
      e := Child2;
    } else if s.child2.Running? && s.k.buffer != "" {
      e := Consume(1);
    } else if !Exited(s.child1) {
      RunningEnds(s, data);
      e := if s.child1.Running? && s.output != "" then Produce(1) else Child1;
    } else {
      EndOfFileExactly(base, r, w, data, others, cap, s);
      e := Consume(0);
    }
  }

  function ParentWork(s: State): int {
    match s.parent
    case Fork1 => 6
    case Fork2 => 5
    case CloseRead => 4
    case CloseWrite => 3
    case Wait1 => 2
    case Wait2 => 1
    case Done => 0
  }

  function ChildWork(c: ChildPc): int {
    match c
    case Absent => 5
    case CloseOther => 5
    case Dup => 4
    case CloseOriginal => 3
    case Running => 2
    case Finished => 1
    case Zombie => 0
    case Reaped => 0
  }

  function Rank(s: State): int {
    ParentWork(s) + ChildWork(s.child1) + ChildWork(s.child2) + 2 * |s.output| + |s.k.buffer|
  }

  lemma {:induction false} ChildLowersRank(s: State, e: Label)
    requires Step(s, e).Some? && (e.Child1? || e.Child2?)
    ensures Rank(Step(s, e).value) < Rank(s)
  {
  }

  lemma {:induction false} StepLowersRank(s: State, e: Label)
    requires TablesInv(s) && Step(s, e).Some?
    ensures Rank(Step(s, e).value) < Rank(s)
  {
    if e.Child1? || e.Child2? {
      ChildLowersRank(s, e);
    }
  }

  lemma {:induction false} RankNonNegative(s: State)
    ensures 0 <= Rank(s)
  {
  }

  lemma {:induction false} RunLowersRank(s: State, data: string, es: seq<Label>)
    requires Inv(s, data) && Run(Step, s, es).Some?
    ensures |es| <= Rank(s)
  {
    InvInductive(data);
    forall s: State, e: Label | InvOf(data)(s) && Step(s, e).Some? ensures Rank(Step(s, e).value) < Rank(s) {
      StepLowersRank(s, e);
    }
    Descent(Step, InvOf(data), Rank, s, es);
    RankNonNegative(Run(Step, s, es).value);
  }

  /** Both waits return after boundedly many steps of the three processes. */
  lemma {:induction false} RunsAreBounded(
    base: Table, r: nat, w: nat, data: string, others: nat, cap: nat, es: seq<Label>)
    requires FreshPipe(base, r, w)
    requires Run(Step, Init(base, r, w, data, others, cap), es).Some?
    ensures |es| <= 2 * |data| + 16
  {
    InitInv(base, r, w, data, others, cap);
    RunLowersRank(Init(base, r, w, data, others, cap), data, es);
  }

  /** A schedule that goes on as long as it can ends with all processes ended and all data consumed;
      without inherited children both children are reaped. */
  lemma {:induction false} MaximalRunsFinish(
    base: Table, r: nat, w: nat, data: string, others: nat, cap: nat, es: seq<Label>, t: State)
    requires FreshPipe(base, r, w) && cap > 0
    requires Run(Step, Init(base, r, w, data, others, cap), es) == Some(t)
    requires forall e: Label :: Step(t, e).None?
    ensures AllEnded(t) && t.input == data
    ensures others == 0 ==> t.child1.Reaped? && t.child2.Reaped?
  {
    assert Reached(base, r, w, data, others, cap, t);
    if !AllEnded(t) {
      var e := DeadlockFree(base, r, w, data, others, cap, t);
    }
    NothingLost(base, r, w, data, others, cap, t);
  }

  // ----- children left behind

  lemma {:induction false} LeftLowered(s: State, e: Label)
    requires Step(s, e).Some?
    ensures Step(s, e).value.left <= s.left
  {
  }

  /** Every schedule can be continued until the parent is done. */
  lemma {:induction false} ParentFinishes(
    base: Table, r: nat, w: nat, data: string, others: nat, cap: nat, s: State) returns (t: State)
    requires FreshPipe(base, r, w) && cap > 0 && Reached(base, r, w, data, others, cap, s)
    ensures Reached(base, r, w, data, others, cap, t) && t.parent.Done? && t.left <= s.left
    decreases Rank(s)
  {
    if s.parent.Done? {
      t := s;
    } else {
      var e := DeadlockFree(base, r, w, data, others, cap, s);
      ReachableInv(base, r, w, data, others, cap, s);
      ReachesNext(Step, Init(base, r, w, data, others, cap), s, e);
      StepLowersRank(s, e);
      RankNonNegative(s);
      LeftLowered(s, e);
      t := ParentFinishes(base, r, w, data, others, cap, Step(s, e).value);
    }
  }

  /** The parent is about to wait for the first time. */
  lemma {:induction false} WaitReached(base: Table, r: nat, w: nat, data: string, others: nat, cap: nat)
    returns (s: State)
    requires FreshPipe(base, r, w)
    ensures Reached(base, r, w, data, others, cap, s) && s.parent.Wait1? && s.left == others
  {
    var init := Init(base, r, w, data, others, cap);
    ReachesInit(Step, init);
    s := init;
    while !s.parent.Wait1?
      invariant Reachable(Step, init, s) && s.left == others && Waits(s.parent) == 0
      decreases ParentWork(s)
    {
      ReachableInv(base, r, w, data, others, cap, s);
      ReachesNext(Step, init, s, Parent);
      s := Step(s, Parent).value;
    }
  }

  /** Both waits have returned, and a child is not reaped. */
  predicate LeavesChild(s: State) { s.parent.Done? && !(s.child1.Reaped? && s.child2.Reaped?) }

  ghost predicate CanLeaveChild(init: State) { exists s: State :: Reachable(Step, init, s) && LeavesChild(s) }

  /** Both waits can return with a forked child unreaped exactly when there are inherited children. */
  lemma {:induction false} LeavesChildExactly(
    base: Table, r: nat, w: nat, data: string, others: nat, cap: nat)
    requires FreshPipe(base, r, w) && cap > 0
    ensures CanLeaveChild(Init(base, r, w, data, others, cap)) <==> others > 0
  {
    var init := Init(base, r, w, data, others, cap);
    forall s: State | Reachable(Step, init, s) && LeavesChild(s) ensures others > 0 {
      ReachableInv(base, r, w, data, others, cap, s);
    }
    if others > 0 {
      var s := WaitReached(base, r, w, data, others, cap);
      ReachesNext(Step, init, s, WaitForOther);
      var t := ParentFinishes(base, r, w, data, others, cap, Step(s, WaitForOther).value);
      ReachableInv(base, r, w, data, others, cap, t);
      assert LeavesChild(t);
    }
  }

  // ----- the program

  /** The three processes over one pipe, updated in place, one system call per step. */
  class Program {
    const pipe: Pipe
    const r: nat
    const w: nat
    const others: nat
    ghost const base: Table
    ghost const data: string
    var parent: ParentPc
    var child1: ChildPc
    var child2: ChildPc
    var output: string
    var input: string
    var left: nat

    ghost function View(): State
      reads this, pipe
    {
      State(pipe.View(), base, r, w, others, parent, child1, child2, output, input, left)
    }

    ghost predicate Valid()
      reads this, pipe
    {
      Inv(View(), data)
    }

    constructor (base: Table, r: nat, w: nat, data: string, others: nat, cap: nat)
      requires FreshPipe(base, r, w)
      ensures Valid() && View() == Init(base, r, w, data, others, cap) && this.data == data
      ensures fresh(pipe)
    {
      pipe := new Pipe(base, r, w, cap);
      this.r, this.w, this.base, this.data, this.others := r, w, base, data, others;
      parent, child1, child2, output, input, left := Fork1, Absent, Absent, data, "", others;
      new;
      InitInv(base, r, w, data, others, cap);
    }

    /** Lines 38, 69 and 100-109. */
    method StepParent() returns (moved: bool)
      requires Valid()
      modifies this, pipe
      ensures Valid()
      ensures Performs(Step, old(View()), Parent, moved, View())
      ensures moved <==> old(parent.Fork1? || parent.Fork2? || parent.CloseRead? || parent.CloseWrite?)
    {
      ghost var s := View();
      match parent {
        case Fork1 =>
          moved := pipe.DoFork(0);
          parent, child1 := Fork2, CloseOther;
        case Fork2 =>
          moved := pipe.DoFork(0);
          parent, child2 := CloseRead, CloseOther;
        case CloseRead =>
          moved := pipe.DoClose(0, r);
          parent := CloseWrite;
        case CloseWrite =>
          moved := pipe.DoClose(0, w);
          parent := Wait1;
        case _ => moved := false;
      }
      if moved {
        StepKeepsInv(s, Parent, data);
      }
    }

    /** Lines 43-63. */
    method StepChild1() returns (moved: bool)
      requires Valid()
      modifies this, pipe
      ensures Valid()
      ensures Performs(Step, old(View()), Child1, moved, View())
      ensures old(child1.CloseOther? || child1.Dup? || child1.CloseOriginal?) ==> moved
    {
      ghost var s := View();
      moved := true;
      match child1 {
        case CloseOther =>
          moved := pipe.DoClose(1, r);
          child1 := Dup;
        case Dup =>
          if w == STDOUT_FILENO {
            child1 := Running;
          } else {
            moved := pipe.DoDup2(1, w, STDOUT_FILENO);
            child1 := CloseOriginal;
          }
        case CloseOriginal =>
          moved := pipe.DoClose(1, w);
          child1 := Running;
        case Running =>
          if output == "" {
            moved := pipe.DoExit(1);
            child1 := Zombie;
          } else {
            moved := false;
          }
        case _ => moved := false;
      }
      if moved {
        StepKeepsInv(s, Child1, data);
      }
    }

    /** Lines 74-94. */
    method StepChild2() returns (moved: bool)
      requires Valid()
      modifies this, pipe
      ensures Valid()
      ensures Performs(Step, old(View()), Child2, moved, View())
      ensures old(child2.CloseOther? || child2.Dup? || child2.CloseOriginal? || child2.Finished?) ==> moved
    {
      ghost var s := View();
      moved := true;
      match child2 {
        case CloseOther =>
          moved := pipe.DoClose(2, w);
          child2 := Dup;
        case Dup =>
          if r == STDIN_FILENO {
            child2 := Running;
          } else {
            moved := pipe.DoDup2(2, r, STDIN_FILENO);
            child2 := CloseOriginal;
          }
        case CloseOriginal =>
          moved := pipe.DoClose(2, r);
          child2 := Running;
        case Finished =>
          moved := pipe.DoExit(2);
          child2 := Zombie;
        case _ => moved := false;
      }
      if moved {
        StepKeepsInv(s, Child2, data);
      }
    }

    method ProducerWrites(count: nat) returns (moved: bool)
      requires Valid()
      modifies this, pipe
      ensures Valid()
      ensures Performs(Step, old(View()), Produce(count), moved, View())
    {
      ghost var s := View();
      moved := child1 == Running && 0 < count <= |output|;
      if moved {
        RunningEnds(s, data);
        var status := pipe.DoWrite(1, STDOUT_FILENO, output[..count]);
        moved := status.Written?;
        if moved {
          output := output[count..];
          StepKeepsInv(s, Produce(count), data);
        }
      }
    }

    method ConsumerReads(count: nat) returns (moved: bool)
      requires Valid()
      modifies this, pipe
      ensures Valid()
      ensures Performs(Step, old(View()), Consume(count), moved, View())
    {
      ghost var s := View();
      moved := child2 == Running;
      if moved {
        var data': string;
        moved, data' := pipe.DoRead(2, STDIN_FILENO, count, count);
        if moved {
          input := input + data';
          child2 := if count == 0 then Finished else Running;
          StepKeepsInv(s, Consume(count), data);
        }
      }
    }

    /** Lines 111 and 116: wait for whichever child is a zombie. */
    method ParentWaits(first: bool) returns (moved: bool)
      requires Valid()
      modifies this
      ensures Valid()
      ensures Performs(Step, old(View()), if first then WaitFor1 else WaitFor2, moved, View())
    {
      ghost var s := View();
      moved := (if first then child1 else child2) == Zombie && (parent == Wait1 || parent == Wait2);
      if moved {
        parent := if parent == Wait1 then Wait2 else Done;
        if first {
          child1 := Reaped;
        } else {
          child2 := Reaped;
        }
        StepKeepsInv(s, if first then WaitFor1 else WaitFor2, data);
      }
    }

    /** The same for a child that the parent inherited. */
    method ParentWaitsForOther() returns (moved: bool)
      requires Valid()
      modifies this
      ensures Valid()
      ensures Performs(Step, old(View()), WaitForOther, moved, View())
    {
      ghost var s := View();
      moved := left > 0 && (parent == Wait1 || parent == Wait2);
      if moved {
        parent := if parent == Wait1 then Wait2 else Done;
        left := left - 1;
        StepKeepsInv(s, WaitForOther, data);
      }
    }
  }
}
