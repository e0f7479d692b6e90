/**
 The copy of process_comm_template/pipe/pipe.cpp: the parent (process 0) writes its argument into a pipe
 of any capacity, in as many pieces as the pipe's room demands, and the child (process 1) copies it to
 its standard output in chunks of at most BUF_SIZE bytes and then writes a newline. Both outputs go
 through descriptor 1 of the child's own table. A write of at most `pipeBuf` bytes (PIPE_BUF) into the
 pipe is one piece. The parent may have children of its own, kept across exec: `others` of them, for
 which its wait may return as well.
 */
module PipeCopy {
  import opened Runs
  import opened PipeKernel

  const BUF_SIZE: nat := 10
  const STDOUT_FILENO: nat := 1

  /** Killed is a parent that was ended by SIGPIPE, or, where that is ignored, by the failing write. */
  datatype ParentPc = Forking | CloseRead | Writing | CloseWrite | Waiting | Done | Killed

  /** A child that ended returned 0 exactly if `ok`. */
  datatype ChildPc =
    | Absent | DropWrite | Reading | Copying | Failing | Newline | DropRead | Exiting
    | Zombie(ok: bool) | Reaped(ok: bool)

  /** rest is what the parent's write has not put into the pipe yet; buf is the child's buffer. */
  datatype State = State(
    k: Kernel, base: Table, r: nat, w: nat, arg: string, pipeBuf: nat, others: nat,
    parent: ParentPc, child: ChildPc, rest: string, buf: string, out: string)

  datatype Label = Parent | Put(count: nat) | Child | Get(count: nat) | WaitForOther

  function Init(base: Table, r: nat, w: nat, arg: string, pipeBuf: nat, others: nat, cap: nat): State {
    State(Create(base, r, w, cap), base, r, w, arg, pipeBuf, others, Forking, Absent, arg, "", "")
  }

  /** What POSIX requires of a pipe: atomic writes fit. */
  predicate Sizes(pipeBuf: nat, cap: nat) { 0 < pipeBuf <= cap }

  function Step(s: State, e: Label): Option<State> {
    match e
    case Parent => ParentStep(s)
    case Put(count) => PutStep(s, count)
    case Child => ChildStep(s)
    case Get(count) => GetStep(s, count)
    case WaitForOther => if s.parent.Waiting? && s.others > 0 then Some(s.(parent := Done)) else None
  }

  function With(s: State, k: Option<Kernel>): Option<State> {
    match k
    case None => None
    case Some(k') => Some(s.(k := k'))
  }

  function ParentStep(s: State): Option<State> {
    match s.parent
    case Forking => With(s.(parent := CloseRead, child := DropWrite), Fork(s.k, 0))
    case CloseRead => With(s.(parent := Writing), Close(s.k, 0, s.r))
    case Writing => if s.rest == "" then Some(s.(parent := CloseWrite)) else None
    case CloseWrite => With(s.(parent := Waiting), Close(s.k, 0, s.w))
    case Waiting => if s.child.Zombie? then Some(s.(parent := Done, child := Reaped(s.child.ok))) else None
    case Done => None
    case Killed => None
  }

  /** The next piece may have `count` bytes. */
  predicate PieceAllowed(arg: string, pipeBuf: nat, rest: string, count: nat) {
    0 < count <= |rest| && (|arg| <= pipeBuf ==> count == |rest|)
  }

  function PutStep(s: State, count: nat): Option<State> {
    if !s.parent.Writing? || !PieceAllowed(s.arg, s.pipeBuf, s.rest, count) then None
    else
      match StatusOfWrite(s.k, 0, s.w, s.rest[..count])
      case Written => With(s.(rest := s.rest[count..]), Write(s.k, 0, s.w, s.rest[..count]))
      case BrokenPipe => With(s.(parent := Killed), Exit(s.k, 0))
      case _ => None
  }

  /** Descriptor 1 of the child is open, and not an end of the pipe. */
  predicate CanPrint(k: Kernel) {
    |k.tables| > 1 && STDOUT_FILENO in k.tables[1] && k.tables[1][STDOUT_FILENO].Other?
  }

  function ChildStep(s: State): Option<State> {
    match s.child
    case DropWrite => With(s.(child := Reading), Close(s.k, 1, s.w))
    case Copying =>
      if CanPrint(s.k) then Some(s.(child := Reading, out := s.out + s.buf, buf := ""))
      else Some(s.(child := Failing))
    case Failing => With(s.(child := Zombie(false)), Exit(s.k, 1))
    case Newline => Some(s.(child := DropRead, out := if CanPrint(s.k) then s.out + "\n" else s.out))
    case DropRead => With(s.(child := Exiting), Close(s.k, 1, s.r))
    case Exiting => With(s.(child := Zombie(true)), Exit(s.k, 1))
    case _ => None
  }

  function GetStep(s: State, count: nat): Option<State> {
    if !s.child.Reading? || count > |s.k.buffer| then None
    else
      With(s.(child := if count == 0 then Newline else Copying, buf := s.k.buffer[..count]),
           Read(s.k, 1, s.r, BUF_SIZE, count))
  }

  // ----- invariant

  function ParentTable(base: Table, r: nat, w: nat, pc: ParentPc): Table {
    match pc
    case Forking => base[r := ReadEnd][w := WriteEnd]
    case CloseRead => base[r := ReadEnd][w := WriteEnd]
    case Writing => base[w := WriteEnd]
    case CloseWrite => base[w := WriteEnd]
    case Waiting => base
    case Done => base
    case Killed => map[]
  }

  function ChildTable(base: Table, r: nat, w: nat, pc: ChildPc): Table {
    match pc
    case Absent => map[]
    case DropWrite => base[r := ReadEnd][w := WriteEnd]
    case Exiting => base
    case Zombie(_) => map[]
    case Reaped(_) => map[]
    case _ => base[r := ReadEnd]
  }

  ghost predicate TablesInv(s: State) {
    && FreshPipe(s.base, s.r, s.w)
    && (s.child.Absent? <==> s.parent.Forking?)
    && (s.child.Reaped? ==> s.parent.Done?)
    && (s.parent.Done? && s.others == 0 ==> s.child.Reaped?)
    && |s.k.tables| == (if s.child.Absent? then 1 else 2)
    && s.k.tables[0] == ParentTable(s.base, s.r, s.w, s.parent)
    && (!s.child.Absent? ==> s.k.tables[1] == ChildTable(s.base, s.r, s.w, s.child))
  }

  predicate Ended(c: ChildPc, ok: bool) { c == Zombie(ok) || c == Reaped(ok) }

  /** The child is past its reading loop. */
  predicate Drained(c: ChildPc) { c.Newline? || Printed(c) }

  predicate Printed(c: ChildPc) { c.DropRead? || c.Exiting? || Ended(c, true) }

  predicate Failed(c: ChildPc) { c.Failing? || Ended(c, false) }

  /** What standard output gets in the end: nothing unless it was open from the start. */
  function Output(s: State): string { if STDOUT_FILENO in s.base then s.arg + "\n" else "" }

  ghost predicate DataInv(s: State) {
    && (if Printed(s.child) then s.out == Output(s) else s.out + s.buf + s.k.buffer + s.rest == s.arg)
    && (s.parent.CloseWrite? || s.parent.Waiting? || s.parent.Done? ==> s.rest == "")
    && (s.buf != "" <==> s.child.Copying? || Failed(s.child))
    && (Drained(s.child) ==> s.k.buffer == "" && s.rest == "" && (s.parent.Waiting? || s.parent.Done?))
    && (|s.arg| <= s.pipeBuf && s.rest != "" ==> s.rest == s.arg)
  }

  predicate RoomInv(s: State) { |s.k.buffer| <= s.k.cap && |s.buf| <= BUF_SIZE && |s.buf| <= s.k.cap }

  ghost predicate FailureInv(s: State) {
    && (STDOUT_FILENO in s.base ==> !Failed(s.child))
    && (STDOUT_FILENO !in s.base ==> s.out == "" && (Drained(s.child) ==> s.arg == ""))
    && (s.parent.Killed? ==> s.child == Zombie(false) && |s.arg| > s.pipeBuf)
  }

  ghost predicate Inv(s: State) {
    Consistent(s.k) && TablesInv(s) && RoomInv(s) && DataInv(s) && FailureInv(s)
  }

  lemma {:induction false} InitInv(base: Table, r: nat, w: nat, arg: string, pipeBuf: nat, others: nat, cap: nat)
    requires FreshPipe(base, r, w)
    ensures Inv(Init(base, r, w, arg, pipeBuf, others, cap))
  {
    CreateConsistent(base, r, w, cap);
  }

  lemma {:induction false} StepKeepsConsistent(s: State, e: Label)
    requires Consistent(s.k) && Step(s, e).Some?
    ensures Consistent(Step(s, e).value.k)
  {
    match e
    case Parent =>
      match s.parent {
        case Forking => ForkConsistent(s.k, 0);
        case CloseRead => CloseConsistent(s.k, 0, s.r);
        case CloseWrite => CloseConsistent(s.k, 0, s.w);
        case _ =>
      }
    case Put(_) => if s.k.readers <= 0 { ExitConsistent(s.k, 0); }
    case Child =>
      match s.child {
        case DropWrite => CloseConsistent(s.k, 1, s.w);
        case Failing => ExitConsistent(s.k, 1);
        case DropRead => CloseConsistent(s.k, 1, s.r);
        case Exiting => ExitConsistent(s.k, 1);
        case _ =>
      }
    case _ =>
  }

  /** The child keeps the pipe readable until it ends, and the parent's write end keeps the child from
      seeing end of file. */
  lemma {:induction false} EndsHeld(s: State)
    requires Inv(s)
    ensures s.parent.Writing? ==> (s.k.readers > 0 <==> s.child != Zombie(false))
    ensures s.parent.Forking? || s.parent.CloseRead? || s.parent.Writing? || s.parent.CloseWrite? ==> s.k.writers > 0
    ensures (s.parent.Waiting? || s.parent.Done?) && !s.child.DropWrite? ==> s.k.writers == 0
  {
    NoHolderNoCount(s.k);
    if s.parent.Writing? && s.child != Zombie(false) {
      HolderCounts(s.k, 1, s.r, ReadEnd);
    }
    if !(s.parent.Waiting? || s.parent.Done? || s.parent.Killed?) {
      HolderCounts(s.k, 0, s.w, WriteEnd);
    }
  }

  lemma {:induction false} ForkKeepsTables(s: State)
    requires TablesInv(s) && s.parent.Forking?
    ensures ParentStep(s).Some? && TablesInv(ParentStep(s).value)
  {
  }

  lemma {:induction false} ParentKeepsTables(s: State)
    requires TablesInv(s) && ParentStep(s).Some?
    ensures TablesInv(ParentStep(s).value)
  {
    if s.parent.Forking? {
      ForkKeepsTables(s);
    } else {
      Rewired(s.base, s.r, s.w, 0);
      var t := ParentStep(s).value;
      assert t == s.(k := t.k, parent := t.parent, child := t.child) && t.k.tables[1] == s.k.tables[1];
    }
  }

  /** A step of the child changes its record and its table only. */
  ghost predicate Moves(s: State, t: State)
    requires |s.k.tables| == 2
  {
    && t == s.(k := t.k, child := t.child, buf := t.buf, out := t.out)
    && t.k.tables == s.k.tables[1 := ChildTable(s.base, s.r, s.w, t.child)]
    && !t.child.Absent? && !t.child.Reaped?
  }

  lemma {:induction false} PrintRewires(s: State)
    requires |s.k.tables| == 2 && (s.child.Copying? || s.child.Newline?)
    requires s.k.tables[1] == ChildTable(s.base, s.r, s.w, s.child)
    ensures ChildStep(s).Some? && Moves(s, ChildStep(s).value)
  {
    assert ChildStep(s).value.k == s.k;
  }

  lemma {:induction false} EndRewires(s: State)
    requires FreshPipe(s.base, s.r, s.w) && |s.k.tables| == 2 && ChildStep(s).Some?
    requires s.k.tables[1] == ChildTable(s.base, s.r, s.w, s.child) && !s.child.Copying? && !s.child.Newline?
    ensures Moves(s, ChildStep(s).value)
  {
    Rewired(s.base, s.r, s.w, 0);
    var t := ChildStep(s).value;
    assert t == s.(k := t.k, child := t.child);
  }

  lemma {:induction false} ChildKeepsTables(s: State)
    requires TablesInv(s) && ChildStep(s).Some?
    ensures TablesInv(ChildStep(s).value)
  {
    if s.child.Copying? || s.child.Newline? {
      PrintRewires(s);
    } else {
      EndRewires(s);
    }
  }

  lemma {:induction false} StepKeepsTables(s: State, e: Label)
    requires TablesInv(s) && Step(s, e).Some?
    ensures TablesInv(Step(s, e).value)
  {
    match e
    case Parent => ParentKeepsTables(s);
    case Child => ChildKeepsTables(s);
    case _ =>
  }

  /** The child prints exactly if standard output was open when the pipe was made. */
  lemma {:induction false} PrintsExactly(s: State)
    requires TablesInv(s) && (s.child.Copying? || s.child.Newline?)
    ensures CanPrint(s.k) <==> STDOUT_FILENO in s.base
  {
  }

  lemma {:induction false} PutKeepsData(s: State, count: nat)
    requires Inv(s) && PutStep(s, count).Some?
    ensures DataInv(PutStep(s, count).value) && FailureInv(PutStep(s, count).value)
  {
    EndsHeld(s);
    assert s.rest == s.rest[..count] + s.rest[count..];
    assert s.out + s.buf + s.k.buffer + s.rest == s.out + s.buf + (s.k.buffer + s.rest[..count]) + s.rest[count..];
    assert s.child == Zombie(false) ==> s.buf != "" && |s.out + s.buf + s.k.buffer + s.rest| > |s.rest|;
  }

  lemma {:induction false} ReadKeepsData(s: State, count: nat)
    requires DataInv(s) && FailureInv(s) && count > 0 && GetStep(s, count).Some?
    ensures DataInv(GetStep(s, count).value) && FailureInv(GetStep(s, count).value)
  {
    var t := GetStep(s, count).value;
    assert s.k.buffer == s.k.buffer[..count] + s.k.buffer[count..];
    assert t.child.Copying? && t.out == s.out && t.rest == s.rest && t.parent == s.parent;
  }

  lemma {:induction false} EndKeepsData(s: State)
    requires DataInv(s) && FailureInv(s) && GetStep(s, 0).Some?
    requires s.parent.Waiting? || s.parent.Done?
    ensures DataInv(GetStep(s, 0).value) && FailureInv(GetStep(s, 0).value)
  {
    var t := GetStep(s, 0).value;
    assert t == s.(child := Newline) && s.k.buffer == "";
  }

  lemma {:induction false} GetKeepsData(s: State, count: nat)
    requires Inv(s) && GetStep(s, count).Some?
    ensures DataInv(GetStep(s, count).value) && FailureInv(GetStep(s, count).value)
  {
    if count > 0 {
      ReadKeepsData(s, count);
    } else {
      EndsHeld(s);
      EndKeepsData(s);
    }
  }

  lemma {:induction false} CopyingKeepsData(s: State)
    requires TablesInv(s) && DataInv(s) && FailureInv(s) && s.child.Copying?
    ensures DataInv(ChildStep(s).value) && FailureInv(ChildStep(s).value)
  {
    PrintsExactly(s);
  }

  lemma {:induction false} NewlineKeepsData(s: State)
    requires TablesInv(s) && DataInv(s) && FailureInv(s) && s.child.Newline?
    ensures DataInv(ChildStep(s).value) && FailureInv(ChildStep(s).value)
  {
    PrintsExactly(s);
  }

  lemma {:induction false} ChildKeepsData(s: State)
    requires DataInv(s) && FailureInv(s) && ChildStep(s).Some? && !s.child.Copying? && !s.child.Newline?
    ensures DataInv(ChildStep(s).value) && FailureInv(ChildStep(s).value)
  {
    var t := ChildStep(s).value;
    assert t == s.(k := t.k, child := t.child) && t.k.buffer == s.k.buffer;
    assert Printed(t.child) == Printed(s.child) && Failed(t.child) == Failed(s.child);
  }

  lemma {:induction false} ParentKeepsData(s: State)
    requires DataInv(s) && FailureInv(s) && ParentStep(s).Some?
    requires s.child.Absent? <==> s.parent.Forking?
    ensures DataInv(ParentStep(s).value) && FailureInv(ParentStep(s).value)
  {
    var t := ParentStep(s).value;
    assert t == s.(k := t.k, parent := t.parent, child := t.child) && t.k.buffer == s.k.buffer;
    assert Printed(t.child) == Printed(s.child) && Drained(t.child) == Drained(s.child);
  }

  lemma {:induction false} StepKeepsData(s: State, e: Label)
    requires Inv(s) && Step(s, e).Some?
    ensures DataInv(Step(s, e).value) && FailureInv(Step(s, e).value)
  {
    match e
    case Parent => ParentKeepsData(s);
    case Put(count) => PutKeepsData(s, count);
    case Get(count) => GetKeepsData(s, count);
    case Child =>
      if s.child.Copying? {
        CopyingKeepsData(s);
      } else if s.child.Newline? {
        NewlineKeepsData(s);
      } else {
        ChildKeepsData(s);
      }
    case WaitForOther =>
  }

  lemma {:induction false} StepKeepsRoom(s: State, e: Label)
    requires RoomInv(s) && Step(s, e).Some?
    ensures RoomInv(Step(s, e).value)
  {
  }

  lemma {:induction false} StepKeepsInv(s: State, e: Label)
    requires Inv(s) && Step(s, e).Some?
    ensures Inv(Step(s, e).value)
  {
    StepKeepsConsistent(s, e);
    StepKeepsTables(s, e);
    StepKeepsRoom(s, e);
    StepKeepsData(s, e);
  }

  lemma {:induction false} InvInductive()
    ensures Inductive(Step, Inv)
  {
    forall s: State, e: Label | Inv(s) && Step(s, e).Some? ensures Inv(Step(s, e).value) {
      StepKeepsInv(s, e);
    }
  }

  predicate SameProgram(s: State, init: State) {
    && s.base == init.base && s.r == init.r && s.w == init.w && s.k.cap == init.k.cap
    && s.arg == init.arg && s.pipeBuf == init.pipeBuf && s.others == init.others
  }

  lemma {:induction false} StepKeepsProgram(s: State, e: Label)
    requires Step(s, e).Some?
    ensures SameProgram(Step(s, e).value, s)
  {
  }

  lemma {:induction false} ReachableInv(
    base: Table, r: nat, w: nat, arg: string, pipeBuf: nat, others: nat, cap: nat, s: State)
    requires FreshPipe(base, r, w) && Reachable(Step, Init(base, r, w, arg, pipeBuf, others, cap), s)
    ensures Inv(s) && SameProgram(s, Init(base, r, w, arg, pipeBuf, others, cap))
  {
    var init := Init(base, r, w, arg, pipeBuf, others, cap);
    InvInductive();
    InitInv(base, r, w, arg, pipeBuf, others, cap);
    AlwaysReachable(Step, Inv, init, s);
    var same := (s: State) => SameProgram(s, init);
    forall s: State, e: Label | same(s) && Step(s, e).Some? ensures same(Step(s, e).value) {
      StepKeepsProgram(s, e);
    }
    AlwaysReachable(Step, same, init, s);
  }

  // ----- the copy

  /** Until the child is past its loop, output, child buffer, pipe and the unwritten tail make up the
      argument. If standard output was open at the start, no copy fails and the output ends as the
      argument and a newline; if not, nothing is ever written. */
  lemma {:induction false} CopiesExactly(
    base: Table, r: nat, w: nat, arg: string, pipeBuf: nat, others: nat, cap: nat, s: State)
    requires FreshPipe(base, r, w) && Reachable(Step, Init(base, r, w, arg, pipeBuf, others, cap), s)
    ensures !Printed(s.child) ==> s.out + s.buf + s.k.buffer + s.rest == arg
    ensures STDOUT_FILENO in base ==> !Failed(s.child) && (Printed(s.child) ==> s.out == arg + "\n")
    ensures STDOUT_FILENO !in base ==> s.out == "" && (Printed(s.child) ==> arg == "")
  {
    ReachableInv(base, r, w, arg, pipeBuf, others, cap, s);
  }

  /** When the child has ended, the copy is complete exactly if standard output was open, and the child
      returned 0 exactly if it was, or had nothing to copy. A parent without inherited children is done
      only then. */
  lemma {:induction false} SucceedsExactly(
    base: Table, r: nat, w: nat, arg: string, pipeBuf: nat, others: nat, cap: nat, s: State)
    requires FreshPipe(base, r, w) && Reachable(Step, Init(base, r, w, arg, pipeBuf, others, cap), s)
    requires s.child.Zombie? || s.child.Reaped? || (s.parent.Done? && others == 0)
    ensures s.out == arg + "\n" <==> STDOUT_FILENO in base
    ensures Ended(s.child, STDOUT_FILENO in base || arg == "")
    ensures s.parent.Done? && others == 0 ==> s.child.Reaped?
  {
    ReachableInv(base, r, w, arg, pipeBuf, others, cap, s);
    assert |s.out + s.buf + s.k.buffer + s.rest| >= |s.buf|;
  }

  /** End of file is not seen early: exactly when the parent is past its last close with all written
      bytes read. */
  lemma {:induction false} EndOfFileExactly(
    base: Table, r: nat, w: nat, arg: string, pipeBuf: nat, others: nat, cap: nat, s: State)
    requires FreshPipe(base, r, w) && Reachable(Step, Init(base, r, w, arg, pipeBuf, others, cap), s)
    requires s.child.Reading?
    ensures Step(s, Get(0)).Some? <==> s.out == arg && (s.parent.Waiting? || s.parent.Done?)
  {
    ReachableInv(base, r, w, arg, pipeBuf, others, cap, s);
    EndsHeld(s);
    if s.out == arg {
      assert |s.out + s.buf + s.k.buffer + s.rest| == |s.out| + |s.buf| + |s.k.buffer| + |s.rest|;
    }
  }

  /** The kernel's counts are those of the tables, and a writing parent has a reader unless the child
      failed to copy. */
  lemma {:induction false} ReaderPresent(
    base: Table, r: nat, w: nat, arg: string, pipeBuf: nat, others: nat, cap: nat, s: State)
    requires FreshPipe(base, r, w) && Reachable(Step, Init(base, r, w, arg, pipeBuf, others, cap), s)
    ensures Consistent(s.k)
    ensures s.parent.Writing? ==> (s.k.readers > 0 <==> s.child != Zombie(false))
  {
    ReachableInv(base, r, w, arg, pipeBuf, others, cap, s);
    EndsHeld(s);
  }

  // ----- which steps are possible

  /** The parent waits for nothing but the room in the pipe and, after its write, for its child. */
  lemma {:induction false} ParentPossible(
    base: Table, r: nat, w: nat, arg: string, pipeBuf: nat, others: nat, cap: nat, s: State)
    requires FreshPipe(base, r, w) && Reachable(Step, Init(base, r, w, arg, pipeBuf, others, cap), s)
    ensures Step(s, Parent).None? <==>
            || s.parent.Done? || s.parent.Killed?
            || (s.parent.Writing? && s.rest != "") || (s.parent.Waiting? && !s.child.Zombie?)
    ensures Step(s, WaitForOther).Some? <==> s.parent.Waiting? && others > 0
  {
    ReachableInv(base, r, w, arg, pipeBuf, others, cap, s);
  }

  /** A piece can be written exactly if it fits, and it must be all of an argument up to PIPE_BUF bytes;
      once the child has failed and ended, a piece ends the parent. */
  lemma {:induction false} PutPossible(
    base: Table, r: nat, w: nat, arg: string, pipeBuf: nat, others: nat, cap: nat, s: State, count: nat)
    requires FreshPipe(base, r, w) && Reachable(Step, Init(base, r, w, arg, pipeBuf, others, cap), s)
    ensures Step(s, Put(count)).Some? <==>
            && s.parent.Writing? && 0 < count <= |s.rest| && (|arg| <= pipeBuf ==> count == |s.rest|)
            && (s.child == Zombie(false) || |s.k.buffer| + count <= cap)
    ensures Step(s, Put(count)).Some? ==>
              var t := Step(s, Put(count)).value;
              if s.child == Zombie(false) then t.parent.Killed?
              else t.parent.Writing? && t.rest == s.rest[count..] && t.k.buffer == s.k.buffer + s.rest[..count]
  {
    ReachableInv(base, r, w, arg, pipeBuf, others, cap, s);
    EndsHeld(s);
  }

  /** The child waits only for bytes or end of file, and reads any number of bytes up to 10. */
  lemma {:induction false} ChildPossible(
    base: Table, r: nat, w: nat, arg: string, pipeBuf: nat, others: nat, cap: nat, s: State, count: nat)
    requires FreshPipe(base, r, w) && Reachable(Step, Init(base, r, w, arg, pipeBuf, others, cap), s)
    ensures Step(s, Child).None? <==> s.child.Absent? || s.child.Reading? || s.child.Zombie? || s.child.Reaped?
    ensures s.child.Copying? ==>
              var t := Step(s, Child).value;
              if 1 in base then t.child.Reading? && t.out == s.out + s.buf && t.buf == ""
              else t.child.Failing? && t.out == s.out && t.buf == s.buf
    ensures count > 0 ==>
              (Step(s, Get(count)).Some? <==> s.child.Reading? && count <= 10 && count <= |s.k.buffer|)
    ensures count > 0 && Step(s, Get(count)).Some? ==>
              Step(s, Get(count)).value.buf == s.k.buffer[..count]
              && Step(s, Get(count)).value.k.buffer == s.k.buffer[count..]
  {
    ReachableInv(base, r, w, arg, pipeBuf, others, cap, s);
  }

  // ----- when the parent is killed

  lemma {:induction false} Next(init: State, s: State, e: Label) returns (t: State)
    requires Reachable(Step, init, s) && Step(s, e).Some?
    requires init == Init(init.base, init.r, init.w, init.arg, init.pipeBuf, init.others, init.k.cap)
    requires FreshPipe(init.base, init.r, init.w)
    ensures Reachable(Step, init, t) && Step(s, e) == Some(t) && Inv(t) && SameProgram(t, init)
  {
    ReachesNext(Step, init, s, e);
    t := Step(s, e).value;
    ReachableInv(init.base, init.r, init.w, init.arg, init.pipeBuf, init.others, init.k.cap, t);
  }

  /** The parent can write and the child can read. */
  lemma {:induction false} BothReady(init: State) returns (s: State)
    requires init == Init(init.base, init.r, init.w, init.arg, init.pipeBuf, init.others, init.k.cap)
    requires FreshPipe(init.base, init.r, init.w)
    ensures Reachable(Step, init, s) && Inv(s) && SameProgram(s, init)
    ensures s.parent.Writing? && s.child.Reading? && s.rest == init.arg && s.k.buffer == ""
  {
    ReachesInit(Step, init);
    InitInv(init.base, init.r, init.w, init.arg, init.pipeBuf, init.others, init.k.cap);
    s := Next(init, init, Parent);
    s := Next(init, s, Parent);
    s := Next(init, s, Child);
  }

  lemma {:induction false} PutFirst(init: State, s: State) returns (t: State)
    requires init == Init(init.base, init.r, init.w, init.arg, init.pipeBuf, init.others, init.k.cap)
    requires FreshPipe(init.base, init.r, init.w) && Sizes(init.pipeBuf, init.k.cap) && |init.arg| > init.pipeBuf
    requires Reachable(Step, init, s) && Inv(s) && SameProgram(s, init)
    requires s.parent.Writing? && s.child.Reading? && s.rest == init.arg && s.k.buffer == ""
    ensures Reachable(Step, init, t) && Inv(t) && SameProgram(t, init)
    ensures t == s.(k := s.k.(buffer := init.arg[..1]), rest := init.arg[1..])
  {
    EndsHeld(s);
    t := Next(init, s, Put(1));
  }

  /** The child has read the first byte of a longer argument. */
  lemma {:induction false} OneByteCopied(init: State) returns (s: State)
    requires init == Init(init.base, init.r, init.w, init.arg, init.pipeBuf, init.others, init.k.cap)
    requires FreshPipe(init.base, init.r, init.w) && Sizes(init.pipeBuf, init.k.cap) && |init.arg| > init.pipeBuf
    ensures Reachable(Step, init, s) && Inv(s) && SameProgram(s, init)
    ensures s.parent.Writing? && s.child.Copying? && s.rest == init.arg[1..]
  {
    s := BothReady(init);
    s := PutFirst(init, s);
    s := Next(init, s, Get(1));
  }

  ghost predicate CanBeKilled(init: State) {
    exists s: State :: Reachable(Step, init, s) && s.parent.Killed?
  }

  /** SIGPIPE can end the parent exactly when standard output was closed and the argument is longer
      than an atomic write. */
  lemma {:induction false} KilledExactly(base: Table, r: nat, w: nat, arg: string, pipeBuf: nat, others: nat, cap: nat)
    requires FreshPipe(base, r, w) && Sizes(pipeBuf, cap)
    ensures CanBeKilled(Init(base, r, w, arg, pipeBuf, others, cap)) <==>
            STDOUT_FILENO !in base && |arg| > pipeBuf
  {
    var init := Init(base, r, w, arg, pipeBuf, others, cap);
    forall s: State | Reachable(Step, init, s) && s.parent.Killed?
      ensures STDOUT_FILENO !in base && |arg| > pipeBuf
    {
      ReachableInv(base, r, w, arg, pipeBuf, others, cap, s);
    }
    if STDOUT_FILENO !in base && |arg| > pipeBuf {
      var s := OneByteCopied(init);
      PrintsExactly(s);
      s := Next(init, s, Child);
      s := Next(init, s, Child);
      EndsHeld(s);
      s := Next(init, s, Put(1));
    }
  }

  // ----- progress

  predicate Finished(s: State) {
    (s.parent.Done? || s.parent.Killed?) && (s.child.Zombie? || s.child.Reaped?)
  }

  /** Neither process is stuck, however small the pipe is. */
  lemma {:induction false} DeadlockFree(
    base: Table, r: nat, w: nat, arg: string, pipeBuf: nat, others: nat, cap: nat, s: State) returns (e: Label)
    requires FreshPipe(base, r, w) && Sizes(pipeBuf, cap)
    requires Reachable(Step, Init(base, r, w, arg, pipeBuf, others, cap), s) && !Finished(s)
    ensures Step(s, e).Some?
  {
    ReachableInv(base, r, w, arg, pipeBuf, others, cap, s);
    EndsHeld(s);
    var piece := if |arg| <= pipeBuf then |s.rest| else 1;
    if ParentStep(s).Some? {
      e := Parent;
    } else if s.child.Zombie? {
      e := Put(piece);
    } else if !s.child.Reading? {
      e := Child;
    } else if s.k.buffer != "" {
      e := Get(1);
    } else {
      e := if s.parent.Writing? then Put(piece) else Get(0);
    }
  }

  function ParentWork(pc: ParentPc): int {
    match pc
    case Forking => 5
    case CloseRead => 4
    case Writing => 3
    case CloseWrite => 2
    case Waiting => 1
    case Done => 0
    case Killed => 0
  }

  function ChildWork(pc: ChildPc): int {
    match pc
    case Absent => 5
    case DropWrite => 5
    case Copying => 5
    case Reading => 4
    case Newline => 3
    case DropRead => 2
    case Exiting => 1
    case Failing => 1
    case Zombie(_) => 0
    case Reaped(_) => 0
  }

  function Rank(s: State): int {
    ParentWork(s.parent) + ChildWork(s.child) + 3 * |s.rest| + 2 * |s.k.buffer|
  }

  lemma {:induction false} PutLowersRank(s: State, count: nat)
    requires PutStep(s, count).Some?
    ensures Rank(PutStep(s, count).value) < Rank(s)
  {
    var t := PutStep(s, count).value;
    assert t.child == s.child && (t.parent.Killed? || |t.rest| + count == |s.rest|);
  }

  lemma {:induction false} GetLowersRank(s: State, count: nat)
    requires GetStep(s, count).Some?
    ensures Rank(GetStep(s, count).value) < Rank(s)
  {
  }

  lemma {:induction false} ParentLowersRank(s: State)
    requires ParentStep(s).Some? && (s.parent.Forking? ==> s.child.Absent?)
    ensures Rank(ParentStep(s).value) < Rank(s)
  {
    var t := ParentStep(s).value;
    assert t.k.buffer == s.k.buffer && t.rest == s.rest;
  }

  lemma {:induction false} ChildLowersRank(s: State)
    requires ChildStep(s).Some?
    ensures Rank(ChildStep(s).value) < Rank(s)
  {
    var t := ChildStep(s).value;
    assert t.k.buffer == s.k.buffer && t.rest == s.rest;
  }

  lemma {:induction false} StepLowersRank(s: State, e: Label)
    requires (s.parent.Forking? ==> s.child.Absent?) && Step(s, e).Some?
    ensures Rank(Step(s, e).value) < Rank(s)
  {
    match e
    case Parent => ParentLowersRank(s);
    case Put(count) => PutLowersRank(s, count);
    case Child => ChildLowersRank(s);
    case Get(count) => GetLowersRank(s, count);
    case WaitForOther =>
  }

  lemma {:induction false} RankDescends()
    ensures forall s, e :: Inv(s) && Step(s, e).Some? ==> Rank(Step(s, e).value) < Rank(s)
  {
    forall s: State, e: Label | Inv(s) && Step(s, e).Some? ensures Rank(Step(s, e).value) < Rank(s) {
      StepLowersRank(s, e);
    }
  }

  lemma {:induction false} RankNonNegative(s: State)
    ensures 0 <= Rank(s)
  {
  }

  lemma {:induction false} RunLowersRank(s: State, es: seq<Label>)
    requires Inv(s) && Run(Step, s, es).Some?
    ensures |es| <= Rank(s)
  {
    InvInductive();
    RankDescends();
    Descent(Step, Inv, Rank, s, es);
    RankNonNegative(Run(Step, s, es).value);
  }

  /** Both processes end after boundedly many steps, whatever the chunks. */
  lemma {:induction false} RunsAreBounded(
    base: Table, r: nat, w: nat, arg: string, pipeBuf: nat, others: nat, cap: nat, es: seq<Label>)
    requires FreshPipe(base, r, w)
    requires Run(Step, Init(base, r, w, arg, pipeBuf, others, cap), es).Some?
    ensures |es| <= 3 * |arg| + 10
  {
    InitInv(base, r, w, arg, pipeBuf, others, cap);
    RunLowersRank(Init(base, r, w, arg, pipeBuf, others, cap), es);
  }

  /** A schedule that goes on as long as it can ends with the argument and a newline on the output if
      standard output was open; if not, nothing was written. */
  lemma {:induction false} MaximalRunsFinish(
    base: Table, r: nat, w: nat, arg: string, pipeBuf: nat, others: nat, cap: nat, es: seq<Label>, t: State)
    requires FreshPipe(base, r, w) && Sizes(pipeBuf, cap)
    requires Run(Step, Init(base, r, w, arg, pipeBuf, others, cap), es) == Some(t)
    requires forall e: Label :: Step(t, e).None?
    ensures t.out == if STDOUT_FILENO in base then arg + "\n" else ""
    ensures if t.parent.Killed? then t.child == Zombie(false) && STDOUT_FILENO !in base && |arg| > pipeBuf
            else t.parent.Done? && Ended(t.child, STDOUT_FILENO in base || arg == "")
    ensures t.parent.Done? && others == 0 ==> t.child.Reaped?
  {
    ReachableInv(base, r, w, arg, pipeBuf, others, cap, t);
    if !Finished(t) {
      var e := DeadlockFree(base, r, w, arg, pipeBuf, others, cap, t);
    }
    if !t.parent.Killed? {
      SucceedsExactly(base, r, w, arg, pipeBuf, others, cap, t);
    }
  }

  /** One such start: descriptors 0 and 1 are closed, so pipe() returns 0 and 1. Nothing is copied, and a
      longer argument can end the parent. */
  lemma {:induction false} FailsWithoutStdio(arg: string, pipeBuf: nat, others: nat, cap: nat, es: seq<Label>, t: State)
    requires Sizes(pipeBuf, cap) && |arg| > pipeBuf
    requires Run(Step, Init(map[], 0, 1, arg, pipeBuf, others, cap), es) == Some(t)
    requires forall e: Label :: Step(t, e).None?
    ensures t.out == "" && Ended(t.child, false)
    ensures CanBeKilled(Init(map[], 0, 1, arg, pipeBuf, others, cap))
  {
    MaximalRunsFinish(map[], 0, 1, arg, pipeBuf, others, cap, es, t);
    KilledExactly(map[], 0, 1, arg, pipeBuf, others, cap);
  }

  // ----- a child left behind

  /** The parent is done, and its child is not reaped. */
  predicate LeavesChild(s: State) { s.parent.Done? && !s.child.Reaped? }

  ghost predicate CanLeaveChild(init: State) { exists s: State :: Reachable(Step, init, s) && LeavesChild(s) }

  /** Copying from start to wait can go on, unless SIGPIPE ends the parent. */
  lemma {:induction false} WaitReached(init: State, s: State) returns (t: State)
    requires init == Init(init.base, init.r, init.w, init.arg, init.pipeBuf, init.others, init.k.cap)
    requires FreshPipe(init.base, init.r, init.w) && Sizes(init.pipeBuf, init.k.cap)
    requires STDOUT_FILENO in init.base
    requires Reachable(Step, init, s) && Inv(s) && SameProgram(s, init) && !s.parent.Done?
    ensures Reachable(Step, init, t) && Inv(t) && SameProgram(t, init) && t.parent.Waiting?
    decreases Rank(s)
  {
    if s.parent.Waiting? {
      t := s;
    } else {
      var e := DeadlockFree(init.base, init.r, init.w, init.arg, init.pipeBuf, init.others, init.k.cap, s);
      var u := Next(init, s, e);
      StepLowersRank(s, e);
      RankNonNegative(s);
      t := WaitReached(init, u);
    }
  }

  predicate Fits(arg: string, cap: nat) { |arg| <= cap + (if cap < BUF_SIZE then cap else BUF_SIZE) }

  /** The pipe is full and the child has taken as much of it as it can. */
  lemma {:induction false} PipeFilled(init: State) returns (s: State)
    requires init == Init(init.base, init.r, init.w, init.arg, init.pipeBuf, init.others, init.k.cap)
    requires FreshPipe(init.base, init.r, init.w) && Sizes(init.pipeBuf, init.k.cap) && |init.arg| > init.k.cap
    ensures Reachable(Step, init, s) && Inv(s) && SameProgram(s, init)
    ensures s.parent.Writing? && s.child.Copying? && |s.rest| == |init.arg| - init.k.cap
    ensures |s.k.buffer| == init.k.cap - (if init.k.cap < BUF_SIZE then init.k.cap else BUF_SIZE)
  {
    s := BothReady(init);
    EndsHeld(s);
    s := Next(init, s, Put(init.k.cap));
    assert |s.k.buffer| == init.k.cap;
    s := Next(init, s, Get(if init.k.cap < BUF_SIZE then init.k.cap else BUF_SIZE));
  }

  /** All of the argument is in the pipe, or in the pipe and the child's buffer. */
  lemma {:induction false} AllPut(init: State) returns (s: State)
    requires init == Init(init.base, init.r, init.w, init.arg, init.pipeBuf, init.others, init.k.cap)
    requires FreshPipe(init.base, init.r, init.w) && Sizes(init.pipeBuf, init.k.cap) && Fits(init.arg, init.k.cap)
    ensures Reachable(Step, init, s) && Inv(s) && SameProgram(s, init)
    ensures s.parent.Writing? && s.rest == ""
  {
    if |init.arg| > init.k.cap {
      s := PipeFilled(init);
    } else {
      s := BothReady(init);
    }
    EndsHeld(s);
    if s.rest != "" {
      s := Next(init, s, Put(|s.rest|));
    }
  }

  lemma {:induction false} LeftBehindFits(s: State)
    requires Inv(s) && LeavesChild(s)
    ensures s.others > 0 && (STDOUT_FILENO in s.base || Fits(s.arg, s.k.cap))
  {
    assert |s.out + s.buf + s.k.buffer + s.rest| == |s.out| + |s.buf| + |s.k.buffer| + |s.rest|;
  }

  /** The parent gets as far as its wait. */
  lemma {:induction false} SomeWaitReached(init: State) returns (s: State)
    requires init == Init(init.base, init.r, init.w, init.arg, init.pipeBuf, init.others, init.k.cap)
    requires FreshPipe(init.base, init.r, init.w) && Sizes(init.pipeBuf, init.k.cap)
    requires STDOUT_FILENO in init.base || Fits(init.arg, init.k.cap)
    ensures Reachable(Step, init, s) && Inv(s) && SameProgram(s, init) && s.parent.Waiting?
  {
    if STDOUT_FILENO in init.base {
      ReachesInit(Step, init);
      InitInv(init.base, init.r, init.w, init.arg, init.pipeBuf, init.others, init.k.cap);
      s := WaitReached(init, init);
    } else {
      s := AllPut(init);
      s := Next(init, s, Parent);
      s := Next(init, s, Parent);
    }
  }

  /** The wait can return with the child unreaped exactly when there are inherited children and the
      parent can get as far as its wait: standard output was open, or the argument fits into the pipe and
      the child's buffer. */
  lemma {:induction false} LeavesChildExactly(
    base: Table, r: nat, w: nat, arg: string, pipeBuf: nat, others: nat, cap: nat)
    requires FreshPipe(base, r, w) && Sizes(pipeBuf, cap)
    ensures CanLeaveChild(Init(base, r, w, arg, pipeBuf, others, cap)) <==>
            others > 0 && (STDOUT_FILENO in base || Fits(arg, cap))
  {
    var init := Init(base, r, w, arg, pipeBuf, others, cap);
    forall s: State | Reachable(Step, init, s) && LeavesChild(s)
      ensures others > 0 && (STDOUT_FILENO in base || Fits(arg, cap))
    {
      ReachableInv(base, r, w, arg, pipeBuf, others, cap, s);
      LeftBehindFits(s);
    }
    if others > 0 && (STDOUT_FILENO in base || Fits(arg, cap)) {
      var s := SomeWaitReached(init);
      var t := Next(init, s, WaitForOther);
      assert LeavesChild(t);
    }
  }

  // ----- the program

  /** Both processes over one pipe, updated in place, one system call per step. */
  class Program {
    const pipe: Pipe
    const r: nat
    const w: nat
    const buf: array<char>
    const arg: string
    const pipeBuf: nat
    const others: nat
    ghost const base: Table
    var parent: ParentPc
    var child: ChildPc
    var rest: string
    var numRead: nat
    var out: string

    ghost predicate Shape()
      reads this
    {
      buf.Length == BUF_SIZE && numRead <= BUF_SIZE
    }

    ghost function View(): State
      reads this, pipe, buf
      requires Shape()
    {
      State(pipe.View(), base, r, w, arg, pipeBuf, others, parent, child, rest, buf[..numRead], out)
    }

    ghost predicate Valid()
      reads this, pipe, buf
    {
      Shape() && Inv(View())
    }

    constructor (base: Table, r: nat, w: nat, arg: string, pipeBuf: nat, others: nat, cap: nat)
      requires FreshPipe(base, r, w)
      ensures Valid() && View() == Init(base, r, w, arg, pipeBuf, others, cap)
      ensures fresh(pipe) && fresh(buf)
    {
      pipe := new Pipe(base, r, w, cap);
      buf := new char[BUF_SIZE](_ => ' ');
      this.r, this.w, this.base, this.arg, this.pipeBuf, this.others := r, w, base, arg, pipeBuf, others;
      parent, child, rest, numRead, out := Forking, Absent, arg, 0, "";
      new;
      InitInv(base, r, w, arg, pipeBuf, others, cap);
    }

    /** Line 47. */
    method ForkChild() returns (moved: bool)
      requires Valid() && parent.Forking?
      modifies this, pipe
      ensures Valid()
      ensures moved && Performs(Step, old(View()), Parent, moved, View())
    {
      ghost var s := View();
      moved := pipe.DoFork(0);
      parent, child := CloseRead, DropWrite;
      StepKeepsInv(s, Parent);
    }

    /** Lines 85-89 and 96-100, and the end of line 91. */
    method StepParent() returns (moved: bool)
      requires Valid() && !parent.Forking? && !parent.Waiting?
      modifies this, pipe
      ensures Valid()
      ensures Performs(Step, old(View()), Parent, moved, View())
      ensures old(parent.CloseRead? || parent.CloseWrite?) ==> moved
    {
      ghost var s := View();
      moved := true;
      match parent {
        case CloseRead =>
          moved := pipe.DoClose(0, r);
          parent := Writing;
        case Writing =>
          moved := rest == "";
          if moved {
            parent := CloseWrite;
          }
        case CloseWrite =>
          moved := pipe.DoClose(0, w);
          parent := Waiting;
        case _ => moved := false;
      }
      if moved {
        StepKeepsInv(s, Parent);
      }
    }

    /** Line 102. */
    method ParentWaits() returns (moved: bool)
      requires Valid() && parent.Waiting?
      modifies this
      ensures Valid()
      ensures Performs(Step, old(View()), Parent, moved, View())
    {
      ghost var s := View();
      moved := child.Zombie?;
      if moved {
        parent, child := Done, Reaped(child.ok);
        StepKeepsInv(s, Parent);
      }
    }

    /** The same for a child that the parent inherited. */
    method ParentWaitsForOther() returns (moved: bool)
      requires Valid()
      modifies this
      ensures Valid()
      ensures Performs(Step, old(View()), WaitForOther, moved, View())
    {
      ghost var s := View();
      moved := parent.Waiting? && others > 0;
      if moved {
        parent := Done;
        StepKeepsInv(s, WaitForOther);
      }
    }

    /** Line 91: the next piece of the parent's write, or SIGPIPE. */
    method ParentWrites(count: nat) returns (moved: bool)
      requires Valid()
      modifies this, pipe
      ensures Valid()
      ensures Performs(Step, old(View()), Put(count), moved, View())
    {
      ghost var s := View();
      moved := parent == Writing && PieceAllowed(arg, pipeBuf, rest, count);
      if moved {
        var status := pipe.DoWrite(0, w, rest[..count]);
        match status {
          case Written => rest := rest[count..];
          case BrokenPipe =>
            moved := pipe.DoExit(0);
            parent := Killed;
          case _ => moved := false;
        }
      }
      if moved {
        StepKeepsInv(s, Put(count));
      }
    }

    /** The child's descriptor 1 takes what is written to it; `ok` is write's success. */
    method Print(data: string) returns (ok: bool)
      modifies `out
      ensures ok == CanPrint(pipe.View())
      ensures out == if ok then old(out) + data else old(out)
    {
      ok := |pipe.tables| > 1 && STDOUT_FILENO in pipe.tables[1] && pipe.tables[1][STDOUT_FILENO].Other?;
      if ok {
        out := out + data;
      }
    }

    /** Line 69: what was read goes to standard output; the loop ends when that fails. */
    method ChildCopies()
      requires Valid() && child.Copying?
      modifies this
      ensures Valid()
      ensures Performs(Step, old(View()), Child, true, View())
    {
      ghost var s := View();
      var ok := Print(buf[..numRead]);
      if ok {
        numRead, child := 0, Reading;
      } else {
        child := Failing;
      }
      StepKeepsInv(s, Child);
    }

    /** Line 76: the newline; whether it is written is not checked. */
    method ChildEndsLine()
      requires Valid() && child.Newline?
      modifies this
      ensures Valid()
      ensures Performs(Step, old(View()), Child, true, View())
    {
      ghost var s := View();
      var ok := Print("\n");
      child := DropRead;
      StepKeepsInv(s, Child);
    }

    /** Lines 52-56 and 77-81. */
    method ChildCloses() returns (moved: bool)
      requires Valid()
      modifies this, pipe
      ensures Valid()
      ensures moved <==> old(child.DropWrite? || child.DropRead?)
      ensures if moved then Performs(Step, old(View()), Child, true, View()) else View() == old(View())
    {
      ghost var s := View();
      moved := child.DropWrite? || child.DropRead?;
      if moved {
        if child.DropWrite? {
          moved := pipe.DoClose(1, w);
          child := Reading;
        } else {
          moved := pipe.DoClose(1, r);
          child := Exiting;
        }
        StepKeepsInv(s, Child);
      }
    }

    /** Lines 70-72 and 82-83: the child returns, with an error or without. */
    method ChildExits() returns (moved: bool)
      requires Valid()
      modifies this, pipe
      ensures Valid()
      ensures moved <==> old(child.Failing? || child.Exiting?)
      ensures if moved then Performs(Step, old(View()), Child, true, View()) else View() == old(View())
    {
      ghost var s := View();
      moved := child.Failing? || child.Exiting?;
      if moved {
        moved := pipe.DoExit(1);
        child := Zombie(child.Exiting?);
        StepKeepsInv(s, Child);
      }
    }

    /** Lines 59-67: read into buf, or leave the loop at end of file. */
    method ChildReads(count: nat) returns (moved: bool)
      requires Valid()
      modifies this, pipe, buf
      ensures Valid()
      ensures Performs(Step, old(View()), Get(count), moved, View())
    {
      ghost var s := View();
      moved := child == Reading;
      if moved {
        var data: string;
        moved, data := pipe.DoRead(1, r, BUF_SIZE, count);
        if moved {
          forall i | 0 <= i < |data| {
            buf[i] := data[i];
          }
          numRead := count;
          assert buf[..numRead] == data;
          child := if count == 0 then Newline else Copying;
          StepKeepsInv(s, Get(count));
        }
      }
    }
  }
}
