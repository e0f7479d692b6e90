/**
 The barrier of process_comm_template/pipe_sync/pipe_sync.cpp: the parent (process 0) forks n children
 (process i + 1 is child i) and reads from a pipe, so that the read ends when every write descriptor is
 closed. Each child prints a message, unbuffered, through descriptor 1 of its own table before it
 closes its write end. When pipe() returns 1 as the write end, that message goes into the pipe.
 */
module PipeBarrier {
  import opened Sums
  import opened Runs
  import opened PipeKernel

  const STDOUT_FILENO: nat := 1

  datatype ParentPc = Forking(i: nat) | CloseWrite | ReadByte | Done | Failed | Exited(passed: bool)

  datatype ChildPc = Absent | CloseRead | Sleeping | Printing | Closing | Exiting | Gone

  /** left is what the child has not printed yet of its message. */
  datatype Process = Process(pc: ChildPc, message: string, left: string)

  datatype State = State(
    k: Kernel, base: Table, r: nat, w: nat, parent: ParentPc, children: seq<Process>)

  /** ParentGets is the parent's read returning a byte instead of end of file. Print writes the next
      `count` bytes of a message into the pipe; without readers that ends the child by SIGPIPE, or fails
      unnoticed where SIGPIPE is ignored. */
  datatype Label = Parent | ParentGets | Child(i: nat) | Print(i: nat, count: nat, ignored: bool)

  /** The printed text has fixed parts, so it is never empty. */
  predicate Printable(messages: seq<string>) { forall i | 0 <= i < |messages| :: messages[i] != "" }

  function Init(base: Table, r: nat, w: nat, messages: seq<string>, cap: nat): State {
    State(Create(base, r, w, cap), base, r, w, Forking(0),
          seq(|messages|, i requires 0 <= i < |messages| => Process(Absent, messages[i], messages[i])))
  }

  function Step(s: State, e: Label): Option<State> {
    match e
    case Parent => ParentStep(s)
    case ParentGets => if s.parent.ReadByte? then With(s.(parent := Failed), Read(s.k, 0, s.r, 1, 1)) else None
    case Child(i) => if i < |s.children| then ChildStep(s, i) else None
    case Print(i, count, ignored) => if i < |s.children| then PrintStep(s, i, count, ignored) else None
  }

  function With(s: State, k: Option<Kernel>): Option<State> {
    match k
    case None => None
    case Some(k') => Some(s.(k := k'))
  }

  function SetChild(s: State, i: nat, pc: ChildPc): State
    requires i < |s.children|
  {
    s.(children := s.children[i := s.children[i].(pc := pc)])
  }

  function ParentStep(s: State): Option<State> {
    match s.parent
    case Forking(i) =>
      if i < |s.children| then With(SetChild(s, i, CloseRead).(parent := Forking(i + 1)), Fork(s.k, 0))
      else Some(s.(parent := CloseWrite))
    case CloseWrite => With(s.(parent := ReadByte), Close(s.k, 0, s.w))
    case ReadByte => With(s.(parent := Done), Read(s.k, 0, s.r, 1, 0))
    case Done => With(s.(parent := Exited(true)), Exit(s.k, 0))
    case Failed => With(s.(parent := Exited(false)), Exit(s.k, 0))
    case Exited(_) => None
  }

  /** Printing ends here when nothing is left, or when the output is not the pipe. */
  function ChildStep(s: State, i: nat): Option<State>
    requires i < |s.children|
  {
    match s.children[i].pc
    case Absent => None
    case CloseRead => With(SetChild(s, i, Sleeping), Close(s.k, i + 1, s.r))
    case Sleeping => Some(SetChild(s, i, Printing))
    case Printing =>
      if s.children[i].left == "" || !Holds(s.k, i + 1, STDOUT_FILENO, WriteEnd)
      then Some(SetChild(s, i, Closing)) else None
    case Closing => With(SetChild(s, i, Exiting), Close(s.k, i + 1, s.w))
    case Exiting => With(SetChild(s, i, Gone), Exit(s.k, i + 1))
    case Gone => None
  }

  function PrintStep(s: State, i: nat, count: nat, ignored: bool): Option<State>
    requires i < |s.children|
  {
    var c := s.children[i];
    if !c.pc.Printing? || count == 0 || count > |c.left| then None
    else
      match StatusOfWrite(s.k, i + 1, STDOUT_FILENO, c.left[..count])
      case Written =>
        With(s.(children := s.children[i := c.(left := c.left[count..])]),
             Write(s.k, i + 1, STDOUT_FILENO, c.left[..count]))
      case BrokenPipe =>
        if ignored then Some(SetChild(s, i, Closing)) else With(SetChild(s, i, Gone), Exit(s.k, i + 1))
      case _ => None
  }

  // ----- invariant

  function ParentTable(base: Table, r: nat, w: nat, pc: ParentPc): Table {
    match pc
    case Forking(_) => base[r := ReadEnd][w := WriteEnd]
    case CloseWrite => base[r := ReadEnd][w := WriteEnd]
    case Exited(_) => map[]
    case _ => base[r := ReadEnd]
  }

  function ChildTable(base: Table, r: nat, w: nat, pc: ChildPc): Table {
    match pc
    case Absent => map[]
    case CloseRead => base[r := ReadEnd][w := WriteEnd]
    case Sleeping => base[w := WriteEnd]
    case Printing => base[w := WriteEnd]
    case Closing => base[w := WriteEnd]
    case Exiting => base
    case Gone => map[]
  }

  function Forked(s: State): nat { if s.parent.Forking? then s.parent.i else |s.children| }

  /** A child that has passed the barrier. */
  predicate Closed(c: Process) { c.pc.Exiting? || c.pc.Gone? }

  /** The parent read a byte. */
  predicate ReadFailed(pc: ParentPc) { pc == Failed || pc == Exited(false) }

  /** The parent read end of file. */
  predicate ReadPassed(pc: ParentPc) { pc == Done || pc == Exited(true) }

  /** No message can reach the pipe. */
  predicate Quiet(s: State) { s.w != STDOUT_FILENO || s.children == [] }

  predicate Started(c: Process) { c.left != c.message || c.pc.Closing? || Closed(c) }

  ghost predicate TablesInv(s: State) {
    && FreshPipe(s.base, s.r, s.w)
    && Forked(s) <= |s.children|
    && |s.k.tables| == Forked(s) + 1
    && s.k.tables[0] == ParentTable(s.base, s.r, s.w, s.parent)
    && (forall i: nat | i < Forked(s) :: s.k.tables[i + 1] == ChildTable(s.base, s.r, s.w, s.children[i].pc))
    && (forall i: nat | i < |s.children| :: s.children[i].pc.Absent? <==> Forked(s) <= i)
  }

  ghost predicate BarrierInv(s: State) {
    && (forall i | 0 <= i < |s.children| :: s.children[i].message != "")
    && (ReadPassed(s.parent) ==> forall i | 0 <= i < |s.children| :: Closed(s.children[i]))
    && (Quiet(s) ==> s.k.buffer == "" && !ReadFailed(s.parent))
    && (!Quiet(s) ==> !ReadPassed(s.parent))
    && (!Quiet(s) && !ReadFailed(s.parent) && s.k.buffer == "" ==>
          forall i | 0 <= i < |s.children| :: !Started(s.children[i]))
  }

  ghost predicate Inv(s: State) {
    Consistent(s.k) && TablesInv(s) && BarrierInv(s)
  }

  lemma {:induction false} InitInv(base: Table, r: nat, w: nat, messages: seq<string>, cap: nat)
    requires FreshPipe(base, r, w) && Printable(messages)
    ensures Inv(Init(base, r, w, messages, cap))
  {
    CreateConsistent(base, r, w, cap);
  }

  lemma {:induction false} StepKeepsConsistent(s: State, e: Label)
    requires Consistent(s.k) && Step(s, e).Some?
    ensures Consistent(Step(s, e).value.k)
  {
    match e
    case Parent =>
      if s.parent.Forking? && s.parent.i < |s.children| {
        ForkConsistent(s.k, 0);
      } else if s.parent.CloseWrite? {
        CloseConsistent(s.k, 0, s.w);
      } else if s.parent.Done? || s.parent.Failed? {
        ExitConsistent(s.k, 0);
      }
    case ParentGets =>
    case Child(i) =>
      match s.children[i].pc {
        case CloseRead => CloseConsistent(s.k, i + 1, s.r);
        case Closing => CloseConsistent(s.k, i + 1, s.w);
        case Exiting => ExitConsistent(s.k, i + 1);
        case _ =>
      }
    case Print(i, _, _) =>
      if s.k.readers <= 0 {
        ExitConsistent(s.k, i + 1);
      }
  }

  lemma {:induction false} ForkKeepsTables(s: State)
    requires TablesInv(s) && s.parent.Forking? && s.parent.i < |s.children|
    ensures ParentStep(s).Some? && TablesInv(ParentStep(s).value)
  {
  }

  lemma {:induction false} ParentKeepsTables(s: State)
    requires TablesInv(s) && ParentStep(s).Some?
    ensures TablesInv(ParentStep(s).value)
  {
    if s.parent.Forking? && s.parent.i < |s.children| {
      ForkKeepsTables(s);
    } else {
      Rewired(s.base, s.r, s.w, 0);
      var t := ParentStep(s).value;
      assert t.children == s.children && t.k.tables[1..] == s.k.tables[1..];
    }
  }

  predicate IsChildStep(s: State, e: Label) {
    (e.Child? || e.Print?) && e.i < |s.children| && Step(s, e).Some?
  }

  /** A step of child i changes only its record, its table, the counts and the buffer. */
  ghost predicate Moves(s: State, i: nat, t: State)
    requires i < |s.children| && i + 1 < |s.k.tables|
  {
    && |t.children| == |s.children|
    && t == s.(k := t.k, children := s.children[i := t.children[i]])
    && t.children[i].message == s.children[i].message && !t.children[i].pc.Absent?
    && t.k.tables == s.k.tables[i + 1 := ChildTable(s.base, s.r, s.w, t.children[i].pc)]
  }

  lemma {:induction false} ChildRewires(s: State, i: nat)
    requires FreshPipe(s.base, s.r, s.w) && i < |s.children| && ChildStep(s, i).Some?
    requires i + 1 < |s.k.tables| && s.k.tables[i + 1] == ChildTable(s.base, s.r, s.w, s.children[i].pc)
    ensures Moves(s, i, ChildStep(s, i).value)
  {
    Rewired(s.base, s.r, s.w, 0);
  }

  lemma {:induction false} PrintRewires(s: State, i: nat, count: nat, ignored: bool)
    requires i < |s.children| && PrintStep(s, i, count, ignored).Some?
    requires i + 1 < |s.k.tables| && s.k.tables[i + 1] == ChildTable(s.base, s.r, s.w, s.children[i].pc)
    ensures Moves(s, i, PrintStep(s, i, count, ignored).value)
  {
  }

  lemma {:induction false} ChildKeepsTables(s: State, e: Label)
    requires TablesInv(s) && IsChildStep(s, e)
    ensures TablesInv(Step(s, e).value)
  {
    assert s.k.tables[e.i + 1] == ChildTable(s.base, s.r, s.w, s.children[e.i].pc);
    match e
    case Child(i) => ChildRewires(s, i);
    case Print(i, count, ignored) => PrintRewires(s, i, count, ignored);
  }

  lemma {:induction false} StepKeepsTables(s: State, e: Label)
    requires TablesInv(s) && Step(s, e).Some?
    ensures TablesInv(Step(s, e).value)
  {
    match e
    case Parent => ParentKeepsTables(s);
    case ParentGets =>
    case _ => ChildKeepsTables(s, e);
  }

  /** The pipe has writers exactly while the parent or some child has not closed its write end. */
  lemma {:induction false} WritersLeft(s: State)
    requires Consistent(s.k) && TablesInv(s) && s.parent.ReadByte?
    ensures s.k.writers == 0 <==> forall i | 0 <= i < |s.children| :: Closed(s.children[i])
  {
    if i :| 0 <= i < |s.children| && !Closed(s.children[i]) {
      assert s.k.tables[i + 1] == ChildTable(s.base, s.r, s.w, s.children[i].pc);
      HolderCounts(s.k, i + 1, s.w, WriteEnd);
    } else {
      forall p: nat, fd: nat ensures !Holds(s.k, p, fd, WriteEnd) {
        if 0 < p <= |s.children| {
          var i := p - 1;
          assert s.k.tables[i + 1] == ChildTable(s.base, s.r, s.w, s.children[i].pc);
        }
      }
      NoHolderNoCount(s.k);
    }
  }

  /** The parent keeps the pipe readable until it exits. */
  lemma {:induction false} ParentReads(s: State)
    requires Consistent(s.k) && TablesInv(s) && !s.parent.Exited?
    ensures s.k.readers > 0
  {
    HolderCounts(s.k, 0, s.r, ReadEnd);
  }

  /** A step outside the pipe starts nothing new when the output is the pipe, and undoes no close. */
  lemma {:induction false} ChildEffect(s: State, i: nat)
    requires i < |s.children| && i + 1 < |s.k.tables| && ChildStep(s, i).Some?
    requires s.k.tables[i + 1] == ChildTable(s.base, s.r, s.w, s.children[i].pc) && s.children[i].message != ""
    ensures var t := ChildStep(s, i).value;
            t.k.buffer == s.k.buffer
            && (s.w == STDOUT_FILENO && Started(t.children[i]) ==> Started(s.children[i]))
            && (Closed(s.children[i]) ==> Closed(t.children[i]))
  {
  }

  lemma {:induction false} PrintEffect(s: State, i: nat, count: nat, ignored: bool)
    requires Consistent(s.k) && TablesInv(s) && i < |s.children| && PrintStep(s, i, count, ignored).Some?
    ensures var t := PrintStep(s, i, count, ignored).value;
            s.w == STDOUT_FILENO && !Closed(s.children[i])
            && (t.k.buffer != "" || s.parent.Exited?)
  {
    assert s.k.tables[i + 1] == ChildTable(s.base, s.r, s.w, s.children[i].pc);
    if !s.parent.Exited? {
      ParentReads(s);
    }
  }

  lemma {:induction false} ChildKeepsBarrier(s: State, e: Label)
    requires Inv(s) && IsChildStep(s, e)
    ensures BarrierInv(Step(s, e).value)
  {
    var t := Step(s, e).value;
    assert s.k.tables[e.i + 1] == ChildTable(s.base, s.r, s.w, s.children[e.i].pc);
    match e {
      case Child(i) =>
        ChildRewires(s, i);
        ChildEffect(s, i);
      case Print(i, count, ignored) =>
        PrintRewires(s, i, count, ignored);
        PrintEffect(s, i, count, ignored);
    }
    assert Moves(s, e.i, t);
    assert forall j | 0 <= j < |s.children| && j != e.i :: t.children[j] == s.children[j];
  }

  lemma {:induction false} StepKeepsBarrier(s: State, e: Label)
    requires Inv(s) && Step(s, e).Some?
    ensures BarrierInv(Step(s, e).value)
  {
    if e.Child? || e.Print? {
      ChildKeepsBarrier(s, e);
    } else if s.parent.ReadByte? {
      WritersLeft(s);
      if s.children != [] {
        assert Closed(s.children[0]) ==> Started(s.children[0]);
      }
    }
  }

  lemma {:induction false} StepKeepsInv(s: State, e: Label)
    requires Inv(s) && Step(s, e).Some?
    ensures Inv(Step(s, e).value)
  {
    StepKeepsConsistent(s, e);
    StepKeepsTables(s, e);
    StepKeepsBarrier(s, e);
  }

  lemma {:induction false} InvInductive()
    ensures Inductive(Step, Inv)
  {
    forall s: State, e: Label | Inv(s) && Step(s, e).Some? ensures Inv(Step(s, e).value) {
      StepKeepsInv(s, e);
    }
  }

  ghost predicate SameProgram(s: State, init: State) {
    && s.base == init.base && s.r == init.r && s.w == init.w && s.k.cap == init.k.cap
    && |s.children| == |init.children|
    && forall i | 0 <= i < |s.children| :: s.children[i].message == init.children[i].message
  }

  lemma {:induction false} ParentKeepsProgram(s: State)
    requires ParentStep(s).Some?
    ensures SameProgram(ParentStep(s).value, s)
  {
  }

  lemma {:induction false} ChildKeepsProgram(s: State, i: nat)
    requires i < |s.children| && ChildStep(s, i).Some?
    ensures SameProgram(ChildStep(s, i).value, s)
  {
  }

  lemma {:induction false} StepKeepsProgram(s: State, e: Label)
    requires Step(s, e).Some?
    ensures SameProgram(Step(s, e).value, s)
  {
    match e
    case Parent => ParentKeepsProgram(s);
    case Child(i) => ChildKeepsProgram(s, i);
    case _ =>
  }

  lemma {:induction false} ReachableInv(
    base: Table, r: nat, w: nat, messages: seq<string>, cap: nat, s: State)
    requires FreshPipe(base, r, w) && Printable(messages)
    requires Reachable(Step, Init(base, r, w, messages, cap), s)
    ensures Inv(s) && SameProgram(s, Init(base, r, w, messages, cap))
  {
    var init := Init(base, r, w, messages, cap);
    InvInductive();
    InitInv(base, r, w, messages, cap);
    AlwaysReachable(Step, Inv, init, s);
    var same := (s: State) => SameProgram(s, init);
    forall s: State, e: Label | same(s) && Step(s, e).Some? ensures same(Step(s, e).value) {
      StepKeepsProgram(s, e);
    }
    AlwaysReachable(Step, same, init, s);
  }

  // ----- the barrier

  /** The parent reads end of file only after all n children were forked and closed their write ends. */
  lemma {:induction false} BarrierHolds(
    base: Table, r: nat, w: nat, messages: seq<string>, cap: nat, s: State)
    requires FreshPipe(base, r, w) && Printable(messages)
    requires Reachable(Step, Init(base, r, w, messages, cap), s) && ReadPassed(s.parent)
    ensures |s.children| == |messages| && forall i | 0 <= i < |messages| :: Closed(s.children[i])
  {
    ReachableInv(base, r, w, messages, cap, s);
  }

  /** Once the parent reads, end of file comes exactly when all children have closed and the pipe is
      empty, and the pipe is always empty if standard output is not its write end. */
  lemma {:induction false} ReadEndsExactly(
    base: Table, r: nat, w: nat, messages: seq<string>, cap: nat, s: State)
    requires FreshPipe(base, r, w) && Printable(messages)
    requires Reachable(Step, Init(base, r, w, messages, cap), s) && s.parent.ReadByte?
    ensures Step(s, Parent).Some? <==>
            s.k.buffer == "" && forall i | 0 <= i < |s.children| :: Closed(s.children[i])
    ensures Step(s, ParentGets).Some? <==> s.k.buffer != ""
    ensures w != STDOUT_FILENO || messages == [] ==> s.k.buffer == ""
  {
    ReachableInv(base, r, w, messages, cap, s);
    WritersLeft(s);
  }

  lemma {:induction false} CountsAgree(
    base: Table, r: nat, w: nat, messages: seq<string>, cap: nat, s: State)
    requires FreshPipe(base, r, w) && Printable(messages)
    requires Reachable(Step, Init(base, r, w, messages, cap), s)
    ensures Consistent(s.k)
  {
    ReachableInv(base, r, w, messages, cap, s);
  }

  // ----- which steps are possible

  /** The pipe has readers exactly while the parent has not exited or a child has not closed its read end. */
  lemma {:induction false} ReadersLeft(s: State)
    requires Consistent(s.k) && TablesInv(s)
    ensures s.k.readers > 0 <==> !s.parent.Exited? || exists i | 0 <= i < |s.children| :: s.children[i].pc.CloseRead?
  {
    if !s.parent.Exited? {
      ParentReads(s);
    } else if i :| 0 <= i < |s.children| && s.children[i].pc.CloseRead? {
      assert s.k.tables[i + 1] == ChildTable(s.base, s.r, s.w, s.children[i].pc);
      HolderCounts(s.k, i + 1, s.r, ReadEnd);
    } else {
      forall p: nat, fd: nat ensures !Holds(s.k, p, fd, ReadEnd) {
        if 0 < p <= |s.children| {
          var i := p - 1;
          assert s.k.tables[i + 1] == ChildTable(s.base, s.r, s.w, s.children[i].pc);
        }
      }
      NoHolderNoCount(s.k);
    }
  }

  /** The parent waits for nothing but its read, and a child only for room for its message in the pipe. */
  lemma {:induction false} MovesPossible(
    base: Table, r: nat, w: nat, messages: seq<string>, cap: nat, s: State, i: nat)
    requires FreshPipe(base, r, w) && Printable(messages)
    requires Reachable(Step, Init(base, r, w, messages, cap), s) && i < |s.children|
    ensures !s.parent.ReadByte? ==> (Step(s, Parent).None? <==> s.parent.Exited?)
    ensures s.children[i].pc.Absent? <==> s.parent.Forking? && s.parent.i <= i
    ensures Step(s, Child(i)).None? <==>
            var c := s.children[i];
            c.pc.Absent? || c.pc.Gone? || (c.pc.Printing? && w == 1 && c.left != "")
  {
    ReachableInv(base, r, w, messages, cap, s);
    ChildBlocks(s, i);
  }

  /** A message goes into the pipe exactly if standard output is its write end. Any piece that fits is
      written; without readers the child is killed by SIGPIPE, or goes on to close where that is ignored. */
  lemma {:induction false} PrintPossible(
    base: Table, r: nat, w: nat, messages: seq<string>, cap: nat, s: State, i: nat, count: nat, ignored: bool)
    requires FreshPipe(base, r, w) && Printable(messages)
    requires Reachable(Step, Init(base, r, w, messages, cap), s) && i < |s.children|
    ensures var c, t := s.children[i], Step(s, Print(i, count, ignored));
            var readable := !s.parent.Exited? || exists j | 0 <= j < |s.children| :: s.children[j].pc.CloseRead?;
            && (t.Some? <==> c.pc.Printing? && w == 1 && 0 < count <= |c.left|
                             && (!readable || |s.k.buffer| + count <= cap))
            && (t.Some? ==>
                  if readable
                  then t.value.k.buffer == s.k.buffer + c.left[..count]
                       && t.value.children == s.children[i := c.(left := c.left[count..])]
                  else t.value.children == s.children[i := c.(pc := if ignored then Closing else Gone)]
                       && t.value.k.buffer == s.k.buffer)
  {
    ReachableInv(base, r, w, messages, cap, s);
    ReadersLeft(s);
    if i < Forked(s) {
      assert s.k.tables[i + 1] == ChildTable(s.base, s.r, s.w, s.children[i].pc);
    }
  }

  // ----- when the barrier fails

  /** The parent forks child after child; none of them has run. */
  lemma {:induction false} ForksReach(
    base: Table, r: nat, w: nat, messages: seq<string>, cap: nat, i: nat) returns (s: State)
    requires FreshPipe(base, r, w) && Printable(messages) && i <= |messages|
    ensures Reachable(Step, Init(base, r, w, messages, cap), s)
    ensures s.parent == Forking(i) && s.k.buffer == "" && |s.children| == |messages|
    ensures forall j: nat | j < i :: s.children[j] == Process(CloseRead, messages[j], messages[j])
    ensures forall j: nat | i <= j < |messages| :: s.children[j] == Process(Absent, messages[j], messages[j])
  {
    var init := Init(base, r, w, messages, cap);
    if i == 0 {
      ReachesInit(Step, init);
      s := init;
    } else {
      var s' := ForksReach(base, r, w, messages, cap, i - 1);
      ReachableInv(base, r, w, messages, cap, s');
      ReachesNext(Step, init, s', Parent);
      s := Step(s', Parent).value;
    }
  }

  lemma {:induction false} Next(
    base: Table, r: nat, w: nat, messages: seq<string>, cap: nat, s: State, e: Label) returns (t: State)
    requires FreshPipe(base, r, w) && Printable(messages)
    requires Reachable(Step, Init(base, r, w, messages, cap), s) && Step(s, e).Some?
    ensures Reachable(Step, Init(base, r, w, messages, cap), t) && Step(s, e) == Some(t)
    ensures Inv(t) && SameProgram(t, Init(base, r, w, messages, cap))
  {
    ReachesNext(Step, Init(base, r, w, messages, cap), s, e);
    t := Step(s, e).value;
    ReachableInv(base, r, w, messages, cap, t);
  }

  /** All children are forked, the parent reads and the first child is about to print. */
  lemma {:induction false} PrinterReached(
    base: Table, r: nat, w: nat, messages: seq<string>, cap: nat) returns (s: State)
    requires FreshPipe(base, r, w) && Printable(messages) && messages != []
    ensures Reachable(Step, Init(base, r, w, messages, cap), s)
    ensures Inv(s) && SameProgram(s, Init(base, r, w, messages, cap))
    ensures s.parent.ReadByte? && s.k.buffer == ""
    ensures s.children[0] == Process(Printing, messages[0], messages[0])
  {
    s := ForksReach(base, r, w, messages, cap, |messages|);
    ReachableInv(base, r, w, messages, cap, s);
    s := Next(base, r, w, messages, cap, s, Parent);
    s := Next(base, r, w, messages, cap, s, Parent);
    assert s.k.tables[0 + 1] == ChildTable(base, r, w, s.children[0].pc);
    s := Next(base, r, w, messages, cap, s, Child(0));
    s := Next(base, r, w, messages, cap, s, Child(0));
  }

  /** With the write end as standard output, the parent reads the first byte of a message while its
      writer still has to close. */
  lemma {:induction false} MessageRead(base: Table, r: nat, messages: seq<string>, cap: nat) returns (t: State)
    requires FreshPipe(base, r, STDOUT_FILENO) && Printable(messages) && messages != [] && cap > 0
    ensures Reachable(Step, Init(base, r, STDOUT_FILENO, messages, cap), t)
    ensures t.parent.Failed? && |t.children| == |messages| && t.children[0].pc.Printing?
  {
    var s := PrinterReached(base, r, STDOUT_FILENO, messages, cap);
    assert s.k.tables[0 + 1] == ChildTable(s.base, s.r, s.w, s.children[0].pc);
    ParentReads(s);
    t := Next(base, r, STDOUT_FILENO, messages, cap, s, Print(0, 1, false));
    t := Next(base, r, STDOUT_FILENO, messages, cap, t, ParentGets);
  }

  ghost predicate Fails(init: State) {
    exists s: State :: Reachable(Step, init, s) && s.parent.Failed?
  }

  /** The parent has left its read, and some child has not closed its write end. */
  predicate Early(s: State) {
    (ReadPassed(s.parent) || ReadFailed(s.parent)) && exists i | 0 <= i < |s.children| :: !Closed(s.children[i])
  }

  ghost predicate LeavesEarly(init: State) { exists s: State :: Reachable(Step, init, s) && Early(s) }

  /** The error branch of the read can be taken, and the parent can leave before some child, exactly
      when the write end is standard output and there is a child. */
  lemma {:induction false} FailsExactly(base: Table, r: nat, w: nat, messages: seq<string>, cap: nat)
    requires FreshPipe(base, r, w) && Printable(messages) && cap > 0
    ensures Fails(Init(base, r, w, messages, cap)) <==> w == STDOUT_FILENO && messages != []
    ensures LeavesEarly(Init(base, r, w, messages, cap)) <==> w == STDOUT_FILENO && messages != []
  {
    var init := Init(base, r, w, messages, cap);
    forall s: State | Reachable(Step, init, s) && (s.parent.Failed? || Early(s))
      ensures w == STDOUT_FILENO && messages != []
    {
      ReachableInv(base, r, w, messages, cap, s);
    }
    if w == STDOUT_FILENO && messages != [] {
      var t := MessageRead(base, r, messages, cap);
      assert !Closed(t.children[0]);
      assert Early(t);
    }
  }

  /** One such start: descriptors 0 and 1 are closed, so pipe() returns 0 and 1. */
  lemma {:induction false} FailsWithoutStdio(messages: seq<string>, cap: nat)
    requires Printable(messages) && messages != [] && cap > 0
    ensures LeavesEarly(Init(map[], 0, 1, messages, cap))
  {
    FailsExactly(map[], 0, 1, messages, cap);
  }

  // ----- progress

  /** A child that is neither gone nor held up by a full pipe can move. */
  lemma {:induction false} ChildCanMove(s: State, i: nat) returns (e: Label)
    requires Inv(s) && i < Forked(s) && !s.children[i].pc.Gone?
    requires s.k.readers <= 0 || |s.k.buffer| < s.k.cap || !s.children[i].pc.Printing?
    ensures Step(s, e).Some? && IsChildStep(s, e) && e.i == i
    ensures !s.children[i].pc.Printing? || s.w != STDOUT_FILENO || s.children[i].left == "" ==> e == Child(i)
  {
    assert s.k.tables[i + 1] == ChildTable(s.base, s.r, s.w, s.children[i].pc);
    e := Child(i);
    if s.children[i].pc.Printing? && s.w == STDOUT_FILENO && s.children[i].left != "" {
      e := Print(i, 1, false);
    }
  }

  /** Whoever still holds a read end after the parent exited is a child that is about to close it. */
  lemma {:induction false} ReaderLeft(s: State) returns (i: nat)
    requires Inv(s) && s.parent.Exited? && s.k.readers > 0
    ensures i < |s.children| && s.children[i].pc.CloseRead?
  {
    NoHolderNoCount(s.k);
    var p: nat, fd: nat :| Holds(s.k, p, fd, ReadEnd);
    i := p - 1;
    assert s.k.tables[i + 1] == ChildTable(s.base, s.r, s.w, s.children[i].pc);
  }

  predicate Finished(s: State) {
    s.parent.Exited? && forall i | 0 <= i < |s.children| :: s.children[i].pc.Gone?
  }

  lemma {:induction false} DeadlockFree(
    base: Table, r: nat, w: nat, messages: seq<string>, cap: nat, s: State) returns (e: Label)
    requires FreshPipe(base, r, w) && Printable(messages) && cap > 0
    requires Reachable(Step, Init(base, r, w, messages, cap), s) && !Finished(s)
    ensures Step(s, e).Some?
  {
    ReachableInv(base, r, w, messages, cap, s);
    e := Parent;
    if s.parent.Exited? {
      var i: nat :| i < |s.children| && !s.children[i].pc.Gone?;
      if s.k.readers > 0 {
        i := ReaderLeft(s);
      }
      e := ChildCanMove(s, i);
    } else if s.parent.ReadByte? {
      WritersLeft(s);
      if s.k.buffer != "" {
        e := ParentGets;
      } else if i: nat :| i < |s.children| && !Closed(s.children[i]) {
        e := ChildCanMove(s, i);
      }
    }
  }

  function PcWork(pc: ChildPc): int {
    match pc
    case Absent => 5
    case CloseRead => 5
    case Sleeping => 4
    case Printing => 3
    case Closing => 2
    case Exiting => 1
    case Gone => 0
  }

  function ChildWork(c: Process): int { PcWork(c.pc) + |c.left| }

  function MessageWork(m: string): int { 5 + |m| }

  function ParentWork(s: State): int {
    match s.parent
    case Forking(i) => |s.children| - i + 4
    case CloseWrite => 3
    case ReadByte => 2
    case Done => 1
    case Failed => 1
    case Exited(_) => 0
  }

  function Rank(s: State): int { ParentWork(s) + Sum(ChildWork, s.children) }

  lemma {:induction false} ChildWorks(s: State, e: Label)
    requires IsChildStep(s, e)
    ensures var t := Step(s, e).value;
            t.parent == s.parent && |t.children| == |s.children|
            && t.children == s.children[e.i := t.children[e.i]]
            && ChildWork(t.children[e.i]) < ChildWork(s.children[e.i])
  {
  }

  lemma {:induction false} StepLowersRank(s: State, e: Label)
    requires TablesInv(s) && Step(s, e).Some?
    ensures Rank(Step(s, e).value) < Rank(s)
  {
    if e.Child? || e.Print? {
      ChildWorks(s, e);
      Update(ChildWork, s.children, e.i, Step(s, e).value.children[e.i]);
    } else if s.parent.Forking? && s.parent.i < |s.children| {
      Update(ChildWork, s.children, s.parent.i, s.children[s.parent.i].(pc := CloseRead));
    }
  }

  lemma {:induction false} RankDescends()
    ensures forall s, e :: Inv(s) && Step(s, e).Some? ==> Rank(Step(s, e).value) < Rank(s)
  {
    forall s: State, e: Label | Inv(s) && Step(s, e).Some? ensures Rank(Step(s, e).value) < Rank(s) {
      StepLowersRank(s, e);
    }
  }

  lemma {:induction false} RankNonNegative(s: State)
    requires Forked(s) <= |s.children|
    ensures 0 <= Rank(s)
  {
    NonNegative(ChildWork, s.children);
  }

  lemma {:induction false} RunLowersRank(s: State, es: seq<Label>)
    requires Inv(s) && Run(Step, s, es).Some?
    ensures |es| <= Rank(s)
  {
    InvInductive();
    RankDescends();
    Descent(Step, Inv, Rank, s, es);
    Always(Step, Inv, s, es);
    RankNonNegative(Run(Step, s, es).value);
  }

  lemma {:induction false} RunsAreBounded(
    base: Table, r: nat, w: nat, messages: seq<string>, cap: nat, es: seq<Label>)
    requires FreshPipe(base, r, w) && Printable(messages)
    requires Run(Step, Init(base, r, w, messages, cap), es).Some?
    ensures |es| <= |messages| + 4 + Sum(MessageWork, messages)
  {
    var init := Init(base, r, w, messages, cap);
    InitInv(base, r, w, messages, cap);
    Same(ChildWork, init.children, MessageWork, messages);
    RunLowersRank(init, es);
  }

  /** A schedule that goes on as long as it can ends with all processes gone; the parent succeeded
      exactly when no message could reach the pipe. */
  lemma {:induction false} MaximalRunsFinish(
    base: Table, r: nat, w: nat, messages: seq<string>, cap: nat, es: seq<Label>, t: State)
    requires FreshPipe(base, r, w) && Printable(messages) && cap > 0
    requires Run(Step, Init(base, r, w, messages, cap), es) == Some(t)
    requires forall e: Label :: Step(t, e).None?
    ensures |t.children| == |messages| && forall i | 0 <= i < |messages| :: t.children[i].pc.Gone?
    ensures t.parent == Exited(w != STDOUT_FILENO || messages == [])
  {
    ReachableInv(base, r, w, messages, cap, t);
    if !Finished(t) {
      var e := DeadlockFree(base, r, w, messages, cap, t);
    }
  }

  lemma {:induction false} ChildBlocks(s: State, i: nat)
    requires Inv(s) && i < |s.children|
    ensures var c := s.children[i];
            ChildStep(s, i).Some? <==>
            !c.pc.Absent? && !c.pc.Gone? && (c.pc.Printing? && s.w == STDOUT_FILENO ==> c.left == "")
  {
    if i < Forked(s) {
      assert s.k.tables[i + 1] == ChildTable(s.base, s.r, s.w, s.children[i].pc);
    }
  }

  // ----- the program

  /** The processes over one pipe, updated in place, one system call per step. */
  class Program {
    const pipe: Pipe
    const r: nat
    const w: nat
    ghost const base: Table
    var parent: ParentPc
    var children: seq<Process>

    ghost function View(): State
      reads this, pipe
    {
      State(pipe.View(), base, r, w, parent, children)
    }

    ghost predicate Valid()
      reads this, pipe
    {
      Inv(View())
    }

    constructor (base: Table, r: nat, w: nat, messages: seq<string>, cap: nat)
      requires FreshPipe(base, r, w) && Printable(messages)
      ensures Valid() && View() == Init(base, r, w, messages, cap)
      ensures fresh(pipe)
    {
      pipe := new Pipe(base, r, w, cap);
      this.r, this.w, this.base := r, w, base;
      parent := Forking(0);
      children := seq(|messages|, i requires 0 <= i < |messages| => Process(Absent, messages[i], messages[i]));
      new;
      InitInv(base, r, w, messages, cap);
    }

    /** Lines 48-49, 76 and 85-88. */
    method StepParent() returns (moved: bool)
      requires Valid() && !parent.ReadByte?
      modifies this, pipe
      ensures Valid()
      ensures moved <==> !old(parent.Exited?)
      ensures Performs(Step, old(View()), Parent, moved, View())
    {
      ghost var s := View();
      moved := !parent.Exited?;
      if parent.Forking? {
        var i := parent.i;
        if i < |children| {
          moved := pipe.DoFork(0);
          children := children[i := children[i].(pc := CloseRead)];
          parent := Forking(i + 1);
        } else {
          parent := CloseWrite;
        }
      } else if parent.CloseWrite? {
        moved := pipe.DoClose(0, w);
        parent := ReadByte;
      } else if moved {
        moved := pipe.DoExit(0);
        parent := Exited(parent.Done?);
      }
      if moved {
        StepKeepsInv(s, Parent);
      }
    }

    /** Line 83: the read returns `count` bytes. */
    method ReadOne(count: nat) returns (moved: bool)
      requires Valid() && parent.ReadByte? && count <= 1
      modifies this, pipe
      ensures Valid()
      ensures Performs(Step, old(View()), if count == 0 then Parent else ParentGets, moved, View())
    {
      ghost var s := View();
      var data: string;
      moved, data := pipe.DoRead(0, r, 1, count);
      if moved {
        parent := if count == 0 then Done else Failed;
        StepKeepsInv(s, if count == 0 then Parent else ParentGets);
      }
    }

    /** Lines 60-62: the sleep, and the end of printing, at once if the message does not go into the pipe. */
    method StepChild(i: nat) returns (moved: bool)
      requires Valid() && (i < |children| ==> children[i].pc.Sleeping? || children[i].pc.Printing?)
      modifies this
      ensures Valid()
      ensures Performs(Step, old(View()), Child(i), moved, View())
      ensures moved <==> i < |old(children)| && CanStep(old(children)[i])
    {
      ghost var s := View();
      moved := i < |children| && CanStep(children[i]);
      if i < |children| {
        ChildBlocks(s, i);
      }
      if moved {
        children := children[i := children[i].(pc := if children[i].pc.Sleeping? then Printing else Closing)];
        StepKeepsInv(s, Child(i));
      }
    }

    /** Lines 54-58 and 64-70: the closes and the exit. */
    method ChildCloses(i: nat) returns (moved: bool)
      requires Valid() && (i < |children| ==> !children[i].pc.Sleeping? && !children[i].pc.Printing?)
      modifies this, pipe
      ensures Valid()
      ensures Performs(Step, old(View()), Child(i), moved, View())
      ensures moved <==> i < |old(children)| && CanStep(old(children)[i])
    {
      ghost var s := View();
      moved := i < |children| && CanStep(children[i]);
      if i < |children| {
        ChildBlocks(s, i);
      }
      if moved {
        var pc := children[i].pc;
        if pc.CloseRead? {
          var ok := pipe.DoClose(i + 1, r);
          pc := Sleeping;
        } else if pc.Closing? {
          var ok := pipe.DoClose(i + 1, w);
          pc := Exiting;
        } else {
          var ok := pipe.DoExit(i + 1);
          pc := Gone;
        }
        children := children[i := children[i].(pc := pc)];
        StepKeepsInv(s, Child(i));
      }
    }

    predicate CanStep(c: Process) {
      !c.pc.Absent? && !c.pc.Gone? && (c.pc.Printing? && w == STDOUT_FILENO ==> c.left == "")
    }

    /** What becomes of a child whose print finds no reader. */
    method PrintBroken(i: nat, ignored: bool)
      requires i < |children| && i + 1 < |pipe.tables|
      modifies this, pipe
      ensures var s := old(View());
              View() == if ignored then SetChild(s, i, Closing)
                        else SetChild(s, i, Gone).(k := Exit(s.k, i + 1).value)
    {
      if !ignored {
        var ok := pipe.DoExit(i + 1);
      }
      children := children[i := children[i].(pc := if ignored then Closing else Gone)];
    }

    /** Line 62 when descriptor 1 is the pipe's write end: the next `count` bytes of the message. */
    method ChildPrints(i: nat, count: nat, ignored: bool) returns (moved: bool)
      requires Valid()
      modifies this, pipe
      ensures Valid()
      ensures Performs(Step, old(View()), Print(i, count, ignored), moved, View())
    {
      ghost var s := View();
      moved := i < |children| && children[i].pc.Printing? && 0 < count <= |children[i].left|;
      if moved {
        var c := children[i];
        var status := pipe.DoWrite(i + 1, STDOUT_FILENO, c.left[..count]);
        moved := status.Written? || status.BrokenPipe?;
        if status.Written? {
          children := children[i := c.(left := c.left[count..])];
        } else if status.BrokenPipe? {
          PrintBroken(i, ignored);
        }
      }
      if moved {
        StepKeepsInv(s, Print(i, count, ignored));
      }
    }
  }
}
