/**
 One pipe and the descriptor tables of the processes that share it, as pipe, fork, close, dup2, read,
 write and exit change them (the pages of those functions in POSIX.1-2017). The kernel counts the open
 read and write descriptors itself; end of file and EPIPE depend on those two counts only.
 */
module PipeKernel {
  import opened Sums
  import opened Runs

  datatype End = ReadEnd | WriteEnd | Other(id: nat)

  type Table = map<nat, End>

  datatype Kernel = Kernel(tables: seq<Table>, readers: int, writers: int, buffer: string, cap: nat)

  function Fds(t: Table, x: End): set<nat> { set fd | fd in t && t[fd] == x }

  function Ends(t: Table, x: End): nat { |Fds(t, x)| }

  function ReadEnds(t: Table): int { Ends(t, ReadEnd) }

  function WriteEnds(t: Table): int { Ends(t, WriteEnd) }

  function One(b: bool): int { if b then 1 else 0 }

  /** What pipe() guarantees: new, distinct descriptors. */
  ghost predicate FreshPipe(base: Table, r: nat, w: nat) {
    r != w && r !in base && w !in base && forall fd | fd in base :: base[fd].Other?
  }

  /** pipe(): one process, whose other descriptors are those of `base`. */
  function Create(base: Table, r: nat, w: nat, cap: nat): Kernel {
    Kernel([base[r := ReadEnd][w := WriteEnd]], 1, 1, "", cap)
  }

  function Holds(k: Kernel, p: nat, fd: nat, x: End): bool {
    p < |k.tables| && fd in k.tables[p] && k.tables[p][fd] == x
  }

  function Counted(k: Kernel, x: End, d: int): Kernel {
    match x
    case ReadEnd => k.(readers := k.readers + d)
    case WriteEnd => k.(writers := k.writers + d)
    case Other(_) => k
  }

  /** None when the descriptor is not open (EBADF). */
  function Close(k: Kernel, p: nat, fd: nat): Option<Kernel> {
    if p < |k.tables| && fd in k.tables[p]
    then Some(Counted(k, k.tables[p][fd], -1).(tables := k.tables[p := k.tables[p] - {fd}]))
    else None
  }

  function Dup2(k: Kernel, p: nat, source: nat, target: nat): Option<Kernel> {
    if !(p < |k.tables| && source in k.tables[p]) then None
    else if source == target then Some(k)
    else
      var x := k.tables[p][source];
      var cleared := if target in k.tables[p] then Counted(k, k.tables[p][target], -1) else k;
      var t: Table := k.tables[p][target := x];
      Some(Counted(cleared, x, 1).(tables := k.tables[p := t]))
  }

  function Fork(k: Kernel, p: nat): Option<Kernel> {
    if p < |k.tables|
    then Some(k.(tables := k.tables + [k.tables[p]],
                 readers := k.readers + ReadEnds(k.tables[p]), writers := k.writers + WriteEnds(k.tables[p])))
    else None
  }

  function Exit(k: Kernel, p: nat): Option<Kernel> {
    if p < |k.tables|
    then Some(k.(tables := k.tables[p := map[]],
                 readers := k.readers - ReadEnds(k.tables[p]), writers := k.writers - WriteEnds(k.tables[p])))
    else None
  }

  /** A read of at most `limit` bytes that returns `count`: it blocks on an empty pipe that has
      writers, and returns 0 once there are none. */
  function Read(k: Kernel, p: nat, fd: nat, limit: nat, count: nat): Option<Kernel> {
    if !Holds(k, p, fd, ReadEnd) then None
    else if k.buffer == "" then if k.writers == 0 && count == 0 then Some(k) else None
    else if 0 < count <= limit && count <= |k.buffer| then Some(k.(buffer := k.buffer[count..]))
    else None
  }

  datatype WriteStatus = Written | WouldBlock | BrokenPipe | BadDescriptor

  /** What becomes of a write of some bytes as one piece: without readers it raises SIGPIPE. */
  function StatusOfWrite(k: Kernel, p: nat, fd: nat, data: string): WriteStatus {
    if !Holds(k, p, fd, WriteEnd) then BadDescriptor
    else if k.readers <= 0 then BrokenPipe
    else if data != "" && |k.buffer| + |data| <= k.cap then Written
    else WouldBlock
  }

  function Write(k: Kernel, p: nat, fd: nat, data: string): Option<Kernel> {
    if StatusOfWrite(k, p, fd, data).Written? then Some(k.(buffer := k.buffer + data)) else None
  }

  /** The counts are the open descriptors of all processes together. */
  ghost predicate Consistent(k: Kernel) {
    k.readers == Sum(ReadEnds, k.tables) && k.writers == Sum(WriteEnds, k.tables)
  }

  /** Only the caller's table changes, as the pages of the calls say: close removes the descriptor, dup2
      makes the target what the source is, fork copies the table and exit empties it. A call fails only on
      a descriptor that is not open. */
  lemma {:induction false} CallsExactly(k: Kernel, p: nat, fd: nat, target: nat)
    requires p < |k.tables|
    ensures var t := k.tables[p];
            && (Close(k, p, fd).Some? <==> fd in t) && (Dup2(k, p, fd, target).Some? <==> fd in t)
            && (fd in t ==> Close(k, p, fd).value.tables == k.tables[p := t - {fd}])
            && (fd in t ==> var u: Table := t[target := t[fd]];
                            Dup2(k, p, fd, target).value.tables == k.tables[p := u])
            && Fork(k, p).Some? && Fork(k, p).value.tables == k.tables + [t]
            && Exit(k, p).Some? && Exit(k, p).value.tables == k.tables[p := map[]]
    ensures forall k' | Some(k') in [Close(k, p, fd), Dup2(k, p, fd, target), Fork(k, p), Exit(k, p)] ::
              k'.buffer == k.buffer && k'.cap == k.cap
  {
    if fd in k.tables[p] {
      assert k.tables[p][fd := k.tables[p][fd]] == k.tables[p];
      assert k.tables[p := k.tables[p]] == k.tables;
    }
  }

  lemma {:induction false} EndsWithout(t: Table, fd: nat, x: End)
    requires fd in t
    ensures Ends(t - {fd}, x) == Ends(t, x) - One(t[fd] == x)
  {
    assert Fds(t - {fd}, x) == Fds(t, x) - {fd};
  }

  lemma {:induction false} EndsWith(t: Table, fd: nat, y: End, x: End)
    ensures Ends(t[fd := y], x) == Ends(t, x) - One(fd in t && t[fd] == x) + One(y == x)
  {
    assert Fds(t[fd := y], x) == if y == x then Fds(t, x) + {fd} else Fds(t, x) - {fd};
  }

  lemma {:induction false} EndsOfNone(x: End)
    ensures Ends(map[], x) == 0
  {
    assert Fds(map[], x) == {};
  }

  lemma {:induction false} CreateConsistent(base: Table, r: nat, w: nat, cap: nat)
    requires FreshPipe(base, r, w)
    ensures Consistent(Create(base, r, w, cap))
  {
    var t: Table := base[r := ReadEnd];
    assert Fds(base, ReadEnd) == {} && Fds(base, WriteEnd) == {};
    EndsWith(base, r, ReadEnd, ReadEnd);
    EndsWith(base, r, ReadEnd, WriteEnd);
    EndsWith(t, w, WriteEnd, ReadEnd);
    EndsWith(t, w, WriteEnd, WriteEnd);
  }

  /** What close, and dup2 onto `std` before close, leave of the table of pipe()'s caller. */
  lemma {:induction false} Rewired(base: Table, r: nat, w: nat, std: nat)
    requires FreshPipe(base, r, w)
    ensures base[r := ReadEnd][w := WriteEnd] - {r} == base[w := WriteEnd]
    ensures base[r := ReadEnd][w := WriteEnd] - {w} == base[r := ReadEnd]
    ensures base[w := WriteEnd] - {w} == base && base[r := ReadEnd] - {r} == base
    ensures w != std ==> base[w := WriteEnd][std := WriteEnd] - {w} == base[std := WriteEnd]
    ensures r != std ==> base[r := ReadEnd][std := ReadEnd] - {r} == base[std := ReadEnd]
  {
  }

  lemma {:induction false} CloseConsistent(k: Kernel, p: nat, fd: nat)
    requires Consistent(k) && Close(k, p, fd).Some?
    ensures Consistent(Close(k, p, fd).value)
  {
    var t := k.tables[p] - {fd};
    Update(ReadEnds, k.tables, p, t);
    Update(WriteEnds, k.tables, p, t);
    EndsWithout(k.tables[p], fd, ReadEnd);
    EndsWithout(k.tables[p], fd, WriteEnd);
  }

  lemma {:induction false} Dup2Consistent(k: Kernel, p: nat, source: nat, target: nat)
    requires Consistent(k) && Dup2(k, p, source, target).Some?
    ensures Consistent(Dup2(k, p, source, target).value)
  {
    var x := k.tables[p][source];
    var t: Table := k.tables[p][target := x];
    Update(ReadEnds, k.tables, p, t);
    Update(WriteEnds, k.tables, p, t);
    EndsWith(k.tables[p], target, x, ReadEnd);
    EndsWith(k.tables[p], target, x, WriteEnd);
  }

  lemma {:induction false} ForkConsistent(k: Kernel, p: nat)
    requires Consistent(k) && Fork(k, p).Some?
    ensures Consistent(Fork(k, p).value)
  {
    Append(ReadEnds, k.tables, [k.tables[p]]);
    Append(WriteEnds, k.tables, [k.tables[p]]);
  }

  lemma {:induction false} ExitConsistent(k: Kernel, p: nat)
    requires Consistent(k) && Exit(k, p).Some?
    ensures Consistent(Exit(k, p).value)
  {
    Update(ReadEnds, k.tables, p, map[]);
    Update(WriteEnds, k.tables, p, map[]);
    EndsOfNone(ReadEnd);
    EndsOfNone(WriteEnd);
  }

  lemma {:induction false} HolderCounts(k: Kernel, p: nat, fd: nat, x: End)
    requires Consistent(k) && Holds(k, p, fd, x)
    ensures x == ReadEnd ==> k.readers > 0
    ensures x == WriteEnd ==> k.writers > 0
  {
    assert fd in Fds(k.tables[p], x);
    AtLeast(ReadEnds, k.tables, p);
    AtLeast(WriteEnds, k.tables, p);
  }

  lemma {:induction false} NoFds(k: Kernel, x: End)
    requires forall p, fd :: !Holds(k, p, fd, x)
    ensures forall p | 0 <= p < |k.tables| :: Ends(k.tables[p], x) == 0
  {
    forall p | 0 <= p < |k.tables| ensures Ends(k.tables[p], x) == 0 {
      if fd :| fd in Fds(k.tables[p], x) {
        assert Holds(k, p, fd, x);
      }
    }
  }

  lemma {:induction false} NoHolderNoCount(k: Kernel)
    requires Consistent(k)
    ensures (forall p, fd :: !Holds(k, p, fd, WriteEnd)) ==> k.writers == 0
    ensures (forall p, fd :: !Holds(k, p, fd, ReadEnd)) ==> k.readers == 0
  {
    if forall p, fd :: !Holds(k, p, fd, WriteEnd) {
      NoFds(k, WriteEnd);
      Bounds(WriteEnds, k.tables, 0, 0);
    }
    if forall p, fd :: !Holds(k, p, fd, ReadEnd) {
      NoFds(k, ReadEnd);
      Bounds(ReadEnds, k.tables, 0, 0);
    }
  }

  /** A reader of an empty pipe sees end of file exactly when no process holds a write descriptor. */
  lemma {:induction false} EndOfFile(k: Kernel, p: nat, fd: nat, limit: nat)
    requires Consistent(k) && Holds(k, p, fd, ReadEnd) && k.buffer == ""
    ensures Read(k, p, fd, limit, 0).Some? <==> forall q, f :: !Holds(k, q, f, WriteEnd)
  {
    if q, f :| Holds(k, q, f, WriteEnd) {
      HolderCounts(k, q, f, WriteEnd);
    } else {
      NoHolderNoCount(k);
    }
  }

  /** The same operations on descriptor tables and counters that are updated in place. */
  class Pipe {
    var tables: seq<Table>
    var readers: int
    var writers: int
    var buffer: string
    const cap: nat

    ghost function View(): Kernel
      reads this
    {
      Kernel(tables, readers, writers, buffer, cap)
    }

    constructor (base: Table, r: nat, w: nat, cap: nat)
      ensures View() == Create(base, r, w, cap)
    {
      tables, readers, writers, buffer, this.cap := [base[r := ReadEnd][w := WriteEnd]], 1, 1, "", cap;
    }

    method Count(x: End, d: int)
      modifies `readers, `writers
      ensures View() == Counted(old(View()), x, d)
    {
      if x == ReadEnd {
        readers := readers + d;
      } else if x == WriteEnd {
        writers := writers + d;
      }
    }

    method DoClose(p: nat, fd: nat) returns (ok: bool)
      modifies this
      ensures Became(Close(old(View()), p, fd), old(View()), ok, View())
    {
      ok := p < |tables| && fd in tables[p];
      if ok {
        Count(tables[p][fd], -1);
        tables := tables[p := tables[p] - {fd}];
      }
    }

    method DoDup2(p: nat, source: nat, target: nat) returns (ok: bool)
      modifies this
      ensures Became(Dup2(old(View()), p, source, target), old(View()), ok, View())
    {
      ok := p < |tables| && source in tables[p];
      if ok && source != target {
        var x := tables[p][source];
        if target in tables[p] {
          Count(tables[p][target], -1);
        }
        Count(x, 1);
        var t: Table := tables[p][target := x];
        tables := tables[p := t];
      }
    }

    method DoFork(p: nat) returns (ok: bool)
      modifies this
      ensures Became(Fork(old(View()), p), old(View()), ok, View())
    {
      ok := p < |tables|;
      if ok {
        readers := readers + ReadEnds(tables[p]);
        writers := writers + WriteEnds(tables[p]);
        tables := tables + [tables[p]];
      }
    }

    method DoExit(p: nat) returns (ok: bool)
      modifies this
      ensures Became(Exit(old(View()), p), old(View()), ok, View())
    {
      ok := p < |tables|;
      if ok {
        readers := readers - ReadEnds(tables[p]);
        writers := writers - WriteEnds(tables[p]);
        tables := tables[p := map[]];
      }
    }

    method DoRead(p: nat, fd: nat, limit: nat, count: nat) returns (ok: bool, data: string)
      modifies this
      ensures Became(Read(old(View()), p, fd, limit, count), old(View()), ok, View())
      ensures ok ==> count <= |old(buffer)| && data == old(buffer)[..count]
    {
      ok := p < |tables| && fd in tables[p] && tables[p][fd] == ReadEnd;
      data := "";
      if ok {
        ok := if buffer == "" then writers == 0 && count == 0 else 0 < count <= limit && count <= |buffer|;
        if ok {
          data, buffer := buffer[..count], buffer[count..];
        }
      }
    }

    method DoWrite(p: nat, fd: nat, data: string) returns (status: WriteStatus)
      modifies this
      ensures status == StatusOfWrite(old(View()), p, fd, data)
      ensures Became(Write(old(View()), p, fd, data), old(View()), status.Written?, View())
    {
      if !(p < |tables| && fd in tables[p] && tables[p][fd] == WriteEnd) {
        status := BadDescriptor;
      } else if readers <= 0 {
        status := BrokenPipe;
      } else if data != "" && |buffer| + |data| <= cap {
        status := Written;
        buffer := buffer + data;
      } else {
        status := WouldBlock;
      }
    }
  }
}
