/**
 Readline of socket_template/readline/readline.cpp, which reads one byte at a time into the caller's
 buffer.
 */
module Readline {
  import opened Integers

  /** What one read() of one byte does; after the last outcome the descriptor is at end of file. */
  datatype Outcome = Got(ch: char) | Interrupted | Failed

  datatype Ending = AtNewline | AtEndOfFile | AtError

  class Descriptor {
    var script: seq<Outcome>

    constructor (script: seq<Outcome>)
      ensures this.script == script
    {
      this.script := script;
    }

    /** read(fd, &ch, 1): 1 and a byte, 0 at end of file, or -1 with errno EINTR or another error. */
    method ReadByte() returns (numRead: int, ch: char, eintr: bool)
      modifies this
      ensures numRead == 0 <==> old(script) == []
      ensures numRead == 0 ==> script == []
      ensures numRead != 0 ==> script == old(script)[1..]
      ensures numRead != 0 ==>
                match old(script)[0]
                case Got(c) => numRead == 1 && ch == c
                case Interrupted => numRead == -1 && eintr
                case Failed => numRead == -1 && !eintr
    {
      ch, eintr := ' ', false;
      if script == [] {
        numRead := 0;
      } else {
        match script[0] {
          case Got(c) => numRead, ch := 1, c;
          case Interrupted => numRead, eintr := -1, true;
          case Failed => numRead := -1;
        }
        script := script[1..];
      }
    }
  }

  // ----- what one call takes from the descriptor

  function Line(script: seq<Outcome>): string {
    if script == [] then ""
    else
      match script[0]
      case Got(c) => if c == '\n' then [c] else [c] + Line(script[1..])
      case Interrupted => Line(script[1..])
      case Failed => ""
  }

  function Rest(script: seq<Outcome>): (rest: seq<Outcome>)
    ensures |rest| <= |script| && (Line(script) != "" ==> |rest| < |script|)
  {
    if script == [] then []
    else
      match script[0]
      case Got(c) => if c == '\n' then script[1..] else Rest(script[1..])
      case Interrupted => Rest(script[1..])
      case Failed => script[1..]
  }

  function EndingOf(script: seq<Outcome>): Ending {
    if script == [] then AtEndOfFile
    else
      match script[0]
      case Got(c) => if c == '\n' then AtNewline else EndingOf(script[1..])
      case Interrupted => EndingOf(script[1..])
      case Failed => AtError
  }

  /** n - 1 as a size_t: the most bytes that a call stores. */
  function Limit(n: nat): nat { if n == 0 then SIZE_MAX else n - 1 }

  /** The part of a line that a call with size n keeps. */
  function Kept(line: string, n: nat): string {
    if |line| <= Limit(n) then line else line[..Limit(n)]
  }

  /** The terminating NUL is missing after an error, and at end of file when nothing was stored. */
  predicate Terminated(script: seq<Outcome>, n: nat) {
    EndingOf(script).AtNewline? || (EndingOf(script).AtEndOfFile? && Kept(Line(script), n) != "")
  }

  /** The cells of the buffer that a call writes. */
  function Cells(script: seq<Outcome>, n: nat): nat {
    |Kept(Line(script), n)| + (if Terminated(script, n) then 1 else 0)
  }

  /** Contents of the buffer after a call. */
  ghost predicate Filled(before: seq<char>, after: seq<char>, kept: string, terminated: bool) {
    var end := |kept| + (if terminated then 1 else 0);
    && end <= |before| == |after|
    && after[..|kept|] == kept
    && (terminated ==> after[|kept|] == '\0')
    && after[end..] == before[end..]
  }

  /** `seen` was consumed of the line that `script` starts, and `left` remains to be read. */
  ghost predicate Progress(script: seq<Outcome>, seen: string, left: seq<Outcome>) {
    && Line(script) == seen + Line(left)
    && Rest(script) == Rest(left)
    && EndingOf(script) == EndingOf(left)
  }

  lemma {:induction false} ProgressByte(script: seq<Outcome>, seen: string, left: seq<Outcome>, ch: char)
    requires Progress(script, seen, left) && left != [] && left[0] == Got(ch)
    ensures ch != '\n' ==> Progress(script, seen + [ch], left[1..])
    ensures ch == '\n' ==> Ends(script, seen + [ch], left[1..], AtNewline)
  {
  }

  lemma {:induction false} ProgressRest(script: seq<Outcome>, seen: string, left: seq<Outcome>)
    requires Progress(script, seen, left)
    ensures left == [] ==> Ends(script, seen, left, AtEndOfFile)
    ensures left != [] && left[0].Interrupted? ==> Progress(script, seen, left[1..])
    ensures left != [] && left[0].Failed? ==> Ends(script, seen, left[1..], AtError)
  {
  }

  /** The call on `script` is over: it took `line` and stopped for this reason. */
  ghost predicate Ends(script: seq<Outcome>, line: string, left: seq<Outcome>, ending: Ending) {
    Line(script) == line && Rest(script) == left && EndingOf(script) == ending
  }

  lemma {:induction false} KeptGrows(seen: string, ch: char, n: nat)
    ensures Kept(seen + [ch], n) == if |Kept(seen, n)| < Limit(n) then Kept(seen, n) + [ch] else Kept(seen, n)
  {
  }

  lemma {:induction false} StoreByte(before: seq<char>, now: seq<char>, kept: string, ch: char)
    requires Filled(before, now, kept, false) && |kept| < |before|
    ensures Filled(before, now[|kept| := ch], kept + [ch], false)
    ensures Filled(before, now[|kept| := '\0'], kept, true)
  {
    var next := now[|kept| := ch];
    assert next[..|kept| + 1] == kept + [ch];
    assert next[|kept| + 1..] == now[|kept|..][1..];
    assert now[|kept| := '\0'][|kept| + 1..] == now[|kept|..][1..];
  }

  // ----- the line in terms of the byte stream

  function Bytes(script: seq<Outcome>): string {
    if script == [] then ""
    else (if script[0].Got? then [script[0].ch] else "") + Bytes(script[1..])
  }

  /** Everything through the first newline, or the whole stream when it has none. */
  ghost predicate IsFirstLine(line: string, stream: string) {
    && line <= stream
    && (forall i | 0 <= i < |line| - 1 :: line[i] != '\n')
    && (line == stream || (line != "" && line[|line| - 1] == '\n'))
  }

  lemma {:induction false} FirstLineUnique(line: string, other: string, stream: string)
    requires IsFirstLine(line, stream) && IsFirstLine(other, stream)
    ensures line == other
  {
  }

  lemma {:induction false} LongerFirstLine(c: char, line: string, stream: string)
    requires c != '\n' && IsFirstLine(line, stream)
    ensures IsFirstLine([c] + line, [c] + stream)
  {
    var longer := [c] + line;
    assert forall i | 0 < i < |longer| :: longer[i] == line[i - 1];
  }

  lemma {:induction false} LineIsFirst(script: seq<Outcome>)
    requires !EndingOf(script).AtError?
    ensures IsFirstLine(Line(script), Bytes(script))
  {
    if script != [] && script[0] != Got('\n') {
      LineIsFirst(script[1..]);
      if script[0].Got? {
        LongerFirstLine(script[0].ch, Line(script[1..]), Bytes(script[1..]));
      }
    }
  }

  lemma {:induction false} LineThenRest(script: seq<Outcome>)
    requires !EndingOf(script).AtError?
    ensures Bytes(script) == Line(script) + Bytes(Rest(script))
  {
    if script != [] && script[0] != Got('\n') {
      LineThenRest(script[1..]);
    }
  }

  /** Unless a read fails, a call takes exactly the first line of the stream, also when the buffer
      keeps less of it. */
  lemma {:induction false} TakesFirstLine(script: seq<Outcome>)
    requires !EndingOf(script).AtError?
    ensures IsFirstLine(Line(script), Bytes(script))
    ensures Bytes(script) == Line(script) + Bytes(Rest(script))
  {
    LineIsFirst(script);
    LineThenRest(script);
  }

  function Clean(script: seq<Outcome>): seq<Outcome> {
    if script == [] then []
    else if script[0].Interrupted? then Clean(script[1..])
    else [script[0]] + Clean(script[1..])
  }

  /** Where reads are interrupted makes no difference to a call or to what the next one sees. */
  lemma {:induction false} InterruptsInvisible(script: seq<Outcome>)
    ensures Line(Clean(script)) == Line(script)
    ensures EndingOf(Clean(script)) == EndingOf(script)
    ensures Rest(Clean(script)) == Clean(Rest(script))
  {
    if script != [] {
      InterruptsInvisible(script[1..]);
    }
  }

  /** Up to the first hard error at k, with no newline before it, a call takes every byte; then it fails. */
  lemma {:induction false} FailsAt(script: seq<Outcome>, k: nat)
    requires k < |script| && script[k].Failed?
    requires forall j | 0 <= j < k :: !script[j].Failed? && script[j] != Got('\n')
    ensures EndingOf(script).AtError? && Line(script) == Bytes(script[..k]) && Rest(script) == script[k + 1..]
    ensures forall n :: !Terminated(script, n)
  {
    if k > 0 {
      FailsAt(script[1..], k - 1);
      assert script[..k][1..] == script[1..][..k - 1] && script[1..][k..] == script[k + 1..];
    } else {
      assert script[..0] == [];
    }
  }

  /** A call fails only at such an error. */
  lemma {:induction false} ErrorFound(script: seq<Outcome>) returns (k: nat)
    requires EndingOf(script).AtError?
    ensures k < |script| && script[k].Failed?
    ensures forall j | 0 <= j < k :: !script[j].Failed? && script[j] != Got('\n')
  {
    if script[0].Failed? {
      k := 0;
    } else {
      k := ErrorFound(script[1..]);
      k := k + 1;
    }
  }

  predicate EndsLine(line: string) { line != "" && line[|line| - 1] == '\n' }

  lemma {:induction false} EndingExactly(script: seq<Outcome>)
    requires !EndingOf(script).AtError?
    ensures EndingOf(script).AtNewline? <==> EndsLine(Line(script))
  {
    if script != [] && script[0] != Got('\n') {
      EndingExactly(script[1..]);
    }
  }

  /** What a call with size n does to the buffer, in terms of the first line of the stream alone: it is
      stored as far as it fits, and a NUL after it unless nothing was stored and the stream ended. */
  predicate Stores(before: seq<char>, after: seq<char>, result: int, line: string, n: nat) {
    var end := if EndsLine(line) || result > 0 then result + 1 else result;
    && result == (if n == 0 || |line| < n then |line| else n - 1)
    && end <= |before| == |after|
    && after[..result] == line[..result]
    && (end > result ==> after[result] == '\0')
    && after[end..] == before[end..]
  }

  /** A first line that can be counted. */
  ghost predicate LineRead(script: seq<Outcome>, line: string, n: nat) {
    !EndingOf(script).AtError? && IsFirstLine(line, Bytes(script)) && (n == 0 ==> |line| <= 0xffff_ffff_ffff_ffff)
  }

  lemma {:induction false} FilledStores(
    before: seq<char>, after: seq<char>, script: seq<Outcome>, n: nat, line: string)
    requires Filled(before, after, Kept(Line(script), n), Terminated(script, n))
    requires LineRead(script, line, n)
    ensures Stores(before, after, |Kept(Line(script), n)|, line, n)
  {
    TakesFirstLine(script);
    FirstLineUnique(line, Line(script), Bytes(script));
    EndingExactly(script);
  }

  // ----- one call

  /** Lines 33-64; the buffer needs the cells that the call writes. */
  method FillBuffer(fd: Descriptor, buffer: array<char>, n: nat) returns (result: int)
    requires Cells(fd.script, n) <= buffer.Length
    modifies fd, buffer
    ensures result == if EndingOf(old(fd.script)).AtError? then -1 else |Kept(Line(old(fd.script)), n)|
    ensures fd.script == Rest(old(fd.script))
    ensures Filled(old(buffer[..]), buffer[..], Kept(Line(old(fd.script)), n), Terminated(old(fd.script), n))
  {
    ghost var script, before := fd.script, buffer[..];
    ghost var seen := "";
    var buf: nat := 0;
    while true
      invariant Progress(script, seen, fd.script)
      invariant buf == |Kept(seen, n)| && buf <= Limit(n)
      invariant Filled(before, buffer[..], Kept(seen, n), false)
      decreases |fd.script|
    {
      ghost var left := fd.script;
      var numRead, ch, eintr := fd.ReadByte();
      ProgressRest(script, seen, left);
      if numRead == -1 {
        if eintr {
          continue;
        }
        return -1;
      }
      if numRead == 0 {
        if buf == 0 {
          return 0;
        }
        break;
      }
      ProgressByte(script, seen, left, ch);
      KeptGrows(seen, ch, n);
      assert |seen| < |Line(script)|;
      if buf < Limit(n) {
        StoreByte(before, buffer[..], Kept(seen, n), ch);
        buffer[buf] := ch;
        buf := buf + 1;
      }
      seen := seen + [ch];
      if ch == '\n' {
        break;
      }
    }
    StoreByte(before, buffer[..], Kept(seen, n), '\0');
    buffer[buf] := '\0';
    return buf;
  }

  method Readline(fd: Descriptor, buffer: array?<char>, n: nat) returns (result: int)
    requires buffer != null ==> Cells(fd.script, n) <= buffer.Length
    modifies fd, buffer
    ensures buffer == null ==> result == -1 && fd.script == old(fd.script)
    ensures buffer != null ==>
              var s := old(fd.script);
              var kept := Kept(Line(s), n);
              && result == (if EndingOf(s).AtError? then -1 else |kept|)
              && fd.script == Rest(s)
              && Filled(old(buffer[..]), buffer[..], kept, Terminated(s, n))
    ensures buffer != null ==>
              forall line | LineRead(old(fd.script), line, n) ::
                Stores(old(buffer[..]), buffer[..], result, line, n)
  {
    if buffer == null {
      return -1;
    }
    ghost var script, before := fd.script, buffer[..];
    result := FillBuffer(fd, buffer, n);
    forall line | LineRead(script, line, n) ensures Stores(before, buffer[..], result, line, n) {
      FilledStores(before, buffer[..], script, n, line);
    }
  }

  // ----- repeated calls

  /** The contents that repeated calls return, until one returns 0 or -1. */
  function Calls(script: seq<Outcome>, n: nat): seq<string>
    decreases |script|
  {
    var kept := Kept(Line(script), n);
    if EndingOf(script).AtError? || kept == "" then []
    else [kept] + Calls(Rest(script), n)
  }

  /** A buffer of `length` cells has room for all of these calls. */
  ghost predicate Room(script: seq<Outcome>, n: nat, length: nat)
    decreases |script|
  {
    && Cells(script, n) <= length
    && (!EndingOf(script).AtError? && Kept(Line(script), n) != "" ==> Room(Rest(script), n, length))
  }

  /** A buffer of the size that the callers pass is enough. */
  lemma {:induction false} RoomForSize(script: seq<Outcome>, n: nat, length: nat)
    requires 1 <= n <= length
    ensures Room(script, n, length)
    decreases |script|
  {
    if !EndingOf(script).AtError? && Kept(Line(script), n) != "" {
      RoomForSize(Rest(script), n, length);
    }
  }

  /** A stream of n - 1 bytes and a newline. */
  function FullLine(n: nat): seq<Outcome>
    requires n >= 1
  {
    if n == 1 then [Got('\n')] else [Got('a')] + FullLine(n - 1)
  }

  lemma {:induction false} FullLineRead(n: nat)
    requires n >= 1
    ensures |Line(FullLine(n))| == n && EndingOf(FullLine(n)).AtNewline?
  {
    if n > 1 {
      FullLineRead(n - 1);
      assert FullLine(n)[1..] == FullLine(n - 1);
    }
  }

  /** A size of n >= 1 needs a buffer of n cells, no fewer, if the stream is not known. */
  lemma {:induction false} RoomExactly(n: nat, length: nat)
    requires n >= 1
    ensures (forall script: seq<Outcome> :: Room(script, n, length)) <==> n <= length
  {
    if n <= length {
      forall script: seq<Outcome> ensures Room(script, n, length) {
        RoomForSize(script, n, length);
      }
    } else {
      FullLineRead(n);
      assert !Room(FullLine(n), n, length);
    }
  }

  /** A caller that reads lines until a call returns 0 or -1. */
  method ReadLines(fd: Descriptor, buffer: array<char>, n: nat) returns (parts: seq<string>)
    requires Room(fd.script, n, buffer.Length)
    modifies fd, buffer
    ensures parts == Calls(old(fd.script), n)
  {
    ghost var script := fd.script;
    parts := [];
    while true
      invariant Room(fd.script, n, buffer.Length)
      invariant Calls(script, n) == parts + Calls(fd.script, n)
      decreases |fd.script|
    {
      var result := Readline(fd, buffer, n);
      if result <= 0 {
        return;
      }
      parts := parts + [buffer[..result]];
    }
  }

  function Concat(parts: seq<string>): string {
    if parts == [] then "" else parts[0] + Concat(parts[1..])
  }

  ghost predicate LinesFit(script: seq<Outcome>, n: nat)
    decreases |script|
  {
    Line(script) == "" || (|Line(script)| <= Limit(n) && LinesFit(Rest(script), n))
  }

  lemma {:induction false} NoErrorLater(script: seq<Outcome>)
    requires Failed !in script
    ensures !EndingOf(script).AtError? && Failed !in Rest(script)
  {
    if script != [] && script[0] != Got('\n') {
      NoErrorLater(script[1..]);
    }
  }

  lemma {:induction false} CallsKeepNoMore(script: seq<Outcome>, n: nat)
    requires Failed !in script
    ensures |Concat(Calls(script, n))| <= |Bytes(script)|
    decreases |script|
  {
    NoErrorLater(script);
    TakesFirstLine(script);
    if Kept(Line(script), n) != "" {
      CallsKeepNoMore(Rest(script), n);
      assert Calls(script, n)[1..] == Calls(Rest(script), n);
    }
  }

  /** Repeated calls give back the whole stream exactly when every line fits into the buffer. */
  lemma {:induction false} CallsGiveStream(script: seq<Outcome>, n: nat)
    requires Failed !in script
    ensures Concat(Calls(script, n)) == Bytes(script) <==> LinesFit(script, n)
    decreases |script|
  {
    NoErrorLater(script);
    TakesFirstLine(script);
    var line, kept := Line(script), Kept(Line(script), n);
    if kept != "" {
      var rest := Rest(script);
      CallsKeepNoMore(rest, n);
      assert Calls(script, n)[1..] == Calls(rest, n);
      assert Concat(Calls(script, n)) == kept + Concat(Calls(rest, n));
      if |line| <= Limit(n) {
        CallsGiveStream(rest, n);
        assert line + Concat(Calls(rest, n)) == line + Bytes(rest) <==> Concat(Calls(rest, n)) == Bytes(rest) by {
          assert (line + Concat(Calls(rest, n)))[|line|..] == Concat(Calls(rest, n));
          assert (line + Bytes(rest))[|line|..] == Bytes(rest);
        }
      }
    }
  }
}
