/**
 ItimerspecFromStr of timer_template/timerfd/timerfd.cpp, which cuts a copy of its argument in place at
 the separators of "sec/nsec:sec/nsec" and converts the pieces.
 */
module TimerSpec {
  import opened Integers
  import opened Runs

  const NUL: char := '\0'

  // ----- C strings and the library calls on them

  /** The C string that starts at the front of a piece of memory. */
  function CStr(mem: seq<char>): string {
    if mem == [] || mem[0] == NUL then "" else [mem[0]] + CStr(mem[1..])
  }

  function CStrFrom(mem: seq<char>, start: nat): string
    requires start <= |mem|
  {
    CStr(mem[start..])
  }

  /** strchr: the index of the first c. */
  function StrChr(s: string, c: char): (p: Option<nat>)
    ensures p.None? <==> c !in s
    ensures p.Some? ==> p.value < |s| && s[p.value] == c && c !in s[..p.value]
  {
    if s == "" then None
    else if s[0] == c then Some(0)
    else
      match StrChr(s[1..], c)
      case None => None
      case Some(p) => Some(p + 1)
  }

  predicate IsDigit(c: char) { '0' <= c <= '9' }

  predicate IsSpace(c: char) { c in " \t\n\r" || c == 0x0b as char || c == 0x0c as char }

  function Digits(s: string, value: int): int {
    if s == "" || !IsDigit(s[0]) then value else Digits(s[1..], 10 * value + (s[0] as int - '0' as int))
  }

  /** White space, an optional sign, then digits up to the first other character. */
  function Numeral(s: string): int {
    if s == "" then 0
    else if IsSpace(s[0]) then Numeral(s[1..])
    else if s[0] == '-' then -Digits(s[1..], 0)
    else if s[0] == '+' then Digits(s[1..], 0)
    else Digits(s, 0)
  }

  function Saturated(x: int): int {
    if x > LLONG_MAX then LLONG_MAX else if x < -LLONG_MAX - 1 then -LLONG_MAX - 1 else x
  }

  /** The result of strtol as an int. */
  function ToInt(x: int): int {
    if -INT_MAX - 1 <= x <= INT_MAX then x else Wrap32(Saturated(x))
  }

  /** atoi as glibc defines it, by strtol. */
  function AtoI(s: string): int { ToInt(Numeral(s)) }

  lemma {:induction false} ToIntExact(n: nat)
    ensures ToInt(n) == n <==> n <= INT_MAX
  {
  }

  // ----- what atoi reads

  function DigitValue(c: char): int
    requires IsDigit(c)
  {
    c as int - '0' as int
  }

  /** The number that a string of digits denotes. */
  function Denoted(digits: string): int
    requires forall i | 0 <= i < |digits| :: IsDigit(digits[i])
  {
    if digits == "" then 0
    else 10 * Denoted(digits[..|digits| - 1]) + DigitValue(digits[|digits| - 1])
  }

  lemma {:induction false} DigitsOf(digits: string, rest: string)
    requires forall i | 0 <= i < |digits| :: IsDigit(digits[i])
    requires rest != "" ==> !('0' <= rest[0] <= '9')
    ensures Digits(digits + rest, 0) == Denoted(digits)
    decreases |digits|
  {
    if digits == "" {
      assert digits + rest == rest;
    } else {
      var init, last := digits[..|digits| - 1], digits[|digits| - 1];
      assert digits + rest == init + ([last] + rest);
      DigitsAppend(init, [last] + rest, 0);
      DigitsAppend(init, "", 0);
      assert init + "" == init;
      DigitsOf(init, "");
      assert ([last] + rest)[1..] == rest;
    }
  }

  /** The six white-space characters: tab, newline, vertical tab, form feed, carriage return and space. */
  predicate AllSpace(ws: string) {
    forall i | 0 <= i < |ws| :: 9 <= ws[i] as int <= 13 || ws[i] as int == 32
  }

  lemma {:induction false} NumeralSkips(ws: string, s: string)
    requires AllSpace(ws)
    ensures Numeral(ws + s) == Numeral(s)
  {
    if ws == "" {
      assert ws + s == s;
    } else {
      assert (ws + s)[1..] == ws[1..] + s;
      NumeralSkips(ws[1..], s);
    }
  }

  /** atoi reads a string of white space, an optional sign, digits and trailing text that does not go on
      with a digit as the signed number. */
  lemma {:induction false} AtoIReads(ws: string, sign: string, digits: string, rest: string)
    requires AllSpace(ws) && sign in {"", "-", "+"}
    requires forall i | 0 <= i < |digits| :: '0' <= digits[i] <= '9'
    requires rest != "" ==> !('0' <= rest[0] <= '9')
    requires digits != "" || sign != ""
    ensures AtoI(ws + (sign + (digits + rest))) == ToInt(if sign == "-" then -Denoted(digits) else Denoted(digits))
  {
    NumeralSkips(ws, sign + (digits + rest));
    DigitsOf(digits, rest);
    if sign == "" {
      assert sign + (digits + rest) == digits + rest && (digits + rest)[0] == digits[0];
    } else {
      assert (sign + (digits + rest))[1..] == digits + rest;
    }
  }

  /** Anything else after the white space is read as 0. */
  lemma {:induction false} AtoIOfOther(ws: string, rest: string)
    requires AllSpace(ws)
    requires rest != "" ==> !('0' <= rest[0] <= '9') && rest[0] != '-' && rest[0] != '+' && !AllSpace(rest[..1])
    ensures AtoI(ws + rest) == 0
  {
    NumeralSkips(ws, rest);
    if rest != "" {
      assert rest[..1][0] == rest[0];
    }
  }

  /** A number that fits into a long keeps its low 32 bits, others are -1 or 0. */
  lemma {:induction false} ToIntExactly(x: int)
    ensures -0x8000_0000 <= ToInt(x) < 0x8000_0000
    ensures -0x8000_0000_0000_0000 <= x < 0x8000_0000_0000_0000 ==> (x - ToInt(x)) % 0x1_0000_0000 == 0
    ensures x >= 0x8000_0000_0000_0000 ==> ToInt(x) == -1
    ensures x < -0x8000_0000_0000_0000 ==> ToInt(x) == 0
  {
    var k := WrapShifts(Saturated(x));
  }

  // ----- C strings in memory

  /** The C string s lies in memory at `start`. */
  ghost predicate StringAt(mem: seq<char>, start: nat, s: string) {
    && start + |s| < |mem|
    && (forall i | 0 <= i < |s| :: s[i] == mem[start + i] != NUL)
    && mem[start + |s|] == NUL
  }

  lemma {:induction false} CStrAt(mem: seq<char>, start: nat, s: string)
    requires StringAt(mem, start, s)
    ensures CStrFrom(mem, start) == s
    decreases |s|
  {
    if s != "" {
      assert mem[start] == s[0];
      forall i | 0 <= i < |s[1..]| ensures s[1..][i] == mem[start + 1 + i] != NUL {
        assert s[i + 1] == mem[start + (i + 1)];
      }
      CStrAt(mem, start + 1, s[1..]);
      assert mem[start..][1..] == mem[start + 1..];
    }
  }

  /** The string is where the first NUL ends it. */
  method StrLen(str: array<char>) returns (len: nat)
    requires NUL in str[..]
    ensures len < str.Length && StringAt(str[..], 0, CStr(str[..])) && len == |CStr(str[..])|
  {
    len := 0;
    while str[len] != NUL
      invariant len < str.Length && NUL !in str[..len] && NUL in str[len..]
      decreases str.Length - len
    {
      assert str[len..] == [str[len]] + str[len + 1..];
      assert str[..len + 1] == str[..len] + [str[len]];
      len := len + 1;
    }
    assert str[..][0..len] == str[..len];
    CStrAt(str[..], 0, str[..len]);
    assert str[..][0..] == str[..];
  }

  method StrDup(str: array<char>) returns (dup: array<char>)
    requires NUL in str[..]
    ensures fresh(dup) && StringAt(dup[..], 0, CStr(str[..]))
  {
    var len := StrLen(str);
    dup := new char[len + 1](i requires 0 <= i <= len reads str => str[i]);
    assert dup[..] == str[..len + 1];
  }

  // ----- the result of the parse, without cutting anything

  datatype Fields = Fields(valueSec: int, valueNsec: int, intervalSec: int, intervalNsec: int)

  function Before(s: string, c: char): string {
    match StrChr(s, c)
    case None => s
    case Some(p) => s[..p]
  }

  function After(s: string, c: char): Option<string> {
    match StrChr(s, c)
    case None => None
    case Some(p) => Some(s[p + 1..])
  }

  /** "sec" or "sec/nsec". */
  function ParseHalf(s: string): (int, int) {
    (AtoI(Before(s, '/')), match After(s, '/') case None => 0 case Some(ns) => AtoI(ns))
  }

  function Parse(s: string): Fields {
    var value := ParseHalf(Before(s, ':'));
    var interval := match After(s, ':') case None => (0, 0) case Some(t) => ParseHalf(t);
    Fields(value.0, value.1, interval.0, interval.1)
  }

  // ----- cutting in place

  /** Overwriting a character with NUL leaves two C strings: what was before it and what was after. */
  lemma {:induction false} CutInPlace(mem: seq<char>, start: nat, s: string, p: nat)
    requires StringAt(mem, start, s) && p < |s|
    ensures StringAt(mem[start + p := NUL], start, s[..p])
    ensures StringAt(mem[start + p := NUL], start + p + 1, s[p + 1..])
  {
    var t := s[p + 1..];
    forall i | 0 <= i < |t| ensures t[i] == mem[start + p := NUL][start + p + 1 + i] != NUL {
      assert t[i] == s[p + 1 + i];
    }
  }

  /** Parsing splits at the first ':' and each half at its first '/', whatever follows. */
  lemma {:induction false} ParseSplits(a: string, b: string, c: string, d: string)
    requires ':' !in a && '/' !in a && ':' !in b && '/' !in c
    ensures Parse(a) == Fields(AtoI(a), 0, 0, 0)
    ensures Parse(a + ['/'] + b) == Fields(AtoI(a), AtoI(b), 0, 0)
    ensures Parse(a + [':'] + c) == Fields(AtoI(a), 0, AtoI(c), 0)
    ensures Parse(a + ['/'] + b + [':'] + (c + ['/'] + d)) == Fields(AtoI(a), AtoI(b), AtoI(c), AtoI(d))
  {
    HalfSplits(a, b);
    HalfSplits(c, d);
    ParseOne(a);
    ParseOne(a + ['/'] + b);
    ParseTwo(a, c);
    ParseTwo(a + ['/'] + b, c + ['/'] + d);
  }

  lemma {:induction false} HalfSplits(a: string, b: string)
    requires '/' !in a
    ensures ParseHalf(a) == (AtoI(a), 0) && ParseHalf(a + ['/'] + b) == (AtoI(a), AtoI(b))
  {
    CutAt(a, '/', b);
  }

  class Itimerspec {
    var valueSec: int
    var valueNsec: int
    var intervalSec: int
    var intervalNsec: int

    function View(): Fields
      reads this
    {
      Fields(valueSec, valueNsec, intervalSec, intervalNsec)
    }
  }

  /** Memory that agrees on the cells of a string holds it too. */
  lemma {:induction false} StringKept(mem: seq<char>, other: seq<char>, start: nat, s: string)
    requires StringAt(mem, start, s) && |other| == |mem|
    requires forall i | start <= i <= start + |s| :: other[i] == mem[i]
    ensures StringAt(other, start, s)
  {
    forall i | 0 <= i < |s| ensures s[i] == other[start + i] != NUL {
      assert s[i] == mem[start + i];
    }
  }

  /** Lines 34-35 and 45-46: the conversions, given where the '/' was. */
  function ReadHalf(mem: seq<char>, start: nat, slash: Option<nat>): (int, int)
    requires start <= |mem| && (slash.Some? ==> start + slash.value < |mem|)
  {
    (AtoI(CStrFrom(mem, start)), if slash.Some? then AtoI(CStrFrom(mem, start + slash.value + 1)) else 0)
  }

  function Cut(mem: seq<char>, start: nat, p: Option<nat>): seq<char>
    requires p.Some? ==> start + p.value < |mem|
  {
    if p.Some? then mem[start + p.value := NUL] else mem
  }

  /** Reading after a cut at index p of the string, wherever that is. */
  lemma {:induction false} ReadParts(mem: seq<char>, start: nat, s: string, p: Option<nat>)
    requires StringAt(mem, start, s) && (p.Some? ==> p.value < |s|)
    ensures ReadHalf(Cut(mem, start, p), start, p) ==
            if p.None? then (AtoI(s), 0) else (AtoI(s[..p.value]), AtoI(s[p.value + 1..]))
  {
    if p.None? {
      CStrAt(mem, start, s);
    } else {
      var cut := mem[start + p.value := NUL];
      CutInPlace(mem, start, s, p.value);
      CStrAt(cut, start, s[..p.value]);
      CStrAt(cut, start + p.value + 1, s[p.value + 1..]);
    }
  }

  /** Converting after the cut in place is the pure parse. */
  lemma {:induction false} ReadAfterCut(mem: seq<char>, start: nat, s: string)
    requires StringAt(mem, start, s)
    ensures ReadHalf(Cut(mem, start, StrChr(s, '/')), start, StrChr(s, '/')) == ParseHalf(s)
  {
    ReadParts(mem, start, s, StrChr(s, '/'));
  }

  method WriteNul(dup: array<char>, p: nat)
    requires p < dup.Length
    modifies dup
    ensures dup[..] == old(dup[..])[p := NUL]
  {
    dup[p] := NUL;
  }

  /** Lines 29-35 and 41-46: cut the C string s that starts at `start` at its first '/' and convert
      the two parts; nothing outside it changes. */
  method CutHalf(dup: array<char>, start: nat, ghost s: string) returns (half: (int, int))
    requires StringAt(dup[..], start, s)
    modifies dup
    ensures half == ParseHalf(s)
    ensures forall i | 0 <= i < dup.Length && !(start <= i < start + |s|) :: dup[..][i] == old(dup[..])[i]
  {
    CStrAt(dup[..], start, s);
    ReadAfterCut(dup[..], start, s);
    var slash := StrChr(CStrFrom(dup[..], start), '/');
    if slash.Some? {
      WriteNul(dup, start + slash.value);
    }
    half := ReadHalf(dup[..], start, slash);
  }

  /** Lines 25-47 on the copy of the string s. */
  method CutSpec(dup: array<char>, ghost s: string) returns (fields: Fields)
    requires StringAt(dup[..], 0, s)
    modifies dup
    ensures fields == Parse(s)
  {
    CStrAt(dup[..], 0, s);
    var sep := StrChr(CStrFrom(dup[..], 0), ':');
    match sep
    case None =>
      var value := CutHalf(dup, 0, s);
      fields := Fields(value.0, value.1, 0, 0);
    case Some(p) =>
      CutInPlace(dup[..], 0, s, p);
      WriteNul(dup, p);
      ghost var mem := dup[..];
      var value := CutHalf(dup, 0, s[..p]);
      StringKept(mem, dup[..], p + 1, s[p + 1..]);
      var interval := CutHalf(dup, p + 1, s[p + 1..]);
      fields := Fields(value.0, value.1, interval.0, interval.1);
  }

  /** For every C string the in-place cutting computes the pure parse, and leaves the string alone. */
  method ItimerspecFromStr(str: array<char>, time: Itimerspec)
    requires NUL in str[..]
    modifies time
    ensures time.View() == Parse(CStr(str[..]))
  {
    var dup := StrDup(str);
    var fields := CutSpec(dup, CStr(str[..]));
    time.valueSec, time.valueNsec := fields.valueSec, fields.valueNsec;
    time.intervalSec, time.intervalNsec := fields.intervalSec, fields.intervalNsec;
  }

  // ----- printing and parsing

  function Decimal(n: nat): (s: string)
    ensures s != "" && forall i | 0 <= i < |s| :: IsDigit(s[i])
  {
    var d := [('0' as int + n % 10) as char];
    if n < 10 then d else Decimal(n / 10) + d
  }

  lemma {:induction false} DigitsAppend(s: string, t: string, value: int)
    requires forall i | 0 <= i < |s| :: IsDigit(s[i])
    ensures Digits(s + t, value) == Digits(t, Digits(s, value))
  {
    if s == "" {
      assert s + t == t;
    } else {
      assert (s + t)[1..] == s[1..] + t;
      DigitsAppend(s[1..], t, 10 * value + (s[0] as int - '0' as int));
    }
  }

  lemma {:induction false} DigitsOfDecimal(n: nat)
    ensures Digits(Decimal(n), 0) == n
  {
    var d := [('0' as int + n % 10) as char];
    if n >= 10 {
      DigitsOfDecimal(n / 10);
      DigitsAppend(Decimal(n / 10), d, 0);
    }
    assert Digits(d, n / 10) == 10 * (n / 10) + n % 10 by {
      assert d[1..] == "";
    }
  }

  lemma {:induction false} AtoIOfDecimal(n: nat)
    ensures AtoI(Decimal(n)) == ToInt(n)
  {
    DigitsOfDecimal(n);
    assert IsDigit(Decimal(n)[0]);
  }

  datatype Half = Half(sec: nat, nsec: Option<nat>)

  datatype Setting = Setting(value: Half, interval: Option<Half>)

  function PrintHalf(h: Half): string {
    Decimal(h.sec) + match h.nsec case None => "" case Some(n) => "/" + Decimal(n)
  }

  function Print(x: Setting): string {
    PrintHalf(x.value) + match x.interval case None => "" case Some(h) => ":" + PrintHalf(h)
  }

  function NsecOf(h: Half): nat { match h.nsec case None => 0 case Some(n) => n }

  /** Missing parts mean zero. */
  function Meaning(x: Setting): Fields {
    match x.interval
    case None => Fields(x.value.sec, NsecOf(x.value), 0, 0)
    case Some(h) => Fields(x.value.sec, NsecOf(x.value), h.sec, NsecOf(h))
  }

  function Converted(f: Fields): Fields {
    Fields(ToInt(f.valueSec), ToInt(f.valueNsec), ToInt(f.intervalSec), ToInt(f.intervalNsec))
  }

  predicate Within(f: Fields) {
    f.valueSec <= INT_MAX && f.valueNsec <= INT_MAX && f.intervalSec <= INT_MAX && f.intervalNsec <= INT_MAX
  }

  lemma {:induction false} CutAt(s: string, c: char, t: string)
    requires c !in s
    ensures Before(s + [c] + t, c) == s && After(s + [c] + t, c) == Some(t)
    ensures Before(s, c) == s && After(s, c) == None
  {
    var u := s + [c] + t;
    assert u[|s|] == c;
    var p := StrChr(u, c).value;
    assert forall i | 0 <= i < |s| :: u[i] == s[i];
    assert forall i | 0 <= i < p :: u[..p][i] == u[i];
  }

  lemma {:induction false} ParsePrintedHalf(h: Half)
    ensures ':' !in PrintHalf(h)
    ensures ParseHalf(PrintHalf(h)) == (ToInt(h.sec), ToInt(NsecOf(h)))
  {
    var sec := Decimal(h.sec);
    AtoIOfDecimal(h.sec);
    match h.nsec {
      case None =>
        assert PrintHalf(h) == sec;
        CutAt(sec, '/', "");
      case Some(n) =>
        assert PrintHalf(h) == sec + ['/'] + Decimal(n);
        AtoIOfDecimal(n);
        CutAt(sec, '/', Decimal(n));
    }
  }

  lemma {:induction false} ParseOne(v: string)
    requires ':' !in v
    ensures Parse(v) == Fields(ParseHalf(v).0, ParseHalf(v).1, 0, 0)
  {
    CutAt(v, ':', "");
  }

  lemma {:induction false} ParseTwo(v: string, t: string)
    requires ':' !in v
    ensures Parse(v + [':'] + t) ==
            Fields(ParseHalf(v).0, ParseHalf(v).1, ParseHalf(t).0, ParseHalf(t).1)
  {
    CutAt(v, ':', t);
  }

  /** Parsing what was printed converts every field to int. */
  lemma {:induction false} ParsePrintedConverts(x: Setting)
    ensures Parse(Print(x)) == Converted(Meaning(x))
  {
    ParsePrintedHalf(x.value);
    match x.interval {
      case None =>
        assert Print(x) == PrintHalf(x.value);
        ParseOne(PrintHalf(x.value));
      case Some(h) =>
        assert Print(x) == PrintHalf(x.value) + [':'] + PrintHalf(h);
        ParsePrintedHalf(h);
        ParseTwo(PrintHalf(x.value), PrintHalf(h));
    }
  }

  lemma {:induction false} ConvertedExact(p: Fields, x: Setting)
    requires p == Converted(Meaning(x))
    ensures p == Meaning(x) <==> Within(Meaning(x))
  {
    var f := Meaning(x);
    ToIntExact(f.valueSec);
    ToIntExact(f.valueNsec);
    ToIntExact(f.intervalSec);
    ToIntExact(f.intervalNsec);
  }

  /** Parsing what was printed gives back every field if and only if all of them fit into int. */
  lemma {:induction false} ParsePrinted(x: Setting)
    ensures Parse(Print(x)) == Meaning(x) <==> Within(Meaning(x))
  {
    ParsePrintedConverts(x);
    ConvertedExact(Parse(Print(x)), x);
  }
}
