/** Finite sums over sequences: the counting argument behind every invariant of the project. */
module Sums {

  function Sum<T>(f: T -> int, s: seq<T>): int {
    if s == [] then 0 else f(s[0]) + Sum(f, s[1..])
  }

  /** Changing one element changes the sum by the difference of the two values. */
  lemma {:induction false} Update<T>(f: T -> int, s: seq<T>, i: nat, x: T)
    requires i < |s|
    ensures Sum(f, s[i := x]) == Sum(f, s) - f(s[i]) + f(x)
  {
    var t := s[i := x];
    if i == 0 {
      assert t[1..] == s[1..];
    } else {
      assert t[1..] == s[1..][i - 1 := x];
      Update(f, s[1..], i - 1, x);
    }
  }

  lemma {:induction false} Append<T>(f: T -> int, s: seq<T>, t: seq<T>)
    ensures Sum(f, s + t) == Sum(f, s) + Sum(f, t)
  {
    if s == [] {
      assert s + t == t;
    } else {
      assert (s + t)[1..] == s[1..] + t;
      Append(f, s[1..], t);
    }
  }

  /** Values between lo and hi give a sum between |s| * lo and |s| * hi. */
  lemma {:induction false} Bounds<T>(f: T -> int, s: seq<T>, lo: int, hi: int)
    requires forall i | 0 <= i < |s| :: lo <= f(s[i]) <= hi
    ensures |s| * lo <= Sum(f, s) <= |s| * hi
  {
    if s != [] {
      Bounds(f, s[1..], lo, hi);
      assert |s| * lo == |s[1..]| * lo + lo && |s| * hi == |s[1..]| * hi + hi;
    }
  }

  /** A positive sum has a positive term. */
  lemma {:induction false} Witness<T>(f: T -> int, s: seq<T>) returns (i: nat)
    requires Sum(f, s) > 0
    ensures i < |s| && f(s[i]) > 0
  {
    if f(s[0]) > 0 {
      i := 0;
    } else {
      i := Witness(f, s[1..]);
      i := i + 1;
    }
  }

  lemma {:induction false} NonNegative<T>(f: T -> int, s: seq<T>)
    requires forall i | 0 <= i < |s| :: 0 <= f(s[i])
    ensures 0 <= Sum(f, s)
  {
    if s != [] {
      NonNegative(f, s[1..]);
    }
  }

  /** A sum of non-negative terms is at least any one of them. */
  lemma {:induction false} AtLeast<T>(f: T -> int, s: seq<T>, i: nat)
    requires i < |s|
    requires forall j | 0 <= j < |s| :: 0 <= f(s[j])
    ensures f(s[i]) <= Sum(f, s)
  {
    NonNegative(f, s[1..]);
    if i > 0 {
      AtLeast(f, s[1..], i - 1);
    }
  }

  /** Pointwise equal terms give equal sums. */
  lemma {:induction false} Same<S, T>(f: S -> int, s: seq<S>, g: T -> int, t: seq<T>)
    requires |s| == |t|
    requires forall i | 0 <= i < |s| :: f(s[i]) == g(t[i])
    ensures Sum(f, s) == Sum(g, t)
  {
    if s != [] {
      assert f(s[0]) == g(t[0]);
      forall i | 0 <= i < |s[1..]| ensures f(s[1..][i]) == g(t[1..][i]) {
        assert f(s[i + 1]) == g(t[i + 1]);
      }
      Same(f, s[1..], g, t[1..]);
    }
  }
}
