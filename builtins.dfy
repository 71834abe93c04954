/** Python built-in semantics that several modules of the recommender rely on:
    list slicing `s[:k]` and `s[a:b]` (negative bounds count from the end),
    floor division `//`, `set(s)` and `min`/`max` of two integers. */
module Builtins {

  function Min(a: int, b: int): int { if a <= b then a else b }

  function Max(a: int, b: int): int { if a >= b then a else b }

  /** Normalises a slice bound the way Python does: a negative bound counts
      from the end, and the result is clamped into 0..n. */
  function Clamp(i: int, n: nat): (r: nat)
    ensures r <= n
    ensures 0 <= i <= n ==> r == i
    ensures i > n ==> r == n
    ensures i < 0 ==> r == Max(n + i, 0)
  {
    if i < 0 then (if n + i > 0 then n + i else 0)
    else if i > n then n
    else i
  }

  /** Python's `s[:k]`. */
  function Take<T>(s: seq<T>, k: int): (r: seq<T>)
    ensures |r| == if k >= 0 then Min(k, |s|) else Max(|s| + k, 0)
    ensures r == s[..|r|]
  {
    s[..Clamp(k, |s|)]
  }

  /** Python's `s[start:stop]`. */
  function Slice<T>(s: seq<T>, start: int, stop: int): (r: seq<T>)
    ensures Clamp(start, |s|) <= Clamp(stop, |s|) ==> r == s[Clamp(start, |s|)..Clamp(stop, |s|)]
    ensures Clamp(start, |s|) > Clamp(stop, |s|) ==> r == []
  {
    var a, b := Clamp(start, |s|), Clamp(stop, |s|);
    if a <= b then s[a..b] else []
  }

  /** Python's `a // b`, which rounds toward negative infinity. */
  function FloorDiv(a: int, b: int): (q: int)
    requires b != 0
    ensures b > 0 ==> q * b <= a < q * b + b
    ensures b < 0 ==> q * b >= a > q * b + b
  {
    if b > 0 then a / b else (-a) / (-b)
  }

  /** Python's `set(s)`. */
  function Elements<T>(s: seq<T>): set<T>
  {
    set x | x in s
  }

  predicate NoDup<T(==)>(s: seq<T>)
  {
    forall i, j :: 0 <= i < j < |s| ==> s[i] != s[j]
  }

  lemma HeadNotInTail<T>(s: seq<T>)
    requires NoDup(s) && s != []
    ensures s[0] !in s[1..]
  {
    forall j | 0 <= j < |s| - 1 ensures s[1..][j] != s[0] {
      assert s[1..][j] == s[j + 1];
    }
  }

  /** A list has at least as many entries as the set of its elements. */
  lemma {:induction false} ElementsCard<T>(s: seq<T>)
    ensures |Elements(s)| <= |s|
    ensures NoDup(s) ==> |Elements(s)| == |s|
  {
    if s != [] {
      ElementsCard(s[1..]);
      assert Elements(s) == {s[0]} + Elements(s[1..]);
      if NoDup(s) {
        assert NoDup(s[1..]);
        HeadNotInTail(s);
      }
    }
  }

  /** A list without duplicates holds each value at most once. */
  lemma {:induction false} NoDupMultiplicity<T>(s: seq<T>, x: T)
    requires NoDup(s)
    ensures multiset(s)[x] <= 1
  {
    if s != [] {
      assert s == [s[0]] + s[1..];
      assert NoDup(s[1..]);
      NoDupMultiplicity(s[1..], x);
      if x == s[0] {
        HeadNotInTail(s);
      }
    }
  }

  /** A value at two positions of a list occurs at least twice in its multiset. */
  lemma DuplicateMultiplicity<T>(r: seq<T>, i: int, j: int)
    requires 0 <= i < j < |r| && r[i] == r[j]
    ensures multiset(r)[r[i]] >= 2
  {
    var x := r[i];
    var rest := r[..i] + r[i + 1..];
    assert r == r[..i] + [x] + r[i + 1..];
    assert multiset(r) == multiset(rest) + multiset{x};
    assert rest[j - 1] == x;
  }

  /** A sub-multiset of a list without duplicates has no duplicates either. */
  lemma SubMultisetNoDup<T>(r: seq<T>, s: seq<T>)
    requires NoDup(s)
    requires multiset(r) <= multiset(s)
    ensures NoDup(r)
  {
    forall i, j | 0 <= i < j < |r| ensures r[i] != r[j] {
      NoDupMultiplicity(s, r[i]);
      if r[i] == r[j] {
        DuplicateMultiplicity(r, i, j);
      }
    }
  }

  /** The distinct values of `s`, each at its first appearance. */
  function Distinct<T(==)>(s: seq<T>): (r: seq<T>)
    ensures NoDup(r)
    ensures Elements(r) == Elements(s)
  {
    if s == [] then []
    else
      var front := s[..|s| - 1];
      var last := s[|s| - 1];
      var d := Distinct(front);
      assert s == front + [last];
      assert Elements(s) == Elements(front) + {last};
      if last in d then d
      else
        assert forall i :: 0 <= i < |d| ==> d[i] in Elements(d);
        d + [last]
  }
}
