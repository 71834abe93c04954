/** Ordering of scored values. `heapq.nlargest(n, xs, key)` and
    `heapq.nsmallest(n, xs, key)` are documented as equal to
    `sorted(xs, key=key, reverse=...)[:n]`, and Python's `sorted` is stable;
    the stable insertion sort below is that sort, and `TopN` is the selection. */
module Sorting {
  import opened Builtins

  /** `a` may precede `b`: a larger-or-equal key when descending, a
      smaller-or-equal key when ascending. */
  predicate InOrder(a: real, b: real, descending: bool)
  {
    if descending then a >= b else a <= b
  }

  predicate Ordered<T>(s: seq<T>, key: T -> real, descending: bool)
  {
    forall i, j :: 0 <= i < j < |s| ==> InOrder(key(s[i]), key(s[j]), descending)
  }

  /** Inserts `x` before the first element it may precede, so that among
      equal keys `x` (the earlier input) stays first. */
  function Insert<T>(x: T, s: seq<T>, key: T -> real, descending: bool): (r: seq<T>)
    ensures multiset(r) == multiset(s) + multiset{x}
  {
    if s == [] || InOrder(key(x), key(s[0]), descending) then [x] + s
    else
      assert s == [s[0]] + s[1..];
      [s[0]] + Insert(x, s[1..], key, descending)
  }

  lemma {:induction false} InsertOrdered<T>(x: T, s: seq<T>, key: T -> real, descending: bool)
    requires Ordered(s, key, descending)
    ensures Ordered(Insert(x, s, key, descending), key, descending)
  {
    if s != [] && !InOrder(key(x), key(s[0]), descending) {
      var tail := Insert(x, s[1..], key, descending);
      InsertOrdered(x, s[1..], key, descending);
      forall j | 0 <= j < |tail| ensures InOrder(key(s[0]), key(tail[j]), descending) {
        var y := tail[j];
        assert y in multiset(tail);
        if y != x {
          assert y in multiset(s[1..]);
          var i :| 0 <= i < |s[1..]| && s[1..][i] == y;
          assert s[i + 1] == y;
        }
      }
      var r := [s[0]] + tail;
      forall i, j | 0 <= i < j < |r| ensures InOrder(key(r[i]), key(r[j]), descending) {
        if i > 0 {
          assert r[i] == tail[i - 1] && r[j] == tail[j - 1];
        } else {
          assert r[j] == tail[j - 1];
        }
      }
    }
  }

  /** Stable sort by key. */
  function SortBy<T>(s: seq<T>, key: T -> real, descending: bool): (r: seq<T>)
    ensures multiset(r) == multiset(s)
    ensures |r| == |s|
    ensures Ordered(r, key, descending)
  {
    if s == [] then []
    else
      assert s == [s[0]] + s[1..];
      var t := SortBy(s[1..], key, descending);
      InsertOrdered(s[0], t, key, descending);
      Insert(s[0], t, key, descending)
  }

  /** The first `n` values in key order (none when `n <= 0`): ordered, drawn
      from `s`, and every value left out comes no earlier than every value
      selected. */
  function TopN<T>(s: seq<T>, key: T -> real, n: int, descending: bool): (r: seq<T>)
    ensures |r| == if n <= 0 then 0 else Min(n, |s|)
    ensures Ordered(r, key, descending)
    ensures multiset(r) <= multiset(s)
    ensures forall x, y :: x in r && y in multiset(s) - multiset(r) ==> InOrder(key(x), key(y), descending)
  {
    if n <= 0 then []
    else
      var t := SortBy(s, key, descending);
      var m := Min(n, |t|);
      SplitOrdered(t, m, key, descending);
      t[..m]
  }

  /** Cutting an ordered list leaves every element of the head no later
      than every element of the tail. */
  lemma SplitOrdered<T>(t: seq<T>, m: nat, key: T -> real, descending: bool)
    requires m <= |t|
    requires Ordered(t, key, descending)
    ensures multiset(t) == multiset(t[..m]) + multiset(t[m..])
    ensures forall x, y :: x in t[..m] && y in multiset(t) - multiset(t[..m]) ==> InOrder(key(x), key(y), descending)
  {
    assert t == t[..m] + t[m..];
    forall x, y | x in t[..m] && y in multiset(t) - multiset(t[..m])
      ensures InOrder(key(x), key(y), descending)
    {
      assert y in multiset(t[m..]);
      var i :| 0 <= i < m && t[i] == x;
      var j :| 0 <= j < |t| - m && t[m..][j] == y;
      assert t[m + j] == y;
    }
  }

  function Map<T, U>(f: T -> U, s: seq<T>): (r: seq<U>)
    ensures |r| == |s|
    ensures forall i :: 0 <= i < |s| ==> r[i] == f(s[i])
  {
    if s == [] then [] else [f(s[0])] + Map(f, s[1..])
  }

  /** Sorting commutes with a map that carries each key over unchanged. */
  lemma {:induction false} SortByMap<T, U>(f: T -> U, s: seq<T>, key: T -> real, key': U -> real, descending: bool)
    requires forall x :: x in s ==> key'(f(x)) == key(x)
    ensures SortBy(Map(f, s), key', descending) == Map(f, SortBy(s, key, descending))
  {
    if s != [] {
      SortByMap(f, s[1..], key, key', descending);
      var t := SortBy(s[1..], key, descending);
      forall x | x in t ensures key'(f(x)) == key(x) {
        assert x in multiset(t);
      }
      InsertMap(f, s[0], t, key, key', descending);
    }
  }

  lemma {:induction false} InsertMap<T, U>(f: T -> U, x: T, t: seq<T>, key: T -> real, key': U -> real, descending: bool)
    requires key'(f(x)) == key(x)
    requires forall y :: y in t ==> key'(f(y)) == key(y)
    ensures Insert(f(x), Map(f, t), key', descending) == Map(f, Insert(x, t, key, descending))
  {
    if t != [] && !InOrder(key(x), key(t[0]), descending) {
      InsertMap(f, x, t[1..], key, key', descending);
    }
  }

  /** Selection commutes with a key-preserving map as well. */
  lemma TopNMap<T, U>(f: T -> U, s: seq<T>, key: T -> real, key': U -> real, n: int, descending: bool)
    requires forall x :: x in s ==> key'(f(x)) == key(x)
    ensures TopN(Map(f, s), key', n, descending) == Map(f, TopN(s, key, n, descending))
  {
    if n > 0 {
      SortByMap(f, s, key, key', descending);
    }
  }
}
