/**
 * `Array.prototype.sort` with a comparator that subtracts two timestamps,
 * as every listing in the store uses it: `(a, b) => key(b) - key(a)` for
 * newest-first, `(a, b) => key(a) - key(b)` for oldest-first. Modelled by a
 * stable insertion sort on an integer key.
 */
module Sorting {

  /** `a` may come before `b` in the requested direction. */
  predicate InOrder(a: int, b: int, descending: bool) {
    if descending then a >= b else a <= b
  }

  ghost predicate SortedBy<T>(s: seq<T>, key: T -> int, descending: bool) {
    forall i, j :: 0 <= i < j < |s| ==> InOrder(key(s[i]), key(s[j]), descending)
  }

  /** Puts `x` before the first element it may precede, so equal keys keep their order. */
  function Insert<T>(x: T, s: seq<T>, key: T -> int, descending: bool): (r: seq<T>)
    ensures multiset(r) == multiset(s) + multiset{x}
  {
    if s == [] then [x]
    else if InOrder(key(x), key(s[0]), descending) then [x] + s
    else
      assert s == [s[0]] + s[1..];
      [s[0]] + Insert(x, s[1..], key, descending)
  }

  /** Inserting keeps a bound that `x` and every element of `s` respect. */
  lemma {:induction false} InsertKeepsBound<T>(x: T, s: seq<T>, key: T -> int, descending: bool, b: int)
    requires InOrder(b, key(x), descending)
    requires forall i :: 0 <= i < |s| ==> InOrder(b, key(s[i]), descending)
    ensures forall i :: 0 <= i < |Insert(x, s, key, descending)| ==> InOrder(b, key(Insert(x, s, key, descending)[i]), descending)
  {
    var r := Insert(x, s, key, descending);
    if s != [] && !InOrder(key(x), key(s[0]), descending) {
      var rest := Insert(x, s[1..], key, descending);
      InsertKeepsBound(x, s[1..], key, descending, b);
      assert r == [s[0]] + rest;
      forall i | 0 < i < |r| ensures InOrder(b, key(r[i]), descending) {
        assert r[i] == rest[i - 1];
      }
    } else if s != [] {
      assert r == [x] + s;
      forall i | 0 < i < |r| ensures InOrder(b, key(r[i]), descending) {
        assert r[i] == s[i - 1];
      }
    }
  }

  /** A sorted sequence stays sorted behind a head that may precede each of its elements. */
  lemma ConsSorted<T>(h: T, t: seq<T>, key: T -> int, descending: bool)
    requires SortedBy(t, key, descending)
    requires forall i :: 0 <= i < |t| ==> InOrder(key(h), key(t[i]), descending)
    ensures SortedBy([h] + t, key, descending)
  {
    var r := [h] + t;
    forall i, j | 0 <= i < j < |r| ensures InOrder(key(r[i]), key(r[j]), descending) {
      assert r[j] == t[j - 1];
      if i > 0 {
        assert r[i] == t[i - 1];
      }
    }
  }

  lemma {:induction false} InsertSorted<T>(x: T, s: seq<T>, key: T -> int, descending: bool)
    requires SortedBy(s, key, descending)
    ensures SortedBy(Insert(x, s, key, descending), key, descending)
  {
    if s == [] {
      assert Insert(x, s, key, descending) == [x];
    } else if InOrder(key(x), key(s[0]), descending) {
      assert forall i :: 0 <= i < |s| ==> InOrder(key(s[0]), key(s[i]), descending);
      ConsSorted(x, s, key, descending);
    } else {
      var rest := Insert(x, s[1..], key, descending);
      InsertSorted(x, s[1..], key, descending);
      InsertKeepsBound(x, s[1..], key, descending, key(s[0]));
      ConsSorted(s[0], rest, key, descending);
    }
  }

  function SortBy<T>(s: seq<T>, key: T -> int, descending: bool): (r: seq<T>)
    ensures multiset(r) == multiset(s)
    ensures SortedBy(r, key, descending)
  {
    if s == [] then []
    else
      assert s == [s[0]] + s[1..];
      InsertSorted(s[0], SortBy(s[1..], key, descending), key, descending);
      Insert(s[0], SortBy(s[1..], key, descending), key, descending)
  }

  /** A sort neither adds nor drops elements. */
  lemma SortByLength<T>(s: seq<T>, key: T -> int, descending: bool)
    ensures |SortBy(s, key, descending)| == |s|
  {
    assert |multiset(SortBy(s, key, descending))| == |multiset(s)|;
  }

  /** A sorted sequence's membership is its input's membership. */
  lemma SortByMembers<T>(s: seq<T>, key: T -> int, descending: bool, x: T)
    ensures x in SortBy(s, key, descending) <==> x in s
  {
    assert x in SortBy(s, key, descending) <==> x in multiset(SortBy(s, key, descending));
  }
}
