/**
 * The sort-then-slice step shared by the store's queries: the paginated
 * endpoints sort the filtered records and cut out one page, and the
 * dashboard sorts newest-first and keeps the first ten.
 */
module Ranking {
  import opened Seqs
  import opened Sorting
  import opened Paging

  /** Page `page` of `s` once sorted by `key`. */
  function Window<T>(s: seq<T>, key: T -> int, descending: bool, page: int, limit: int): seq<T> {
    PageOf(SortBy(s, key, descending), page, limit)
  }

  /** Any slice of a sorted sequence is sorted. */
  lemma SliceSorted<T>(s: seq<T>, key: T -> int, descending: bool, a: nat, b: nat)
    requires a <= b <= |s|
    requires SortedBy(s, key, descending)
    ensures SortedBy(s[a..b], key, descending)
  {
    var w := s[a..b];
    forall i, j | 0 <= i < j < |w|
      ensures InOrder(key(w[i]), key(w[j]), descending)
    {
      assert w[i] == s[a + i] && w[j] == s[a + j];
    }
  }

  /**
   * A page of a real page number and limit holds at most `limit` records,
   * all drawn from `s`, in the requested order, and none once the offset
   * passes the end.
   */
  lemma WindowFacts<T>(s: seq<T>, key: T -> int, descending: bool, page: int, limit: int)
    requires page >= 1 && limit >= 1
    ensures var w := Window(s, key, descending, page, limit);
      && |w| <= limit
      && (forall x :: x in w ==> x in s)
      && SortedBy(w, key, descending)
      && (Offset(page, limit) >= |s| ==> w == [])
  {
    var sorted := SortBy(s, key, descending);
    SortByLength(s, key, descending);
    PageWindow(sorted, page, limit);
    var o := Offset(page, limit);
    var a, b := Min(o, |sorted|), Min(o + limit, |sorted|);
    var w := Window(s, key, descending, page, limit);
    assert w == sorted[a..b];
    SliceSorted(sorted, key, descending, a, b);
    forall x | x in w
      ensures x in s
    {
      SortByMembers(s, key, descending, x);
    }
  }

  /** Pages 1 to `count` of `s` sorted by `key`, one after the other. */
  function Windows<T>(s: seq<T>, key: T -> int, descending: bool, limit: int, count: nat): seq<T> {
    if count == 0 then []
    else Windows(s, key, descending, limit, count - 1) + Window(s, key, descending, count, limit)
  }

  lemma {:induction false} WindowsArePages<T>(s: seq<T>, key: T -> int, descending: bool, limit: int, count: nat)
    ensures Windows(s, key, descending, limit, count) == PagesUpTo(SortBy(s, key, descending), limit, count)
  {
    if count > 0 {
      WindowsArePages(s, key, descending, limit, count - 1);
    }
  }

  /** The pages `pages(1)` to `pages(count)`, one after the other. */
  function Concat<T>(pages: nat -> seq<T>, count: nat): seq<T> {
    if count == 0 then [] else Concat(pages, count - 1) + pages(count)
  }

  /** Pages that are each the matching window concatenate to the windows. */
  lemma {:induction false} ConcatWindows<T>(pages: nat -> seq<T>, s: seq<T>, key: T -> int, descending: bool, limit: int, count: nat)
    requires forall k :: 1 <= k <= count ==> pages(k) == Window(s, key, descending, k, limit)
    ensures Concat(pages, count) == Windows(s, key, descending, limit, count)
  {
    if count > 0 {
      ConcatWindows(pages, s, key, descending, limit, count - 1);
    }
  }

  /**
   * Reading every page, from 1 to the reported page count, yields each
   * record of `s` exactly as often as it occurs in `s`.
   */
  lemma AllWindowsCoverInput<T>(s: seq<T>, key: T -> int, descending: bool, limit: int)
    requires limit >= 1
    ensures TotalPages(|s|, limit).Some?
    ensures multiset(Windows(s, key, descending, limit, TotalPages(|s|, limit).value)) == multiset(s)
  {
    TotalPagesBounds(|s|, limit);
    SortByLength(s, key, descending);
    var m := TotalPages(|s|, limit).value;
    WindowsArePages(s, key, descending, limit, m);
    AllPagesReassemble(SortBy(s, key, descending), limit);
  }

  /**
   * Pages that are each the matching window, read from the first to the
   * last reported page, are the whole sorted input in order, so they hold
   * every element of the input exactly as often.
   */
  lemma PagesCoverInput<T>(pages: nat -> seq<T>, s: seq<T>, key: T -> int, descending: bool, limit: int)
    requires limit >= 1
    requires forall k :: 1 <= k ==> pages(k) == Window(s, key, descending, k, limit)
    ensures Concat(pages, PageCount(|s|, limit)) == SortBy(s, key, descending)
    ensures multiset(Concat(pages, PageCount(|s|, limit))) == multiset(s)
  {
    var count := PageCount(|s|, limit);
    var sorted := SortBy(s, key, descending);
    SortByLength(s, key, descending);
    ConcatWindows(pages, s, key, descending, limit, count);
    WindowsArePages(s, key, descending, limit, count);
    AllPagesReassemble(sorted, limit);
  }

  /** `[...s].sort(newest first).slice(0, n)`. */
  function Newest<T>(s: seq<T>, key: T -> int, n: nat): seq<T> {
    JsSlice(SortBy(s, key, true), 0, n)
  }

  /** A prefix of a newest-first list: part of it, still sorted, and no newer than what it keeps. */
  lemma SortedPrefixFacts<T>(sorted: seq<T>, key: T -> int, k: nat)
    requires k <= |sorted| && SortedBy(sorted, key, true)
    ensures multiset(sorted[..k]) <= multiset(sorted)
    ensures SortedBy(sorted[..k], key, true)
    ensures forall x, y :: x in sorted[..k] && y in sorted && y !in sorted[..k] ==> key(y) <= key(x)
  {
    var r := sorted[..k];
    assert sorted == r + sorted[k..];
    SliceSorted(sorted, key, true, 0, k);
    forall x, y | x in r && y in sorted && y !in r
      ensures key(y) <= key(x)
    {
      var j :| 0 <= j < |sorted| && sorted[j] == y;
      var i :| 0 <= i < |r| && r[i] == x;
      assert sorted[i] == x;
    }
  }

  /**
   * The first `n` after a newest-first sort: `min(n, |s|)` records of `s`,
   * each at most as often as `s` holds it, newest first, and any record
   * left out is no newer than every record kept.
   */
  lemma NewestFacts<T>(s: seq<T>, key: T -> int, n: nat)
    ensures var r := Newest(s, key, n);
      && |r| == Min(n, |s|)
      && multiset(r) <= multiset(s)
      && (forall x :: x in r ==> x in s)
      && SortedBy(r, key, true)
      && (forall x, y :: x in r && y in s && y !in r ==> key(y) <= key(x))
  {
    var sorted := SortBy(s, key, true);
    SortByLength(s, key, true);
    var k := Min(n, |s|);
    var r := Newest(s, key, n);
    assert r == sorted[..k];
    SortedPrefixFacts(sorted, key, k);
    forall x | x in r
      ensures x in s
    {
      SortByMembers(s, key, true, x);
    }
    forall x, y | x in r && y in s && y !in r
      ensures key(y) <= key(x)
    {
      SortByMembers(s, key, true, y);
    }
  }
}
