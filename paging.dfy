/**
 * The page window of both `/paginated` queries: `offset = (page - 1) * limit`,
 * `list.slice(offset, offset + limit)` with JavaScript's slice semantics, and
 * `Math.ceil(total / limit)` pages.
 */
module Paging {
  import opened Common

  /** One bound of `Array.prototype.slice`: negative counts from the end, then clamped. */
  function SliceBound(len: nat, k: int): (b: nat)
    ensures b <= len
    ensures 0 <= k ==> b == Min(k, len)
    ensures k < 0 ==> b == len - Min(-k, len)
  {
    if k < 0 then (if len + k < 0 then 0 else len + k)
    else if k < len then k else len
  }

  /** `s.slice(start, end)`. */
  function JsSlice<T>(s: seq<T>, start: int, end: int): seq<T> {
    var from, to := SliceBound(|s|, start), SliceBound(|s|, end);
    if from < to then s[from..to] else []
  }

  function Offset(page: int, limit: int): int {
    (page - 1) * limit
  }

  /** The records of one page: `s.slice(offset, offset + limit)`. */
  function PageOf<T>(s: seq<T>, page: int, limit: int): seq<T> {
    JsSlice(s, Offset(page, limit), Offset(page, limit) + limit)
  }

  /** `Math.ceil(a / b)` for a non-zero divisor. */
  function CeilDiv(a: int, b: int): int
    requires b != 0
  {
    if b > 0 then -((-a) / b) else -(a / (-b))
  }

  /**
   * `Math.ceil(total / limit)`; with `limit` 0 the quotient is Infinity or
   * NaN, which the JSON response carries as null, here `None`.
   */
  function TotalPages(total: nat, limit: int): Option<int> {
    if limit == 0 then None else Some(CeilDiv(total, limit))
  }

  function Min(a: int, b: int): int {
    if a <= b then a else b
  }

  /** A slice from a non-negative start takes at most `limit` records from there. */
  lemma SliceFrom<T>(s: seq<T>, o: int, limit: int)
    requires 0 <= o && limit >= 1
    ensures JsSlice(s, o, o + limit) == s[Min(o, |s|)..Min(o + limit, |s|)]
    ensures |JsSlice(s, o, o + limit)| <= limit
    ensures o >= |s| ==> JsSlice(s, o, o + limit) == []
  {
  }

  /** For a real page and limit the window is the records from the offset on, at most `limit` of them. */
  lemma PageWindow<T>(s: seq<T>, page: int, limit: int)
    requires page >= 1 && limit >= 1
    ensures var o := Offset(page, limit);
      0 <= o
      && PageOf(s, page, limit) == s[Min(o, |s|)..Min(o + limit, |s|)]
      && |PageOf(s, page, limit)| <= limit
      && (o >= |s| ==> PageOf(s, page, limit) == [])
  {
    var o := Offset(page, limit);
    assert 0 <= o by {
      var p: nat := page - 1;
      assert o == p * limit;
    }
    SliceFrom(s, o, limit);
  }

  /** With a positive limit the page count is the least number of pages that hold every record. */
  lemma TotalPagesBounds(total: nat, limit: int)
    requires limit >= 1
    ensures TotalPages(total, limit).Some?
    ensures var m := TotalPages(total, limit).value;
      0 <= m && total <= m * limit && (m - 1) * limit < total + (if total == 0 then limit else 0)
      && (m == 0 <==> total == 0)
  {
    var neg: int := 0 - total;
    var q, r := neg / limit, neg % limit;
    assert neg == q * limit + r && 0 <= r < limit;
    var m := -q;
    assert m * limit == total + r;
    assert (m - 1) * limit == total + r - limit;
  }

  /** The page count for a positive limit, where it is never negative. */
  function PageCount(total: nat, limit: int): (m: nat)
    requires limit >= 1
    ensures TotalPages(total, limit) == Some(m)
  {
    TotalPagesBounds(total, limit);
    CeilDiv(total, limit)
  }

  /** Pages 1 to `count`, one after the other. */
  function PagesUpTo<T>(s: seq<T>, limit: int, count: nat): seq<T> {
    if count == 0 then [] else PagesUpTo(s, limit, count - 1) + PageOf(s, count, limit)
  }

  /** Page `page` is the slice between the ends of pages `page - 1` and `page`. */
  lemma PageBetweenEnds<T>(s: seq<T>, page: int, limit: int)
    requires page >= 1 && limit >= 1
    ensures 0 <= (page - 1) * limit <= page * limit
    ensures PageOf(s, page, limit) == s[Min((page - 1) * limit, |s|)..Min(page * limit, |s|)]
  {
    PageWindow(s, page, limit);
    assert Offset(page, limit) + limit == page * limit;
  }

  lemma {:induction false} PagesUpToPrefix<T>(s: seq<T>, limit: int, count: nat)
    requires limit >= 1
    ensures PagesUpTo(s, limit, count) == s[..Min(count * limit, |s|)]
  {
    if count > 0 {
      PagesUpToPrefix(s, limit, count - 1);
      PageBetweenEnds(s, count, limit);
      var a, b := Min((count - 1) * limit, |s|), Min(count * limit, |s|);
      assert PagesUpTo(s, limit, count) == s[..a] + s[a..b];
      assert s[..a] + s[a..b] == s[..b];
    }
  }

  /** Reading every page in order gives back the whole sequence, each record once. */
  lemma AllPagesReassemble<T>(s: seq<T>, limit: int)
    requires limit >= 1
    ensures PagesUpTo(s, limit, TotalPages(|s|, limit).value) == s
  {
    TotalPagesBounds(|s|, limit);
    var m := TotalPages(|s|, limit).value;
    PagesUpToPrefix(s, limit, m);
    assert s[..|s|] == s;
  }

  /** Page 2 of 25 records at 10 per page holds records 11 to 20, and there are 3 pages. */
  lemma SecondPageOfTwentyFive<T>(s: seq<T>)
    requires |s| == 25
    ensures PageOf(s, 2, 10) == s[10..20]
    ensures TotalPages(|s|, 10) == Some(3)
  {
  }

  /**
   * A negative page (the query value is used unparsed) counts from the end:
   * `slice(offset, offset + limit)` with both bounds negative takes the
   * records between `|s| + (page - 1) * limit` and `|s| + page * limit`,
   * each clamped at 0.
   */
  lemma NegativePageFromEnd<T>(s: seq<T>, page: int, limit: int)
    requires page < 0 && limit >= 1
    ensures var from, to := |s| + (page - 1) * limit, |s| + page * limit;
      PageOf(s, page, limit) == s[(if from < 0 then 0 else from)..(if to < 0 then 0 else to)]
  {
    var o := Offset(page, limit);
    assert o + limit == page * limit;
    assert page * limit < 0;
    assert o < 0;
  }

  /** Page -1 of 25 records at 10 per page is `slice(-20, -10)`: records 6 to 15. */
  lemma PageMinusOneOfTwentyFive<T>(s: seq<T>)
    requires |s| == 25
    ensures PageOf(s, -1, 10) == s[5..15]
  {
  }

  /** `page=0` gives `slice(-limit, 0)`, which is always empty. */
  lemma PageZeroIsEmpty<T>(s: seq<T>, limit: int)
    requires limit >= 1
    ensures PageOf(s, 0, limit) == []
  {
  }
}
