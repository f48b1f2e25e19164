/** The pagination arithmetic shared by the three order listings:
    `skip = (page - 1) * limit`, the store's skip/limit window, and the
    response envelope `{totalCount, currentPage, lastPage, orders}`. */
module Pagination {

  /** Default `page` of every listing. */
  const DefaultPage: nat := 1
  /** Default `limit` of the admin listing. */
  const AdminDefaultLimit: nat := 10
  /** Default `limit` of the current-user and company listings. */
  const DefaultLimit: nat := 12

  datatype Envelope<T> = Envelope(totalCount: nat, currentPage: nat, lastPage: nat, orders: seq<T>)

  function Min(a: nat, b: nat): nat
  {
    if a <= b then a else b
  }

  /** The number of matching documents on the pages before `page`. */
  function Skip(page: nat, limit: nat): (n: nat)
    requires page >= 1
    ensures n == (page - 1) * limit
    ensures n + limit == page * limit
  {
    (page - 1) * limit
  }

  /** What `.skip(skip).limit(limit)` returns of the matching documents `s`:
      at most `limit` of them, starting at position `skip`, in order. */
  function Window<T>(s: seq<T>, skip: nat, limit: nat): (r: seq<T>)
    ensures |r| <= limit
    ensures |r| == if skip >= |s| then 0 else Min(limit, |s| - skip)
    ensures forall k :: 0 <= k < |r| ==> r[k] == s[skip + k]
    ensures forall x :: x in r ==> x in s
  {
    if skip >= |s| then [] else s[skip..skip + Min(limit, |s| - skip)]
  }

  /** `Math.ceil(n / d)` for a natural `n` and a positive `d`: the least
      number of pages of size `d` that hold `n` items. */
  function CeilDiv(n: nat, d: nat): (r: nat)
    requires d > 0
    ensures r * d >= n
    ensures r == 0 || (r - 1) * d < n
  {
    var q := (n + d - 1) / d;
    var m := (n + d - 1) % d;
    assert n + d - 1 == q * d + m && 0 <= m < d;
    assert q * d >= n;
    assert q == 0 || (q - 1) * d == q * d - d;
    q
  }

  /** The envelope a listing sends back for the page it fetched. As written,
      `totalCount` is the length of that page, not the number of matching
      orders, and `lastPage` is computed from it. */
  function PageEnvelope<T>(page: seq<T>, pageNumber: nat, limit: nat): (e: Envelope<T>)
    requires limit > 0
    ensures e.orders == page && e.currentPage == pageNumber
    ensures e.totalCount == |page|
    ensures e.lastPage * limit >= e.totalCount
    ensures e.lastPage == 0 || (e.lastPage - 1) * limit < e.totalCount
  {
    Envelope(|page|, pageNumber, CeilDiv(|page|, limit), page)
  }

  /** A count that fits in one page needs at most one page, and none when it
      is zero. */
  lemma CeilDivOfOnePage(n: nat, d: nat)
    requires 0 < d && n <= d
    ensures CeilDiv(n, d) <= 1
    ensures CeilDiv(n, d) == 0 <==> n == 0
  {
  }

  /** Because `totalCount` counts only the fetched page, `lastPage` of any
      envelope over a window of size `limit` is 0 (empty page) or 1. */
  lemma LastPageAtMostOne<T>(s: seq<T>, page: nat, limit: nat)
    requires page >= 1 && limit > 0
    ensures PageEnvelope(Window(s, Skip(page, limit), limit), page, limit).lastPage <= 1
    ensures PageEnvelope(Window(s, Skip(page, limit), limit), page, limit).lastPage == 0
            <==> Window(s, Skip(page, limit), limit) == []
  {
    var w := Window(s, Skip(page, limit), limit);
    CeilDivOfOnePage(|w|, limit);
  }

  /** Consecutive pages are adjacent: page `p` followed by page `p + 1` is the
      window of size `2 * limit` starting where page `p` starts. */
  lemma ConsecutivePagesAdjacent<T>(s: seq<T>, page: nat, limit: nat)
    requires page >= 1
    ensures Window(s, Skip(page, limit), limit) + Window(s, Skip(page + 1, limit), limit)
            == Window(s, Skip(page, limit), 2 * limit)
  {
  }

  /** Every matching document is on exactly the page its position says:
      the one at position `i` is item `i % limit` of page `i / limit + 1`. */
  lemma EveryItemOnItsPage<T>(s: seq<T>, i: nat, limit: nat)
    requires i < |s| && limit > 0
    ensures i % limit < |Window(s, Skip(i / limit + 1, limit), limit)|
    ensures Window(s, Skip(i / limit + 1, limit), limit)[i % limit] == s[i]
  {
  }

  /** The listings' example: with 15 matching orders, `limit = 10` and
      `page = 2`, the page holds orders 11 to 15, `currentPage` is 2, and
      `totalCount` reports 5 rather than 15. */
  lemma SecondPageOfFifteen<T>(s: seq<T>)
    requires |s| == 15
    ensures Window(s, Skip(2, 10), 10) == s[10..15]
    ensures PageEnvelope(Window(s, Skip(2, 10), 10), 2, 10)
            == Envelope(5, 2, 1, s[10..15])
  {
  }
}
