// Offset pagination: the slices an offset query returns, and how many there are.
module Paging {
  // The rows an offset query returns: skip (page - 1) * limit, take limit.
  function OffsetPage<T>(rows: seq<T>, page: nat, limit: nat): seq<T>
    requires page >= 1
  {
    var skip := (page - 1) * limit;
    if skip >= |rows| then [] else if skip + limit >= |rows| then rows[skip..] else rows[skip..skip + limit]
  }

  // count == max(1, ceil(n / limit))
  predicate IsPageCount(count: nat, n: nat, limit: nat) {
    count >= 1 && n <= count * limit && (count > 1 ==> (count - 1) * limit < n)
  }

  // A list cut into pages of `limit`; an empty list is one empty page.
  function Chunks<T>(rows: seq<T>, limit: nat): seq<seq<T>>
    requires limit >= 1
  {
    if |rows| <= limit then [rows] else [rows[..limit]] + Chunks(rows[limit..], limit)
  }

  lemma PageShift<T>(rows: seq<T>, page: nat, limit: nat)
    requires page >= 1 && |rows| > limit
    ensures OffsetPage(rows[limit..], page, limit) == OffsetPage(rows, page + 1, limit)
  {
    assert page * limit == (page - 1) * limit + limit;
  }

  lemma {:induction false} ChunksAreOffsetPages<T>(rows: seq<T>, limit: nat)
    requires limit >= 1
    ensures var pages := Chunks(rows, limit);
      && IsPageCount(|pages|, |rows|, limit)
      && forall k | 0 <= k < |pages| :: pages[k] == OffsetPage(rows, k + 1, limit)
  {
    if |rows| > limit {
      ChunksAreOffsetPages(rows[limit..], limit);
      var pages, later := Chunks(rows, limit), Chunks(rows[limit..], limit);
      CountOneMore(|later|, |rows|, limit);
      forall k | 0 <= k < |pages| ensures pages[k] == OffsetPage(rows, k + 1, limit) {
        if k > 0 {
          assert pages[k] == later[k - 1];
          PageShift(rows, k, limit);
        }
      }
    }
  }

  lemma CountOneMore(count: nat, n: nat, limit: nat)
    requires limit >= 1 && n > limit && IsPageCount(count, n - limit, limit)
    ensures IsPageCount(count + 1, n, limit)
  {
  }

  lemma {:induction false} MoreIsMore(a: nat, b: nat, limit: nat)
    requires a <= b
    ensures a * limit <= b * limit
  {
    if a < b {
      MoreIsMore(a, b - 1, limit);
      assert b * limit == (b - 1) * limit + limit;
    }
  }

  lemma PastTheEnd<T>(rows: seq<T>, page: nat, count: nat, limit: nat)
    requires limit >= 1 && page > count && |rows| <= count * limit
    ensures OffsetPage(rows, page, limit) == []
  {
    MoreIsMore(count, page - 1, limit);
  }

  // Entry k of page p is entry (p - 1) * limit + k, as far as there are entries.
  lemma OffsetPageExactly<T>(rows: seq<T>, page: nat, limit: nat)
    requires page >= 1 && limit >= 1
    ensures var data, skip := OffsetPage(rows, page, limit), (page - 1) * limit;
      && |data| == (if skip >= |rows| then 0 else if |rows| - skip <= limit then |rows| - skip else limit)
      && forall k | 0 <= k < |data| :: skip + k < |rows| && data[k] == rows[skip + k]
  {
  }
}
