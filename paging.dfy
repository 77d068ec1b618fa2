/**
 * The pagination stage: `total`, `total_pages = (total + page_size - 1) // page_size`
 * and the slice `[(page - 1) * page_size : (page - 1) * page_size + page_size]`,
 * plus the SQL `LIMIT ... OFFSET ...` that the database paths use instead.
 */
module Paging {
  import opened Common

  /** Python's `//` on non-negative operands is Dafny's `/`. */
  function TotalPages(total: nat, pageSize: nat): nat
    requires pageSize >= 1
  {
    (total + pageSize - 1) / pageSize
  }

  /** The number of pages is the ceiling of total / page_size, and 0 exactly when there is nothing. */
  lemma TotalPagesIsCeiling(total: nat, pageSize: nat)
    requires pageSize >= 1
    ensures total <= TotalPages(total, pageSize) * pageSize
    ensures TotalPages(total, pageSize) == 0 || (TotalPages(total, pageSize) - 1) * pageSize < total
    ensures TotalPages(total, pageSize) == 0 <==> total == 0
  {
    var n := TotalPages(total, pageSize);
    var r := (total + pageSize - 1) % pageSize;
    assert total + pageSize - 1 == n * pageSize + r;
    assert (n - 1) * pageSize == n * pageSize - pageSize;
  }

  /** The zero-based index of the first record on a page. */
  function Offset(page: int, pageSize: nat): nat
    requires page >= 1
  {
    (page - 1) * pageSize
  }

  /** Python's `s[lo:hi]` for non-negative bounds: both ends clamp to the length. */
  function Slice<T>(s: seq<T>, lo: nat, hi: nat): seq<T>
  {
    var l := Min(lo, |s|);
    var h := Min(hi, |s|);
    if l <= h then s[l..h] else []
  }

  /** The records of one page of s. */
  function Page<T>(s: seq<T>, page: int, pageSize: nat): seq<T>
    requires page >= 1
  {
    Slice(s, Offset(page, pageSize), Offset(page, pageSize) + pageSize)
  }

  /**
   * A page holds the records from its offset on, at most page_size of them,
   * and is empty (not an error) when the offset is at or past the end.
   */
  lemma PageContents<T>(s: seq<T>, page: int, pageSize: nat)
    requires page >= 1
    ensures |Page(s, page, pageSize)| == if Offset(page, pageSize) >= |s| then 0 else Min(pageSize, |s| - Offset(page, pageSize))
    ensures forall k :: 0 <= k < |Page(s, page, pageSize)| ==> Page(s, page, pageSize)[k] == s[Offset(page, pageSize) + k]
  {
  }

  lemma MulMonotone(a: int, b: int, c: nat)
    requires a <= b
    ensures a * c <= b * c
  {
    assert b * c - a * c == (b - a) * c;
  }

  /** A page is non-empty exactly when its number is between 1 and total_pages. */
  lemma PageNonEmptyIffInRange<T>(s: seq<T>, page: int, pageSize: nat)
    requires page >= 1 && pageSize >= 1
    ensures Page(s, page, pageSize) != [] <==> page <= TotalPages(|s|, pageSize)
  {
    var n := TotalPages(|s|, pageSize);
    var o := Offset(page, pageSize);
    TotalPagesIsCeiling(|s|, pageSize);
    assert Page(s, page, pageSize) != [] <==> o < |s|;
    if page <= n {
      MulMonotone(page - 1, n - 1, pageSize);
    } else {
      MulMonotone(n, page - 1, pageSize);
    }
  }

  /** Pages 1..n, one after the other. */
  function AllPages<T>(s: seq<T>, pageSize: nat, n: nat): seq<T>
  {
    if n == 0 then [] else AllPages(s, pageSize, n - 1) + Page(s, n, pageSize)
  }

  lemma {:induction false} AllPagesIsPrefix<T>(s: seq<T>, pageSize: nat, n: nat)
    ensures AllPages(s, pageSize, n) == s[..Min(n * pageSize, |s|)]
  {
    if n > 0 {
      AllPagesIsPrefix(s, pageSize, n - 1);
      assert n * pageSize == (n - 1) * pageSize + pageSize;
      var a := Min((n - 1) * pageSize, |s|);
      var b := Min(n * pageSize, |s|);
      assert s[..a] + s[a..b] == s[..b];
    }
  }

  /**
   * Pagination is a partition: pages 1..total_pages, concatenated, give back
   * the whole list with no gap and no duplicate.
   */
  lemma PagesPartition<T>(s: seq<T>, pageSize: nat)
    requires pageSize >= 1
    ensures AllPages(s, pageSize, TotalPages(|s|, pageSize)) == s
  {
    TotalPagesIsCeiling(|s|, pageSize);
    AllPagesIsPrefix(s, pageSize, TotalPages(|s|, pageSize));
  }

  /** SQL `OFFSET offset LIMIT limit`: skip offset rows, then return at most limit rows. */
  function OffsetLimit<T>(s: seq<T>, offset: nat, limit: nat): (r: seq<T>)
    ensures |r| <= limit
    ensures multiset(r) <= multiset(s)
  {
    var rest := if offset < |s| then s[offset..] else [];
    assert rest == s[Min(offset, |s|)..];
    assert s == s[..Min(offset, |s|)] + rest;
    if limit < |rest| then
      assert rest == rest[..limit] + rest[limit..];
      rest[..limit]
    else rest
  }

  /** The database's offset/limit returns the same page as the in-memory slice. */
  lemma OffsetLimitIsPage<T>(s: seq<T>, page: int, pageSize: nat)
    requires page >= 1
    ensures OffsetLimit(s, Offset(page, pageSize), pageSize) == Page(s, page, pageSize)
  {
    var o := Offset(page, pageSize);
    if o < |s| {
      if pageSize < |s| - o {
        assert s[o..][..pageSize] == s[o..o + pageSize];
      } else {
        assert Min(o + pageSize, |s|) == |s|;
      }
    } else {
      assert Min(o, |s|) == |s|;
    }
  }
}
