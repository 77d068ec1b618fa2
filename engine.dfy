/**
 * The in-memory query engine: copy the record list, apply the filter chain,
 * sort the copy in place, then cut out the requested page. The same body
 * appears as `get_anime` over the five-record sample and as both
 * `get_fallback_data` functions over the three-record sample.
 */
module QueryEngine {
  import opened Common
  import opened Records
  import opened Filtering
  import opened Sorting
  import opened Paging

  /** The request parameters as they reach the handler. */
  datatype Query = Query(
    page: int,
    pageSize: int,
    filters: Filters,
    sortBy: SortField,
    sortOrder: string)

  /** The response body: one page of records plus the echoed paging parameters. */
  datatype Response = Response(
    data: seq<AnimeRecord>,
    total: nat,
    page: int,
    pageSize: int,
    totalPages: nat)

  /** `Query(1, ge=1)` and `Query(20, ge=1, le=100)`: checked before the handler runs. */
  predicate ValidPaging(page: int, pageSize: int)
  {
    page >= 1 && 1 <= pageSize <= 100
  }

  /** `reverse = sort_order == "desc"`: every other value sorts ascending. */
  predicate Descending(sortOrder: string)
  {
    sortOrder == "desc"
  }

  /** The records the query selects, in the order the response lists them. */
  function Ordered(source: seq<AnimeRecord>, q: Query): seq<AnimeRecord>
  {
    StableSort(Select(source, q.filters), q.sortBy, Descending(q.sortOrder))
  }

  /** The response the engine must produce, stated with the reference filter. */
  function Expected(source: seq<AnimeRecord>, q: Query): Response
    requires ValidPaging(q.page, q.pageSize)
  {
    var selected := Select(source, q.filters);
    Response(
      Page(Ordered(source, q), q.page, q.pageSize),
      |selected|,
      q.page,
      q.pageSize,
      TotalPages(|selected|, q.pageSize))
  }

  /**
   * The handler body. The record list passed in is only read: filtering
   * builds new lists and the sort works on a fresh copy.
   */
  method Run(source: seq<AnimeRecord>, q: Query) returns (resp: Response)
    requires ValidPaging(q.page, q.pageSize)
    ensures resp == Expected(source, q)
  {
    var filtered := ApplyFilters(source, q.filters);
    var copy := new AnimeRecord[|filtered|](i requires 0 <= i < |filtered| => filtered[i]);
    assert copy[..] == filtered;
    var reverse := q.sortOrder == "desc";
    SortInPlace(copy, q.sortBy, reverse);

    var total := copy.Length;
    var totalPages := TotalPages(total, q.pageSize);
    var startIdx := Offset(q.page, q.pageSize);
    var endIdx := startIdx + q.pageSize;
    var paginated := Slice(copy[..], startIdx, endIdx);

    ApplyFiltersIsSelect(source, q.filters);
    resp := Response(paginated, total, q.page, q.pageSize, totalPages);
  }

  /** Every returned record comes from the source and satisfies every active filter. */
  lemma ResultSound(source: seq<AnimeRecord>, q: Query)
    requires ValidPaging(q.page, q.pageSize)
    ensures forall x :: x in Expected(source, q).data ==> x in source && Matches(x, q.filters)
  {
    var sel := Select(source, q.filters);
    var ord := Ordered(source, q);
    StableSortPermutes(sel, q.sortBy, Descending(q.sortOrder));
    SelectCounts(source, q.filters);
    PageContents(ord, q.page, q.pageSize);
    forall x | x in Expected(source, q).data ensures x in source && Matches(x, q.filters) {
      var k :| 0 <= k < |Expected(source, q).data| && Expected(source, q).data[k] == x;
      assert x in multiset(ord);
      assert x in multiset(sel);
      var j :| 0 <= j < |sel| && sel[j] == x;
    }
  }

  /**
   * The listing is complete: across pages 1..total_pages every matching
   * source record appears exactly as often as in the source, and nothing else.
   */
  lemma ResultComplete(source: seq<AnimeRecord>, q: Query)
    requires ValidPaging(q.page, q.pageSize)
    ensures forall x :: multiset(AllPages(Ordered(source, q), q.pageSize, Expected(source, q).totalPages))[x]
                        == if Matches(x, q.filters) then multiset(source)[x] else 0
  {
    var sel := Select(source, q.filters);
    StableSortPermutes(sel, q.sortBy, Descending(q.sortOrder));
    SelectCounts(source, q.filters);
    PagesPartition(Ordered(source, q), q.pageSize);
  }

  /**
   * The order of the listing: by the sort key, descending iff sort_order is
   * "desc", and tied records in their source order.
   */
  lemma ResultOrdered(source: seq<AnimeRecord>, q: Query)
    ensures Sorted(Ordered(source, q), q.sortBy, q.sortOrder == "desc")
    ensures SameTieOrder(Ordered(source, q), Select(source, q.filters), q.sortBy)
  {
    StableSortSorted(Select(source, q.filters), q.sortBy, Descending(q.sortOrder));
    StableSortKeepsTies(Select(source, q.filters), q.sortBy, Descending(q.sortOrder));
  }

  /**
   * `total` counts the matching records and `total_pages` is its ceiling
   * division; neither depends on which page is asked for, nor on the sort.
   */
  lemma TotalIgnoresPaging(source: seq<AnimeRecord>, q: Query, q': Query)
    requires ValidPaging(q.page, q.pageSize) && ValidPaging(q'.page, q'.pageSize)
    requires q.filters == q'.filters
    ensures Expected(source, q).total == Expected(source, q').total
    ensures Expected(source, q).total == |Select(source, q.filters)|
    ensures Expected(source, q).total <= Expected(source, q).totalPages * q.pageSize
    ensures Expected(source, q).total == 0
            || (Expected(source, q).totalPages - 1) * q.pageSize < Expected(source, q).total
    ensures Expected(source, q).totalPages == 0 <==> Expected(source, q).total == 0
  {
    TotalPagesIsCeiling(|Select(source, q.filters)|, q.pageSize);
  }

  /**
   * The page is the ordered list from (page - 1) * page_size on, at most
   * page_size records, and empty exactly when page > total_pages.
   */
  lemma ResultPage(source: seq<AnimeRecord>, q: Query)
    requires ValidPaging(q.page, q.pageSize)
    ensures |Expected(source, q).data| <= q.pageSize
    ensures Expected(source, q).data == [] <==> q.page > Expected(source, q).totalPages
    ensures forall k :: 0 <= k < |Expected(source, q).data| ==>
              Expected(source, q).data[k] == Ordered(source, q)[(q.page - 1) * q.pageSize + k]
  {
    var ord := Ordered(source, q);
    var r := Expected(source, q);
    assert r.data == Page(ord, q.page, q.pageSize);
    assert r.totalPages == TotalPages(|ord|, q.pageSize);
    PageContents(ord, q.page, q.pageSize);
    PageNonEmptyIffInRange(ord, q.page, q.pageSize);
  }

  /** Where a database request raised: opening the cursor, the count, or the page. */
  datatype FailurePoint = AtCursor | AtCount | AtPage

  /**
   * What a database handler meets: no connection at all, a connection on
   * which a step raised, or the count and the rows of the requested page.
   */
  datatype DbAnswer = NoConnection | QueryFailed(at: FailurePoint) | Answer(total: nat, rows: seq<AnimeRecord>)

  /** The response a database handler builds from the count and the page rows. */
  function FromDatabase(q: Query, total: nat, rows: seq<AnimeRecord>): Response
    requires ValidPaging(q.page, q.pageSize)
  {
    Response(rows, total, q.page, q.pageSize, TotalPages(total, q.pageSize))
  }

  /**
   * The database handlers and the in-memory engine agree whenever the
   * database selects, orders and counts like the engine: with `OFFSET
   * (page - 1) * page_size LIMIT page_size` the rows are exactly the page.
   */
  lemma DatabaseAgrees(table: seq<AnimeRecord>, q: Query)
    requires ValidPaging(q.page, q.pageSize)
    ensures FromDatabase(q, |Select(table, q.filters)|,
                         OffsetLimit(Ordered(table, q), Offset(q.page, q.pageSize), q.pageSize))
            == Expected(table, q)
  {
    OffsetLimitIsPage(Ordered(table, q), q.page, q.pageSize);
  }
}
