/**
 * `api/anime_postgres.py`: the router over the SQLAlchemy session. The
 * listing rebinds an ORM query once per present filter and once for the
 * order, lets the database count and page it, and copies each returned row
 * into a response entry; any exception falls back to a local three-record
 * sample. The statistics come from six scalar aggregate queries.
 */
module AnimePostgres {
  import opened Common
  import opened Records
  import opened Filtering
  import opened Paging
  import opened QueryEngine
  import opened Samples
  import Aggregator

  /**
   * An ORM query over the `anime` table: the criteria of its `.filter`
   * calls, in order, and the column and direction of its `.order_by`.
   */
  datatype OrmQuery = OrmQuery(filters: seq<Criterion>, order: Option<(SortField, bool)>)

  /** `db.query(Anime)`: every row, in no particular order. */
  const AllAnime: OrmQuery := OrmQuery([], None)

  /** `query.filter(...)`: one more criterion, after the others. */
  function Filter(query: OrmQuery, c: Criterion): (r: OrmQuery)
    ensures r.filters == query.filters + [c] && r.order == query.order
  {
    query.(filters := query.filters + [c])
  }

  /** `query.order_by(column.desc())` or `.asc()`. */
  function OrderBy(query: OrmQuery, column: SortField, descending: bool): (r: OrmQuery)
    ensures r.filters == query.filters && r.order == Some((column, descending))
  {
    query.(order := Some((column, descending)))
  }

  /** The query the handler builds: the active criteria, ordered descending exactly for "desc". */
  function QueryFor(f: Filters, sortBy: SortField, sortOrder: string): OrmQuery
  {
    OrmQuery(ActiveCriteria(f), Some((sortBy, sortOrder == "desc")))
  }

  /**
   * The rows the built query selects are those the in-memory engine
   * selects: the chained `.filter` calls are the filter stage.
   */
  lemma QuerySelectsMatches(table: seq<AnimeRecord>, f: Filters, sortBy: SortField, sortOrder: string)
    ensures SelectAll(table, QueryFor(f, sortBy, sortOrder).filters) == Select(table, f)
    ensures QueryFor(f, sortBy, sortOrder).order.value.1 <==> Descending(sortOrder)
  {
    SelectAllIsSelect(table, f);
  }

  /**
   * The filter part of `get_anime`: each present filter rebinds the query
   * with one more `.filter`, in the fixed order search, year_from, year_to,
   * rating_from, rating_to.
   */
  method FilterQuery(f: Filters) returns (query: OrmQuery)
    ensures query == OrmQuery(ActiveCriteria(f), None)
  {
    query := AllAnime;
    ghost var p0 := if SearchActive(f.search) then [TitleContains(f.search.value)] else [];
    ghost var p1 := if f.yearFrom.Some? then [YearAtLeast(f.yearFrom.value)] else [];
    ghost var p2 := if f.yearTo.Some? then [YearAtMost(f.yearTo.value)] else [];
    ghost var p3 := if f.ratingFrom.Some? then [RatingAtLeast(f.ratingFrom.value)] else [];
    ghost var p4 := if f.ratingTo.Some? then [RatingAtMost(f.ratingTo.value)] else [];

    if f.search.Some? && f.search.value != [] {
      query := Filter(query, TitleContains(f.search.value));
    }
    assert query == OrmQuery(p0, None);
    if f.yearFrom.Some? {
      query := Filter(query, YearAtLeast(f.yearFrom.value));
    }
    assert query == OrmQuery(p0 + p1, None);
    if f.yearTo.Some? {
      query := Filter(query, YearAtMost(f.yearTo.value));
    }
    assert query == OrmQuery(p0 + p1 + p2, None);
    if f.ratingFrom.Some? {
      query := Filter(query, RatingAtLeast(f.ratingFrom.value));
    }
    assert query == OrmQuery(p0 + p1 + p2 + p3, None);
    if f.ratingTo.Some? {
      query := Filter(query, RatingAtMost(f.ratingTo.value));
    }
    assert query == OrmQuery(p0 + p1 + p2 + p3 + p4, None);
  }

  /** The query-building part of `get_anime`: the filters, then the order. */
  method BuildQuery(f: Filters, sortBy: SortField, sortOrder: string) returns (query: OrmQuery)
    ensures query == QueryFor(f, sortBy, sortOrder)
  {
    query := FilterQuery(f);
    if sortOrder == "desc" {
      query := OrderBy(query, sortBy, true);
    } else {
      query := OrderBy(query, sortBy, false);
    }
  }

  /** The response entry of one row: the nine columns of the `Anime` model. */
  function Entry(anime: AnimeRecord): AnimeRecord
  {
    AnimeRecord(anime.id, anime.title, anime.year, anime.averageRating, anime.ratingCount,
                anime.collections, anime.watched, anime.completionRate, anime.imgUrl)
  }

  /** The `for anime in anime_data` loop: one entry per row, in the order the database returned them. */
  method Entries(animeData: seq<AnimeRecord>) returns (animeList: seq<AnimeRecord>)
    ensures |animeList| == |animeData|
    ensures forall i :: 0 <= i < |animeData| ==> animeList[i] == animeData[i]
  {
    animeList := [];
    for i := 0 to |animeData|
      invariant |animeList| == i
      invariant forall k :: 0 <= k < i ==> animeList[k] == animeData[k]
    {
      animeList := animeList + [Entry(animeData[i])];
    }
  }

  /** The sample list local to `get_fallback_data`. */
  const SampleAnimeData: seq<AnimeRecord> := [SteinsGate, MadokaMagica, BocchiTheRock]

  /** `get_fallback_data`: the in-memory engine over the local sample. */
  method GetFallbackData(q: Query) returns (resp: Response)
    requires ValidPaging(q.page, q.pageSize)
    ensures resp == Expected(SampleAnimeData, q)
  {
    resp := Run(SampleAnimeData, q);
  }

  /**
   * `get_anime`: the query is built, counted and paged from `start_idx`
   * with `page_size` rows; the response carries the copied rows. Any
   * database failure answers from the fallback instead. The page request
   * `.offset(start_idx).limit(page_size)` is `OffsetLimit(rows, startIdx,
   * q.pageSize)`, and `QueryEngine.DatabaseAgrees` shows that a database
   * answering it like the engine gives the in-memory response.
   */
  method GetAnime(q: Query, answer: DbAnswer) returns (resp: Response, query: OrmQuery, startIdx: int)
    requires ValidPaging(q.page, q.pageSize)
    ensures query == QueryFor(q.filters, q.sortBy, q.sortOrder)
    ensures startIdx == Offset(q.page, q.pageSize)
    ensures answer.Answer? ==> resp == FromDatabase(q, answer.total, answer.rows)
    ensures !answer.Answer? ==> resp == Expected(SampleAnimeData, q)
  {
    query := BuildQuery(q.filters, q.sortBy, q.sortOrder);
    startIdx := (q.page - 1) * q.pageSize;
    if answer.Answer? {
      var total := answer.total;
      var totalPages := TotalPages(total, q.pageSize);
      var animeList := Entries(answer.rows);
      resp := Response(animeList, total, q.page, q.pageSize, totalPages);
    } else {
      resp := GetFallbackData(q);
    }
  }

  /**
   * `get_fallback_stats`: fixed figures. They are exactly the aggregates of
   * the local sample, so the fallback listing and statistics agree.
   */
  function GetFallbackStats(): (st: Aggregator.Stats)
    ensures Aggregator.GetStats(SampleAnimeData) == Ok(st)
  {
    FirstThreeFigures();
    Aggregator.Stats(3, 2011, 2022, 8.6, 189496, 157215)
  }

  /**
   * `get_stats`: the six scalars with every NULL reported as 0 when the
   * database answers, the fixed figures when a query raises.
   */
  function GetStats(scalars: Option<Aggregator.AggregateRow>): (st: Aggregator.Stats)
    ensures scalars.None? ==> st == GetFallbackStats()
    ensures scalars.Some? && scalars.value.count.None? ==> st.totalAnime == 0
    ensures scalars.Some? && scalars.value.avgRating.None? ==> st.avgRating == 0.0
  {
    if scalars.Some? then Aggregator.StatsFromRow(scalars.value) else GetFallbackStats()
  }

  /**
   * Over a table the database aggregates, the endpoint reports what the
   * in-memory aggregator computes, and all zeros for an empty table.
   */
  lemma StatsFromTable(table: seq<AnimeRecord>)
    ensures table != [] ==> Aggregator.GetStats(table) == Ok(GetStats(Some(Aggregator.SqlAggregates(table))))
    ensures table == [] ==> GetStats(Some(Aggregator.SqlAggregates(table))) == Aggregator.Stats(0, 0, 0, 0.0, 0, 0)
  {
    Aggregator.DbStatsAgree(table);
  }
}
