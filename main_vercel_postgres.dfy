/**
 * The fixed SQL text of the Vercel PostgreSQL handler, where psycopg2's
 * placeholder is `%s`. The facts about the literals are checked apart from
 * the builder.
 */
module PostgresText {
  import opened Placeholders

  /** The page query before any filter. */
  const SelectStar: string := "SELECT * FROM anime " + "WHERE 1=1"

  const CountOpen: string := "SELECT COUNT(*) " + "FROM ("
  const CountClose: string := ") as subquery"

  const OrderBy: string := " ORDER BY "

  /** `" LIMIT %s OFFSET %s"`: page_size, then the offset. */
  const LimitOffset: string := " LIMIT " + "%s" + " OFFSET " + "%s"

  /** psycopg2's placeholder `%s` is counted by its `%`. */
  lemma PlaceholderIsOnePercent()
    ensures Occurrences("%s", '%') == 1
  {
    assert "%s"[1..] == "s" && "s"[1..] == [];
  }

  lemma SelectStarHasNoPlaceholder()
    ensures Occurrences(SelectStar, '%') == 0
  {
    assert '%' !in "SELECT * FROM anime ";
    assert '%' !in "WHERE 1=1";
    NoPlaceholder(SelectStar, '%');
  }

  lemma CountWrapHasNoPlaceholder()
    ensures Occurrences(CountOpen, '%') == 0 && Occurrences(CountClose, '%') == 0
  {
    assert '%' !in "SELECT COUNT(*) ";
    assert '%' !in "FROM (";
    NoPlaceholder(CountOpen, '%');
    assert '%' !in CountClose;
    NoPlaceholder(CountClose, '%');
  }

  lemma LimitOffsetHasTwoPlaceholders()
    ensures Occurrences(LimitOffset, '%') == 2
  {
    PlaceholderIsOnePercent();
    assert '%' !in " LIMIT ";
    NoPlaceholder(" LIMIT ", '%');
    assert '%' !in " OFFSET ";
    NoPlaceholder(" OFFSET ", '%');
    OccurrencesAppend(" LIMIT ", "%s", '%');
    OccurrencesAppend(" LIMIT " + "%s", " OFFSET ", '%');
    OccurrencesAppend(" LIMIT " + "%s" + " OFFSET ", "%s", '%');
  }

  /** `"SELECT COUNT(*) FROM (" + query + ") as subquery"` */
  function CountText(query: string): string
  {
    CountOpen + query + CountClose
  }

  /** Wrapping a query as a counted subquery adds no placeholder. */
  lemma CountTextPlaceholders(query: string)
    ensures Occurrences(CountText(query), '%') == Occurrences(query, '%')
  {
    CountWrapHasNoPlaceholder();
    OccurrencesAppend(CountOpen, query, '%');
    OccurrencesAppend(CountOpen + query, CountClose, '%');
  }

  /** The page query: the counted query followed by `LIMIT %s OFFSET %s`. */
  function PageText(query: string): string
  {
    query + LimitOffset
  }

  lemma PageTextPlaceholders(query: string)
    ensures Occurrences(PageText(query), '%') == Occurrences(query, '%') + 2
  {
    LimitOffsetHasTwoPlaceholders();
    OccurrencesAppend(query, LimitOffset, '%');
  }
}

/**
 * `main_vercel_postgres.py`: with a connection, the listing grows one SQL
 * text from `WHERE 1=1` by one `AND` clause per present filter, counts the
 * rows of that text as a subquery and pages it with `LIMIT %s OFFSET %s`;
 * without one, or when a statement raises, both endpoints fall back to the
 * three-record sample.
 */
module VercelPostgres {
  import opened Common
  import opened Records
  import opened Filtering
  import opened Paging
  import opened QueryEngine
  import opened Placeholders
  import opened SqlText
  import opened PostgresText
  import opened Samples
  import Aggregator

  /** The module-level `sample_anime_data`: the first three sample records. */
  const SampleAnimeData: seq<AnimeRecord> := [SteinsGate, MadokaMagica, BocchiTheRock]

  /** The column and operator of the clause a criterion adds, before its placeholder. */
  function ClausePrefix(c: Criterion): string
  {
    match c
    case TitleContains(_) => " AND title ILIKE "
    case YearAtLeast(_) => " AND year >= "
    case YearAtMost(_) => " AND year <= "
    case RatingAtLeast(_) => " AND average_rating >= "
    case RatingAtMost(_) => " AND average_rating <= "
  }

  /** The clause a criterion appends (`" AND year >= %s"`, ...); its value goes to the parameters. */
  function Clause(c: Criterion): string
  {
    ClausePrefix(c) + "%s"
  }

  /** The clauses of several criteria, one after the other. */
  function Clauses(cs: seq<Criterion>): string
    decreases |cs|
  {
    if cs == [] then "" else Clause(cs[0]) + Clauses(cs[1..])
  }

  /** `"DESC" if sort_order == "desc" else "ASC"` */
  function Direction(sortOrder: string): string
  {
    if sortOrder == "desc" then "DESC" else "ASC"
  }

  /** `f" ORDER BY {order_column} {order_direction}"` */
  function OrderText(sortBy: SortField, sortOrder: string): string
  {
    OrderBy + FieldName(sortBy) + " " + Direction(sortOrder)
  }

  /** The filtered and ordered query, before paging: the text the count wraps. */
  function OrderedQuery(f: Filters, sortBy: SortField, sortOrder: string): string
  {
    SelectStar + Clauses(ActiveCriteria(f)) + OrderText(sortBy, sortOrder)
  }

  lemma ClausePlaceholder(c: Criterion)
    ensures Occurrences(Clause(c), '%') == 1
  {
    assert '%' !in ClausePrefix(c);
    NoPlaceholder(ClausePrefix(c), '%');
    PlaceholderIsOnePercent();
    OccurrencesAppend(ClausePrefix(c), "%s", '%');
  }

  lemma {:induction false} ClausesAppend(xs: seq<Criterion>, ys: seq<Criterion>)
    ensures Clauses(xs + ys) == Clauses(xs) + Clauses(ys)
    decreases |xs|
  {
    if xs == [] {
      assert xs + ys == ys;
    } else {
      assert (xs + ys)[0] == xs[0] && (xs + ys)[1..] == xs[1..] + ys;
      ClausesAppend(xs[1..], ys);
    }
  }

  /** The clauses hold exactly one placeholder per criterion. */
  lemma {:induction false} ClausesPlaceholders(cs: seq<Criterion>)
    ensures Occurrences(Clauses(cs), '%') == |cs|
    decreases |cs|
  {
    if cs != [] {
      ClausePlaceholder(cs[0]);
      ClausesPlaceholders(cs[1..]);
      OccurrencesAppend(Clause(cs[0]), Clauses(cs[1..]), '%');
    }
  }

  /** The ORDER BY text holds no placeholder, whatever the sort order. */
  lemma OrderTextHasNoPlaceholder(sortBy: SortField, sortOrder: string)
    ensures Occurrences(OrderText(sortBy, sortOrder), '%') == 0
  {
    assert '%' !in OrderBy;
    assert '%' !in FieldName(sortBy);
    assert '%' !in Direction(sortOrder);
    NoPlaceholder(OrderText(sortBy, sortOrder), '%');
  }

  /** The ordered query holds one placeholder per present filter. */
  lemma OrderedQueryPlaceholders(f: Filters, sortBy: SortField, sortOrder: string)
    ensures Occurrences(OrderedQuery(f, sortBy, sortOrder), '%') == |FilterParams(f)|
  {
    var cs := ActiveCriteria(f);
    SelectStarHasNoPlaceholder();
    ClausesPlaceholders(cs);
    OrderTextHasNoPlaceholder(sortBy, sortOrder);
    OccurrencesAppend(SelectStar, Clauses(cs), '%');
    OccurrencesAppend(SelectStar + Clauses(cs), OrderText(sortBy, sortOrder), '%');
  }

  /**
   * No filter value reaches the SQL text: two requests with the same filters
   * present get the same query, whatever the values.
   */
  lemma QueryIgnoresValues(f: Filters, g: Filters, sortBy: SortField, sortOrder: string)
    requires Presence(f) == Presence(g)
    ensures OrderedQuery(f, sortBy, sortOrder) == OrderedQuery(g, sortBy, sortOrder)
  {
    ClausesIgnoreValues(f, g);
  }

  lemma ClausesIgnoreValues(f: Filters, g: Filters)
    requires Presence(f) == Presence(g)
    ensures Clauses(ActiveCriteria(f)) == Clauses(ActiveCriteria(g))
  {
    ClausesFollowPresence(f);
    ClausesFollowPresence(g);
  }

  /** The clauses as a function of which filters are present alone. */
  function PresenceClauses(p: (bool, bool, bool, bool, bool)): string
  {
    (if p.0 then Clause(TitleContains([])) else "")
    + (if p.1 then Clause(YearAtLeast(0)) else "")
    + (if p.2 then Clause(YearAtMost(0)) else "")
    + (if p.3 then Clause(RatingAtLeast(0.0)) else "")
    + (if p.4 then Clause(RatingAtMost(0.0)) else "")
  }

  lemma ClausesFollowPresence(f: Filters)
    ensures Clauses(ActiveCriteria(f)) == PresenceClauses(Presence(f))
  {
    var p := Presence(f);
    var c0 := if p.0 then [TitleContains(f.search.value)] else [];
    var c1 := if p.1 then [YearAtLeast(f.yearFrom.value)] else [];
    var c2 := if p.2 then [YearAtMost(f.yearTo.value)] else [];
    var c3 := if p.3 then [RatingAtLeast(f.ratingFrom.value)] else [];
    var c4 := if p.4 then [RatingAtMost(f.ratingTo.value)] else [];
    assert ActiveCriteria(f) == c0 + c1 + c2 + c3 + c4;
    assert Clauses(c0) == (if p.0 then Clause(TitleContains([])) else "") by {
      if p.0 { ClausesOne(TitleContains(f.search.value)); }
    }
    assert Clauses(c1) == (if p.1 then Clause(YearAtLeast(0)) else "") by {
      if p.1 { ClausesOne(YearAtLeast(f.yearFrom.value)); }
    }
    assert Clauses(c2) == (if p.2 then Clause(YearAtMost(0)) else "") by {
      if p.2 { ClausesOne(YearAtMost(f.yearTo.value)); }
    }
    assert Clauses(c3) == (if p.3 then Clause(RatingAtLeast(0.0)) else "") by {
      if p.3 { ClausesOne(RatingAtLeast(f.ratingFrom.value)); }
    }
    assert Clauses(c4) == (if p.4 then Clause(RatingAtMost(0.0)) else "") by {
      if p.4 { ClausesOne(RatingAtMost(f.ratingTo.value)); }
    }
    ClausesAppend(c0 + c1 + c2 + c3, c4);
    ClausesAppend(c0 + c1 + c2, c3);
    ClausesAppend(c0 + c1, c2);
    ClausesAppend(c0, c1);
  }

  /** A one-criterion list contributes its clause and nothing more. */
  lemma ClausesOne(c: Criterion)
    ensures Clauses([c]) == Clause(c)
  {
    assert [c][1..] == [];
  }

  /** The text and parameters built so far hold the given criteria, in order. */
  ghost predicate Built(head: string, query: string, params: seq<SqlParam>, cs: seq<Criterion>)
  {
    query == head + Clauses(cs) && params == ParamsOf(cs)
  }

  /** One `if` block: the clause extends the text and the value extends the parameters. */
  lemma Grow(head: string, query: string, params: seq<SqlParam>, cs: seq<Criterion>, c: Criterion)
    requires Built(head, query, params, cs)
    ensures Built(head, query + Clause(c), params + [ParamOf(c)], cs + [c])
  {
    ClausesOne(c);
    ClausesAppend(cs, [c]);
    AppendAssociates(head, Clauses(cs), Clause(c));
    assert [c][1..] == [];
    ParamsOfAppend(cs, [c]);
  }

  lemma AppendAssociates(a: string, b: string, c: string)
    ensures a + b + c == a + (b + c)
  {
  }

  /**
   * The five `if` blocks: each present filter appends its clause to `query`
   * and its value to `params`, in the fixed order search, year_from,
   * year_to, rating_from, rating_to.
   */
  method CollectFilters(f: Filters) returns (query: string, params: seq<SqlParam>)
    ensures query == SelectStar + Clauses(ActiveCriteria(f))
    ensures params == FilterParams(f)
  {
    query := SelectStar;
    params := [];
    ghost var head := query;
    ghost var cs: seq<Criterion> := [];
    assert Built(head, query, params, cs);

    if f.search.Some? && f.search.value != [] {
      Grow(head, query, params, cs, TitleContains(f.search.value));
      query := query + Clause(TitleContains(f.search.value));
      params := params + [TextParam("%" + f.search.value + "%")];
      cs := cs + [TitleContains(f.search.value)];
    }
    ghost var c0 := cs;
    assert c0 == (if SearchActive(f.search) then [TitleContains(f.search.value)] else []);
    if f.yearFrom.Some? {
      Grow(head, query, params, cs, YearAtLeast(f.yearFrom.value));
      query := query + Clause(YearAtLeast(f.yearFrom.value));
      params := params + [IntParam(f.yearFrom.value)];
      cs := cs + [YearAtLeast(f.yearFrom.value)];
    }
    ghost var c1 := cs;
    assert c1 == c0 + (if f.yearFrom.Some? then [YearAtLeast(f.yearFrom.value)] else []);
    if f.yearTo.Some? {
      Grow(head, query, params, cs, YearAtMost(f.yearTo.value));
      query := query + Clause(YearAtMost(f.yearTo.value));
      params := params + [IntParam(f.yearTo.value)];
      cs := cs + [YearAtMost(f.yearTo.value)];
    }
    ghost var c2 := cs;
    assert c2 == c1 + (if f.yearTo.Some? then [YearAtMost(f.yearTo.value)] else []);
    if f.ratingFrom.Some? {
      Grow(head, query, params, cs, RatingAtLeast(f.ratingFrom.value));
      query := query + Clause(RatingAtLeast(f.ratingFrom.value));
      params := params + [RealParam(f.ratingFrom.value)];
      cs := cs + [RatingAtLeast(f.ratingFrom.value)];
    }
    ghost var c3 := cs;
    assert c3 == c2 + (if f.ratingFrom.Some? then [RatingAtLeast(f.ratingFrom.value)] else []);
    if f.ratingTo.Some? {
      Grow(head, query, params, cs, RatingAtMost(f.ratingTo.value));
      query := query + Clause(RatingAtMost(f.ratingTo.value));
      params := params + [RealParam(f.ratingTo.value)];
      cs := cs + [RatingAtMost(f.ratingTo.value)];
    }
    assert cs == c3 + (if f.ratingTo.Some? then [RatingAtMost(f.ratingTo.value)] else []);
    assert cs == ActiveCriteria(f) by {
      ActiveCriteriaPieces(f, c0, c1, c2, c3, cs);
    }
  }

  /**
   * The rest of the builder: ORDER BY is appended before the count, so the
   * count query wraps the filtered and ordered text and binds the filter
   * parameters alone; the page query then appends `LIMIT %s OFFSET %s` and
   * binds page_size and the offset after them.
   */
  method BuildQuery(f: Filters, sortBy: SortField, sortOrder: string, page: int, pageSize: int)
    returns (countQuery: string, countParams: seq<SqlParam>, query: string, params: seq<SqlParam>,
             offset: int)
    requires ValidPaging(page, pageSize)
    ensures countQuery == CountText(OrderedQuery(f, sortBy, sortOrder))
    ensures query == PageText(OrderedQuery(f, sortBy, sortOrder))
    ensures countParams == FilterParams(f)
    ensures Occurrences(countQuery, '%') == |countParams|
    ensures offset == Offset(page, pageSize)
    ensures params == countParams + [IntParam(pageSize), IntParam(offset)]
    ensures Occurrences(query, '%') == |params|
  {
    query, params := CollectFilters(f);
    var orderColumn := FieldName(sortBy);
    var orderDirection := if sortOrder == "desc" then "DESC" else "ASC";
    query := query + (OrderBy + orderColumn + " " + orderDirection);
    assert query == OrderedQuery(f, sortBy, sortOrder);
    OrderedQueryPlaceholders(f, sortBy, sortOrder);

    countQuery := CountOpen + query + CountClose;
    countParams := params;
    CountTextPlaceholders(query);

    offset := (page - 1) * pageSize;
    PageTextPlaceholders(query);
    query := query + LimitOffset;
    params := params + [IntParam(pageSize), IntParam(offset)];
  }

  /** `get_fallback_data`: the in-memory engine over the three-record sample. */
  method GetFallbackData(q: Query) returns (resp: Response)
    requires ValidPaging(q.page, q.pageSize)
    ensures resp == Expected(SampleAnimeData, q)
  {
    resp := Run(SampleAnimeData, q);
  }

  /**
   * `get_anime`: without a connection, the fallback. With one, the count
   * statement is sent first and the page statement after it; a failure
   * stops the trace where it happens and answers from the fallback, and
   * otherwise the response is built from the count and the returned rows.
   */
  method GetAnime(q: Query, answer: DbAnswer) returns (resp: Response, statements: seq<Statement>)
    requires ValidPaging(q.page, q.pageSize)
    ensures answer.NoConnection? || answer == QueryFailed(AtCursor) ==> statements == []
    ensures var base := OrderedQuery(q.filters, q.sortBy, q.sortOrder);
      var count := Statement(CountText(base), FilterParams(q.filters));
      var page := Statement(PageText(base), FilterParams(q.filters)
                                            + [IntParam(q.pageSize), IntParam(Offset(q.page, q.pageSize))]);
      (answer == QueryFailed(AtCount) ==> statements == [count])
      && (answer == QueryFailed(AtPage) || answer.Answer? ==> statements == [count, page])
    ensures forall s :: s in statements ==> Occurrences(s.text, '%') == |s.params|
    ensures answer.Answer? ==> resp == FromDatabase(q, answer.total, answer.rows)
    ensures !answer.Answer? ==> resp == Expected(SampleAnimeData, q)
  {
    if answer.NoConnection? || answer == QueryFailed(AtCursor) {
      statements := [];
      resp := GetFallbackData(q);
    } else {
      var countQuery, countParams, query, params, offset :=
        BuildQuery(q.filters, q.sortBy, q.sortOrder, q.page, q.pageSize);
      statements := [Statement(countQuery, countParams)];
      if answer == QueryFailed(AtCount) {
        resp := GetFallbackData(q);
      } else {
        statements := statements + [Statement(query, params)];
        if answer.QueryFailed? {
          resp := GetFallbackData(q);
        } else {
          var total := answer.total;
          var totalPages := TotalPages(total, q.pageSize);
          resp := Response(answer.rows, total, q.page, q.pageSize, totalPages);
        }
      }
    }
  }

  /**
   * `get_fallback_stats`: the aggregates of the three-record sample, an
   * average of (8.8 + 8.6 + 8.4) / 3 = 8.6.
   */
  function GetFallbackStats(): (st: Aggregator.Stats)
    ensures st == Aggregator.Stats(3, 2011, 2022, 8.6, 189496, 157215)
  {
    FirstThreeFigures();
    var s := SampleAnimeData;
    var n := |s|;
    Aggregator.Stats(n, Aggregator.EarliestYear(s), Aggregator.LatestYear(s),
                     Aggregator.SumRatings(s) / (n as real),
                     Aggregator.SumCollections(s), Aggregator.SumWatched(s))
  }

  /** The fallback figures are the aggregator applied to the sample. */
  lemma FallbackStatsIsAggregate()
    ensures Aggregator.GetStats(SampleAnimeData) == Ok(GetFallbackStats())
  {
  }

  /**
   * `get_stats`: the aggregate row with every NULL reported as 0 when the
   * database answers, the fallback figures otherwise.
   */
  function GetStats(row: Option<Aggregator.AggregateRow>): (st: Aggregator.Stats)
    ensures row.None? ==> st == GetFallbackStats()
    ensures row.Some? && row.value.count.None? ==> st.totalAnime == 0
    ensures row.Some? && row.value.avgRating.None? ==> st.avgRating == 0.0
  {
    if row.Some? then Aggregator.StatsFromRow(row.value) else GetFallbackStats()
  }

  /**
   * Over a table the database aggregates, the endpoint reports what the
   * in-memory aggregator computes, and all zeros for an empty table.
   */
  lemma StatsFromTable(table: seq<AnimeRecord>)
    ensures table != [] ==> Aggregator.GetStats(table) == Ok(GetStats(Some(Aggregator.SqlAggregates(table))))
    ensures table == [] ==> GetStats(Some(Aggregator.SqlAggregates(table))) == Aggregator.Stats(0, 0, 0, 0.0, 0, 0)
  {
    Aggregator.DbStatsAgree(table);
  }
}
