# Anime catalogue API: query engine, aggregator and SQL builders

This project models the core of an anime catalogue web API in Dafny. Every
listing endpoint of the API answers the same request:

- **filter**: an optional case-insensitive title search, inclusive year bounds and inclusive rating bounds, combined with AND;
- **sort**: by one of six columns, ascending or descending;
- **page**: return `total`, `total_pages` and one page of the result.

The statistics endpoints report the count, the earliest and latest year, the
mean rating and the sums of collections and watched counts.

The repository has four implementations of these endpoints:

- **`api/anime.py`**: filters, sorts and pages a five-record list in memory. Module `AnimeApi`.
- **`main_vercel_postgres.py`**:
  - grows a `%s`-parameterised SQL string and its parameter list;
  - falls back to the same in-memory engine over a three-record list when there is no connection or a statement raises.
  - Module `VercelPostgres` (SQL text in `PostgresText`).
- **`api/anime_postgres.py`**:
  - chains SQLAlchemy `.filter`/`.order_by` calls, then counts and pages through the database;
  - copies the rows into the response and falls back in the same way.
  - Module `AnimePostgres`.
- **`main.py`**: builds a `?`-parameterised SQLite WHERE clause from a list of conditions joined with `" AND "`. Module `SqliteMain` (SQL text in `SqliteText`).

The shared parts are:

- `Records`: the record, the sort fields and their keys, ASCII lowercasing and substring search.
- `Filtering`: the chain of list comprehensions, and a single-pass reference filter it is proved equal to.
- `Sorting`: Python's stable `list.sort` as a stable insertion sort on sequences, with an in-place array version proved equal to it.
- `Paging`: ceiling division, slicing, and OFFSET/LIMIT.
- `QueryEngine`: the in-memory handler body.
- `Aggregator`: the statistics, SQL aggregate semantics and the NULL→0 mapping.
- `Placeholders` and `SqlText`: placeholder counting and the parameter list.
- `Samples`: the sample records.

How the main pieces are modelled:

- **The database.** A database handler receives what the database answered as a parameter (`QueryEngine.DbAnswer`): no connection, a failure (when the cursor is opened, at the count statement or at the page statement), or the count and the page rows.
  - The model proves what the handler does with each answer.
  - `QueryEngine.DatabaseAgrees` shows that a database which selects, orders and counts like the in-memory engine makes the two paths give the same response.
- **The in-memory listing.** The record list it is given is a value. The sort works on a fresh array copy, so the module-level sample lists are never changed.
- **Sort order.** Python's `list.sort(reverse=True)` is stable: records with equal keys keep their source order in both directions. Descending order is therefore not the ascending order reversed when keys tie. `AnimeApi.TiedYearsKeepOrder` shows this on the sample: the two 2011 records come out in the same order for "asc" and for "desc".
- **`year_from=2011`.** Over the five-record sample it keeps four records because the bound is inclusive (`AnimeApi.YearFromExample`).

## Model

| member | source | states |
|---|---|---|
| Records.ParseSortField | api/anime.py:75 | the sort_by pattern accepts a name iff it is one of the six column names, and an accepted name denotes the field with that name |
| Records.ParseFieldName | api/anime.py:75 | every sort field's column name is accepted and maps back to that field |
| Records.KeyLessStrictTotal | api/anime.py:99 | the comparison the sort uses on a column's values is irreflexive, transitive and total on distinct values |
| Records.Contains | api/anime.py:83 | the substring test holds iff the needle occurs at some index of the title |
| Records.LowerIdempotent | api/anime.py:83 | lowercasing an already lowercased string changes nothing |
| Filtering.KeepIf | api/anime.py:86-87 | one comprehension keeps only records that satisfy its criterion and never grows the list |
| Filtering.Select | api/anime.py:79-95 | every record the reference filter returns matches all present filters |
| Filtering.SelectCounts | api/anime.py:79-95 | a record occurs in the filtered list exactly as often as in the source when it matches, and never otherwise |
| Filtering.SelectAppend | api/anime.py:79-95 | filtering a concatenation is the concatenation of the filtered parts, so the source order is kept |
| Filtering.ApplyAllIsConjunction | api/anime.py:86-95 | applying the comprehensions one after another keeps exactly the records satisfying all of them, in source order |
| Filtering.ActiveCriteriaMeanMatches | api/anime.py:82-95 | a record satisfies every active criterion iff its title contains the search ignoring case and every present bound holds inclusively; absent bounds impose nothing |
| Filtering.ApplyFiltersIsSelect | api/anime.py:79-95 | the handler's comprehension chain returns exactly the single-pass selection of matching records, in source order |
| Filtering.SelectAllIsSelect | api/anime_postgres.py:27-40 | the conjunction of the criteria a query chains selects the same records as the in-memory filter |
| Filtering.NoFiltersKeepAll | api/anime.py:82-95 | with search None or empty and no bound, the list is returned unchanged |
| Filtering.SearchIgnoresCase | api/anime.py:82-83 | searching for a string and for its lowercase form keep the same records |
| Sorting.StableSortPermutes | api/anime.py:99 | sorting returns a permutation of its input |
| Sorting.StableSortSorted | api/anime.py:98-99 | the sorted list is ordered by the column, descending exactly when reverse is set |
| Sorting.StableSortKeepsTies | api/anime.py:98-99 | records with equal keys keep their input order, whichever the direction |
| Sorting.InsertLast | api/anime.py:99 | one in-place insertion step turns the prefix up to i into the sorted insertion of a[i] and leaves the rest of the array alone |
| Sorting.SortInPlace | api/anime.py:99 | after the in-place sort the array holds the stable sort of its old contents |
| Paging.TotalPagesIsCeiling | api/anime.py:103 | total_pages is the ceiling of total / page_size, and 0 exactly when total is 0 |
| Paging.PageContents | api/anime.py:104-107 | the page has min(page_size, total - start) records, or none once start reaches total, and its k-th record is record start + k |
| Paging.PageNonEmptyIffInRange | api/anime.py:103-107 | a page is non-empty iff its number is at most total_pages |
| Paging.AllPagesIsPrefix | api/anime.py:104-107 | the first n pages concatenated are the prefix of length min(n * page_size, total) |
| Paging.PagesPartition | api/anime.py:103-107 | pages 1..total_pages concatenated give back the whole list, with no gap and no repetition |
| Paging.OffsetLimit | api/anime_postgres.py:56 | OFFSET/LIMIT returns at most limit rows, all taken from the input |
| Paging.OffsetLimitIsPage | api/anime_postgres.py:54-56 | OFFSET start_idx LIMIT page_size returns the same rows as the in-memory slice |
| QueryEngine.Run | api/anime.py:79-115 | the handler body (filter chain, in-place sort of a copy, slice) returns the reference response: the page of the sorted selection, the selection's size, the echoed page and page_size, and total_pages |
| QueryEngine.ResultSound | api/anime.py:79-107 | every returned record is in the source and matches every present filter |
| QueryEngine.ResultComplete | api/anime.py:79-107 | across pages 1..total_pages every matching record appears as often as in the source, and nothing else appears |
| QueryEngine.ResultOrdered | api/anime.py:98-99 | the listing is ordered by sort_by, descending iff sort_order is "desc", with ties in source order |
| QueryEngine.TotalIgnoresPaging | api/anime.py:102-103 | total is the number of matching records, is the same for every page and page_size, and total_pages is its ceiling: (total_pages - 1) * page_size < total <= total_pages * page_size, and 0 exactly when total is 0 |
| QueryEngine.ResultPage | api/anime.py:104-107 | the page holds at most page_size records, is empty exactly past total_pages, and starts at (page - 1) * page_size of the ordered list |
| QueryEngine.DatabaseAgrees | api/anime_postgres.py:49-79 | a database that filters, orders and counts like the engine gives, through COUNT and OFFSET/LIMIT, exactly the in-memory response |
| Aggregator.EarliestYear | api/anime.py:126 | the earliest year is the year of some record and no record is earlier |
| Aggregator.LatestYear | api/anime.py:127 | the latest year is the year of some record and no record is later |
| Aggregator.GetStats | api/anime.py:117-131 | the statistics fail (division by zero) exactly on an empty list; otherwise total_anime is the length and earliest <= latest |
| Aggregator.SumRatingsBounds | api/anime.py:120 | the rating sum lies between n * lowest and n * highest bound |
| Aggregator.MeanWithinBounds | api/anime.py:120-128 | the mean rating of a non-empty list lies within any bounds all its ratings respect |
| Aggregator.SumsAppend | api/anime.py:120-122 | the sums of ratings, collections and watched add over concatenation |
| Aggregator.SqlAggregates | main_vercel_postgres.py:178-188 | COUNT is the number of rows, and MIN(year) is NULL exactly on an empty table |
| Aggregator.StatsFromRow | main_vercel_postgres.py:190-196 | every NULL aggregate is reported as 0 and every non-NULL one as its value |
| Aggregator.DbStatsAgree | main_vercel_postgres.py:170-197 | on a non-empty table the database statistics equal the in-memory ones; on an empty one they are all 0 where the in-memory computation fails |
| Placeholders.JoinPlaceholders | main.py:166 | joining conditions of one placeholder each with a placeholder-free separator yields as many placeholders as conditions |
| SqlText.FilterParamsShape | main.py:146-164 | one parameter per present filter; the search parameter is first and wrapped as %search%; rating_to is last |
| SqliteText.CountTextPlaceholders | main.py:169 | the count query has exactly the WHERE clause's placeholders |
| SqliteText.LimitOffsetHasTwoPlaceholders | main.py:186 | the LIMIT/OFFSET tail holds exactly two placeholders |
| SqliteText.SelectTextPlaceholders | main.py:180-187 | the page query has the WHERE clause's placeholders plus the two of LIMIT and OFFSET |
| SqliteMain.ConditionsHoldOnePlaceholder | main.py:146-164 | every condition holds exactly one placeholder |
| SqliteMain.WherePlaceholders | main.py:166 | the WHERE clause has one placeholder per active condition, and is "1=1" exactly when no filter is active |
| SqliteMain.ConditionsFollowPresence | main.py:146-164 | the condition texts depend only on which filters are present, in the order search, year_from, year_to, rating_from, rating_to |
| SqliteMain.WhereIgnoresValues | main.py:143-166 | two requests with the same filters present produce the same WHERE clause |
| SqliteMain.CollectConditions | main.py:143-164 | the appends produce one condition and one parameter per present filter, in the fixed order |
| SqliteMain.BuildWhere | main.py:143-166 | the WHERE clause and parameters built; placeholders equal parameters; "1=1" iff there are no parameters |
| SqliteMain.OrderClauseHasNoPlaceholder | main.py:177 | the ORDER BY clause built from a valid column and direction holds no placeholder |
| SqliteMain.BuildQueries | main.py:168-189 | both queries' texts; count parameters are the filter parameters; page_size then offset are appended last; each query has one placeholder per parameter; offset and total_pages arithmetic |
| PostgresText.LimitOffsetHasTwoPlaceholders | main_vercel_postgres.py:143 | the LIMIT/OFFSET tail holds exactly two %s |
| PostgresText.CountTextPlaceholders | main_vercel_postgres.py:137 | wrapping the query as a counted subquery adds no placeholder |
| PostgresText.PageTextPlaceholders | main_vercel_postgres.py:143 | appending LIMIT/OFFSET adds exactly two placeholders |
| VercelPostgres.ClausePlaceholder | main_vercel_postgres.py:111-129 | every appended condition holds exactly one %s |
| VercelPostgres.ClausesPlaceholders | main_vercel_postgres.py:110-129 | the appended conditions hold one %s per active filter |
| VercelPostgres.OrderTextHasNoPlaceholder | main_vercel_postgres.py:132-134 | the ORDER BY suffix holds no %s |
| VercelPostgres.OrderedQueryPlaceholders | main_vercel_postgres.py:107-134 | the ordered query has exactly as many %s as filter parameters |
| VercelPostgres.ClausesFollowPresence | main_vercel_postgres.py:110-129 | the condition text depends only on which filters are present, in the fixed order |
| VercelPostgres.QueryIgnoresValues | main_vercel_postgres.py:107-134 | two requests with the same filters present produce the same SQL text |
| VercelPostgres.CollectFilters | main_vercel_postgres.py:107-129 | the += and append steps produce the header plus one condition per present filter, and the matching parameters in the same order |
| VercelPostgres.BuildQuery | main_vercel_postgres.py:107-146 | the count and page statements' texts; page_size then offset are appended after the filter parameters; each statement has one %s per parameter; offset is (page - 1) * page_size |
| VercelPostgres.GetFallbackData | main_vercel_postgres.py:210-248 | the fallback listing is the reference response over the three-record sample |
| VercelPostgres.GetAnime | main_vercel_postgres.py:88-168 | no statement is sent without a connection or when the cursor fails; only the count statement is sent when it fails; otherwise the count and then the page statement are sent; every statement's placeholders match its parameters; the database's answer gives the response, and every failure falls back to the sample |
| VercelPostgres.GetFallbackStats | main_vercel_postgres.py:250-259 | the fallback statistics are 3, 2011, 2022, 8.6, 189496, 157215 |
| VercelPostgres.FallbackStatsIsAggregate | main_vercel_postgres.py:250-259 | the fallback statistics are the aggregator's output over the sample |
| VercelPostgres.GetStats | main_vercel_postgres.py:170-208 | a failed connection or query gives the fallback statistics; a NULL count or mean is reported as 0 |
| VercelPostgres.StatsFromTable | main_vercel_postgres.py:170-197 | over a table, the endpoint reports the in-memory aggregates, or all zeros when the table is empty |
| AnimePostgres.Filter | api/anime_postgres.py:27-40 | `.filter` adds its criterion after the earlier ones and keeps the order |
| AnimePostgres.OrderBy | api/anime_postgres.py:43-47 | `.order_by` sets the column and direction and keeps the criteria |
| AnimePostgres.QuerySelectsMatches | api/anime_postgres.py:24-47 | the built query selects exactly the records the in-memory filter keeps and orders descending iff sort_order is "desc" |
| AnimePostgres.FilterQuery | api/anime_postgres.py:24-40 | the rebinding steps chain one `.filter` per present filter, in the fixed order |
| AnimePostgres.BuildQuery | api/anime_postgres.py:24-47 | the built query is the active criteria, ordered by sort_by in the requested direction |
| AnimePostgres.Entries | api/anime_postgres.py:59-71 | the loop yields one entry per row, equal to it, in the order returned |
| AnimePostgres.GetFallbackData | api/anime_postgres.py:111-183 | the fallback listing is the reference response over the three-record sample |
| AnimePostgres.GetAnime | api/anime_postgres.py:22-84 | the handler builds the query and start_idx = (page - 1) * page_size; a database answer gives the response, and any failure falls back to the sample |
| AnimePostgres.GetFallbackStats | api/anime_postgres.py:185-194 | the hard-coded statistics are exactly the aggregator's output over the local three-record sample |
| AnimePostgres.GetStats | api/anime_postgres.py:86-109 | a failure gives the fallback statistics; a NULL count or mean is reported as 0 |
| AnimePostgres.StatsFromTable | api/anime_postgres.py:86-104 | over a table, the endpoint reports the in-memory aggregates, or all zeros when the table is empty |
| Samples.FirstThreeFigures | main_vercel_postgres.py:250-259 | over the three-record sample: years 2011 and 2022, rating sum 25.8, collections 189496, watched 157215 |
| AnimeApi.GetAnime | api/anime.py:66-115 | the listing is the reference response over the five-record sample |
| AnimeApi.SampleFigures | api/anime.py:119-127 | over the five-record sample: years 2009 and 2022, rating sum 43.8, collections 297372, watched 245249 |
| AnimeApi.GetStats | api/anime.py:117-131 | the statistics of the sample are 5, 2009, 2022, 8.76, 297372, 245249 |
| AnimeApi.GetStatsIsAggregate | api/anime.py:117-131 | the endpoint's figures are the aggregator's output over the sample |
| AnimeApi.YearFromExample | api/anime.py:86-87 | year_from = 2011 keeps four of the five sample records |
| AnimeApi.CollectionsDescending | api/anime.py:98-99 | the sample sorted by collections descending reads records 1, 3, 2, 4, 5 |
| AnimeApi.LastPageExample | api/anime.py:98-107 | page 3 of size 2 by collections descending holds only the record with the fewest collections, and there are 3 pages |
| AnimeApi.TiedYearsKeepOrder | api/anime.py:98-99 | the two 2011 records are listed in the same order for "asc" and "desc" |

## Left out

- Connections, cursors, sessions, SQL execution and the exception handlers' printing and double `conn.close()`: the database's answer is a parameter of each handler (`DbAnswer`, an `Option` row of aggregates), so the model states what each handler does with every possible answer, not how it obtains it.
- The database's own semantics of `LIKE`, `ILIKE` and `ORDER BY` (collation, how NULLs sort, stability): the database paths are related to the in-memory engine only through `QueryEngine.DatabaseAgrees` and `Filtering.SelectAllIsSelect`, under the assumption that the database filters and orders like the engine.
- Floating point: ratings and means are exact reals, and `round(x, 2)` is not modelled; no contract claims decimal rounding.
- `lower()` and `upper()` are ASCII-only; Unicode case mapping (the sample titles are Chinese and unaffected by it) is not modelled.
- FastAPI's validation of the query parameters (page >= 1, 1 <= page_size <= 100, the sort_by and sort_order patterns) happens before the handlers run: it is a precondition (`QueryEngine.ValidPaging`); `sort_by` is already a `SortField`, with `Records.ParseSortField` modelling the pattern.
- `main.py`: the database path, `get_anime_detail`, `get_stats`, `init_database` and the startup hook, and the loop that turns result rows (including `tags`, which the record type does not carry) into response objects (main.py:192-205); only the WHERE/params builder and the paging arithmetic are modelled.
- `get_db_connection`'s environment and URL handling, the CSV import scripts, the FastAPI app wiring and the browser frontend.
- VercelPostgres.GetStats: its own contract states only the fallback case and the NULL count and mean; the other columns follow from `Aggregator.StatsFromRow`, and the agreement with the aggregator is `VercelPostgres.StatsFromTable`.
- AnimePostgres.GetStats: as for the Vercel handler; `round(avg, 2) if avg else 0` and `avg or 0` give the same value once rounding is left out, since a 0.0 mean is reported as 0 either way.
