/**
 * The statistics endpoint: count, earliest and latest year, mean rating and
 * the sums of collections and watched, over the whole (unfiltered) list; and
 * the database variant, which reads the same figures from one row of SQL
 * aggregates and turns every NULL into 0.
 */
module Aggregator {
  import opened Common
  import opened Records

  datatype Stats = Stats(
    totalAnime: int,
    earliestYear: int,
    latestYear: int,
    avgRating: real,
    totalCollections: int,
    totalWatched: int)

  /** The exception the in-memory computation raises on an empty list. */
  datatype StatsError = ZeroDivision

  /** `min(anime["year"] for anime in s)` */
  function EarliestYear(s: seq<AnimeRecord>): (m: int)
    requires s != []
    ensures exists i :: 0 <= i < |s| && s[i].year == m
    ensures forall i :: 0 <= i < |s| ==> m <= s[i].year
    decreases |s|
  {
    if |s| == 1 then s[0].year
    else
      var rest := EarliestYear(s[1..]);
      assert forall i :: 1 <= i < |s| ==> s[i] == s[1..][i - 1];
      if s[0].year <= rest then s[0].year else rest
  }

  /** `max(anime["year"] for anime in s)` */
  function LatestYear(s: seq<AnimeRecord>): (m: int)
    requires s != []
    ensures exists i :: 0 <= i < |s| && s[i].year == m
    ensures forall i :: 0 <= i < |s| ==> s[i].year <= m
    decreases |s|
  {
    if |s| == 1 then s[0].year
    else
      var rest := LatestYear(s[1..]);
      assert forall i :: 1 <= i < |s| ==> s[i] == s[1..][i - 1];
      if s[0].year >= rest then s[0].year else rest
  }

  function SumRatings(s: seq<AnimeRecord>): real
    decreases |s|
  {
    if s == [] then 0.0 else s[0].averageRating + SumRatings(s[1..])
  }

  function SumCollections(s: seq<AnimeRecord>): int
    decreases |s|
  {
    if s == [] then 0 else s[0].collections + SumCollections(s[1..])
  }

  function SumWatched(s: seq<AnimeRecord>): int
    decreases |s|
  {
    if s == [] then 0 else s[0].watched + SumWatched(s[1..])
  }

  /**
   * `get_stats` over a list: the division by `len` comes first, so an empty
   * list raises before `min`/`max` are reached.
   */
  function GetStats(s: seq<AnimeRecord>): (r: Result<Stats, StatsError>)
    ensures r.Err? <==> s == []
    ensures r.Ok? ==> r.value.totalAnime == |s| && r.value.earliestYear <= r.value.latestYear
  {
    if s == [] then Err(ZeroDivision)
    else
      var n := |s|;
      Ok(Stats(n, EarliestYear(s), LatestYear(s), SumRatings(s) / (n as real),
               SumCollections(s), SumWatched(s)))
  }

  lemma {:induction false} SumRatingsBounds(s: seq<AnimeRecord>, lo: real, hi: real)
    requires forall i :: 0 <= i < |s| ==> lo <= s[i].averageRating <= hi
    ensures (|s| as real) * lo <= SumRatings(s) <= (|s| as real) * hi
    decreases |s|
  {
    if s != [] {
      SumRatingsBounds(s[1..], lo, hi);
      assert (|s| as real) * lo == lo + (|s[1..]| as real) * lo;
      assert (|s| as real) * hi == hi + (|s[1..]| as real) * hi;
    }
  }

  /** The mean rating lies between the smallest and the largest rating bound. */
  lemma MeanWithinBounds(s: seq<AnimeRecord>, lo: real, hi: real)
    requires s != []
    requires forall i :: 0 <= i < |s| ==> lo <= s[i].averageRating <= hi
    ensures GetStats(s).Ok? && lo <= GetStats(s).value.avgRating <= hi
  {
    SumRatingsBounds(s, lo, hi);
    var n := |s| as real;
    assert SumRatings(s) / n >= lo by {
      assert SumRatings(s) >= n * lo;
    }
    assert SumRatings(s) / n <= hi by {
      assert SumRatings(s) <= n * hi;
    }
  }

  /** The sums are additive over a split of the list, so they ignore its order. */
  lemma {:induction false} SumsAppend(s: seq<AnimeRecord>, t: seq<AnimeRecord>)
    ensures SumCollections(s + t) == SumCollections(s) + SumCollections(t)
    ensures SumWatched(s + t) == SumWatched(s) + SumWatched(t)
    ensures SumRatings(s + t) == SumRatings(s) + SumRatings(t)
    decreases |s|
  {
    if s == [] {
      assert s + t == t;
    } else {
      assert (s + t)[0] == s[0] && (s + t)[1..] == s[1..] + t;
      SumsAppend(s[1..], t);
    }
  }

  /** The single row `SELECT COUNT(*), MIN(year), MAX(year), AVG(...), SUM(...), SUM(...)`. */
  datatype AggregateRow = AggregateRow(
    count: Option<int>,
    minYear: Option<int>,
    maxYear: Option<int>,
    avgRating: Option<real>,
    sumCollections: Option<int>,
    sumWatched: Option<int>)

  /** SQL aggregate semantics: COUNT of no rows is 0, every other aggregate is NULL. */
  function SqlAggregates(s: seq<AnimeRecord>): (row: AggregateRow)
    ensures row.count == Some(|s|)
    ensures s == [] <==> row.minYear.None?
  {
    if s == [] then AggregateRow(Some(0), None, None, None, None, None)
    else AggregateRow(Some(|s|), Some(EarliestYear(s)), Some(LatestYear(s)),
                      Some(SumRatings(s) / (|s| as real)), Some(SumCollections(s)), Some(SumWatched(s)))
  }

  /** Python's `value or 0` on a column that may be NULL. */
  function OrZero(v: Option<int>): int
  {
    if v.Some? then v.value else 0
  }

  /** `round(avg, 2) if avg else 0` / `round(float(avg or 0), 2)`, without the rounding. */
  function RatingOrZero(v: Option<real>): real
  {
    if v.Some? then v.value else 0.0
  }

  /** The response built from the aggregate row: every NULL aggregate is reported as 0. */
  function StatsFromRow(row: AggregateRow): (st: Stats)
    ensures row.count.None? ==> st.totalAnime == 0
    ensures row.minYear.None? ==> st.earliestYear == 0
    ensures row.maxYear.None? ==> st.latestYear == 0
    ensures row.avgRating.None? ==> st.avgRating == 0.0
    ensures row.sumCollections.None? ==> st.totalCollections == 0
    ensures row.sumWatched.None? ==> st.totalWatched == 0
    ensures row.count.Some? ==> st.totalAnime == row.count.value
    ensures row.minYear.Some? ==> st.earliestYear == row.minYear.value
    ensures row.maxYear.Some? ==> st.latestYear == row.maxYear.value
    ensures row.avgRating.Some? ==> st.avgRating == row.avgRating.value
    ensures row.sumCollections.Some? ==> st.totalCollections == row.sumCollections.value
    ensures row.sumWatched.Some? ==> st.totalWatched == row.sumWatched.value
  {
    Stats(OrZero(row.count), OrZero(row.minYear), OrZero(row.maxYear), RatingOrZero(row.avgRating),
          OrZero(row.sumCollections), OrZero(row.sumWatched))
  }

  /**
   * The database path agrees with the in-memory aggregator on a non-empty
   * table, and on an empty table reports all zeros where the in-memory
   * computation would raise.
   */
  lemma DbStatsAgree(s: seq<AnimeRecord>)
    ensures s != [] ==> GetStats(s) == Ok(StatsFromRow(SqlAggregates(s)))
    ensures s == [] ==> StatsFromRow(SqlAggregates(s)) == Stats(0, 0, 0, 0.0, 0, 0) && GetStats(s).Err?
  {
  }
}
