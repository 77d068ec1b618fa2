/**
 * The in-memory router: `get_anime` runs the query engine over the
 * five-record sample, and `get_stats` aggregates the whole sample, whatever
 * filters a listing request carries.
 */
module AnimeApi {
  import opened Common
  import opened Records
  import opened Filtering
  import opened Sorting
  import opened Paging
  import opened QueryEngine
  import opened Samples
  import Aggregator

  /** The module-level `sample_anime_data`. */
  const SampleAnimeData: seq<AnimeRecord> :=
    [SteinsGate, MadokaMagica, BocchiTheRock, AttackOnTitan, FullmetalAlchemist]

  /** `get_anime`: filter, sort and paginate a copy of the sample. */
  method GetAnime(q: Query) returns (resp: Response)
    requires ValidPaging(q.page, q.pageSize)
    ensures resp == Expected(SampleAnimeData, q)
  {
    resp := Run(SampleAnimeData, q);
  }

  /** The tails of the sample, which the recursive definitions walk through. */
  lemma SampleTails()
    ensures SampleAnimeData[1..] == [MadokaMagica, BocchiTheRock, AttackOnTitan, FullmetalAlchemist]
    ensures SampleAnimeData[1..][1..] == [BocchiTheRock, AttackOnTitan, FullmetalAlchemist]
    ensures SampleAnimeData[1..][1..][1..] == [AttackOnTitan, FullmetalAlchemist]
    ensures SampleAnimeData[1..][1..][1..][1..] == [FullmetalAlchemist]
    ensures SampleAnimeData[1..][1..][1..][1..][1..] == []
  {
  }

  /** The aggregates of the sample, computed from the last record back to the first. */
  lemma SampleFigures()
    ensures Aggregator.EarliestYear(SampleAnimeData) == 2009
    ensures Aggregator.LatestYear(SampleAnimeData) == 2022
    ensures Aggregator.SumRatings(SampleAnimeData) == 43.8
    ensures Aggregator.SumCollections(SampleAnimeData) == 297372
    ensures Aggregator.SumWatched(SampleAnimeData) == 245249
  {
    SampleTails();
    var s := SampleAnimeData;
    var t1 := s[1..];
    var t2 := t1[1..];
    var t3 := t2[1..];
    var t4 := t3[1..];
    assert Aggregator.EarliestYear(t4) == 2009 && Aggregator.LatestYear(t4) == 2009;
    assert Aggregator.EarliestYear(t3) == 2009 && Aggregator.LatestYear(t3) == 2013;
    assert Aggregator.EarliestYear(t2) == 2009 && Aggregator.LatestYear(t2) == 2022;
    assert Aggregator.EarliestYear(t1) == 2009 && Aggregator.LatestYear(t1) == 2022;
    assert Aggregator.SumRatings(t4) == 9.1 && Aggregator.SumCollections(t4) == 51262;
    assert Aggregator.SumRatings(t3) == 18.0 && Aggregator.SumCollections(t3) == 107876;
    assert Aggregator.SumRatings(t2) == 26.4 && Aggregator.SumCollections(t2) == 170267;
    assert Aggregator.SumRatings(t1) == 35.0 && Aggregator.SumCollections(t1) == 231061;
    assert Aggregator.SumWatched(t4) == 43455;
    assert Aggregator.SumWatched(t3) == 88034;
    assert Aggregator.SumWatched(t2) == 140699;
    assert Aggregator.SumWatched(t1) == 192544;
  }

  /** `get_stats` over the sample: the figures are fixed by the five records. */
  function GetStats(): (st: Aggregator.Stats)
    ensures st == Aggregator.Stats(5, 2009, 2022, 8.76, 297372, 245249)
  {
    SampleFigures();
    var s := SampleAnimeData;
    var n := |s|;
    Aggregator.Stats(n, Aggregator.EarliestYear(s), Aggregator.LatestYear(s),
                     Aggregator.SumRatings(s) / (n as real),
                     Aggregator.SumCollections(s), Aggregator.SumWatched(s))
  }

  /** The endpoint is the aggregator applied to the sample, which is never empty. */
  lemma GetStatsIsAggregate()
    ensures Aggregator.GetStats(SampleAnimeData) == Ok(GetStats())
  {
  }

  const NoFilters: Filters := Filters(None, None, None, None, None)

  /**
   * `year_from=2011` keeps four of the five records: every year except 2009
   * is at least 2011, the bound being inclusive.
   */
  lemma YearFromExample()
    ensures Select(SampleAnimeData, Filters(None, Some(2011), None, None, None))
            == [SteinsGate, MadokaMagica, BocchiTheRock, AttackOnTitan]
  {
    SampleTails();
    var f := Filters(None, Some(2011), None, None, None);
    var t1 := SampleAnimeData[1..];
    var t2 := t1[1..];
    var t3 := t2[1..];
    var t4 := t3[1..];
    assert Select(t4, f) == [];
    assert Select(t3, f) == [AttackOnTitan];
    assert Select(t2, f) == [BocchiTheRock, AttackOnTitan];
    assert Select(t1, f) == [MadokaMagica, BocchiTheRock, AttackOnTitan];
  }

  /** The first three records by collections, descending: 66311, 62391, 60794. */
  lemma CollectionsDescendingFirstThree()
    ensures StableSort(SampleAnimeData[..3], Collections, true)
            == [SteinsGate, BocchiTheRock, MadokaMagica]
  {
    var s := SampleAnimeData;
    assert s[..0] == [];
    StableSortStep(s, 0, Collections, true);
    InsertAt([], SteinsGate, Collections, true, 0);
    StableSortStep(s, 1, Collections, true);
    InsertAt([SteinsGate], MadokaMagica, Collections, true, 1);
    StableSortStep(s, 2, Collections, true);
    InsertAt([SteinsGate, MadokaMagica], BocchiTheRock, Collections, true, 1);
  }

  /**
   * By collections, descending, the sample reads 66311, 62391, 60794, 56614,
   * 51262: each record is inserted after every record it does not precede.
   */
  lemma CollectionsDescending()
    ensures StableSort(SampleAnimeData, Collections, true)
            == [SteinsGate, BocchiTheRock, MadokaMagica, AttackOnTitan, FullmetalAlchemist]
  {
    var s := SampleAnimeData;
    assert s[..5] == s;
    CollectionsDescendingFirstThree();
    StableSortStep(s, 3, Collections, true);
    InsertAt([SteinsGate, BocchiTheRock, MadokaMagica], AttackOnTitan, Collections, true, 3);
    StableSortStep(s, 4, Collections, true);
    InsertAt([SteinsGate, BocchiTheRock, MadokaMagica, AttackOnTitan], FullmetalAlchemist, Collections, true, 4);
  }

  /**
   * Page 3 of size 2 by collections, descending, holds the fifth record in
   * that order, the one with the fewest collections; there are three pages.
   */
  lemma LastPageExample()
    ensures Expected(SampleAnimeData, Query(3, 2, NoFilters, Collections, "desc")).data
            == [FullmetalAlchemist]
    ensures Expected(SampleAnimeData, Query(3, 2, NoFilters, Collections, "desc")).totalPages == 3
  {
    NoFiltersKeepAll(SampleAnimeData, NoFilters);
    ApplyFiltersIsSelect(SampleAnimeData, NoFilters);
    CollectionsDescending();
  }

  /**
   * The two 2011 records tie on year, and the sort keeps their source order
   * whichever the direction: with both selected, "desc" lists them exactly
   * as "asc" does, not reversed.
   */
  lemma TiedYearsKeepOrder()
    ensures Ordered(SampleAnimeData, Query(1, 20, Filters(None, Some(2011), Some(2011), None, None), Year, "asc"))
            == [SteinsGate, MadokaMagica]
    ensures Ordered(SampleAnimeData, Query(1, 20, Filters(None, Some(2011), Some(2011), None, None), Year, "desc"))
            == [SteinsGate, MadokaMagica]
  {
    SampleTails();
    var f := Filters(None, Some(2011), Some(2011), None, None);
    var t1 := SampleAnimeData[1..];
    var t2 := t1[1..];
    var t3 := t2[1..];
    var t4 := t3[1..];
    assert Select(t4, f) == [];
    assert Select(t3, f) == [];
    assert Select(t2, f) == [];
    assert Select(t1, f) == [MadokaMagica];
    var two := [SteinsGate, MadokaMagica];
    assert Select(SampleAnimeData, f) == two;
    assert two[..1] == [SteinsGate] && two[..1][..0] == [];
    assert StableSort(two, Year, false) == two;
    assert StableSort(two, Year, true) == two;
  }
}
