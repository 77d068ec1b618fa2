/**
 * The sample records the handlers serve when no database is in use. The
 * first three appear in every sample list; the in-memory handler adds the
 * last two.
 */
module Samples {
  import opened Records
  import Aggregator

  const SteinsGate: AnimeRecord := AnimeRecord(
    1, "命运石之门", 2011, 8.8, 35783, 66311, 52705, 0.762,
    "https://lain.bgm.tv/r/400/pic/cover/l/11/34/30055_GrfZ7.jpg")

  const MadokaMagica: AnimeRecord := AnimeRecord(
    2, "魔法少女小圆", 2011, 8.6, 34624, 60794, 51845, 0.843,
    "https://lain.bgm.tv/r/400/pic/cover/l/c4/e0/85799_UoiOt.jpg")

  const BocchiTheRock: AnimeRecord := AnimeRecord(
    3, "孤独摇滚", 2022, 8.4, 35009, 62391, 52665, 0.892,
    "https://lain.bgm.tv/r/400/pic/cover/l/2e/62/29889_C2QHh.jpg")

  const AttackOnTitan: AnimeRecord := AnimeRecord(
    4, "进击的巨人", 2013, 8.9, 29908, 56614, 44579, 0.796, "")

  const FullmetalAlchemist: AnimeRecord := AnimeRecord(
    5, "钢之炼金术师", 2009, 9.1, 28567, 51262, 43455, 0.912, "")

  /** The aggregates of the three records every sample list starts with. */
  lemma FirstThreeFigures()
    ensures Aggregator.EarliestYear([SteinsGate, MadokaMagica, BocchiTheRock]) == 2011
    ensures Aggregator.LatestYear([SteinsGate, MadokaMagica, BocchiTheRock]) == 2022
    ensures Aggregator.SumRatings([SteinsGate, MadokaMagica, BocchiTheRock]) == 25.8
    ensures Aggregator.SumCollections([SteinsGate, MadokaMagica, BocchiTheRock]) == 189496
    ensures Aggregator.SumWatched([SteinsGate, MadokaMagica, BocchiTheRock]) == 157215
  {
    var s := [SteinsGate, MadokaMagica, BocchiTheRock];
    assert s[1..] == [MadokaMagica, BocchiTheRock] && s[1..][1..] == [BocchiTheRock];
    assert Aggregator.SumRatings(s[1..][1..]) == 8.4 && Aggregator.SumCollections(s[1..][1..]) == 62391;
    assert Aggregator.SumRatings(s[1..]) == 17.0 && Aggregator.SumCollections(s[1..]) == 123185;
    assert Aggregator.SumWatched(s[1..][1..]) == 52665 && Aggregator.SumWatched(s[1..]) == 104510;
    assert Aggregator.EarliestYear(s[1..][1..]) == 2022 && Aggregator.LatestYear(s[1..][1..]) == 2022;
    assert Aggregator.EarliestYear(s[1..]) == 2011 && Aggregator.LatestYear(s[1..]) == 2022;
  }
}
