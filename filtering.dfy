/**
 * The filter stage of the query engine: the active criteria are applied one
 * after the other, each as a list comprehension that keeps the records
 * satisfying it, so the survivors are those satisfying all of them.
 */
module Filtering {
  import opened Common
  import opened Records

  /** The optional query parameters that restrict the result. */
  datatype Filters = Filters(
    search: Option<string>,
    yearFrom: Option<int>,
    yearTo: Option<int>,
    ratingFrom: Option<real>,
    ratingTo: Option<real>)

  /** One comprehension step of the filter chain. */
  datatype Criterion =
    | TitleContains(needle: string)
    | YearAtLeast(minYear: int)
    | YearAtMost(maxYear: int)
    | RatingAtLeast(minRating: real)
    | RatingAtMost(maxRating: real)

  /** Python's truthiness test `if search:` — absent or empty means no title filter. */
  predicate SearchActive(search: Option<string>)
  {
    search.Some? && search.value != []
  }

  /** The criteria `get_anime`'s comprehension chain applies, in its order: search, years, ratings. */
  function ActiveCriteria(f: Filters): (cs: seq<Criterion>)
    ensures |cs| <= 5
  {
    (if SearchActive(f.search) then [TitleContains(f.search.value)] else [])
    + (if f.yearFrom.Some? then [YearAtLeast(f.yearFrom.value)] else [])
    + (if f.yearTo.Some? then [YearAtMost(f.yearTo.value)] else [])
    + (if f.ratingFrom.Some? then [RatingAtLeast(f.ratingFrom.value)] else [])
    + (if f.ratingTo.Some? then [RatingAtMost(f.ratingTo.value)] else [])
  }

  /** The criteria collected one present filter at a time are the active criteria. */
  lemma ActiveCriteriaPieces(f: Filters, c0: seq<Criterion>, c1: seq<Criterion>, c2: seq<Criterion>,
                             c3: seq<Criterion>, c4: seq<Criterion>)
    requires c0 == (if SearchActive(f.search) then [TitleContains(f.search.value)] else [])
    requires c1 == c0 + (if f.yearFrom.Some? then [YearAtLeast(f.yearFrom.value)] else [])
    requires c2 == c1 + (if f.yearTo.Some? then [YearAtMost(f.yearTo.value)] else [])
    requires c3 == c2 + (if f.ratingFrom.Some? then [RatingAtLeast(f.ratingFrom.value)] else [])
    requires c4 == c3 + (if f.ratingTo.Some? then [RatingAtMost(f.ratingTo.value)] else [])
    ensures c4 == ActiveCriteria(f)
  {
  }

  /** The condition of one comprehension; the title test is `search.lower() in title.lower()`. */
  predicate Satisfies(a: AnimeRecord, c: Criterion)
  {
    match c
    case TitleContains(s) => Contains(Lower(a.title), Lower(s))
    case YearAtLeast(y) => a.year >= y
    case YearAtMost(y) => a.year <= y
    case RatingAtLeast(r) => a.averageRating >= r
    case RatingAtMost(r) => a.averageRating <= r
  }

  /** `[anime for anime in s if <c>]` */
  function KeepIf(s: seq<AnimeRecord>, c: Criterion): (r: seq<AnimeRecord>)
    ensures |r| <= |s|
    ensures forall i :: 0 <= i < |r| ==> Satisfies(r[i], c)
    decreases |s|
  {
    if s == [] then []
    else if Satisfies(s[0], c) then [s[0]] + KeepIf(s[1..], c)
    else KeepIf(s[1..], c)
  }

  /** The chain of rebinding comprehensions, one per active criterion. */
  function ApplyAll(s: seq<AnimeRecord>, cs: seq<Criterion>): seq<AnimeRecord>
    decreases |cs|
  {
    if cs == [] then s else ApplyAll(KeepIf(s, cs[0]), cs[1..])
  }

  /** The filter stage of `get_anime`: its comprehensions applied one after another. */
  function ApplyFilters(s: seq<AnimeRecord>, f: Filters): seq<AnimeRecord>
  {
    ApplyAll(s, ActiveCriteria(f))
  }

  /**
   * The reference meaning of the filters, written field by field: a record is
   * kept iff the title contains the search case-insensitively (when a search is
   * given) and every present bound holds inclusively.
   */
  predicate Matches(a: AnimeRecord, f: Filters)
  {
    && (SearchActive(f.search) ==> Contains(Lower(a.title), Lower(f.search.value)))
    && (f.yearFrom.Some? ==> f.yearFrom.value <= a.year)
    && (f.yearTo.Some? ==> a.year <= f.yearTo.value)
    && (f.ratingFrom.Some? ==> f.ratingFrom.value <= a.averageRating)
    && (f.ratingTo.Some? ==> a.averageRating <= f.ratingTo.value)
  }

  /** A single pass keeping, in source order, the records that match. */
  function Select(s: seq<AnimeRecord>, f: Filters): (r: seq<AnimeRecord>)
    ensures |r| <= |s|
    ensures forall i :: 0 <= i < |r| ==> Matches(r[i], f)
    decreases |s|
  {
    if s == [] then []
    else if Matches(s[0], f) then [s[0]] + Select(s[1..], f)
    else Select(s[1..], f)
  }

  /** Every matching record is kept as often as it occurs; no other record is kept. */
  lemma {:induction false} SelectCounts(s: seq<AnimeRecord>, f: Filters)
    ensures forall x :: multiset(Select(s, f))[x] == if Matches(x, f) then multiset(s)[x] else 0
    decreases |s|
  {
    if s != [] {
      SelectCounts(s[1..], f);
      assert s == [s[0]] + s[1..];
    }
  }

  /** Selection keeps source order: it distributes over concatenation. */
  lemma {:induction false} SelectAppend(s: seq<AnimeRecord>, t: seq<AnimeRecord>, f: Filters)
    ensures Select(s + t, f) == Select(s, f) + Select(t, f)
    decreases |s|
  {
    if s != [] {
      assert (s + t)[0] == s[0];
      assert (s + t)[1..] == s[1..] + t;
      SelectAppend(s[1..], t, f);
      if Matches(s[0], f) {
        calc {
          Select(s + t, f);
          [s[0]] + Select(s[1..] + t, f);
          [s[0]] + (Select(s[1..], f) + Select(t, f));
          ([s[0]] + Select(s[1..], f)) + Select(t, f);
        }
      }
    } else {
      assert s + t == t;
    }
  }

  /** A record satisfies every criterion of a list. */
  predicate SatisfiesAll(a: AnimeRecord, cs: seq<Criterion>)
  {
    forall i :: 0 <= i < |cs| ==> Satisfies(a, cs[i])
  }

  lemma SatisfiesAllAppend(a: AnimeRecord, xs: seq<Criterion>, ys: seq<Criterion>)
    ensures SatisfiesAll(a, xs + ys) <==> SatisfiesAll(a, xs) && SatisfiesAll(a, ys)
  {
    if SatisfiesAll(a, xs) && SatisfiesAll(a, ys) {
      forall i | 0 <= i < |xs + ys| ensures Satisfies(a, (xs + ys)[i]) {
        if i >= |xs| {
          assert (xs + ys)[i] == ys[i - |xs|];
        }
      }
    }
    if SatisfiesAll(a, xs + ys) {
      forall i | 0 <= i < |xs| ensures Satisfies(a, xs[i]) {
        assert (xs + ys)[i] == xs[i];
      }
      forall i | 0 <= i < |ys| ensures Satisfies(a, ys[i]) {
        assert (xs + ys)[|xs| + i] == ys[i];
      }
    }
  }

  lemma SatisfiesAtMostOne(a: AnimeRecord, cs: seq<Criterion>)
    requires |cs| <= 1
    ensures SatisfiesAll(a, cs) <==> (cs != [] ==> Satisfies(a, cs[0]))
  {
  }

  function SelectAll(s: seq<AnimeRecord>, cs: seq<Criterion>): seq<AnimeRecord>
    decreases |s|
  {
    if s == [] then []
    else if SatisfiesAll(s[0], cs) then [s[0]] + SelectAll(s[1..], cs)
    else SelectAll(s[1..], cs)
  }

  lemma {:induction false} SelectAllAfterKeepIf(s: seq<AnimeRecord>, c: Criterion, cs: seq<Criterion>)
    ensures SelectAll(KeepIf(s, c), cs) == SelectAll(s, [c] + cs)
    decreases |s|
  {
    if s != [] {
      SelectAllAfterKeepIf(s[1..], c, cs);
      SatisfiesAllAppend(s[0], [c], cs);
      SatisfiesAtMostOne(s[0], [c]);
      if Satisfies(s[0], c) {
        var k := [s[0]] + KeepIf(s[1..], c);
        assert KeepIf(s, c) == k;
        assert k[0] == s[0] && k[1..] == KeepIf(s[1..], c);
        if SatisfiesAll(s[0], cs) {
          assert SelectAll(k, cs) == [s[0]] + SelectAll(KeepIf(s[1..], c), cs);
          assert SelectAll(s, [c] + cs) == [s[0]] + SelectAll(s[1..], [c] + cs);
        } else {
          assert SelectAll(k, cs) == SelectAll(KeepIf(s[1..], c), cs);
          assert SelectAll(s, [c] + cs) == SelectAll(s[1..], [c] + cs);
        }
      }
    }
  }

  lemma {:induction false} SelectAllNone(s: seq<AnimeRecord>)
    ensures SelectAll(s, []) == s
    decreases |s|
  {
    if s != [] {
      SelectAllNone(s[1..]);
    }
  }

  /** Successive comprehensions compose as a logical AND, keeping source order. */
  lemma {:induction false} ApplyAllIsConjunction(s: seq<AnimeRecord>, cs: seq<Criterion>)
    ensures ApplyAll(s, cs) == SelectAll(s, cs)
    decreases |cs|
  {
    if cs == [] {
      SelectAllNone(s);
    } else {
      ApplyAllIsConjunction(KeepIf(s, cs[0]), cs[1..]);
      SelectAllAfterKeepIf(s, cs[0], cs[1..]);
      assert [cs[0]] + cs[1..] == cs;
    }
  }

  /** The active criteria hold of a record exactly when the reference predicate does. */
  lemma ActiveCriteriaMeanMatches(a: AnimeRecord, f: Filters)
    ensures SatisfiesAll(a, ActiveCriteria(f)) <==> Matches(a, f)
  {
    var c0 := if SearchActive(f.search) then [TitleContains(f.search.value)] else [];
    var c1 := if f.yearFrom.Some? then [YearAtLeast(f.yearFrom.value)] else [];
    var c2 := if f.yearTo.Some? then [YearAtMost(f.yearTo.value)] else [];
    var c3 := if f.ratingFrom.Some? then [RatingAtLeast(f.ratingFrom.value)] else [];
    var c4 := if f.ratingTo.Some? then [RatingAtMost(f.ratingTo.value)] else [];
    assert ActiveCriteria(f) == c0 + c1 + c2 + c3 + c4;
    SatisfiesAllAppend(a, c0 + c1 + c2 + c3, c4);
    SatisfiesAllAppend(a, c0 + c1 + c2, c3);
    SatisfiesAllAppend(a, c0 + c1, c2);
    SatisfiesAllAppend(a, c0, c1);
    SatisfiesAtMostOne(a, c0);
    SatisfiesAtMostOne(a, c1);
    SatisfiesAtMostOne(a, c2);
    SatisfiesAtMostOne(a, c3);
    SatisfiesAtMostOne(a, c4);
  }

  lemma {:induction false} SelectAllIsSelect(s: seq<AnimeRecord>, f: Filters)
    ensures SelectAll(s, ActiveCriteria(f)) == Select(s, f)
    decreases |s|
  {
    if s != [] {
      ActiveCriteriaMeanMatches(s[0], f);
      SelectAllIsSelect(s[1..], f);
    }
  }

  /**
   * Filter soundness and completeness: the comprehension chain keeps exactly
   * the records that satisfy every active predicate, in their source order.
   */
  lemma ApplyFiltersIsSelect(s: seq<AnimeRecord>, f: Filters)
    ensures ApplyFilters(s, f) == Select(s, f)
  {
    ApplyAllIsConjunction(s, ActiveCriteria(f));
    SelectAllIsSelect(s, f);
  }

  /** With no parameter given (or an empty search), the filter stage keeps everything. */
  lemma NoFiltersKeepAll(s: seq<AnimeRecord>, f: Filters)
    requires !SearchActive(f.search)
    requires f.yearFrom.None? && f.yearTo.None? && f.ratingFrom.None? && f.ratingTo.None?
    ensures ApplyFilters(s, f) == s
  {
    assert ActiveCriteria(f) == [];
  }

  /** The title test is case-insensitive: lowering the search first changes nothing. */
  lemma SearchIgnoresCase(a: AnimeRecord, s: string)
    ensures Satisfies(a, TitleContains(s)) <==> Satisfies(a, TitleContains(Lower(s)))
  {
    LowerIdempotent(s);
  }
}
