/**
 * Counting the placeholders of a SQL text, and Python's `sep.join`.
 */
module Placeholders {
  /** The number of times a placeholder character occurs in a text. */
  function Occurrences(s: string, c: char): nat
    decreases |s|
  {
    if s == [] then 0 else (if s[0] == c then 1 else 0) + Occurrences(s[1..], c)
  }

  lemma {:induction false} OccurrencesAppend(a: string, b: string, c: char)
    ensures Occurrences(a + b, c) == Occurrences(a, c) + Occurrences(b, c)
    decreases |a|
  {
    if a == [] {
      assert a + b == b;
    } else {
      assert (a + b)[0] == a[0] && (a + b)[1..] == a[1..] + b;
      OccurrencesAppend(a[1..], b, c);
    }
  }

  /** A text holds no placeholder exactly when the character does not occur in it. */
  lemma {:induction false} NoPlaceholder(s: string, c: char)
    ensures c !in s <==> Occurrences(s, c) == 0
    decreases |s|
  {
    if s != [] {
      assert s == [s[0]] + s[1..];
      NoPlaceholder(s[1..], c);
    }
  }

  /** A text ending in its only placeholder holds exactly one. */
  lemma OnePlaceholder(prefix: string, c: char)
    requires c !in prefix
    ensures Occurrences(prefix + [c], c) == 1
  {
    OccurrencesAppend(prefix, [c], c);
    NoPlaceholder(prefix, c);
  }

  /** Python's `sep.join(xs)`. */
  function Join(xs: seq<string>, sep: string): string
    decreases |xs|
  {
    if xs == [] then ""
    else if |xs| == 1 then xs[0]
    else xs[0] + sep + Join(xs[1..], sep)
  }

  /**
   * Joining texts that each hold one placeholder with a separator that holds
   * none gives a text with exactly one placeholder per joined text.
   */
  lemma {:induction false} JoinPlaceholders(xs: seq<string>, sep: string, c: char)
    requires forall i :: 0 <= i < |xs| ==> Occurrences(xs[i], c) == 1
    requires Occurrences(sep, c) == 0
    ensures Occurrences(Join(xs, sep), c) == |xs|
    decreases |xs|
  {
    if |xs| > 1 {
      JoinPlaceholders(xs[1..], sep, c);
      OccurrencesAppend(xs[0], sep, c);
      OccurrencesAppend(xs[0] + sep, Join(xs[1..], sep), c);
    }
  }
}

/**
 * What the two hand-written SQL builders share: the parameter each filter
 * binds, in the order the builders append them.
 */
module SqlText {
  import opened Filtering
  import opened Placeholders

  /** A value passed to the driver next to the SQL text. */
  datatype SqlParam = TextParam(text: string) | IntParam(whole: int) | RealParam(fraction: real)

  /** A statement handed to the driver: the SQL text and the values of its placeholders. */
  datatype Statement = Statement(text: string, params: seq<SqlParam>)

  /** The parameter a criterion binds; the search is wrapped as `%search%` for LIKE/ILIKE. */
  function ParamOf(c: Criterion): SqlParam
  {
    match c
    case TitleContains(s) => TextParam("%" + s + "%")
    case YearAtLeast(y) => IntParam(y)
    case YearAtMost(y) => IntParam(y)
    case RatingAtLeast(r) => RealParam(r)
    case RatingAtMost(r) => RealParam(r)
  }

  function ParamsOf(cs: seq<Criterion>): (ps: seq<SqlParam>)
    ensures |ps| == |cs|
    decreases |cs|
  {
    if cs == [] then [] else [ParamOf(cs[0])] + ParamsOf(cs[1..])
  }

  lemma {:induction false} ParamsOfAppend(xs: seq<Criterion>, ys: seq<Criterion>)
    ensures ParamsOf(xs + ys) == ParamsOf(xs) + ParamsOf(ys)
    decreases |xs|
  {
    if xs == [] {
      assert xs + ys == ys;
    } else {
      assert (xs + ys)[0] == xs[0] && (xs + ys)[1..] == xs[1..] + ys;
      ParamsOfAppend(xs[1..], ys);
    }
  }

  /** Which of the five filters are present (an empty search counts as absent). */
  function Presence(f: Filters): (bool, bool, bool, bool, bool)
  {
    (SearchActive(f.search), f.yearFrom.Some?, f.yearTo.Some?, f.ratingFrom.Some?, f.ratingTo.Some?)
  }

  /** The filter parameters in the order the builders append them. */
  function FilterParams(f: Filters): seq<SqlParam>
  {
    ParamsOf(ActiveCriteria(f))
  }

  /** How many of the five filters are present. */
  function PresentCount(p: (bool, bool, bool, bool, bool)): nat
  {
    (if p.0 then 1 else 0) + (if p.1 then 1 else 0) + (if p.2 then 1 else 0)
      + (if p.3 then 1 else 0) + (if p.4 then 1 else 0)
  }

  /**
   * One parameter per present filter; the search, when present, comes
   * first and is wrapped in `%` on both sides; rating_to, when present,
   * comes last.
   */
  lemma FilterParamsShape(f: Filters)
    ensures |FilterParams(f)| == PresentCount(Presence(f))
    ensures SearchActive(f.search) ==> FilterParams(f)[0] == TextParam("%" + f.search.value + "%")
    ensures f.ratingTo.Some? ==> FilterParams(f)[|FilterParams(f)| - 1] == RealParam(f.ratingTo.value)
  {
    var cs := ActiveCriteria(f);
    if SearchActive(f.search) {
      assert cs[0] == TitleContains(f.search.value);
      ParamsOfAppend([cs[0]], cs[1..]);
      assert [cs[0]] + cs[1..] == cs;
    }
    if f.ratingTo.Some? {
      var n := |cs|;
      assert cs[n - 1] == RatingAtMost(f.ratingTo.value);
      ParamsOfAppend(cs[..n - 1], [cs[n - 1]]);
      assert cs[..n - 1] + [cs[n - 1]] == cs;
    }
  }
}
