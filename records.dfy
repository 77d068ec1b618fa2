/**
 * The anime record, the fields a query may sort on, the sort keys those
 * fields produce, and the text helpers the title search is built from.
 */
module Records {
  import opened Common

  /** One row of the catalogue; the engine only ever reads these. */
  datatype AnimeRecord = AnimeRecord(
    id: int,
    title: string,
    year: int,
    averageRating: real,
    ratingCount: int,
    collections: int,
    watched: int,
    completionRate: real,
    imgUrl: string)

  /** The columns a query may order by (the `sort_by` regular expression). */
  datatype SortField = Title | Year | AverageRating | RatingCount | Collections | Watched

  /** The column name a sort field stands for, as it appears in the request and in SQL. */
  function FieldName(f: SortField): string
  {
    match f
    case Title => "title"
    case Year => "year"
    case AverageRating => "average_rating"
    case RatingCount => "rating_count"
    case Collections => "collections"
    case Watched => "watched"
  }

  /**
   * The request-boundary check `^(title|year|average_rating|rating_count|collections|watched)$`:
   * a name outside the set is an invalid field.
   */
  function ParseSortField(name: string): (r: Option<SortField>)
    ensures r.Some? ==> FieldName(r.value) == name
    ensures r.None? ==> forall f: SortField :: FieldName(f) != name
  {
    if name == "title" then Some(Title)
    else if name == "year" then Some(Year)
    else if name == "average_rating" then Some(AverageRating)
    else if name == "rating_count" then Some(RatingCount)
    else if name == "collections" then Some(Collections)
    else if name == "watched" then Some(Watched)
    else None
  }

  /** Parsing the name of a field gives that field back. */
  lemma ParseFieldName(f: SortField)
    ensures ParseSortField(FieldName(f)) == Some(f)
  {
    match f
    case Title =>
    case Year =>
    case AverageRating =>
    case RatingCount =>
    case Collections =>
    case Watched =>
  }

  /** The value `x[sort_by]` that Python's sort compares: text or a number. */
  datatype SortKey = Text(s: string) | Number(n: real)

  function Key(r: AnimeRecord, f: SortField): SortKey
  {
    match f
    case Title => Text(r.title)
    case Year => Number(r.year as real)
    case AverageRating => Number(r.averageRating)
    case RatingCount => Number(r.ratingCount as real)
    case Collections => Number(r.collections as real)
    case Watched => Number(r.watched as real)
  }

  /** Python's `str < str`: lexicographic by code point, a proper prefix first. */
  predicate TextLess(a: string, b: string)
    decreases |a|
  {
    if a == [] then b != []
    else if b == [] then false
    else a[0] < b[0] || (a[0] == b[0] && TextLess(a[1..], b[1..]))
  }

  /** Python's `<` on two keys of the same field. */
  predicate KeyLess(a: SortKey, b: SortKey)
  {
    match (a, b)
    case (Text(x), Text(y)) => TextLess(x, y)
    case (Number(x), Number(y)) => x < y
    case _ => false
  }

  lemma {:induction false} TextLessIrreflexive(a: string)
    ensures !TextLess(a, a)
    decreases |a|
  {
    if a != [] {
      TextLessIrreflexive(a[1..]);
    }
  }

  lemma {:induction false} TextLessTransitive(a: string, b: string, c: string)
    requires TextLess(a, b) && TextLess(b, c)
    ensures TextLess(a, c)
    decreases |a|
  {
    if a != [] && a[0] == b[0] && b[0] == c[0] {
      TextLessTransitive(a[1..], b[1..], c[1..]);
    }
  }

  lemma {:induction false} TextLessTotal(a: string, b: string)
    requires a != b
    ensures TextLess(a, b) || TextLess(b, a)
    decreases |a|
  {
    if a != [] && b != [] && a[0] == b[0] {
      assert a == [a[0]] + a[1..] && b == [b[0]] + b[1..];
      TextLessTotal(a[1..], b[1..]);
    }
  }

  /** Two keys of one field are ordered like a strict total order. */
  lemma KeyLessStrictTotal(x: AnimeRecord, y: AnimeRecord, z: AnimeRecord, f: SortField)
    ensures !KeyLess(Key(x, f), Key(x, f))
    ensures KeyLess(Key(x, f), Key(y, f)) && KeyLess(Key(y, f), Key(z, f)) ==> KeyLess(Key(x, f), Key(z, f))
    ensures Key(x, f) != Key(y, f) ==> KeyLess(Key(x, f), Key(y, f)) || KeyLess(Key(y, f), Key(x, f))
  {
    if f == Title {
      TextLessIrreflexive(x.title);
      if TextLess(x.title, y.title) && TextLess(y.title, z.title) {
        TextLessTransitive(x.title, y.title, z.title);
      }
      if x.title != y.title {
        TextLessTotal(x.title, y.title);
      }
    }
  }

  /** Python's `str.lower()` restricted to ASCII: `A`..`Z` become `a`..`z`. */
  function LowerChar(c: char): char
  {
    if 'A' <= c <= 'Z' then (c as int + 32) as char else c
  }

  function Lower(s: string): (r: string)
    ensures |r| == |s|
  {
    seq(|s|, i requires 0 <= i < |s| => LowerChar(s[i]))
  }

  /** Lowering twice is lowering once. */
  lemma LowerIdempotent(s: string)
    ensures Lower(Lower(s)) == Lower(s)
  {
    forall i | 0 <= i < |s|
      ensures Lower(Lower(s))[i] == Lower(s)[i]
    {
    }
  }

  /** Python's `str.upper()` restricted to ASCII. */
  function UpperChar(c: char): char
  {
    if 'a' <= c <= 'z' then (c as int - 32) as char else c
  }

  function Upper(s: string): (r: string)
    ensures |r| == |s|
  {
    seq(|s|, i requires 0 <= i < |s| => UpperChar(s[i]))
  }

  /** `needle` sits in `hay` starting at index `i`. */
  predicate OccursAt(hay: string, needle: string, i: int)
  {
    0 <= i && i + |needle| <= |hay| && hay[i..i + |needle|] == needle
  }

  /** Python's `needle in hay` on strings: the scan tries each start index in turn. */
  function Contains(hay: string, needle: string): (b: bool)
    ensures b <==> exists i :: OccursAt(hay, needle, i)
    decreases |hay|
  {
    if |needle| <= |hay| && hay[..|needle|] == needle then
      assert OccursAt(hay, needle, 0);
      true
    else if hay == [] then
      false
    else
      var rest := Contains(hay[1..], needle);
      assert forall i :: OccursAt(hay[1..], needle, i) <==> OccursAt(hay, needle, i + 1) by {
        forall i
          ensures OccursAt(hay[1..], needle, i) <==> OccursAt(hay, needle, i + 1)
        {
          if 0 <= i && i + |needle| <= |hay[1..]| {
            assert hay[1..][i..i + |needle|] == hay[i + 1..i + 1 + |needle|];
          }
        }
      }
      assert forall i :: OccursAt(hay, needle, i) ==> i == 0 || OccursAt(hay[1..], needle, i - 1);
      rest
  }
}
