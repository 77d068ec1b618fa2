/**
 * The sort stage: `list.sort(key=lambda x: x[sort_by], reverse=...)`.
 * Python's sort is stable, also with `reverse=True`: tied records keep their
 * source order in both directions. That is exactly a stable insertion sort
 * under the strict relation "x must come before y", which for the descending
 * order is "key(y) < key(x)".
 */
module Sorting {
  import opened Records

  /** x must be placed before y: strictly smaller key, or strictly larger when descending. */
  predicate Precedes(x: AnimeRecord, y: AnimeRecord, f: SortField, descending: bool)
  {
    if descending then KeyLess(Key(y, f), Key(x, f)) else KeyLess(Key(x, f), Key(y, f))
  }

  /** No record of s must come before an earlier one. */
  predicate Sorted(s: seq<AnimeRecord>, f: SortField, descending: bool)
  {
    forall i, j :: 0 <= i < j < |s| ==> !Precedes(s[j], s[i], f, descending)
  }

  /** The records of s whose key equals k, in their order in s. */
  function KeyRun(s: seq<AnimeRecord>, f: SortField, k: SortKey): seq<AnimeRecord>
    decreases |s|
  {
    if s == [] then []
    else (if Key(s[0], f) == k then [s[0]] else []) + KeyRun(s[1..], f, k)
  }

  /** Stability: every group of tied records appears in the same relative order. */
  ghost predicate SameTieOrder(s: seq<AnimeRecord>, t: seq<AnimeRecord>, f: SortField)
  {
    forall k :: KeyRun(s, f, k) == KeyRun(t, f, k)
  }

  lemma PrecedesFacts(x: AnimeRecord, y: AnimeRecord, z: AnimeRecord, f: SortField, descending: bool)
    ensures !Precedes(x, x, f, descending)
    ensures Precedes(x, y, f, descending) ==> !Precedes(y, x, f, descending) && Key(x, f) != Key(y, f)
    ensures !Precedes(x, y, f, descending) && !Precedes(y, z, f, descending) ==> !Precedes(x, z, f, descending)
  {
    KeyLessStrictTotal(x, y, z, f);
    KeyLessStrictTotal(x, y, x, f);
    KeyLessStrictTotal(y, x, y, f);
    KeyLessStrictTotal(y, x, z, f);
    KeyLessStrictTotal(y, z, x, f);
    KeyLessStrictTotal(z, y, x, f);
    KeyLessStrictTotal(x, z, y, f);
    KeyLessStrictTotal(z, x, y, f);
  }

  /**
   * Insertion of x behind a sorted prefix: x moves left only past records it
   * must strictly precede, so it stays behind every record it ties with.
   */
  function Insert(s: seq<AnimeRecord>, x: AnimeRecord, f: SortField, descending: bool): (r: seq<AnimeRecord>)
    ensures |r| == |s| + 1
    decreases |s|
  {
    if s == [] || !Precedes(x, s[|s| - 1], f, descending) then s + [x]
    else Insert(s[..|s| - 1], x, f, descending) + [s[|s| - 1]]
  }

  /** The result of the in-place sort, as a function of the list it started from. */
  function StableSort(s: seq<AnimeRecord>, f: SortField, descending: bool): (r: seq<AnimeRecord>)
    ensures |r| == |s|
    decreases |s|
  {
    if s == [] then []
    else Insert(StableSort(s[..|s| - 1], f, descending), s[|s| - 1], f, descending)
  }

  lemma {:induction false} InsertPermutes(s: seq<AnimeRecord>, x: AnimeRecord, f: SortField, descending: bool)
    ensures multiset(Insert(s, x, f, descending)) == multiset(s) + multiset{x}
    decreases |s|
  {
    if s != [] && Precedes(x, s[|s| - 1], f, descending) {
      var init, last := s[..|s| - 1], s[|s| - 1];
      InsertPermutes(init, x, f, descending);
      assert s == init + [last];
      assert multiset(s) == multiset(init) + multiset{last};
    }
  }

  lemma {:induction false} InsertSorted(s: seq<AnimeRecord>, x: AnimeRecord, f: SortField, descending: bool)
    requires Sorted(s, f, descending)
    ensures Sorted(Insert(s, x, f, descending), f, descending)
    decreases |s|
  {
    if s == [] {
    } else if !Precedes(x, s[|s| - 1], f, descending) {
      var last := s[|s| - 1];
      forall i | 0 <= i < |s| ensures !Precedes(x, s[i], f, descending) {
        PrecedesFacts(x, last, s[i], f, descending);
        if i < |s| - 1 {
          PrecedesFacts(last, s[i], s[i], f, descending);
        }
      }
      var r := s + [x];
      forall i, j | 0 <= i < j < |r| ensures !Precedes(r[j], r[i], f, descending) {
        if j == |s| {
          assert r[j] == x && r[i] == s[i];
        } else {
          assert r[j] == s[j] && r[i] == s[i];
        }
      }
    } else {
      var init := s[..|s| - 1];
      var last := s[|s| - 1];
      var ins := Insert(init, x, f, descending);
      InsertSorted(init, x, f, descending);
      InsertPermutes(init, x, f, descending);
      forall e | e in ins ensures !Precedes(last, e, f, descending) {
        assert e in multiset(ins);
        if e == x {
          PrecedesFacts(x, last, last, f, descending);
        } else {
          assert e in multiset(init);
          var i :| 0 <= i < |init| && init[i] == e;
          assert s[i] == e;
        }
      }
      var r := ins + [last];
      forall i, j | 0 <= i < j < |r| ensures !Precedes(r[j], r[i], f, descending) {
        if j == |ins| {
          assert r[j] == last && r[i] == ins[i] && ins[i] in ins;
        } else {
          assert r[j] == ins[j] && r[i] == ins[i];
        }
      }
    }
  }

  lemma {:induction false} KeyRunAppend(s: seq<AnimeRecord>, t: seq<AnimeRecord>, f: SortField, k: SortKey)
    ensures KeyRun(s + t, f, k) == KeyRun(s, f, k) + KeyRun(t, f, k)
    decreases |s|
  {
    if s == [] {
      assert s + t == t;
    } else {
      assert (s + t)[0] == s[0] && (s + t)[1..] == s[1..] + t;
      KeyRunAppend(s[1..], t, f, k);
      var head := if Key(s[0], f) == k then [s[0]] else [];
      assert KeyRun(s + t, f, k) == head + (KeyRun(s[1..], f, k) + KeyRun(t, f, k));
      assert head + (KeyRun(s[1..], f, k) + KeyRun(t, f, k)) == (head + KeyRun(s[1..], f, k)) + KeyRun(t, f, k);
    }
  }

  lemma KeyRunSingle(x: AnimeRecord, f: SortField, k: SortKey)
    ensures KeyRun([x], f, k) == if Key(x, f) == k then [x] else []
  {
    assert [x][1..] == [];
  }

  /** The run of key k in s is the run in all but its last record, then the last record's. */
  lemma KeyRunSnoc(s: seq<AnimeRecord>, f: SortField, k: SortKey)
    requires s != []
    ensures KeyRun(s, f, k) == KeyRun(s[..|s| - 1], f, k) + KeyRun([s[|s| - 1]], f, k)
  {
    KeyRunAppend(s[..|s| - 1], [s[|s| - 1]], f, k);
    assert s[..|s| - 1] + [s[|s| - 1]] == s;
  }

  /** Two records one strictly precedes have different keys, so at most one is in the run of k. */
  lemma RunsExclusive(x: AnimeRecord, y: AnimeRecord, f: SortField, descending: bool, k: SortKey)
    requires Precedes(x, y, f, descending)
    ensures KeyRun([x], f, k) == [] || KeyRun([y], f, k) == []
  {
    KeyRunSingle(x, f, k);
    KeyRunSingle(y, f, k);
    PrecedesFacts(x, y, y, f, descending);
  }

  /**
   * The step case of InsertKeepsTies: x moves past the last record, whose
   * key differs from x's, so the two runs are unaffected by their order.
   */
  lemma InsertPastLast(s: seq<AnimeRecord>, x: AnimeRecord, f: SortField, descending: bool, k: SortKey)
    requires s != [] && Precedes(x, s[|s| - 1], f, descending)
    requires KeyRun(Insert(s[..|s| - 1], x, f, descending), f, k) == KeyRun(s[..|s| - 1], f, k) + KeyRun([x], f, k)
    ensures KeyRun(Insert(s, x, f, descending), f, k) == KeyRun(s, f, k) + KeyRun([x], f, k)
  {
    var init, last := s[..|s| - 1], s[|s| - 1];
    var inserted := Insert(init, x, f, descending);
    var ri, rx, rl := KeyRun(init, f, k), KeyRun([x], f, k), KeyRun([last], f, k);
    assert Insert(s, x, f, descending) == inserted + [last];
    KeyRunSnoc(inserted + [last], f, k);
    assert (inserted + [last])[..|inserted|] == inserted;
    KeyRunSnoc(s, f, k);
    RunsExclusive(x, last, f, descending, k);
    SwapEmpty(ri, rx, rl);
  }

  /** Of two sequences at least one of which is empty, the order of appending does not matter. */
  lemma SwapEmpty<T>(a: seq<T>, b: seq<T>, c: seq<T>)
    requires b == [] || c == []
    ensures (a + b) + c == (a + c) + b
  {
    if b == [] {
      assert a + b == a;
    } else {
      assert a + c == a;
    }
  }

  /** Inserting x adds x at the end of its key's run and leaves every other run alone. */
  lemma {:induction false} InsertKeepsTies(s: seq<AnimeRecord>, x: AnimeRecord, f: SortField, descending: bool, k: SortKey)
    ensures KeyRun(Insert(s, x, f, descending), f, k) == KeyRun(s, f, k) + KeyRun([x], f, k)
    decreases |s|
  {
    if s == [] || !Precedes(x, s[|s| - 1], f, descending) {
      KeyRunAppend(s, [x], f, k);
    } else {
      InsertKeepsTies(s[..|s| - 1], x, f, descending, k);
      InsertPastLast(s, x, f, descending, k);
    }
  }

  /** The sort is a permutation of its input. */
  lemma {:induction false} StableSortPermutes(s: seq<AnimeRecord>, f: SortField, descending: bool)
    ensures multiset(StableSort(s, f, descending)) == multiset(s)
    decreases |s|
  {
    if s != [] {
      var init, last := s[..|s| - 1], s[|s| - 1];
      StableSortPermutes(init, f, descending);
      InsertPermutes(StableSort(init, f, descending), last, f, descending);
      assert s == init + [last];
      assert multiset(s) == multiset(init) + multiset{last};
    }
  }

  /** The sort orders by the key: ascending, or descending when `reverse` is set. */
  lemma {:induction false} StableSortSorted(s: seq<AnimeRecord>, f: SortField, descending: bool)
    ensures Sorted(StableSort(s, f, descending), f, descending)
    decreases |s|
  {
    if s != [] {
      StableSortSorted(s[..|s| - 1], f, descending);
      InsertSorted(StableSort(s[..|s| - 1], f, descending), s[|s| - 1], f, descending);
    }
  }

  /** The sort is stable: tied records keep their source order, in both directions. */
  lemma {:induction false} StableSortKeepsTies(s: seq<AnimeRecord>, f: SortField, descending: bool)
    ensures SameTieOrder(StableSort(s, f, descending), s, f)
    decreases |s|
  {
    if s != [] {
      var init := s[..|s| - 1];
      StableSortKeepsTies(init, f, descending);
      forall k ensures KeyRun(StableSort(s, f, descending), f, k) == KeyRun(s, f, k) {
        InsertKeepsTies(StableSort(init, f, descending), s[|s| - 1], f, descending, k);
        KeyRunAppend(init, [s[|s| - 1]], f, k);
        assert init + [s[|s| - 1]] == s;
      }
    }
  }

  /**
   * Where insertion puts x: behind the first j records, when x strictly
   * precedes every record after them and does not precede the j-th.
   */
  lemma {:induction false} InsertAt(s: seq<AnimeRecord>, x: AnimeRecord, f: SortField, descending: bool, j: nat)
    requires j <= |s|
    requires forall k :: j <= k < |s| ==> Precedes(x, s[k], f, descending)
    requires j == 0 || !Precedes(x, s[j - 1], f, descending)
    ensures Insert(s, x, f, descending) == s[..j] + [x] + s[j..]
    decreases |s|
  {
    if j == |s| {
      assert s[..j] == s && s[j..] == [];
    } else {
      var init, last := s[..|s| - 1], s[|s| - 1];
      assert Insert(s, x, f, descending) == Insert(init, x, f, descending) + [last] by {
        assert Precedes(x, last, f, descending);
      }
      assert forall k :: j <= k < |init| ==> init[k] == s[k];
      InsertAt(init, x, f, descending, j);
      var pre, post := s[..j], init[j..];
      assert init[..j] == pre;
      assert post + [last] == s[j..];
      assert (pre + [x] + post) + [last] == pre + [x] + (post + [last]);
    }
  }

  lemma StableSortStep(s: seq<AnimeRecord>, i: nat, f: SortField, descending: bool)
    requires i < |s|
    ensures StableSort(s[..i + 1], f, descending) == Insert(StableSort(s[..i], f, descending), s[i], f, descending)
  {
    assert s[..i + 1][..i] == s[..i];
  }

  /**
   * The shifting loop of one insertion pass: the records of the sorted
   * prefix a[..i] that x strictly precedes move one place right, and the
   * returned index is the slot x belongs in.
   */
  method ShiftRight(a: array<AnimeRecord>, i: nat, x: AnimeRecord, f: SortField, descending: bool)
    returns (j: nat)
    requires i < a.Length
    modifies a
    ensures j <= i
    ensures forall k :: 0 <= k < j ==> a[k] == old(a[k])
    ensures forall k :: j < k <= i ==> a[k] == old(a[k - 1])
    ensures forall k :: i < k < a.Length ==> a[k] == old(a[k])
    ensures Insert(old(a[..i]), x, f, descending) == old(a[..i])[..j] + [x] + old(a[..i])[j..]
  {
    ghost var sorted := a[..i];
    j := i;
    while j > 0 && Precedes(x, a[j - 1], f, descending)
      invariant 0 <= j <= i
      invariant forall k :: 0 <= k < j ==> a[k] == sorted[k]
      invariant forall k :: j < k <= i ==> a[k] == sorted[k - 1]
      invariant forall k :: i < k < a.Length ==> a[k] == old(a[k])
      invariant forall k :: j <= k < i ==> Precedes(x, sorted[k], f, descending)
    {
      a[j] := a[j - 1];
      j := j - 1;
    }
    InsertAt(sorted, x, f, descending, j);
  }

  /**
   * One pass of the insertion loop: a[i] is shifted left past the records of
   * the sorted prefix a[..i] that it strictly precedes.
   */
  method InsertLast(a: array<AnimeRecord>, i: nat, f: SortField, descending: bool)
    requires i < a.Length
    modifies a
    ensures a[..i + 1] == Insert(old(a[..i]), old(a[i]), f, descending)
    ensures a[i + 1..] == old(a[i + 1..])
  {
    ghost var sorted := a[..i];
    var x := a[i];
    var j := ShiftRight(a, i, x, f, descending);
    a[j] := x;
    assert a[..i + 1] == sorted[..j] + [x] + sorted[j..];
  }

  /** One iteration of the insertion loop: the sorted prefix grows by one record. */
  method SortStep(a: array<AnimeRecord>, ghost orig: seq<AnimeRecord>, i: nat, f: SortField, descending: bool)
    requires i < a.Length == |orig|
    requires a[..i] == StableSort(orig[..i], f, descending)
    requires a[i..] == orig[i..]
    modifies a
    ensures a[..i + 1] == StableSort(orig[..i + 1], f, descending)
    ensures a[i + 1..] == orig[i + 1..]
  {
    assert a[i] == orig[i] && a[i + 1..] == orig[i + 1..] by {
      assert a[i..][0] == orig[i..][0] && a[i..][1..] == orig[i..][1..];
    }
    InsertLast(a, i, f, descending);
    StableSortStep(orig, i, f, descending);
  }

  /**
   * The in-place sort of the filtered copy: a stable insertion sort that
   * shifts each record left past the records it strictly precedes.
   */
  method SortInPlace(a: array<AnimeRecord>, f: SortField, descending: bool)
    modifies a
    ensures a[..] == StableSort(old(a[..]), f, descending)
  {
    ghost var orig := a[..];
    var i := 0;
    while i < a.Length
      invariant 0 <= i <= a.Length
      invariant a[..i] == StableSort(orig[..i], f, descending)
      invariant a[i..] == orig[i..]
    {
      SortStep(a, orig, i, f, descending);
      i := i + 1;
    }
    assert a[..] == a[..a.Length];
    assert orig[..a.Length] == orig;
  }
}
