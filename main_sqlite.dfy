/**
 * The fixed SQL text of the SQLite handler. It is kept apart from the
 * record and filter modules so that the facts about the literals are
 * checked on their own.
 */
module SqliteText {
  import opened Placeholders

  /** The count query before its WHERE clause. */
  const CountHead: string := "SELECT COUNT(*) " + "FROM anime WHERE "

  const SelectColumns: string :=
    "\n        SELECT " + "rowid as id, " + "title, year, " + "average_rating, " + "rating_count,\n"
  const MoreColumns: string :=
    "               " + "collections, " + "watched, " + "completion_rate, " + "img_url, tags\n"
  const FromAnime: string := "        FROM anime\n" + "        WHERE "

  /** The page query before its WHERE clause. */
  const SelectHead: string := SelectColumns + MoreColumns + FromAnime

  const OrderBy: string := "\n        ORDER BY "

  const LimitClause: string := "\n        LIMIT " + "?"
  const OffsetClause: string := " OFFSET " + "?"

  /** The end of the page query: two placeholders, page_size then the offset. */
  const LimitOffset: string := LimitClause + OffsetClause + "\n    "

  lemma CountHeadHasNoPlaceholder()
    ensures Occurrences(CountHead, '?') == 0
  {
    assert '?' !in "SELECT COUNT(*) ";
    assert '?' !in "FROM anime WHERE ";
    NoPlaceholder(CountHead, '?');
  }

  lemma SelectColumnsHaveNoPlaceholder()
    ensures '?' !in SelectColumns
  {
    assert '?' !in "\n        SELECT ";
    assert '?' !in "rowid as id, ";
    assert '?' !in "title, year, ";
    assert '?' !in "average_rating, ";
    assert '?' !in "rating_count,\n";
  }

  lemma MoreColumnsHaveNoPlaceholder()
    ensures '?' !in MoreColumns
  {
    assert '?' !in "               ";
    assert '?' !in "collections, ";
    assert '?' !in "watched, ";
    assert '?' !in "completion_rate, ";
    assert '?' !in "img_url, tags\n";
  }

  lemma SelectHeadHasNoPlaceholder()
    ensures Occurrences(SelectHead, '?') == 0
  {
    SelectColumnsHaveNoPlaceholder();
    MoreColumnsHaveNoPlaceholder();
    assert '?' !in "        FROM anime\n";
    assert '?' !in "        WHERE ";
    NoPlaceholder(SelectHead, '?');
  }

  lemma OrderByHasNoPlaceholder()
    ensures Occurrences(OrderBy, '?') == 0
  {
    assert '?' !in "\n        ORDER BY ";
    NoPlaceholder(OrderBy, '?');
  }

  lemma LimitOffsetHasTwoPlaceholders()
    ensures Occurrences(LimitOffset, '?') == 2
  {
    assert '?' !in "\n        LIMIT ";
    OnePlaceholder("\n        LIMIT ", '?');
    assert '?' !in " OFFSET ";
    OnePlaceholder(" OFFSET ", '?');
    assert '?' !in "\n    ";
    NoPlaceholder("\n    ", '?');
    OccurrencesAppend(LimitClause, OffsetClause, '?');
    OccurrencesAppend(LimitClause + OffsetClause, "\n    ", '?');
  }

  /** `f"SELECT COUNT(*) FROM anime WHERE {where_clause}"` */
  function CountText(whereClause: string): string
  {
    CountHead + whereClause
  }

  lemma CountTextPlaceholders(whereClause: string)
    ensures Occurrences(CountText(whereClause), '?') == Occurrences(whereClause, '?')
  {
    CountHeadHasNoPlaceholder();
    OccurrencesAppend(CountHead, whereClause, '?');
  }

  /** The triple-quoted page query, with `LIMIT ? OFFSET ?` last. */
  function SelectText(whereClause: string, orderClause: string): string
  {
    SelectHead + whereClause + OrderBy + orderClause + LimitOffset
  }

  /** The page query holds the WHERE clause's placeholders and the two of LIMIT and OFFSET. */
  lemma SelectTextPlaceholders(whereClause: string, orderClause: string)
    requires '?' !in orderClause
    ensures Occurrences(SelectText(whereClause, orderClause), '?') == Occurrences(whereClause, '?') + 2
  {
    SelectHeadHasNoPlaceholder();
    OrderByHasNoPlaceholder();
    LimitOffsetHasTwoPlaceholders();
    NoPlaceholder(orderClause, '?');
    OccurrencesAppend(SelectHead, whereClause, '?');
    OccurrencesAppend(SelectHead + whereClause, OrderBy, '?');
    OccurrencesAppend(SelectHead + whereClause + OrderBy, orderClause, '?');
    OccurrencesAppend(SelectHead + whereClause + OrderBy + orderClause, LimitOffset, '?');
  }
}

/**
 * The SQLite handler of `main.py`: the WHERE clause is assembled from one
 * `?` condition per present filter, the parameters are appended in the same
 * order, and `LIMIT ? OFFSET ?` binds page_size and the offset last.
 */
module SqliteMain {
  import opened Common
  import opened Records
  import opened Filtering
  import opened Paging
  import opened Placeholders
  import opened SqlText
  import opened SqliteText

  /** The column and operator of a criterion's condition, before its placeholder. */
  function ConditionPrefix(c: Criterion): string
  {
    match c
    case TitleContains(_) => "title LIKE "
    case YearAtLeast(_) => "year >= "
    case YearAtMost(_) => "year <= "
    case RatingAtLeast(_) => "average_rating >= "
    case RatingAtMost(_) => "average_rating <= "
  }

  /** The condition text a criterion contributes (`"title LIKE ?"`, ...); its value goes to the parameters. */
  function Condition(c: Criterion): string
  {
    ConditionPrefix(c) + "?"
  }

  function Conditions(cs: seq<Criterion>): (ts: seq<string>)
    ensures |ts| == |cs|
    decreases |cs|
  {
    if cs == [] then [] else [Condition(cs[0])] + Conditions(cs[1..])
  }

  /** `" AND ".join(where_conditions) if where_conditions else "1=1"` */
  function WhereClause(cs: seq<Criterion>): string
  {
    if cs == [] then "1=1" else Join(Conditions(cs), " AND ")
  }

  lemma {:induction false} ConditionsAppend(xs: seq<Criterion>, ys: seq<Criterion>)
    ensures Conditions(xs + ys) == Conditions(xs) + Conditions(ys)
    decreases |xs|
  {
    if xs == [] {
      assert xs + ys == ys;
    } else {
      assert (xs + ys)[0] == xs[0] && (xs + ys)[1..] == xs[1..] + ys;
      ConditionsAppend(xs[1..], ys);
    }
  }

  lemma ConditionPlaceholder(c: Criterion)
    ensures Occurrences(Condition(c), '?') == 1
  {
    assert '?' !in ConditionPrefix(c);
    OnePlaceholder(ConditionPrefix(c), '?');
  }

  lemma {:induction false} ConditionsHoldOnePlaceholder(cs: seq<Criterion>)
    ensures forall i :: 0 <= i < |cs| ==> Occurrences(Conditions(cs)[i], '?') == 1
    decreases |cs|
  {
    if cs != [] {
      ConditionsHoldOnePlaceholder(cs[1..]);
      ConditionPlaceholder(cs[0]);
      assert forall i :: 1 <= i < |cs| ==> Conditions(cs)[i] == Conditions(cs[1..])[i - 1];
    }
  }

  /**
   * The WHERE clause holds exactly one `?` per active criterion, and it is
   * the literal "1=1" exactly when no criterion is active.
   */
  lemma WherePlaceholders(cs: seq<Criterion>)
    ensures Occurrences(WhereClause(cs), '?') == |cs|
    ensures WhereClause(cs) == "1=1" <==> cs == []
  {
    if cs != [] {
      ConditionsHoldOnePlaceholder(cs);
      NoPlaceholder(" AND ", '?');
      JoinPlaceholders(Conditions(cs), " AND ", '?');
      NoPlaceholder("1=1", '?');
    }
  }

  /** The conditions as a function of which filters are present alone. */
  function PresenceConditions(p: (bool, bool, bool, bool, bool)): seq<string>
  {
    (if p.0 then ["title LIKE ?"] else [])
    + (if p.1 then ["year >= ?"] else [])
    + (if p.2 then ["year <= ?"] else [])
    + (if p.3 then ["average_rating >= ?"] else [])
    + (if p.4 then ["average_rating <= ?"] else [])
  }

  lemma ConditionsFollowPresence(f: Filters)
    ensures Conditions(ActiveCriteria(f)) == PresenceConditions(Presence(f))
  {
    var c0 := if SearchActive(f.search) then [TitleContains(f.search.value)] else [];
    var c1 := if f.yearFrom.Some? then [YearAtLeast(f.yearFrom.value)] else [];
    var c2 := if f.yearTo.Some? then [YearAtMost(f.yearTo.value)] else [];
    var c3 := if f.ratingFrom.Some? then [RatingAtLeast(f.ratingFrom.value)] else [];
    var c4 := if f.ratingTo.Some? then [RatingAtMost(f.ratingTo.value)] else [];
    assert ActiveCriteria(f) == c0 + c1 + c2 + c3 + c4;
    var p := Presence(f);
    assert Conditions(c0) == (if p.0 then ["title LIKE ?"] else []) by {
      if p.0 { assert "title LIKE " + "?" == "title LIKE ?"; }
    }
    assert Conditions(c1) == (if p.1 then ["year >= ?"] else []) by {
      if p.1 { assert "year >= " + "?" == "year >= ?"; }
    }
    assert Conditions(c2) == (if p.2 then ["year <= ?"] else []) by {
      if p.2 { assert "year <= " + "?" == "year <= ?"; }
    }
    assert Conditions(c3) == (if p.3 then ["average_rating >= ?"] else []) by {
      if p.3 { assert "average_rating >= " + "?" == "average_rating >= ?"; }
    }
    assert Conditions(c4) == (if p.4 then ["average_rating <= ?"] else []) by {
      if p.4 { assert "average_rating <= " + "?" == "average_rating <= ?"; }
    }
    assert Conditions(c0 + c1 + c2 + c3 + c4)
           == Conditions(c0) + Conditions(c1) + Conditions(c2) + Conditions(c3) + Conditions(c4) by {
      ConditionsAppend(c0 + c1 + c2 + c3, c4);
      ConditionsAppend(c0 + c1 + c2, c3);
      ConditionsAppend(c0 + c1, c2);
      ConditionsAppend(c0, c1);
    }
  }

  /**
   * No filter value reaches the SQL text: two requests with the same filters
   * present get the same WHERE clause, whatever the values.
   */
  lemma WhereIgnoresValues(f: Filters, g: Filters)
    requires Presence(f) == Presence(g)
    ensures WhereClause(ActiveCriteria(f)) == WhereClause(ActiveCriteria(g))
  {
    ConditionsFollowPresence(f);
    ConditionsFollowPresence(g);
    assert |ActiveCriteria(f)| == |Conditions(ActiveCriteria(f))|;
    assert |ActiveCriteria(g)| == |Conditions(ActiveCriteria(g))|;
  }

  lemma Snoc(cs: seq<Criterion>, c: Criterion)
    ensures Conditions(cs + [c]) == Conditions(cs) + [Condition(c)]
    ensures ParamsOf(cs + [c]) == ParamsOf(cs) + [ParamOf(c)]
  {
    ConditionsAppend(cs, [c]);
    ParamsOfAppend(cs, [c]);
    assert [c][1..] == [];
  }

  /**
   * The five `if` blocks: each present filter appends one condition to
   * `where_conditions` and its value to `params`, in the fixed order search,
   * year_from, year_to, rating_from, rating_to.
   */
  method CollectConditions(f: Filters) returns (whereConditions: seq<string>, params: seq<SqlParam>)
    ensures whereConditions == Conditions(ActiveCriteria(f))
    ensures params == FilterParams(f)
  {
    whereConditions := [];
    params := [];
    ghost var cs: seq<Criterion> := [];

    if f.search.Some? && f.search.value != [] {
      whereConditions := whereConditions + [Condition(TitleContains(f.search.value))];
      params := params + [TextParam("%" + f.search.value + "%")];
      Snoc(cs, TitleContains(f.search.value));
      cs := cs + [TitleContains(f.search.value)];
    }
    ghost var c0 := cs;
    assert c0 == (if SearchActive(f.search) then [TitleContains(f.search.value)] else []);
    if f.yearFrom.Some? {
      whereConditions := whereConditions + [Condition(YearAtLeast(f.yearFrom.value))];
      params := params + [IntParam(f.yearFrom.value)];
      Snoc(cs, YearAtLeast(f.yearFrom.value));
      cs := cs + [YearAtLeast(f.yearFrom.value)];
    }
    ghost var c1 := cs;
    assert c1 == c0 + (if f.yearFrom.Some? then [YearAtLeast(f.yearFrom.value)] else []);
    if f.yearTo.Some? {
      whereConditions := whereConditions + [Condition(YearAtMost(f.yearTo.value))];
      params := params + [IntParam(f.yearTo.value)];
      Snoc(cs, YearAtMost(f.yearTo.value));
      cs := cs + [YearAtMost(f.yearTo.value)];
    }
    ghost var c2 := cs;
    assert c2 == c1 + (if f.yearTo.Some? then [YearAtMost(f.yearTo.value)] else []);
    if f.ratingFrom.Some? {
      whereConditions := whereConditions + [Condition(RatingAtLeast(f.ratingFrom.value))];
      params := params + [RealParam(f.ratingFrom.value)];
      Snoc(cs, RatingAtLeast(f.ratingFrom.value));
      cs := cs + [RatingAtLeast(f.ratingFrom.value)];
    }
    ghost var c3 := cs;
    assert c3 == c2 + (if f.ratingFrom.Some? then [RatingAtLeast(f.ratingFrom.value)] else []);
    if f.ratingTo.Some? {
      whereConditions := whereConditions + [Condition(RatingAtMost(f.ratingTo.value))];
      params := params + [RealParam(f.ratingTo.value)];
      Snoc(cs, RatingAtMost(f.ratingTo.value));
      cs := cs + [RatingAtMost(f.ratingTo.value)];
    }
    assert cs == c3 + (if f.ratingTo.Some? then [RatingAtMost(f.ratingTo.value)] else []);
    assert cs == ActiveCriteria(f) by {
      ActiveCriteriaPieces(f, c0, c1, c2, c3, cs);
    }
  }

  /** `" AND ".join(where_conditions) if where_conditions else "1=1"`, with its parameters. */
  method BuildWhere(f: Filters) returns (whereClause: string, params: seq<SqlParam>)
    ensures whereClause == WhereClause(ActiveCriteria(f))
    ensures params == FilterParams(f)
    ensures Occurrences(whereClause, '?') == |params|
    ensures whereClause == "1=1" <==> params == []
  {
    var whereConditions;
    whereConditions, params := CollectConditions(f);
    whereClause := if whereConditions != [] then Join(whereConditions, " AND ") else "1=1";
    WherePlaceholders(ActiveCriteria(f));
  }

  /** `f"{sort_by} {sort_order.upper()}"` holds no placeholder for a valid sort order. */
  lemma OrderClauseHasNoPlaceholder(sortBy: SortField, sortOrder: string)
    requires sortOrder == "asc" || sortOrder == "desc"
    ensures '?' !in FieldName(sortBy) + " " + Upper(sortOrder)
  {
    assert '?' !in FieldName(sortBy);
    assert forall i :: 0 <= i < |sortOrder| ==> Upper(sortOrder)[i] != '?';
  }

  /**
   * The rest of the handler: the count query takes the filter parameters;
   * the page query appends page_size and then the offset for its trailing
   * `LIMIT ? OFFSET ?`; total_pages is the ceiling of the database's count.
   */
  method BuildQueries(f: Filters, sortBy: SortField, sortOrder: string, page: int, pageSize: int, total: nat)
    returns (countQuery: string, countParams: seq<SqlParam>, query: string, params: seq<SqlParam>,
             offset: int, totalPages: nat)
    requires page >= 1 && 1 <= pageSize <= 100
    requires sortOrder == "asc" || sortOrder == "desc"
    ensures countQuery == CountText(WhereClause(ActiveCriteria(f)))
    ensures query == SelectText(WhereClause(ActiveCriteria(f)), FieldName(sortBy) + " " + Upper(sortOrder))
    ensures countParams == FilterParams(f)
    ensures Occurrences(countQuery, '?') == |countParams|
    ensures offset == (page - 1) * pageSize
    ensures params == countParams + [IntParam(pageSize), IntParam(offset)]
    ensures Occurrences(query, '?') == |params|
    ensures totalPages == TotalPages(total, pageSize)
  {
    var whereClause;
    whereClause, countParams := BuildWhere(f);
    countQuery := CountText(whereClause);
    CountTextPlaceholders(whereClause);

    offset := (page - 1) * pageSize;
    totalPages := TotalPages(total, pageSize);

    var orderClause := FieldName(sortBy) + " " + Upper(sortOrder);
    OrderClauseHasNoPlaceholder(sortBy, sortOrder);
    query := SelectText(whereClause, orderClause);
    SelectTextPlaceholders(whereClause, orderClause);

    params := countParams + [IntParam(pageSize), IntParam(offset)];
  }
}
