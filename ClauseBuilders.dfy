/** The clause builders of the sample-query generator
    (query_generation.py): `add_group_by_clause`, `add_join_clause` and
    `add_order_by_clause`. Each extends the query text and the description
    and changes the caller's `select_columns` set in place. Every random
    choice is a parameter; every database probe is passed in as its
    result. */
module ClauseBuilders {
  import opened Text
  import opened Options
  import opened Identifiers
  import opened Schemas
  import opened SampleColumns

  /** The caller's `select_columns` set, shared by the builders. */
  class SelectColumns {
    var items: set<string>

    constructor (initial: set<string>)
      ensures items == initial
    {
      items := initial;
    }

    /** Empties the set and then adds every item of `more`. */
    method Replace(more: set<string>)
      modifies this
      ensures items == more
    {
      items := {};
      items := items + more;
    }

    /** Adds one item to the set. */
    method Add(x: string)
      modifies this
      ensures items == old(items) + {x}
    {
      items := items + {x};
    }
  }

  // ---------------------------------------------------------------------
  // add_group_by_clause

  /** The aggregation functions and the word each appears as in the
      description. */
  const AggregationNames: map<string, string> :=
    map["SUM" := "total", "MAX" := "maximum", "MIN" := "minimum", "AVG" := "average", "COUNT" := "count"]

  /** The first candidate at or after `i` whose group counts are evenly
      distributed. */
  function FirstEven(candidates: seq<string>, groupCounts: string -> seq<GroupCount>, i: nat): (r: Option<nat>)
    decreases |candidates| - i
    ensures r.Some? ==> i <= r.value < |candidates| && EvenlyDistributed(groupCounts(candidates[r.value]))
    ensures r.Some? ==> forall j :: i <= j < r.value ==> !EvenlyDistributed(groupCounts(candidates[j]))
    ensures r.None? ==> forall j :: i <= j < |candidates| ==> !EvenlyDistributed(groupCounts(candidates[j]))
  {
    if i >= |candidates| then None
    else if EvenlyDistributed(groupCounts(candidates[i])) then Some(i)
    else FirstEven(candidates, groupCounts, i + 1)
  }

  /** The column the query is grouped by, if any: never an amount-like
      column, and one whose values are evenly distributed. */
  function GroupColumn(columns: ColumnsByType, groupCounts: string -> seq<GroupCount>): (r: Option<string>)
    ensures r.Some? ==> (r.value in columns.categorical || r.value in columns.numeric) && !AmountLike(r.value)
    ensures r.Some? ==> EvenlyDistributed(groupCounts(r.value))
    ensures r.None? <==> forall c :: c in GroupByCandidates(columns) ==> !EvenlyDistributed(groupCounts(c))
  {
    var candidates := GroupByCandidates(columns);
    match FirstEven(candidates, groupCounts, 0)
    case None => None
    case Some(k) =>
      assert candidates[k] in columns.categorical + columns.numeric;
      Some(candidates[k])
  }

  /** The aggregate expression `AGG(col) AS `word_col``, or `COUNT(*)`
      when the table has no amount-like numeric column. */
  function AggregateItem(aggFunction: string, aggColumn: Option<string>): (r: string)
    requires aggFunction in AggregationNames
    ensures aggColumn.Some? ==> IsPrefix(aggFunction + "(" + aggColumn.value + ")", r)
  {
    match aggColumn
    case None => "COUNT(*)"
    case Some(a) =>
      aggFunction + "(" + a + ")" + " AS " + WrapIdentifier(AggregationNames[aggFunction] + "_" + CleanIdentifier(a))
  }

  /** The select set after grouping: the group column and one aggregate. */
  function GroupedSelect(g: string, aggFunction: string, aggColumn: Option<string>): (r: set<string>)
    requires aggFunction in AggregationNames
    ensures g in r && AggregateItem(aggFunction, aggColumn) in r && |r| <= 2
    ensures forall x :: x in r ==> x == g || x == AggregateItem(aggFunction, aggColumn)
  {
    {g, AggregateItem(aggFunction, aggColumn)}
  }

  /** The new `desc_column`. */
  function GroupedDescColumn(aggFunction: string, aggColumn: Option<string>): string
    requires aggFunction in AggregationNames
  {
    match aggColumn
    case None => "count of records"
    case Some(a) => AggregationNames[aggFunction] + " " + CleanIdentifier(a)
  }

  /** The grouped column is never the aggregated one. */
  lemma GroupNotAggregated(columns: ColumnsByType, groupCounts: string -> seq<GroupCount>)
    requires GroupColumn(columns, groupCounts).Some? && FindAggregationColumn(columns).Some?
    ensures GroupColumn(columns, groupCounts).value != FindAggregationColumn(columns).value
  {
  }

  /** The `for group_by_col in group_by_candidates` search for the first
      evenly distributed candidate. */
  method FindGroupColumn(columns: ColumnsByType, groupCounts: string -> seq<GroupCount>) returns (group: Option<string>)
    ensures group == GroupColumn(columns, groupCounts)
  {
    var candidates := GroupByCandidates(columns);
    var i := 0;
    while i < |candidates|
      invariant 0 <= i <= |candidates|
      invariant FirstEven(candidates, groupCounts, 0) == FirstEven(candidates, groupCounts, i)
    {
      if EvenlyDistributed(groupCounts(candidates[i])) {
        return Some(candidates[i]);
      }
      i := i + 1;
    }
    return None;
  }

  /** `add_group_by_clause`, with `groupCounts(col)` the `COUNT(*)` of each
      group of `col` and `aggFunction` the randomly chosen function. */
  method AddGroupByClause(query: string, columns: ColumnsByType, groupCounts: string -> seq<GroupCount>,
                          select: SelectColumns, description: string, descColumn: string, aggFunction: string)
    returns (newQuery: string, newDescription: string, newDescColumn: string)
    requires aggFunction in AggregationNames
    modifies select
    ensures GroupColumn(columns, groupCounts).None? ==>
      newQuery == query && newDescription == description && newDescColumn == descColumn
      && select.items == old(select.items)
    ensures GroupColumn(columns, groupCounts).Some? ==>
      var g := GroupColumn(columns, groupCounts).value;
      var aggColumn := FindAggregationColumn(columns);
      && newQuery == query + " GROUP BY " + g
      && newDescription == description + " by " + CleanIdentifier(g)
      && newDescColumn == GroupedDescColumn(aggFunction, aggColumn)
      && select.items == GroupedSelect(g, aggFunction, aggColumn)
  {
    var group := FindGroupColumn(columns, groupCounts);
    match group {
      case None =>
        return query, description, descColumn;
      case Some(g) =>
        var aggColumn := FindAggregationColumn(columns);
        select.Replace(GroupedSelect(g, aggFunction, aggColumn));
        return query + " GROUP BY " + g, description + " by " + CleanIdentifier(g),
               GroupedDescColumn(aggFunction, aggColumn);
    }
  }

  // ---------------------------------------------------------------------
  // add_join_clause

  /** The table has an entry with at least one related table. */
  predicate Joinable(related: map<string, map<string, seq<(string, string)>>>, table1: string) {
    table1 in related && related[table1] != map[]
  }

  /** The select set of a join: the join column of `table1`, the other
      columns of `table1` and the columns of the related table except its
      join column, each qualified and aliased. */
  function JoinSelect(schema: Schema, table1: string, relatedTable: string, pair: (string, string)): set<string> {
    {Aliased(table1, pair.0)}
    + AliasedSet(table1, ColumnsOf(schema, table1), pair.0)
    + AliasedSet(relatedTable, ColumnsOf(schema, relatedTable), pair.1)
  }

  function JoinOn(table1: string, relatedTable: string, pair: (string, string)): string {
    " JOIN " + WrapIdentifier(relatedTable) + " ON " + Qualified(table1, pair.0) + " = " + Qualified(relatedTable, pair.1)
  }

  function JoinPhrase(table1: string, relatedTable: string, pair: (string, string)): string {
    " joining " + CleanIdentifier(table1) + " and " + CleanIdentifier(relatedTable) + " on " + CleanIdentifier(pair.0)
  }

  /** `add_join_clause`, with `relatedTable` and `pair` the random choices
      among the related tables of `table1` and their common columns. */
  method AddJoinClause(query: string, table1: string, related: map<string, map<string, seq<(string, string)>>>,
                       schema: Schema, select: SelectColumns, description: string, descColumn: string,
                       relatedTable: string, pair: (string, string))
    returns (newQuery: string, newDescription: string, newDescColumn: string)
    requires Joinable(related, table1) ==>
      relatedTable in related[table1] && pair in related[table1][relatedTable]
      && table1 in TableNames(schema) && relatedTable in TableNames(schema)
    modifies select
    ensures newDescColumn == descColumn
    ensures !Joinable(related, table1) ==>
      newQuery == query && newDescription == description && select.items == old(select.items)
    ensures Joinable(related, table1) ==>
      && newQuery == query + JoinOn(table1, relatedTable, pair)
      && newDescription == description + JoinPhrase(table1, relatedTable, pair)
      && select.items == JoinSelect(schema, table1, relatedTable, pair)
  {
    if Joinable(related, table1) {
      select.Replace(JoinSelect(schema, table1, relatedTable, pair));
      return query + JoinOn(table1, relatedTable, pair), description + JoinPhrase(table1, relatedTable, pair), descColumn;
    }
    return query, description, descColumn;
  }

  /** The position of the first backtick (the length when there is none). */
  function FirstTick(s: string): (k: nat)
    ensures k <= |s|
  {
    if s == [] || s[0] == '`' then 0 else 1 + FirstTick(s[1..])
  }

  lemma {:induction false} FirstTickOf(x: string, a: string)
    requires '`' !in x
    ensures FirstTick(x + "`" + a) == |x|
  {
    if x != [] {
      assert (x + "`" + a)[1..] == x[1..] + "`" + a;
      FirstTickOf(x[1..], a);
    }
  }

  /** A name, split at its first backtick, determines both halves. */
  lemma SplitAtBacktick(x: string, y: string, a: string, b: string)
    requires '`' !in x && '`' !in y
    requires x + "`" + a == y + "`" + b
    ensures x == y && a == b
  {
    FirstTickOf(x, a);
    FirstTickOf(y, b);
    var s := x + "`" + a;
    assert x == s[..|x|] && a == s[|x| + 1..];
  }

  /** What follows the column in an aliased item. */
  function AliasTail(t: string, c: string): string {
    " AS " + WrapIdentifier(CleanIdentifier(t) + "_" + CleanIdentifier(c))
  }

  lemma AliasedForm(t: string, c: string)
    ensures Aliased(t, c) == "`" + (t + "`" + (".`" + (c + "`" + AliasTail(t, c))))
  {
  }

  /** Aliasing is injective on backtick-free names. */
  lemma AliasedInjective(t: string, c: string, t2: string, c2: string)
    requires '`' !in t && '`' !in c && '`' !in t2 && '`' !in c2
    requires Aliased(t, c) == Aliased(t2, c2)
    ensures t == t2 && c == c2
  {
    AliasedForm(t, c);
    AliasedForm(t2, c2);
    var u := ".`" + (c + "`" + AliasTail(t, c));
    var u2 := ".`" + (c2 + "`" + AliasTail(t2, c2));
    assert t + "`" + u == Aliased(t, c)[1..];
    assert t2 + "`" + u2 == Aliased(t2, c2)[1..];
    SplitAtBacktick(t, t2, u, u2);
    assert c + "`" + AliasTail(t, c) == u[2..];
    assert c2 + "`" + AliasTail(t2, c2) == u2[2..];
    SplitAtBacktick(c, c2, AliasTail(t, c), AliasTail(t2, c2));
  }

  /** Aliased columns of `t` other than `excluded`. */
  function AliasedSet(t: string, cols: seq<string>, excluded: string): set<string> {
    set c | c in cols && c != excluded :: Aliased(t, c)
  }

  lemma AliasedSetMember(t: string, cols: seq<string>, excluded: string, t2: string, c: string)
    requires '`' !in t && '`' !in t2 && '`' !in c
    requires forall x :: x in cols ==> '`' !in x
    ensures Aliased(t2, c) in AliasedSet(t, cols, excluded) <==> t2 == t && c in cols && c != excluded
  {
    if Aliased(t2, c) in AliasedSet(t, cols, excluded) {
      var c3 :| c3 in cols && c3 != excluded && Aliased(t, c3) == Aliased(t2, c);
      AliasedInjective(t, c3, t2, c);
    }
  }

  /** With backtick-free names and two different tables, the join's select
      set holds exactly `table1`'s columns with its join column, and the
      related table's columns without its join column. */
  lemma JoinSelectMembers(schema: Schema, table1: string, relatedTable: string, pair: (string, string), c: string)
    requires table1 != relatedTable && '`' !in table1 && '`' !in relatedTable && '`' !in pair.0 && '`' !in c
    requires forall x :: x in ColumnsOf(schema, table1) ==> '`' !in x
    requires forall x :: x in ColumnsOf(schema, relatedTable) ==> '`' !in x
    ensures Aliased(table1, c) in JoinSelect(schema, table1, relatedTable, pair) <==> c == pair.0 || c in ColumnsOf(schema, table1)
    ensures Aliased(relatedTable, c) in JoinSelect(schema, table1, relatedTable, pair) <==> c in ColumnsOf(schema, relatedTable) && c != pair.1
  {
    AliasedSetMember(table1, ColumnsOf(schema, table1), pair.0, table1, c);
    AliasedSetMember(relatedTable, ColumnsOf(schema, relatedTable), pair.1, table1, c);
    AliasedSetMember(table1, ColumnsOf(schema, table1), pair.0, relatedTable, c);
    AliasedSetMember(relatedTable, ColumnsOf(schema, relatedTable), pair.1, relatedTable, c);
    if Aliased(relatedTable, c) == Aliased(table1, pair.0) {
      AliasedInjective(relatedTable, c, table1, pair.0);
    }
    if Aliased(table1, c) == Aliased(table1, pair.0) {
      AliasedInjective(table1, c, table1, pair.0);
    }
  }

  // ---------------------------------------------------------------------
  // add_order_by_clause

  /** The words the description uses for each direction. */
  const DirectionWords: map<string, string> := map["ASC" := "chronological", "DESC" := "reverse chronological"]

  /** The ORDER BY target: the picked column, qualified by the table when
      the query already joins. */
  function SortTarget(query: string, tableName: string, pick: string): (r: string)
    ensures Contains(query, "JOIN") ==> EndsWith(r, pick) && IsPrefix(WrapIdentifier(tableName) + ".", r)
    ensures !Contains(query, "JOIN") ==> r == pick
  {
    if Contains(query, "JOIN") then WrapIdentifier(tableName) + "." + pick else pick
  }

  /** `add_order_by_clause`, with `pick` the randomly chosen column (from
      the select set once the query is grouped, otherwise from all the
      columns) and `direction` the chosen direction. */
  method AddOrderByClause(query: string, tableName: string, columns: ColumnsByType, select: SelectColumns,
                          description: string, pick: string, direction: string)
    returns (newQuery: string, newDescription: string)
    requires direction in DirectionWords
    requires Contains(query, "GROUP BY") ==> pick in select.items
    requires !Contains(query, "GROUP BY") ==> pick in columns.numeric + columns.categorical
    modifies select
    ensures var col := SortTarget(query, tableName, pick);
      && newQuery == query + " ORDER BY " + col + " " + direction
      && newDescription == description + " sorted by " + CleanIdentifier(col) + " in " + DirectionWords[direction] + " order"
      && select.items == if Contains(query, "GROUP BY") then old(select.items) else old(select.items) + {col}
    ensures !Contains(query, "GROUP BY") || !Contains(query, "JOIN") ==> SortTarget(query, tableName, pick) in select.items
  {
    var col := SortTarget(query, tableName, pick);
    if !Contains(query, "GROUP BY") {
      select.Add(col);
    }
    newQuery := query + " ORDER BY " + col + " " + direction;
    newDescription := description + " sorted by " + CleanIdentifier(col) + " in " + DirectionWords[direction] + " order";
  }
}
