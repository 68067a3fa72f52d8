/** `generate_sql_query` (query_interpreter.py): renders the detected
    intent as one MySQL statement, or one of two error messages. The
    select list is a Python set, so its order is left open: the result is
    determined up to the order in which the set's items are listed. */
module SqlRenderer {
  import opened Text
  import opened Options
  import opened Discovery
  import opened Schemas
  import opened Identifiers
  import opened SchemaMatcher
  import opened WhereConditions

  const NoTableError: string := "Error: Could not identify any table in the query."
  const NoJoinError: string := "Error: Could not find a valid join condition."

  /** The arguments of `generate_sql_query` that it reads. */
  datatype Request = Request(
    mapped: Mapped,
    limit: Option<nat>,
    offset: nat,
    sortOrder: Option<string>,
    join: bool,
    related: map<(string, string), seq<string>>,
    conditions: seq<Condition>,
    groupBy: Option<string>,
    aggregation: Option<(string, string)>,
    schema: Schema,
    sortColumn: Option<string>)

  /** What the source needs of its arguments to run without an exception:
      the mapped tables are schema tables (`schema[table]` raises
      otherwise) and every related pair has some join column
      (`common_columns[0]` raises otherwise). */
  predicate Admissible(r: Request) {
    && (forall t :: t in r.mapped.tables ==> t in TableNames(r.schema))
    && (forall p :: p in r.related ==> r.related[p] != [])
  }

  /** Python truthiness of an optional string. */
  predicate IsTruthy(o: Option<string>) {
    o.Some? && o.value != ""
  }

  // ---------------------------------------------------------------------
  // Expression-level pieces

  /** The matched columns of a table, or none when it has no entry. */
  function MappedColumns(m: Mapped, t: string): seq<string> {
    if t in m.columns then m.columns[t] else []
  }

  /** The matched columns of a table, or all its schema columns when it has
      no entry. */
  function MappedOrSchema(m: Mapped, schema: Schema, t: string): seq<string> {
    if t in m.columns then m.columns[t] else ColumnsOf(schema, t)
  }

  /** The position of the first of `cs` containing "id". */
  function FirstWithId(cs: seq<string>, i: nat): (r: Option<nat>)
    decreases |cs| - i
    ensures r.Some? ==> i <= r.value < |cs| && Contains(cs[r.value], "id")
    ensures r.Some? ==> forall j :: i <= j < r.value ==> !Contains(cs[j], "id")
    ensures r.None? ==> forall j :: i <= j < |cs| ==> !Contains(cs[j], "id")
  {
    if i >= |cs| then None
    else if Contains(cs[i], "id") then Some(i)
    else FirstWithId(cs, i + 1)
  }

  /** The first column whose name contains "id", or the first column when
      none does. */
  function JoinColumn(cs: seq<string>): (c: string)
    requires cs != []
    ensures c in cs
    ensures (exists k :: 0 <= k < |cs| && Contains(cs[k], "id")) <==> Contains(c, "id")
  {
    match FirstWithId(cs, 0)
    case Some(k) => cs[k]
    case None => cs[0]
  }

  function AliasedColumns(t: string, cols: seq<string>, common: string): set<string> {
    set c | c in cols && c != common :: Aliased(t, c)
  }

  function AggregateAlias(f: string, c: string): string {
    Lower(f) + "_" + CleanIdentifier(c)
  }

  function AggregateExpr(f: string, c: string): string {
    f + "(" + WrapIdentifier(c) + ") AS " + AggregateAlias(f, c)
  }

  /** The first of `tables` that has `column`, qualifying it; the column
      itself when none has. */
  function QualifyColumn(tables: seq<string>, schema: Schema, column: string): (r: string)
    ensures (forall k :: 0 <= k < |tables| ==> column !in ColumnsOf(schema, tables[k])) ==> r == column
  {
    if tables == [] then column
    else if column in ColumnsOf(schema, tables[0]) then Qualified(tables[0], column)
    else QualifyColumn(tables[1..], schema, column)
  }

  /** The text of a condition's value. */
  function RenderValue(v: CondValue): string {
    match v
    case NoneValue => "None"
    case IntValue(n) => NatToString(n)
    case StrValue(s) => s
  }

  function WhereColumn(r: Request, column: string): string {
    if r.join then QualifyColumn(r.mapped.tables, r.schema, column) else WrapIdentifier(column)
  }

  function WherePart(r: Request, c: Condition): string {
    WhereColumn(r, c.column) + " " + c.op + " " + RenderValue(c.value)
  }

  /** The LIMIT/OFFSET clause: a zero or absent limit and a zero offset
      are left out. */
  function LimitClause(limit: Option<nat>, offset: nat): string {
    var l := if limit.Some? && limit.value != 0 then "LIMIT " + NatToString(limit.value) else "";
    if offset == 0 then l
    else if l != "" then l + " OFFSET " + NatToString(offset)
    else "OFFSET " + NatToString(offset)
  }

  /** The final query text before whitespace normalisation. */
  function Template(select: string, table: string, join: string, where: string,
                    group: string, order: string, limit: string): string {
    "\n    " + select + TemplateTail(table, join, where, group, order, limit)
  }

  /** The template after the select clause. */
  function TemplateTail(table: string, join: string, where: string,
                        group: string, order: string, limit: string): string {
    "\n    FROM " + WrapIdentifier(table) + "\n    " + join + "\n    " + where
    + "\n    " + group + "\n    " + order + "\n    " + limit + "\n    "
  }

  /** The query trimmed, with every run of whitespace made one space. */
  function Normalize(q: string): string {
    Strip(CollapseSpace(Strip(q)))
  }

  // ---------------------------------------------------------------------
  // The request's clauses, stage by stage

  predicate Joins(r: Request) {
    r.join && |r.mapped.tables| > 1
  }

  predicate JoinFails(r: Request) {
    Joins(r) && (r.mapped.tables[0], r.mapped.tables[1]) !in r.related
  }

  predicate Fails(r: Request) {
    r.mapped.tables == [] || JoinFails(r)
  }

  function CommonColumn(r: Request): string
    requires Admissible(r) && Joins(r) && !JoinFails(r)
  {
    JoinColumn(r.related[(r.mapped.tables[0], r.mapped.tables[1])])
  }

  function JoinClause(r: Request): string
    requires Admissible(r) && !Fails(r)
  {
    if Joins(r) then
      var t := r.mapped.tables[0];
      var jt := r.mapped.tables[1];
      var c := CommonColumn(r);
      "JOIN " + WrapIdentifier(jt) + " ON " + Qualified(t, c) + " = " + Qualified(jt, c)
    else ""
  }

  function SelectAfterJoin(r: Request): set<string>
    requires Admissible(r) && !Fails(r)
  {
    var t := r.mapped.tables[0];
    if Joins(r) then
      var jt := r.mapped.tables[1];
      AliasedColumns(t, MappedOrSchema(r.mapped, r.schema, t), CommonColumn(r))
      + AliasedColumns(jt, MappedOrSchema(r.mapped, r.schema, jt), CommonColumn(r))
    else set c | c in MappedColumns(r.mapped, t)
  }

  function SortAfterJoin(r: Request): Option<string>
    requires Admissible(r) && !Fails(r)
  {
    if Joins(r) && IsTruthy(r.sortColumn) then
      var t := r.mapped.tables[0];
      var jt := r.mapped.tables[1];
      var s := r.sortColumn.value;
      if s in ColumnsOf(r.schema, t) then Some(Qualified(t, s))
      else if s in ColumnsOf(r.schema, jt) then Some(Qualified(jt, s))
      else r.sortColumn
    else r.sortColumn
  }

  /** An aggregation with a non-empty column takes effect. */
  predicate Aggregates(r: Request) {
    r.aggregation.Some? && r.aggregation.value.1 != ""
  }

  function SelectAfterAggregation(r: Request): set<string>
    requires Admissible(r) && !Fails(r)
  {
    if Aggregates(r) then
      var (f, c) := r.aggregation.value;
      if IsTruthy(r.groupBy) then {WrapIdentifier(r.groupBy.value), AggregateExpr(f, c)}
      else {AggregateExpr(f, c)}
    else SelectAfterJoin(r)
  }

  /** The items of the SELECT list. */
  function SelectItems(r: Request): set<string>
    requires Admissible(r) && !Fails(r)
  {
    if SelectAfterAggregation(r) == {} then {"*"} else SelectAfterAggregation(r)
  }

  function GroupByClause(r: Request): string {
    if Aggregates(r) && IsTruthy(r.groupBy) then "GROUP BY " + WrapIdentifier(r.groupBy.value) else ""
  }

  function FinalSort(r: Request): Option<string>
    requires Admissible(r) && !Fails(r)
  {
    if Aggregates(r) && SortAfterJoin(r) == Some(r.aggregation.value.1) then
      Some(AggregateAlias(r.aggregation.value.0, r.aggregation.value.1))
    else SortAfterJoin(r)
  }

  function OrderByClause(r: Request): string
    requires Admissible(r) && !Fails(r)
  {
    var s := FinalSort(r);
    if IsTruthy(s) && IsTruthy(r.sortOrder) then
      "ORDER BY " + (if r.join then s.value else WrapIdentifier(s.value)) + " " + r.sortOrder.value
    else ""
  }

  function WhereParts(r: Request): (ps: seq<string>)
    ensures |ps| == |r.conditions|
  {
    seq(|r.conditions|, i requires 0 <= i < |r.conditions| => WherePart(r, r.conditions[i]))
  }

  function WhereClause(r: Request): string {
    if r.conditions == [] then "" else "WHERE " + Join(" AND ", WhereParts(r))
  }

  /** The statement from its select items and clauses. */
  function Assemble(items: seq<string>, table: string, join: string, where: string,
                    group: string, order: string, limit: string): string {
    Normalize(Template("SELECT " + Join(", ", items), table, join, where, group, order, limit))
  }

  /** The statement, with the select items listed in the order `items`. */
  function Render(r: Request, items: seq<string>): string
    requires Admissible(r) && !Fails(r)
  {
    Assemble(items, r.mapped.tables[0], JoinClause(r), WhereClause(r),
             GroupByClause(r), OrderByClause(r), LimitClause(r.limit, r.offset))
  }

  /** `items` lists the set `s`, each element once. */
  ghost predicate Lists(items: seq<string>, s: set<string>) {
    Distinct(items) && forall x :: x in items <==> x in s
  }

  // ---------------------------------------------------------------------
  // The generator

  /** The loop building `where_clause` from non-empty conditions. */
  method RenderConditions(r: Request) returns (clause: string)
    requires r.conditions != []
    ensures clause == WhereClause(r)
  {
    var whereClauses: seq<string> := [];
    for i := 0 to |r.conditions|
      invariant whereClauses == WhereParts(r)[..i]
    {
      var Condition(column, operator, value) := r.conditions[i];
      var rendered := if r.join then QualifyColumn(r.mapped.tables, r.schema, column) else WrapIdentifier(column);
      whereClauses := whereClauses + [rendered + " " + operator + " " + RenderValue(value)];
    }
    assert WhereParts(r)[..|r.conditions|] == WhereParts(r);
    clause := "WHERE " + Join(" AND ", whereClauses);
  }

  /** The JOIN branch: picks the join column, replaces the select list by
      the aliased columns of both tables and qualifies the sort column;
      fails when the first two tables are not related. */
  method JoinStage(r: Request) returns (failed: bool, joinClause: string, selectColumns: set<string>,
                                        sortColumn: Option<string>)
    requires Admissible(r) && r.mapped.tables != []
    ensures failed == JoinFails(r)
    ensures !failed ==> joinClause == JoinClause(r) && selectColumns == SelectAfterJoin(r)
                        && sortColumn == SortAfterJoin(r)
  {
    var table := r.mapped.tables[0];
    selectColumns := set c | c in MappedColumns(r.mapped, table);
    joinClause := "";
    sortColumn := r.sortColumn;
    failed := false;
    if r.join && |r.mapped.tables| > 1 {
      var joinTable := r.mapped.tables[1];
      if (table, joinTable) in r.related {
        var common := JoinColumn(r.related[(table, joinTable)]);
        joinClause := "JOIN " + WrapIdentifier(joinTable) + " ON " + Qualified(table, common)
                      + " = " + Qualified(joinTable, common);
        selectColumns := {};
        selectColumns := selectColumns + AliasedColumns(table, MappedOrSchema(r.mapped, r.schema, table), common);
        selectColumns := selectColumns + AliasedColumns(joinTable, MappedOrSchema(r.mapped, r.schema, joinTable), common);
        if IsTruthy(sortColumn) {
          if sortColumn.value in ColumnsOf(r.schema, table) {
            sortColumn := Some(Qualified(table, sortColumn.value));
          } else if sortColumn.value in ColumnsOf(r.schema, joinTable) {
            sortColumn := Some(Qualified(joinTable, sortColumn.value));
          }
        }
      } else {
        failed := true;
      }
    }
  }

  /** The aggregation branch: an aggregate over a named column replaces
      the select list (with the grouping column, when there is one) and
      renames a sort on that column to the aggregate's alias. */
  method AggregationStage(r: Request, selectIn: set<string>, sortIn: Option<string>)
    returns (selectColumns: set<string>, groupByClause: string, sortColumn: Option<string>)
    requires Admissible(r) && !Fails(r)
    requires selectIn == SelectAfterJoin(r) && sortIn == SortAfterJoin(r)
    ensures selectColumns == SelectAfterAggregation(r)
    ensures groupByClause == GroupByClause(r)
    ensures sortColumn == FinalSort(r)
  {
    selectColumns, groupByClause, sortColumn := selectIn, "", sortIn;
    if r.aggregation.Some? {
      var (aggFunc, aggColumn) := r.aggregation.value;
      if aggColumn != "" {
        var aggExpr := AggregateExpr(aggFunc, aggColumn);
        if IsTruthy(r.groupBy) {
          var groupByColumn := WrapIdentifier(r.groupBy.value);
          selectColumns := {groupByColumn, aggExpr};
          groupByClause := "GROUP BY " + groupByColumn;
        } else {
          selectColumns := {aggExpr};
        }
        if sortColumn == Some(aggColumn) {
          sortColumn := Some(AggregateAlias(aggFunc, aggColumn));
        }
      }
    }
  }

  method OrderByStage(r: Request, sortColumn: Option<string>) returns (orderByClause: string)
    requires Admissible(r) && !Fails(r) && sortColumn == FinalSort(r)
    ensures orderByClause == OrderByClause(r)
  {
    orderByClause := "";
    if IsTruthy(sortColumn) && IsTruthy(r.sortOrder) {
      var orderColumn := if !r.join then WrapIdentifier(sortColumn.value) else sortColumn.value;
      orderByClause := "ORDER BY " + orderColumn + " " + r.sortOrder.value;
    }
  }

  method LimitStage(limit: Option<nat>, offset: nat) returns (limitClause: string)
    ensures limitClause == LimitClause(limit, offset)
  {
    limitClause := "";
    if limit.Some? && limit.value != 0 {
      limitClause := "LIMIT " + NatToString(limit.value);
    }
    if offset != 0 {
      limitClause := if limitClause != "" then limitClause + " OFFSET " + NatToString(offset)
                     else "OFFSET " + NatToString(offset);
    }
  }

  method GenerateSqlQuery(r: Request) returns (query: string)
    requires Admissible(r)
    ensures r.mapped.tables == [] ==> query == NoTableError
    ensures r.mapped.tables != [] && JoinFails(r) ==> query == NoJoinError
    ensures !Fails(r) ==> exists items :: Lists(items, SelectItems(r)) && query == Render(r, items)
    ensures !Fails(r) ==> IsPrefix("SELECT", query) && SingleSpaced(query)
  {
    if r.mapped.tables == [] {
      return NoTableError;
    }
    var failed, joinClause, selectColumns, sortColumn := JoinStage(r);
    if failed {
      return NoJoinError;
    }
    query := Finish(r, joinClause, selectColumns, sortColumn);
  }

  /** The WHERE step: empty without conditions. */
  method WhereStage(r: Request) returns (whereClause: string)
    ensures whereClause == WhereClause(r)
  {
    whereClause := "";
    if r.conditions != [] {
      whereClause := RenderConditions(r);
    }
  }

  /** The SELECT step: `*` when nothing is selected, listed in some order. */
  method SelectStage(r: Request, selectColumns: set<string>) returns (items: seq<string>)
    requires Admissible(r) && !Fails(r) && selectColumns == SelectAfterAggregation(r)
    ensures Lists(items, SelectItems(r))
  {
    var chosen := selectColumns;
    if chosen == {} {
      chosen := {"*"};
    }
    items := Enumerate(chosen);
  }

  /** The part of `generate_sql_query` after a successful join step. */
  method Finish(r: Request, joinClause: string, selectIn: set<string>, sortIn: Option<string>) returns (query: string)
    requires Admissible(r) && !Fails(r)
    requires joinClause == JoinClause(r) && selectIn == SelectAfterJoin(r) && sortIn == SortAfterJoin(r)
    ensures exists items :: Lists(items, SelectItems(r)) && query == Render(r, items)
    ensures IsPrefix("SELECT", query) && SingleSpaced(query)
  {
    var selectColumns, groupByClause, sortColumn := AggregationStage(r, selectIn, sortIn);
    var whereClause := WhereStage(r);
    var orderByClause := OrderByStage(r, sortColumn);
    var limitClause := LimitStage(r.limit, r.offset);
    var items := SelectStage(r, selectColumns);
    query := Assemble(items, r.mapped.tables[0], joinClause, whereClause, groupByClause, orderByClause, limitClause);
    assert Lists(items, SelectItems(r)) && query == Render(r, items);
    RenderShape(r, items);
  }


  // ---------------------------------------------------------------------
  // Properties

  /** Whatever the order of the select list, a generated statement starts
      with SELECT and is single-spaced, with nothing around it. */
  lemma RenderShape(r: Request, items: seq<string>)
    requires Admissible(r) && !Fails(r)
    ensures IsPrefix("SELECT", Render(r, items)) && SingleSpaced(Render(r, items))
  {
    TemplateShape(Join(", ", items), r.mapped.tables[0], JoinClause(r), WhereClause(r),
                  GroupByClause(r), OrderByClause(r), LimitClause(r.limit, r.offset));
  }

  lemma TemplateShape(list: string, table: string, join: string, where: string,
                      group: string, order: string, limit: string)
    ensures var q := Normalize(Template("SELECT " + list, table, join, where, group, order, limit));
      IsPrefix("SELECT", q) && SingleSpaced(q)
  {
    var w := "\n    ";
    var tail := TemplateTail(table, join, where, group, order, limit);
    var rest := " " + list + tail;
    var t := Template("SELECT " + list, table, join, where, group, order, limit);
    assert "SELECT " + list == "SELECT" + (" " + list);
    assert t == w + "SELECT" + rest;
    NormalizedStartsWith(w, "SELECT", rest);
    NormalizedIsSingleSpaced(Strip(t));
  }

  /** An effective aggregation replaces the select list by the aggregate,
      preceded by the grouping column when there is one. */
  lemma AggregateSelect(r: Request)
    requires Admissible(r) && !Fails(r) && Aggregates(r)
    ensures var (f, c) := r.aggregation.value;
      SelectItems(r) == if IsTruthy(r.groupBy) then {WrapIdentifier(r.groupBy.value), AggregateExpr(f, c)}
                        else {AggregateExpr(f, c)}
    ensures GroupByClause(r) != "" <==> IsTruthy(r.groupBy)
  {
  }

  /** In a join, every selected column comes from one of the two tables
      under its alias, and the join column itself is not selected. */
  lemma JoinSelect(r: Request, x: string)
    requires Admissible(r) && !Fails(r) && Joins(r) && !Aggregates(r)
    requires x in SelectItems(r) && x != "*"
    ensures exists k, c :: 0 <= k < 2 && c in MappedOrSchema(r.mapped, r.schema, r.mapped.tables[k])
                        && c != CommonColumn(r) && x == Aliased(r.mapped.tables[k], c)
  {
    var t := r.mapped.tables[0];
    var jt := r.mapped.tables[1];
    if x in AliasedColumns(t, MappedOrSchema(r.mapped, r.schema, t), CommonColumn(r)) {
      var c :| c in MappedOrSchema(r.mapped, r.schema, t) && c != CommonColumn(r) && x == Aliased(t, c);
      assert r.mapped.tables[0] == t;
    } else {
      var c :| c in MappedOrSchema(r.mapped, r.schema, jt) && c != CommonColumn(r) && x == Aliased(jt, c);
      assert r.mapped.tables[1] == jt;
    }
  }

  /** The WHERE clause is present exactly when there are conditions, and
      then holds one comparison per condition. */
  lemma WhereClauseShape(r: Request)
    ensures WhereClause(r) == "" <==> r.conditions == []
    ensures r.conditions != [] ==> IsPrefix("WHERE ", WhereClause(r))
  {
  }

  /** LIMIT appears exactly for a non-zero limit and OFFSET exactly for a
      non-zero offset, LIMIT first. */
  lemma LimitClauseCases(limit: Option<nat>, offset: nat)
    ensures LimitClause(limit, offset) == ""
        <==> (limit.None? || limit.value == 0) && offset == 0
    ensures limit.Some? && limit.value != 0 ==>
      IsPrefix("LIMIT " + NatToString(limit.value), LimitClause(limit, offset))
    ensures limit.Some? && limit.value != 0 && offset == 0 ==>
      LimitClause(limit, offset) == "LIMIT " + NatToString(limit.value)
    ensures limit.Some? && limit.value != 0 && offset != 0 ==>
      LimitClause(limit, offset) == "LIMIT " + NatToString(limit.value) + " OFFSET " + NatToString(offset)
    ensures (limit.None? || limit.value == 0) && offset != 0 ==>
      LimitClause(limit, offset) == "OFFSET " + NatToString(offset)
  {
  }
}
