/** `map_tokens_to_schema` (query_interpreter.py): tokens are matched
    against the table names, then the tokens that are not themselves
    matched table names are matched against the columns of each matched
    table. */
module SchemaMatcher {
  import opened Options
  import opened Discovery
  import opened Schemas
  import opened Matching

  /** The `mapped` dictionary (its always-empty "operations" and
      "conditions" entries are omitted). */
  datatype Mapped = Mapped(
    tables: seq<string>,
    allColumns: map<string, seq<string>>,
    columns: map<string, seq<string>>)

  /** The tokens that are not matched table names, in order. */
  function Unclaimed(tokens: seq<string>, tables: seq<string>): seq<string> {
    if tokens == [] then []
    else (if tokens[0] in tables then [] else [tokens[0]]) + Unclaimed(tokens[1..], tables)
  }

  lemma {:induction false} UnclaimedMember(tokens: seq<string>, tables: seq<string>, x: string)
    ensures x in Unclaimed(tokens, tables) <==> x in tokens && x !in tables
  {
    if tokens != [] {
      UnclaimedMember(tokens[1..], tables, x);
      assert tokens == [tokens[0]] + tokens[1..];
    }
  }

  /** The tables discovered from the tokens, in first-discovery order. */
  function MatchedTables(fuzzy: Matcher, tokens: seq<string>, schema: Schema): seq<string> {
    Discover(MatchAll(fuzzy, tokens, TableNames(schema)))
  }

  /** The columns of `table` discovered from the tokens that are not
      matched table names. */
  function MatchedColumns(fuzzy: Matcher, tokens: seq<string>, tables: seq<string>,
                          schema: Schema, table: string): seq<string> {
    Discover(MatchAll(fuzzy, Unclaimed(tokens, tables), ColumnsOf(schema, table)))
  }

  /** The loop both matching passes share: each token's truthy match is
      appended unless it is already listed. */
  method DiscoverMatches(fuzzy: Matcher, tokens: seq<string>, items: seq<string>) returns (found: seq<string>)
    ensures found == Discover(MatchAll(fuzzy, tokens, items))
  {
    var ms := MatchAll(fuzzy, tokens, items);
    found := [];
    for i := 0 to |tokens|
      invariant found == Discover(ms[..i])
    {
      var matched := Truthy(fuzzy(tokens[i], items));
      assert ms[..i + 1][..i] == ms[..i];
      if matched.Some? && matched.value !in found {
        found := found + [matched.value];
      }
    }
    assert ms[..|tokens|] == ms;
  }

  method MapTokensToSchema(tokens: seq<string>, schema: Schema, fuzzy: Matcher) returns (m: Mapped)
    requires IsMatcher(fuzzy)
    ensures m.tables == MatchedTables(fuzzy, tokens, schema)
    ensures m.columns.Keys == m.allColumns.Keys == set t | t in m.tables
    ensures forall t :: t in m.columns ==>
      && m.columns[t] == MatchedColumns(fuzzy, tokens, m.tables, schema, t)
      && m.allColumns[t] == ColumnsOf(schema, t)
  {
    var tables := DiscoverMatches(fuzzy, tokens, TableNames(schema));
    var filtered := Unclaimed(tokens, tables);
    var allColumns: map<string, seq<string>> := map[];
    var columns: map<string, seq<string>> := map[];
    for k := 0 to |tables|
      invariant columns.Keys == allColumns.Keys == set t | t in tables[..k]
      invariant forall t :: t in columns ==>
        && columns[t] == MatchedColumns(fuzzy, tokens, tables, schema, t)
        && allColumns[t] == ColumnsOf(schema, t)
    {
      var table := tables[k];
      var tableColumns := ColumnsOf(schema, table);
      var found := DiscoverMatches(fuzzy, filtered, tableColumns);
      allColumns := allColumns[table := tableColumns];
      columns := columns[table := found];
      assert tables[..k + 1] == tables[..k] + [table];
    }
    assert tables[..|tables|] == tables;
    m := Mapped(tables, allColumns, columns);
  }

  /** Matched tables are schema tables, appear once each, and are exactly
      the tables some token matched. */
  lemma MatchedTablesAreSchemaTables(fuzzy: Matcher, tokens: seq<string>, schema: Schema)
    requires IsMatcher(fuzzy)
    ensures Distinct(MatchedTables(fuzzy, tokens, schema))
    ensures forall t :: t in MatchedTables(fuzzy, tokens, schema) ==> t in TableNames(schema) && t != ""
    ensures forall t :: t in MatchedTables(fuzzy, tokens, schema) <==>
      Some(t) in MatchAll(fuzzy, tokens, TableNames(schema))
  {
    DiscoverDistinct(MatchAll(fuzzy, tokens, TableNames(schema)));
    DiscoverMembers(MatchAll(fuzzy, tokens, TableNames(schema)));
    MatchAllMembers(fuzzy, tokens, TableNames(schema));
  }

  /** Tables are listed in the order of the tokens that first matched them. */
  lemma MatchedTablesInDiscoveryOrder(fuzzy: Matcher, tokens: seq<string>, schema: Schema, i: nat, j: nat)
    requires i < j < |MatchedTables(fuzzy, tokens, schema)|
    ensures
      var ms := MatchAll(fuzzy, tokens, TableNames(schema));
      var ts := MatchedTables(fuzzy, tokens, schema);
      Some(ts[i]) in ms && Some(ts[j]) in ms && FirstMatch(ms, ts[i]) < FirstMatch(ms, ts[j])
  {
    DiscoverOrder(MatchAll(fuzzy, tokens, TableNames(schema)), i, j);
  }

  /** A table's matched columns are its own columns, appear once each, and
      are exactly the columns matched by tokens that are not matched table
      names: a token naming a matched table is never used for columns. */
  lemma MatchedColumnsOfTable(fuzzy: Matcher, tokens: seq<string>, tables: seq<string>,
                              schema: Schema, table: string, c: string)
    requires IsMatcher(fuzzy)
    ensures Distinct(MatchedColumns(fuzzy, tokens, tables, schema, table))
    ensures c in MatchedColumns(fuzzy, tokens, tables, schema, table) ==> c in ColumnsOf(schema, table)
    ensures c in MatchedColumns(fuzzy, tokens, tables, schema, table) <==>
      exists k :: 0 <= k < |tokens| && tokens[k] !in tables
               && Truthy(fuzzy(tokens[k], ColumnsOf(schema, table))) == Some(c)
  {
    var u := Unclaimed(tokens, tables);
    var cols := ColumnsOf(schema, table);
    var ms := MatchAll(fuzzy, u, cols);
    DiscoverDistinct(ms);
    DiscoverMember(ms, c);
    MatchAllMembers(fuzzy, u, cols);
    if Some(c) in ms {
      var k' :| 0 <= k' < |u| && ms[k'] == Some(c);
      UnclaimedMember(tokens, tables, u[k']);
      var k :| 0 <= k < |tokens| && tokens[k] == u[k'];
      assert tokens[k] !in tables && Truthy(fuzzy(tokens[k], cols)) == Some(c);
    }
    if exists k :: 0 <= k < |tokens| && tokens[k] !in tables && Truthy(fuzzy(tokens[k], cols)) == Some(c) {
      var k :| 0 <= k < |tokens| && tokens[k] !in tables && Truthy(fuzzy(tokens[k], cols)) == Some(c);
      UnclaimedMember(tokens, tables, tokens[k]);
      var k' :| 0 <= k' < |u| && u[k'] == tokens[k];
      assert ms[k'] == Some(c);
    }
  }
}
