/** The loader's pure steps inside an otherwise I/O-bound CSV import
    (mysql_functions.py): foreign-key inference from the primary keys,
    the column definitions of `CREATE TABLE`, SQL literal rendering, the
    batch-insert buffer and the independent/dependent upload order. CSV
    reading, type inference and every statement execution are left to the
    caller: the tables arrive as (name, column names) pairs. */
module Loader {
  import opened Text
  import opened Options
  import opened Discovery
  import opened KeyInference

  // ---------------------------------------------------------------------
  // find_foreign_keys

  /** For each table, its foreign-key entries: a column and the table whose
      key it names. */
  type ForeignKeys = map<string, seq<(string, string)>>

  /** Appends an entry to the table's list, creating the list when the
      table has none yet. */
  function Append(fks: ForeignKeys, table: string, entry: (string, string)): ForeignKeys {
    fks[table := (if table in fks then fks[table] else []) + [entry]]
  }

  /** The innermost loop, over `primary_keys.items()`, for one column. */
  function AddRefs(fks: ForeignKeys, table: string, column: string, pks: seq<(string, string)>): ForeignKeys {
    if pks == [] then fks
    else
      var prev := AddRefs(fks, table, column, pks[..|pks| - 1]);
      var (referenced, key) := pks[|pks| - 1];
      if column == key && referenced != table then Append(prev, table, (column, referenced)) else prev
  }

  /** The middle loop, over the columns of one table. */
  function AddColumns(fks: ForeignKeys, table: string, columns: seq<string>, pks: seq<(string, string)>): ForeignKeys {
    if columns == [] then fks
    else AddRefs(AddColumns(fks, table, columns[..|columns| - 1], pks), table, columns[|columns| - 1], pks)
  }

  /** The outer loop, over the tables. */
  function ForeignKeyMap(tables: Layout, pks: seq<(string, string)>): ForeignKeys {
    if tables == [] then map[]
    else
      var last := tables[|tables| - 1];
      AddColumns(ForeignKeyMap(tables[..|tables| - 1], pks), last.0, last.1, pks)
  }

  method AddRefsLoop(fks: ForeignKeys, table: string, column: string, pks: seq<(string, string)>)
    returns (r: ForeignKeys)
    ensures r == AddRefs(fks, table, column, pks)
  {
    r := fks;
    for k := 0 to |pks|
      invariant r == AddRefs(fks, table, column, pks[..k])
    {
      assert pks[..k + 1][..k] == pks[..k];
      var (referenced, key) := pks[k];
      if column == key && referenced != table {
        r := r[table := (if table in r then r[table] else []) + [(column, referenced)]];
      }
    }
    assert pks[..|pks|] == pks;
  }

  /** `find_foreign_keys`: detect every table's primary key (from the
      singular file name), then list, for each table, its columns that are
      another table's primary key. */
  method FindForeignKeys(lemmatize: string -> string, tables: Layout) returns (fks: ForeignKeys)
    ensures fks == ForeignKeyMap(tables, PrimaryKeyEntries(lemmatize, true, tables))
  {
    var pks := DetectPrimaryKeys(lemmatize, true, tables);
    fks := map[];
    for i := 0 to |tables|
      invariant fks == ForeignKeyMap(tables[..i], pks)
    {
      assert tables[..i + 1][..i] == tables[..i];
      var (table, columns) := tables[i];
      ghost var start := fks;
      for j := 0 to |columns|
        invariant fks == AddColumns(start, table, columns[..j], pks)
      {
        assert columns[..j + 1][..j] == columns[..j];
        fks := AddRefsLoop(fks, table, columns[j], pks);
      }
      assert columns[..|columns|] == columns;
    }
    assert tables[..|tables|] == tables;
  }

  /** `table` has `column` in the layout. */
  predicate HasColumn(tables: Layout, table: string, column: string) {
    exists i :: 0 <= i < |tables| && tables[i].0 == table && column in tables[i].1
  }

  /** Every listed entry is non-empty and each reference names a column of
      its table that is the key of another table. */
  predicate SoundKeys(fks: ForeignKeys, tables: Layout, pks: seq<(string, string)>) {
    forall t :: t in fks ==>
      fks[t] != [] && forall r :: r in fks[t] ==> r.1 != t && (r.1, r.0) in pks && HasColumn(tables, t, r.0)
  }

  lemma {:induction false} AddRefsSound(fks: ForeignKeys, table: string, column: string, refs: seq<(string, string)>,
                                        tables: Layout, pks: seq<(string, string)>)
    requires SoundKeys(fks, tables, pks) && HasColumn(tables, table, column)
    requires forall e :: e in refs ==> e in pks
    ensures SoundKeys(AddRefs(fks, table, column, refs), tables, pks)
  {
    if refs != [] {
      var init := refs[..|refs| - 1];
      assert forall e :: e in init ==> e in refs;
      AddRefsSound(fks, table, column, init, tables, pks);
      assert refs[|refs| - 1] in refs;
    }
  }

  lemma {:induction false} AddColumnsSound(fks: ForeignKeys, table: string, columns: seq<string>,
                                           tables: Layout, pks: seq<(string, string)>)
    requires SoundKeys(fks, tables, pks)
    requires forall c :: c in columns ==> HasColumn(tables, table, c)
    ensures SoundKeys(AddColumns(fks, table, columns, pks), tables, pks)
  {
    if columns != [] {
      var init := columns[..|columns| - 1];
      assert forall c :: c in init ==> c in columns;
      AddColumnsSound(fks, table, init, tables, pks);
      assert columns[|columns| - 1] in columns;
      AddRefsSound(AddColumns(fks, table, init, pks), table, columns[|columns| - 1], pks, tables, pks);
    }
  }

  lemma {:induction false} ForeignKeyMapSound(prefix: Layout, tables: Layout, pks: seq<(string, string)>)
    requires forall i :: 0 <= i < |prefix| ==> prefix[i] in tables
    ensures SoundKeys(ForeignKeyMap(prefix, pks), tables, pks)
  {
    if prefix != [] {
      var init := prefix[..|prefix| - 1];
      var last := prefix[|prefix| - 1];
      ForeignKeyMapSound(init, tables, pks);
      assert last in tables;
      var k :| 0 <= k < |tables| && tables[k] == last;
      AddColumnsSound(ForeignKeyMap(init, pks), last.0, last.1, tables, pks);
    }
  }

  lemma {:induction false} AddRefsMonotone(fks: ForeignKeys, table: string, column: string, refs: seq<(string, string)>,
                                           t: string, r: (string, string))
    requires t in fks && r in fks[t]
    ensures var m := AddRefs(fks, table, column, refs); t in m && r in m[t]
  {
    if refs != [] {
      AddRefsMonotone(fks, table, column, refs[..|refs| - 1], t, r);
    }
  }

  lemma {:induction false} AddRefsAdds(fks: ForeignKeys, table: string, column: string, refs: seq<(string, string)>,
                                       referenced: string)
    requires (referenced, column) in refs && referenced != table
    ensures var m := AddRefs(fks, table, column, refs); table in m && (column, referenced) in m[table]
  {
    var init := refs[..|refs| - 1];
    if refs[|refs| - 1] == (referenced, column) {
    } else {
      assert refs == init + [refs[|refs| - 1]];
      AddRefsAdds(fks, table, column, init, referenced);
      var prev := AddRefs(fks, table, column, init);
      var (rt, key) := refs[|refs| - 1];
      if column == key && rt != table {
        AddRefsMonotone(prev, table, column, [refs[|refs| - 1]], table, (column, referenced));
        assert AddRefs(prev, table, column, [refs[|refs| - 1]]) == Append(prev, table, (column, rt)) by {
          assert [refs[|refs| - 1]][..0] == [];
        }
      }
    }
  }

  lemma {:induction false} AddColumnsMonotone(fks: ForeignKeys, table: string, columns: seq<string>, pks: seq<(string, string)>,
                                              t: string, r: (string, string))
    requires t in fks && r in fks[t]
    ensures var m := AddColumns(fks, table, columns, pks); t in m && r in m[t]
  {
    if columns != [] {
      AddColumnsMonotone(fks, table, columns[..|columns| - 1], pks, t, r);
      AddRefsMonotone(AddColumns(fks, table, columns[..|columns| - 1], pks), table, columns[|columns| - 1], pks, t, r);
    }
  }

  lemma {:induction false} AddColumnsAdds(fks: ForeignKeys, table: string, columns: seq<string>, pks: seq<(string, string)>,
                                          column: string, referenced: string)
    requires column in columns && (referenced, column) in pks && referenced != table
    ensures var m := AddColumns(fks, table, columns, pks); table in m && (column, referenced) in m[table]
  {
    var init := columns[..|columns| - 1];
    var prev := AddColumns(fks, table, init, pks);
    if columns[|columns| - 1] == column {
      AddRefsAdds(prev, table, column, pks, referenced);
    } else {
      assert columns == init + [columns[|columns| - 1]];
      AddColumnsAdds(fks, table, init, pks, column, referenced);
      AddRefsMonotone(prev, table, columns[|columns| - 1], pks, table, (column, referenced));
    }
  }

  lemma {:induction false} ForeignKeyMapComplete(tables: Layout, pks: seq<(string, string)>, i: nat, column: string, referenced: string)
    requires i < |tables| && column in tables[i].1 && (referenced, column) in pks && referenced != tables[i].0
    ensures var m := ForeignKeyMap(tables, pks); tables[i].0 in m && (column, referenced) in m[tables[i].0]
  {
    var n := |tables| - 1;
    var init := tables[..n];
    if i == n {
      AddColumnsAdds(ForeignKeyMap(init, pks), tables[n].0, tables[n].1, pks, column, referenced);
    } else {
      assert init[i] == tables[i];
      ForeignKeyMapComplete(init, pks, i, column, referenced);
      AddColumnsMonotone(ForeignKeyMap(init, pks), tables[n].0, tables[n].1, pks, tables[i].0, (column, referenced));
    }
  }

  /** `find_foreign_keys` in full: an entry `(column, referenced)` is
      listed under `t` exactly when `t` has that column, `referenced` is
      another table, and the column is the key inferred for
      `referenced`; tables with no such column are absent. */
  lemma ForeignKeysMeaning(lemmatize: string -> string, tables: Layout, t: string, r: (string, string))
    ensures var m := ForeignKeyMap(tables, PrimaryKeyEntries(lemmatize, true, tables));
      t in m && r in m[t] <==>
        HasColumn(tables, t, r.0) && r.1 != t && (r.1, r.0) in PrimaryKeyEntries(lemmatize, true, tables)
    ensures var m := ForeignKeyMap(tables, PrimaryKeyEntries(lemmatize, true, tables));
      t in m ==> m[t] != []
  {
    var pks := PrimaryKeyEntries(lemmatize, true, tables);
    ForeignKeyMapSound(tables, tables, pks);
    if HasColumn(tables, t, r.0) && r.1 != t && (r.1, r.0) in pks {
      var i :| 0 <= i < |tables| && tables[i].0 == t && r.0 in tables[i].1;
      ForeignKeyMapComplete(tables, pks, i, r.0, r.1);
    }
  }

  /** Every referenced column is the referenced table's detected key. */
  lemma ReferenceIsPrimaryKey(lemmatize: string -> string, tables: Layout, t: string, r: (string, string))
    requires var m := ForeignKeyMap(tables, PrimaryKeyEntries(lemmatize, true, tables)); t in m && r in m[t]
    ensures exists i :: 0 <= i < |tables| && tables[i].0 == r.1 && PrimaryKeyOf(lemmatize, true, tables[i]) == Some(r.0)
  {
    ForeignKeysMeaning(lemmatize, tables, t, r);
    PrimaryKeyEntrySound(lemmatize, true, tables, (r.1, r.0));
  }

  // ---------------------------------------------------------------------
  // Column definitions of CREATE TABLE

  /** The column name with spaces turned into underscores, lower-cased. */
  function NormalizeColumn(col: string): (n: string)
    ensures ' ' !in n && |n| == |col|
  {
    Lower(ReplaceChar(col, ' ', '_'))
  }

  /** What one column definition declares. */
  datatype ColumnSpec = ColumnSpec(name: string, sqlType: string, primary: bool, reference: Option<(string, string)>)

  /** The first foreign-key entry at or after `i` for the column `name`. */
  function FirstRef(name: string, fks: seq<(string, string)>, i: nat): (r: Option<nat>)
    decreases |fks| - i
    ensures r.Some? ==> i <= r.value < |fks| && fks[r.value].0 == name
    ensures r.Some? ==> forall j :: i <= j < r.value ==> fks[j].0 != name
    ensures r.None? ==> forall j :: i <= j < |fks| ==> fks[j].0 != name
  {
    if i >= |fks| then None
    else if fks[i].0 == name then Some(i)
    else FirstRef(name, fks, i + 1)
  }

  function Reference(name: string, fks: seq<(string, string)>): (r: Option<(string, string)>)
    ensures r.None? <==> forall e :: e in fks ==> e.0 != name
    ensures r.Some? ==> r.value in fks && r.value.0 == name
  {
    match FirstRef(name, fks, 0)
    case None => None
    case Some(k) => Some(fks[k])
  }

  /** The definition as written: PRIMARY KEY on every column whose
      normalised name is a candidate key, and the first matching foreign
      key as the one REFERENCES clause. */
  function SpecOf(col: string, dtype: string, candidates: seq<string>, fks: seq<(string, string)>): (s: ColumnSpec)
    ensures s.name == NormalizeColumn(col) && s.sqlType == dtype
    ensures s.primary <==> s.name in candidates
    ensures s.reference == Reference(s.name, fks)
  {
    var name := NormalizeColumn(col);
    ColumnSpec(name, dtype, name in candidates, Reference(name, fks))
  }

  /** The column definition: the quoted name and type, then PRIMARY KEY
      and the REFERENCES clause when the spec has them. */
  function RenderSpec(s: ColumnSpec): string {
    "`" + s.name + "` " + s.sqlType
    + (if s.primary then " PRIMARY KEY" else "")
    + (match s.reference
       case None => ""
       case Some(e) => " REFERENCES " + e.1 + "(" + e.0 + ")")
  }

  /** A table whose two columns both spell a candidate key gets two
      PRIMARY KEY clauses, which `CREATE TABLE` rejects: here the file
      `users` (singular `user`) with columns `user_id` and `userid`. */
  lemma TwoPrimaryKeys(lemmatize: string -> string)
    requires lemmatize("users") == "user"
    ensures var candidates := CandidateKeys(SingularName(lemmatize, true, "users"));
      SpecOf("user_id", "INT", candidates, []).primary && SpecOf("userid", "INT", candidates, []).primary
  {
    SingularOfUsers(lemmatize);
    KeysOfUser();
    NormalizedKeys();
    var candidates := CandidateKeys(SingularName(lemmatize, true, "users"));
    assert candidates == CandidateKeys("user");
    assert SpecOf("user_id", "INT", candidates, []).name == "user_id";
    assert SpecOf("userid", "INT", candidates, []).name == "userid";
  }

  lemma NormalizedKeys()
    ensures NormalizeColumn("user_id") == "user_id" && NormalizeColumn("userid") == "userid"
  {
    PlainName("user_id");
    PlainName("userid");
  }

  lemma SingularOfUsers(lemmatize: string -> string)
    requires lemmatize("users") == "user"
    ensures SingularName(lemmatize, true, "users") == "user"
  {
    PlainName("users");
  }

  lemma KeysOfUser()
    ensures "user_id" in CandidateKeys("user") && "userid" in CandidateKeys("user")
  {
    var c := CandidateKeys("user");
    assert c == ["user" + "_id", "user" + "id", RemoveChar("user", '_') + "id"];
    assert c[0] == "user_id" && c[1] == "userid";
  }

  /** A lower-case name without dots or spaces is its own extension-free,
      lower-cased and normalised form. */
  lemma PlainName(s: string)
    requires '.' !in s && '/' !in s && ' ' !in s
    requires forall i :: 0 <= i < |s| ==> !('A' <= s[i] <= 'Z')
    ensures SplitextRoot(s) == s && Lower(s) == s && NormalizeColumn(s) == s
  {
    LastIndexOfAbsent(s, '.');
    assert ReplaceChar(s, ' ', '_') == s;
  }

  lemma {:induction false} LastIndexOfAbsent(s: string, c: char)
    requires c !in s
    ensures LastIndexOf(s, c) == -1
  {
    if s != [] {
      LastIndexOfAbsent(s[..|s| - 1], c);
    }
  }

  /** The intended definition: only the table's detected key, the last
      candidate present among the normalised columns, is the primary key. */
  function IntendedSpecOf(col: string, dtype: string, key: Option<string>, fks: seq<(string, string)>): (s: ColumnSpec)
    ensures s.name == NormalizeColumn(col) && s.sqlType == dtype
    ensures s.primary <==> key == Some(s.name)
    ensures s.reference == Reference(s.name, fks)
  {
    var name := NormalizeColumn(col);
    ColumnSpec(name, dtype, key == Some(name), Reference(name, fks))
  }

  function NormalizedNames(columnTypes: seq<(string, string)>): (r: seq<string>)
    ensures |r| == |columnTypes|
    ensures forall i :: 0 <= i < |columnTypes| ==> r[i] == NormalizeColumn(columnTypes[i].0)
  {
    seq(|columnTypes|, i requires 0 <= i < |columnTypes| => NormalizeColumn(columnTypes[i].0))
  }

  function IntendedSpecs(columnTypes: seq<(string, string)>, candidates: seq<string>, fks: seq<(string, string)>): (r: seq<ColumnSpec>)
    ensures |r| == |columnTypes|
  {
    var key := LastPresent(candidates, NormalizedNames(columnTypes));
    seq(|columnTypes|, i requires 0 <= i < |columnTypes| => IntendedSpecOf(columnTypes[i].0, columnTypes[i].1, key, fks))
  }

  /** With distinct normalised names at most one column is the primary
      key, and exactly one when some candidate is present. */
  lemma SinglePrimaryKey(columnTypes: seq<(string, string)>, candidates: seq<string>, fks: seq<(string, string)>)
    requires Distinct(NormalizedNames(columnTypes))
    ensures var specs := IntendedSpecs(columnTypes, candidates, fks);
      forall i, j :: 0 <= i < |specs| && 0 <= j < |specs| && specs[i].primary && specs[j].primary ==> i == j
    ensures var specs := IntendedSpecs(columnTypes, candidates, fks);
      (exists k :: 0 <= k < |candidates| && candidates[k] in NormalizedNames(columnTypes)) ==>
        exists i :: 0 <= i < |specs| && specs[i].primary
  {
    var key := LastPresent(candidates, NormalizedNames(columnTypes));
    var specs := IntendedSpecs(columnTypes, candidates, fks);
    if key.Some? {
      var names := NormalizedNames(columnTypes);
      var i :| 0 <= i < |names| && names[i] == key.value;
      assert specs[i].primary;
    }
  }

  /** The definition for one column; the loop over the foreign keys stops
      at the first match. */
  method BuildColumnDef(col: string, dtype: string, key: Option<string>, fks: seq<(string, string)>)
    returns (def: string)
    ensures def == RenderSpec(IntendedSpecOf(col, dtype, key, fks))
  {
    var name := NormalizeColumn(col);
    def := "`" + name + "` " + dtype;
    if key == Some(name) {
      def := def + " PRIMARY KEY";
    }
    var i := 0;
    while i < |fks|
      invariant 0 <= i <= |fks|
      invariant FirstRef(name, fks, 0) == FirstRef(name, fks, i)
    {
      if fks[i].0 == name {
        def := def + " REFERENCES " + fks[i].1 + "(" + fks[i].0 + ")";
        return;
      }
      i := i + 1;
    }
  }

  /** The column list of `CREATE TABLE`, joined with `", "`. */
  method BuildColumnDefs(columnTypes: seq<(string, string)>, candidates: seq<string>, fks: seq<(string, string)>)
    returns (defs: string)
    ensures var specs := IntendedSpecs(columnTypes, candidates, fks);
      defs == Join(", ", seq(|specs|, i requires 0 <= i < |specs| => RenderSpec(specs[i])))
  {
    var key := LastPresent(candidates, NormalizedNames(columnTypes));
    var parts: seq<string> := [];
    for i := 0 to |columnTypes|
      invariant |parts| == i
      invariant forall j :: 0 <= j < i ==> parts[j] == RenderSpec(IntendedSpecOf(columnTypes[j].0, columnTypes[j].1, key, fks))
    {
      var def := BuildColumnDef(columnTypes[i].0, columnTypes[i].1, key, fks);
      parts := parts + [def];
    }
    var specs := IntendedSpecs(columnTypes, candidates, fks);
    assert parts == seq(|specs|, i requires 0 <= i < |specs| => RenderSpec(specs[i]));
    defs := Join(", ", parts);
  }

  // ---------------------------------------------------------------------
  // SQL literals

  /** A cell as pandas hands it over: missing (NaN) or the text `str(value)`. */
  datatype Cell = Missing | Value(text: string)

  /** The text with every single quote doubled. */
  function Escape(s: string): (r: string)
    ensures |r| >= |s|
  {
    if s == [] then []
    else (if s[0] == '\'' then "''" else [s[0]]) + Escape(s[1..])
  }

  /** Reading a doubled quote back as one quote. */
  function Unescape(s: string): string
    decreases |s|
  {
    if s == [] then []
    else if |s| >= 2 && s[0] == '\'' && s[1] == '\'' then "'" + Unescape(s[2..])
    else [s[0]] + Unescape(s[1..])
  }

  /** Every quote of an escaped text belongs to a doubled pair, so the
      literal cannot end early. */
  predicate QuotesDoubled(s: string)
    decreases |s|
  {
    if s == [] then true
    else if s[0] == '\'' then |s| >= 2 && s[1] == '\'' && QuotesDoubled(s[2..])
    else QuotesDoubled(s[1..])
  }

  lemma {:induction false} EscapeRoundTrip(s: string)
    ensures Unescape(Escape(s)) == s
    ensures QuotesDoubled(Escape(s))
  {
    if s != [] {
      EscapeRoundTrip(s[1..]);
      var e := Escape(s);
      if s[0] == '\'' {
        assert e == "''" + Escape(s[1..]);
        assert e[2..] == Escape(s[1..]);
      } else {
        assert e == [s[0]] + Escape(s[1..]);
        assert e[1..] == Escape(s[1..]);
      }
    }
  }

  /** The literal for one cell of a column of inferred type `columnType`. */
  function RenderValue(v: Cell, columnType: string): (r: string)
    ensures v.Missing? || v.text == "NULL" ==> r == "NULL"
    ensures v.Value? && v.text != "NULL" && columnType in ["INT", "FLOAT"] ==> r == v.text
  {
    match v
    case Missing => "NULL"
    case Value(s) =>
      if s == "NULL" then "NULL"
      else if columnType in ["INT", "FLOAT"] then s
      else "'" + Escape(s) + "'"
  }

  /** A quoted literal reads back as the original text. */
  lemma QuotedLiteralRoundTrip(s: string, columnType: string)
    requires s != "NULL" && columnType !in ["INT", "FLOAT"]
    ensures var r := RenderValue(Value(s), columnType);
      |r| >= 2 && r[0] == '\'' && r[|r| - 1] == '\''
      && QuotesDoubled(r[1..|r| - 1]) && Unescape(r[1..|r| - 1]) == s
  {
    var r := RenderValue(Value(s), columnType);
    assert r[1..|r| - 1] == Escape(s);
    EscapeRoundTrip(s);
  }

  /** The literal of each cell, in column order. */
  function RowValues(cells: seq<Cell>, types: seq<string>): (r: seq<string>)
    requires |cells| == |types|
    ensures |r| == |cells|
    ensures forall i :: 0 <= i < |cells| ==> r[i] == RenderValue(cells[i], types[i])
  {
    seq(|cells|, i requires 0 <= i < |cells| => RenderValue(cells[i], types[i]))
  }

  /** One row of `VALUES`: the cells' literals, comma-separated, in
      parentheses. */
  function RenderRow(cells: seq<Cell>, types: seq<string>): (r: string)
    requires |cells| == |types|
    ensures |r| >= 2 && r[0] == '(' && r[|r| - 1] == ')'
    ensures r[1..|r| - 1] == Join(", ", RowValues(cells, types))
  {
    var inner := Join(", ", RowValues(cells, types));
    var r := "(" + inner + ")";
    assert r[1..|r| - 1] == inner;
    r
  }

  /** The loop over a row's cells, appending one literal per cell. */
  method BuildRow(cells: seq<Cell>, types: seq<string>) returns (row: string)
    requires |cells| == |types|
    ensures row == RenderRow(cells, types)
  {
    var values: seq<string> := [];
    for i := 0 to |cells|
      invariant values == RowValues(cells[..i], types[..i])
    {
      values := values + [RenderValue(cells[i], types[i])];
    }
    assert cells[..|cells|] == cells && types[..|types|] == types;
    row := "(" + Join(", ", values) + ")";
  }

  // ---------------------------------------------------------------------
  // Batch inserts

  function Flatten(batches: seq<seq<string>>): seq<string> {
    if batches == [] then [] else Flatten(batches[..|batches| - 1]) + batches[|batches| - 1]
  }

  /** The batch size the buffer actually flushes at: with `batch_size` 0
      the test `len(rows) >= batch_size` flushes every row alone. */
  function Capacity(batchSize: nat): nat {
    if batchSize >= 1 then batchSize else 1
  }

  /** The buffering loop of `upload_csv_to_mysql`: the rows of each INSERT
      statement, in order. Every row is sent once, in order; every batch
      but the last is full, and the last holds between one row and a
      full batch. */
  method BatchRows(rows: seq<string>, batchSize: nat) returns (batches: seq<seq<string>>)
    ensures Flatten(batches) == rows
    ensures forall i :: 0 <= i < |batches| - 1 ==> |batches[i]| == Capacity(batchSize)
    ensures |batches| > 0 ==> 1 <= |batches[|batches| - 1]| <= Capacity(batchSize)
    ensures rows == [] <==> batches == []
  {
    batches := [];
    var buffer: seq<string> := [];
    for i := 0 to |rows|
      invariant Flatten(batches) + buffer == rows[..i]
      invariant forall j :: 0 <= j < |batches| ==> |batches[j]| == Capacity(batchSize)
      invariant |buffer| < Capacity(batchSize)
      invariant i == 0 ==> batches == []
    {
      buffer := buffer + [rows[i]];
      if |buffer| >= batchSize {
        batches := batches + [buffer];
        assert batches[..|batches| - 1] == batches[..|batches| - 1];
        buffer := [];
      }
    }
    if buffer != [] {
      batches := batches + [buffer];
    }
    assert rows[..|rows|] == rows;
    if rows == [] {
      assert Flatten(batches) == [];
    }
  }

  /** The fixed part of an INSERT statement before its rows. */
  function InsertHead(table: string, columnsList: string): string {
    "INSERT INTO `" + table + "` (" + columnsList + ") VALUES "
  }

  /** The INSERT statement for one batch: the head, the batch's rows
      joined with `", "`, and a closing semicolon. */
  function InsertStatement(table: string, columnsList: string, batch: seq<string>): (r: string)
    ensures IsPrefix(InsertHead(table, columnsList), r) && r[|r| - 1] == ';'
    ensures r[|InsertHead(table, columnsList)|..|r| - 1] == Join(", ", batch)
  {
    var head := InsertHead(table, columnsList);
    var r := head + Join(", ", batch) + ";";
    assert r[..|head|] == head;
    assert r[|head|..|r| - 1] == Join(", ", batch);
    r
  }

  /** The rows of each batch, joined as one statement joins them. */
  function ValuesLists(batches: seq<seq<string>>): (r: seq<string>)
    ensures |r| == |batches|
    ensures forall i :: 0 <= i < |batches| ==> r[i] == Join(", ", batches[i])
  {
    seq(|batches|, i requires 0 <= i < |batches| => Join(", ", batches[i]))
  }

  lemma {:induction false} JoinAppend(sep: string, a: seq<string>, b: seq<string>)
    requires a != [] && b != []
    ensures Join(sep, a + b) == Join(sep, a) + sep + Join(sep, b)
  {
    if |a| == 1 {
      assert (a + b)[1..] == b;
    } else {
      assert (a + b)[1..] == a[1..] + b;
      JoinAppend(sep, a[1..], b);
    }
  }

  /** Joining the rows of non-empty batches batch by batch and then
      joining those lists gives the rows joined all at once: splitting into
      statements loses and reorders no row. */
  lemma {:induction false} JoinBatches(batches: seq<seq<string>>)
    requires forall i :: 0 <= i < |batches| ==> batches[i] != []
    ensures batches != [] ==> Flatten(batches) != []
    ensures Join(", ", ValuesLists(batches)) == Join(", ", Flatten(batches))
  {
    if batches != [] {
      var init := batches[..|batches| - 1];
      var last := batches[|batches| - 1];
      JoinBatches(init);
      assert Flatten(batches) == Flatten(init) + last;
      if init != [] {
        assert ValuesLists(batches) == ValuesLists(init) + [Join(", ", last)];
        JoinAppend(", ", ValuesLists(init), [Join(", ", last)]);
        JoinAppend(", ", Flatten(init), last);
      } else {
        assert ValuesLists(batches) == [Join(", ", last)];
        assert Flatten(init) == [];
        assert Flatten(batches) == last;
      }
    }
  }

  /** The INSERT statements `upload_csv_to_mysql` sends for a table's rows:
      one per batch, in order. */
  method InsertStatements(table: string, columnsList: string, rows: seq<string>, batchSize: nat)
    returns (batches: seq<seq<string>>, statements: seq<string>)
    ensures Flatten(batches) == rows
    ensures forall i :: 0 <= i < |batches| - 1 ==> |batches[i]| == Capacity(batchSize)
    ensures |statements| == |batches|
    ensures forall i :: 0 <= i < |batches| ==> statements[i] == InsertStatement(table, columnsList, batches[i])
    ensures rows == [] <==> statements == []
    ensures Join(", ", ValuesLists(batches)) == Join(", ", rows)
  {
    batches := BatchRows(rows, batchSize);
    statements := [];
    for i := 0 to |batches|
      invariant |statements| == i
      invariant forall j :: 0 <= j < i ==> statements[j] == InsertStatement(table, columnsList, batches[j])
    {
      statements := statements + [InsertStatement(table, columnsList, batches[i])];
    }
    assert forall i :: 0 <= i < |batches| ==> batches[i] != [] by {
      forall i | 0 <= i < |batches|
        ensures batches[i] != []
      {
        if i < |batches| - 1 {
          assert |batches[i]| == Capacity(batchSize) >= 1;
        }
      }
    }
    JoinBatches(batches);
  }

  // ---------------------------------------------------------------------
  // process_csv_folder: upload order

  function Independent(tables: seq<string>, fks: ForeignKeys): (r: seq<string>)
    ensures forall t :: t in r <==> t in tables && t !in fks
  {
    if tables == [] then []
    else (if tables[0] !in fks then [tables[0]] else []) + Independent(tables[1..], fks)
  }

  function Dependent(tables: seq<string>, fks: ForeignKeys): (r: seq<string>)
    ensures forall t :: t in r <==> t in tables && t in fks
  {
    if tables == [] then []
    else (if tables[0] in fks then [tables[0]] else []) + Dependent(tables[1..], fks)
  }

  /** The order tables are uploaded in. */
  function UploadOrder(tables: seq<string>, fks: ForeignKeys): seq<string> {
    Independent(tables, fks) + Dependent(tables, fks)
  }

  /** The two lists are disjoint and cover the tables, and every
      independent table comes before every dependent one. */
  lemma UploadOrderMeaning(tables: seq<string>, fks: ForeignKeys)
    ensures forall t :: t in UploadOrder(tables, fks) <==> t in tables
    ensures forall t :: !(t in Independent(tables, fks) && t in Dependent(tables, fks))
    ensures forall i :: 0 <= i < |Independent(tables, fks)| ==> UploadOrder(tables, fks)[i] !in fks
    ensures forall j :: |Independent(tables, fks)| <= j < |UploadOrder(tables, fks)| ==> UploadOrder(tables, fks)[j] in fks
  {
    var ind := Independent(tables, fks);
    var dep := Dependent(tables, fks);
    forall i | 0 <= i < |ind|
      ensures UploadOrder(tables, fks)[i] !in fks
    {
      assert ind[i] in ind;
    }
    forall j | |ind| <= j < |ind| + |dep|
      ensures UploadOrder(tables, fks)[j] in fks
    {
      assert dep[j - |ind|] in dep;
    }
  }

  /** Every table is uploaded exactly as many times as it is listed: the
      upload order is a permutation of the tables. */
  lemma {:induction false} UploadOrderPermutes(tables: seq<string>, fks: ForeignKeys)
    ensures multiset(UploadOrder(tables, fks)) == multiset(tables)
  {
    if tables != [] {
      UploadOrderPermutes(tables[1..], fks);
      assert tables == [tables[0]] + tables[1..];
    }
  }

  /** For the inferred foreign keys, the dependent tables are exactly the
      tables that have an entry. */
  lemma DependentAreKeyed(lemmatize: string -> string, tables: Layout, t: string)
    ensures var fks := ForeignKeyMap(tables, PrimaryKeyEntries(lemmatize, true, tables));
      t in Dependent(Names(tables), fks) <==> t in fks
  {
    var pks := PrimaryKeyEntries(lemmatize, true, tables);
    var fks := ForeignKeyMap(tables, pks);
    ForeignKeyMapSound(tables, tables, pks);
    if t in fks {
      var r: (string, string) := fks[t][0];
      assert r in fks[t];
      var i :| 0 <= i < |tables| && tables[i].0 == t && r.0 in tables[i].1;
      assert Names(tables)[i] == t;
    }
  }
}
