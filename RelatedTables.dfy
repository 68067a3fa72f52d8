/** `find_related_tables` in the interpreter: two distinct tables are
    related through the columns they share that are some table's inferred
    primary key or end in "_id". */
module RelatedTables {
  import opened Text
  import opened Discovery
  import opened Schemas
  import opened KeyInference

  function SchemaLayout(schema: Schema): Layout {
    seq(|schema|, i requires 0 <= i < |schema| => (schema[i].name, ColumnNames(schema[i])))
  }

  /** The detected key columns, one per keyed table. */
  function KeyValues(pks: seq<(string, string)>): set<string> {
    set e | e in pks :: e.1
  }

  /** The interpreter's primary keys, as the loader would infer them for
      the same tables but without dropping an extension. */
  function InferredKeys(lemmatize: string -> string, schema: Schema): set<string> {
    KeyValues(PrimaryKeyEntries(lemmatize, false, SchemaLayout(schema)))
  }

  /** The shared columns that qualify as join columns. */
  function JoinColumns(columns1: seq<string>, columns2: seq<string>, keys: set<string>): set<string> {
    set c | c in columns1 && c in columns2 && (c in keys || EndsWith(c, "_id"))
  }

  /** A related pair with its join columns, listed once each. */
  ghost predicate RelatedEntry(schema: Schema, keys: set<string>, p: (string, string), columns: seq<string>) {
    && Distinct(columns)
    && forall c :: c in columns <==> c in JoinColumns(ColumnsOf(schema, p.0), ColumnsOf(schema, p.1), keys)
  }

  /** The pairs `find_related_tables` reports. */
  ghost predicate Related(schema: Schema, keys: set<string>, p: (string, string)) {
    && p.0 in TableNames(schema) && p.1 in TableNames(schema) && p.0 != p.1
    && JoinColumns(ColumnsOf(schema, p.0), ColumnsOf(schema, p.1), keys) != {}
  }

  method FindRelatedTables(lemmatize: string -> string, schema: Schema)
    returns (related: map<(string, string), seq<string>>)
    ensures forall p :: p in related <==> Related(schema, InferredKeys(lemmatize, schema), p)
    ensures forall p :: p in related ==> RelatedEntry(schema, InferredKeys(lemmatize, schema), p, related[p])
  {
    var pks := DetectPrimaryKeys(lemmatize, false, SchemaLayout(schema));
    var keys := KeyValues(pks);
    var names := TableNames(schema);
    related := map[];
    for i := 0 to |names|
      invariant forall p :: p in related <==> p.0 in names[..i] && Related(schema, keys, p)
      invariant forall p :: p in related ==> RelatedEntry(schema, keys, p, related[p])
    {
      var row := RelatedFrom(schema, keys, names[i]);
      related := related + row;
      assert names[..i + 1] == names[..i] + [names[i]];
    }
    assert names[..|names|] == names;
  }

  /** The inner loop of `find_related_tables`: the pairs whose first table
      is `table1`. */
  method RelatedFrom(schema: Schema, keys: set<string>, table1: string)
    returns (row: map<(string, string), seq<string>>)
    requires table1 in TableNames(schema)
    ensures forall p :: p in row <==> p.0 == table1 && Related(schema, keys, p)
    ensures forall p :: p in row ==> RelatedEntry(schema, keys, p, row[p])
  {
    var names := TableNames(schema);
    row := map[];
    for j := 0 to |names|
      invariant forall p :: p in row <==> p.0 == table1 && p.1 in names[..j] && Related(schema, keys, p)
      invariant forall p :: p in row ==> RelatedEntry(schema, keys, p, row[p])
    {
      var table2 := names[j];
      if table1 != table2 {
        var valid := Enumerate(JoinColumns(ColumnsOf(schema, table1), ColumnsOf(schema, table2), keys));
        if valid != [] {
          assert valid[0] in JoinColumns(ColumnsOf(schema, table1), ColumnsOf(schema, table2), keys);
          row := row[(table1, table2) := valid];
        } else {
          assert JoinColumns(ColumnsOf(schema, table1), ColumnsOf(schema, table2), keys) == {};
        }
      }
      assert forall t :: t in names[..j + 1] <==> t in names[..j] || t == table2;
    }
    assert names[..|names|] == names;
  }

  /** The relation is symmetric, with the same join columns both ways. */
  lemma RelatedSymmetric(schema: Schema, keys: set<string>, p: (string, string))
    ensures Related(schema, keys, p) <==> Related(schema, keys, (p.1, p.0))
    ensures JoinColumns(ColumnsOf(schema, p.0), ColumnsOf(schema, p.1), keys)
         == JoinColumns(ColumnsOf(schema, p.1), ColumnsOf(schema, p.0), keys)
  {
  }
}
