/** `find_related_tables_with_common_columns` (query_generation.py): for
    every table, the other tables that share a column name whose types
    agree up to the first parenthesis, with the shared (column, column)
    pairs in `DESCRIBE` order. */
module CommonColumns {
  import opened Text
  import opened Schemas

  /** Two `DESCRIBE` rows share their name and their base type. */
  predicate Compatible(a: Column, b: Column) {
    a.name == b.name && BaseType(a.sqlType) == BaseType(b.sqlType)
  }

  /** The pairs contributed by one column of the first table. */
  function PairsWith(a: Column, columns2: seq<Column>): (r: seq<(string, string)>)
    ensures forall p :: p in r <==> exists k :: 0 <= k < |columns2| && Compatible(a, columns2[k]) && p == (a.name, columns2[k].name)
  {
    if columns2 == [] then []
    else
      var rest := PairsWith(a, columns2[1..]);
      assert forall k :: 0 < k < |columns2| ==> columns2[k] == columns2[1..][k - 1];
      (if Compatible(a, columns2[0]) then [(a.name, columns2[0].name)] else []) + rest
  }

  /** Every pair of a column of the first table with a column of the
      second that has the same name and base type, in the order of the
      first table's columns and then the second's. */
  function CommonPairs(columns1: seq<Column>, columns2: seq<Column>): (r: seq<(string, string)>)
    ensures forall p :: p in r <==>
      exists i, k :: 0 <= i < |columns1| && 0 <= k < |columns2| && Compatible(columns1[i], columns2[k])
                     && p == (columns1[i].name, columns2[k].name)
  {
    if columns1 == [] then []
    else
      var rest := CommonPairs(columns1[1..], columns2);
      assert forall i :: 0 < i < |columns1| ==> columns1[i] == columns1[1..][i - 1];
      PairsWith(columns1[0], columns2) + rest
  }

  function ColumnEntries(schema: Schema, name: string): seq<Column>
    requires name in TableNames(schema)
  {
    TableOf(schema, name).columns
  }

  /** The inner dictionary for `table1`: only non-empty pair lists. */
  function RelatedRow(schema: Schema, table1: string): map<string, seq<(string, string)>>
    requires table1 in TableNames(schema)
  {
    map table2 | table2 in TableNames(schema) && table2 != table1
                 && CommonPairs(ColumnEntries(schema, table1), ColumnEntries(schema, table2)) != []
      :: CommonPairs(ColumnEntries(schema, table1), ColumnEntries(schema, table2))
  }

  function FindRelatedTablesWithCommonColumns(schema: Schema): (r: map<string, map<string, seq<(string, string)>>>)
    ensures r.Keys == set t | t in TableNames(schema)
    ensures forall t :: t in r ==> t !in r[t]
    ensures forall t1, t2 :: t1 in r && t2 in r[t1] ==> t2 in TableNames(schema) && r[t1][t2] != []
  {
    map table1 | table1 in TableNames(schema) :: RelatedRow(schema, table1)
  }

  /** Every listed pair names one column twice, a column both tables
      have with the same base type. */
  lemma CommonPairSound(schema: Schema, t1: string, t2: string, p: (string, string))
    requires t1 in FindRelatedTablesWithCommonColumns(schema)
    requires t2 in FindRelatedTablesWithCommonColumns(schema)[t1]
    requires p in FindRelatedTablesWithCommonColumns(schema)[t1][t2]
    ensures p.0 == p.1
    ensures exists a, b :: a in ColumnEntries(schema, t1) && b in ColumnEntries(schema, t2)
                           && a.name == p.0 && b.name == p.1 && BaseType(a.sqlType) == BaseType(b.sqlType)
  {
    var c1 := ColumnEntries(schema, t1);
    var c2 := ColumnEntries(schema, t2);
    var i, k :| 0 <= i < |c1| && 0 <= k < |c2| && Compatible(c1[i], c2[k]) && p == (c1[i].name, c2[k].name);
    assert c1[i] in c1 && c2[k] in c2;
  }

  /** Relatedness is symmetric: the pairs found from either side are the
      same pairs of column names, swapped. */
  lemma {:induction false} CommonPairsSymmetric(columns1: seq<Column>, columns2: seq<Column>)
    ensures forall p :: p in CommonPairs(columns1, columns2) <==> (p.1, p.0) in CommonPairs(columns2, columns1)
    ensures CommonPairs(columns1, columns2) != [] <==> CommonPairs(columns2, columns1) != []
  {
    forall p | p in CommonPairs(columns1, columns2)
      ensures (p.1, p.0) in CommonPairs(columns2, columns1)
    {
      var i, k :| 0 <= i < |columns1| && 0 <= k < |columns2| && Compatible(columns1[i], columns2[k])
                  && p == (columns1[i].name, columns2[k].name);
      assert Compatible(columns2[k], columns1[i]);
    }
    forall p: (string, string) | (p.1, p.0) in CommonPairs(columns2, columns1)
      ensures p in CommonPairs(columns1, columns2)
    {
      var i, k :| 0 <= i < |columns2| && 0 <= k < |columns1| && Compatible(columns2[i], columns1[k])
                  && (p.1, p.0) == (columns2[i].name, columns1[k].name);
      assert Compatible(columns1[k], columns2[i]);
    }
    if CommonPairs(columns1, columns2) != [] {
      var p := CommonPairs(columns1, columns2)[0];
      assert p in CommonPairs(columns1, columns2);
      var i, k :| 0 <= i < |columns1| && 0 <= k < |columns2| && Compatible(columns1[i], columns2[k])
                  && p == (columns1[i].name, columns2[k].name);
      assert (columns2[k].name, columns1[i].name) in CommonPairs(columns2, columns1);
    }
    if CommonPairs(columns2, columns1) != [] {
      var p := CommonPairs(columns2, columns1)[0];
      assert p in CommonPairs(columns2, columns1);
      var i, k :| 0 <= i < |columns2| && 0 <= k < |columns1| && Compatible(columns2[i], columns1[k])
                  && p == (columns2[i].name, columns1[k].name);
      assert (columns1[k].name, columns2[i].name) in CommonPairs(columns1, columns2);
    }
  }

  lemma RelatedSymmetric(schema: Schema, t1: string, t2: string)
    requires t1 in TableNames(schema) && t2 in TableNames(schema)
    ensures t2 in FindRelatedTablesWithCommonColumns(schema)[t1] <==> t1 in FindRelatedTablesWithCommonColumns(schema)[t2]
  {
    CommonPairsSymmetric(ColumnEntries(schema, t1), ColumnEntries(schema, t2));
  }
}
