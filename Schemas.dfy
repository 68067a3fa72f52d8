/** The database schema as the programs read it: tables in the order
    `SHOW TABLES` lists them, each with its columns in `DESCRIBE` order as
    (name, type) pairs. The interpreter uses only the names; the sample
    generator and the loader also use the types. */
module Schemas {
  import opened Discovery

  datatype Column = Column(name: string, sqlType: string)
  datatype Table = Table(name: string, columns: seq<Column>)
  type Schema = seq<Table>

  function TableNames(s: Schema): seq<string> {
    seq(|s|, i requires 0 <= i < |s| => s[i].name)
  }

  function ColumnNames(t: Table): seq<string> {
    seq(|t.columns|, i requires 0 <= i < |t.columns| => t.columns[i].name)
  }

  /** A dictionary keyed by table name, whose rows come from `DESCRIBE`:
      no table and no column of a table is listed twice. */
  predicate WellFormed(s: Schema) {
    && Distinct(TableNames(s))
    && forall i :: 0 <= i < |s| ==> Distinct(ColumnNames(s[i]))
  }

  /** The table's column names, or none for a table the schema lacks. */
  function ColumnsOf(s: Schema, name: string): (cols: seq<string>)
    ensures name !in TableNames(s) ==> cols == []
  {
    if s == [] then []
    else
      assert TableNames(s) == [s[0].name] + TableNames(s[1..]);
      if s[0].name == name then ColumnNames(s[0]) else ColumnsOf(s[1..], name)
  }

  /** The table called `name`, when there is one. */
  function TableOf(s: Schema, name: string): (t: Table)
    requires name in TableNames(s)
    ensures t in s && t.name == name
    ensures ColumnNames(t) == ColumnsOf(s, name)
  {
    if s[0].name == name then s[0]
    else
      assert TableNames(s) == [s[0].name] + TableNames(s[1..]);
      TableOf(s[1..], name)
  }

  /** Every column name of every table, table by table. */
  function AllColumns(s: Schema): seq<string> {
    if s == [] then [] else ColumnNames(s[0]) + AllColumns(s[1..])
  }

  lemma {:induction false} AllColumnsMember(s: Schema, name: string, c: string)
    requires c in ColumnsOf(s, name)
    ensures c in AllColumns(s)
  {
    if s != [] && s[0].name != name {
      AllColumnsMember(s[1..], name, c);
    }
  }
}
