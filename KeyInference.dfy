/** Primary-key inference, shared by `find_related_tables` in the
    interpreter and `find_foreign_keys` in the loader: a table's key is the
    last of three spellings built from its singular name that is one of its
    columns. The two programs derive the singular name slightly
    differently (the loader first drops a file extension). */
module KeyInference {
  import opened Text
  import opened Options
  import opened Discovery

  /** Each table as key inference sees it: its name and its column names,
      in the order the dictionary holds them. */
  type Layout = seq<(string, seq<string>)>

  /** The keys of a dictionary held as a list of pairs. */
  function Names<V>(entries: seq<(string, V)>): seq<string> {
    seq(|entries|, i requires 0 <= i < |entries| => entries[i].0)
  }

  // ---------------------------------------------------------------------
  // Singular names

  function LastIndexOf(s: string, c: char): (r: int)
    ensures -1 <= r < |s|
    ensures r >= 0 ==> s[r] == c
    ensures forall k :: r < k < |s| ==> s[k] != c
  {
    if s == [] then -1
    else if s[|s| - 1] == c then |s| - 1
    else LastIndexOf(s[..|s| - 1], c)
  }

  /** `os.path.splitext(p)[0]`: the text before the last dot of the final
      path component, unless that component is only dots up to there. */
  function SplitextRoot(p: string): (r: string)
    ensures IsPrefix(r, p)
  {
    var dot := LastIndexOf(p, '.');
    var sep := LastIndexOf(p, '/');
    if dot > sep && exists k :: sep + 1 <= k < dot && p[k] != '.' then p[..dot] else p
  }

  lemma SplitextRootOfCsv(t: string)
    requires t != [] && t[0] != '.' && '.' !in t && '/' !in t
    ensures SplitextRoot(t + ".csv") == t
  {
    var p := t + ".csv";
    assert p[|t|] == '.' && p[|t| + 1..] == "csv";
    assert LastIndexOf(p, '.') == |t|;
    assert LastIndexOf(p, '/') == -1;
    assert p[0] != '.';
    assert p[..|t|] == t;
  }

  /** `get_singular_table_name`: the lemmatised lower-case name; the
      loader's version first drops an extension. */
  function SingularName(lemmatize: string -> string, dropExtension: bool, name: string): string {
    lemmatize(Lower(if dropExtension then SplitextRoot(name) else name))
  }

  // ---------------------------------------------------------------------
  // Primary keys

  /** The three candidate key names of a singular table name: with `_id`
      appended, with `id` appended, and with its underscores removed and
      `id` appended. */
  function CandidateKeys(singular: string): (r: seq<string>)
    ensures |r| == 3
  {
    [singular + "_id", singular + "id", RemoveChar(singular, '_') + "id"]
  }

  /** The last of `candidates` that is among `columns`: each later hit
      overwrites an earlier one. */
  function LastPresent(candidates: seq<string>, columns: seq<string>): (r: Option<string>)
    ensures r.None? <==> forall k :: 0 <= k < |candidates| ==> candidates[k] !in columns
    ensures r.Some? ==> r.value in columns && r.value in candidates
  {
    if candidates == [] then None
    else if candidates[|candidates| - 1] in columns then Some(candidates[|candidates| - 1])
    else
      assert forall k :: 0 <= k < |candidates| - 1 ==> candidates[..|candidates| - 1][k] == candidates[k];
      LastPresent(candidates[..|candidates| - 1], columns)
  }

  /** Of the three spellings, the later ones take precedence. */
  lemma PrimaryKeyPreference(singular: string, columns: seq<string>)
    ensures var c := CandidateKeys(singular);
      LastPresent(c, columns) ==
        if c[2] in columns then Some(c[2])
        else if c[1] in columns then Some(c[1])
        else if c[0] in columns then Some(c[0])
        else None
  {
    var c := CandidateKeys(singular);
    assert c[..2] == [c[0], c[1]] && c[..2][..1] == [c[0]] && c[..2][..1][..0] == [];
  }

  function PrimaryKeyOf(lemmatize: string -> string, dropExtension: bool, table: (string, seq<string>)): Option<string> {
    LastPresent(CandidateKeys(SingularName(lemmatize, dropExtension, table.0)), table.1)
  }

  /** `primary_keys` in insertion order: every table that has a key, with
      that key. */
  function PrimaryKeyEntries(lemmatize: string -> string, dropExtension: bool, tables: Layout): seq<(string, string)> {
    if tables == [] then []
    else
      var prev := PrimaryKeyEntries(lemmatize, dropExtension, tables[..|tables| - 1]);
      var last := tables[|tables| - 1];
      match PrimaryKeyOf(lemmatize, dropExtension, last)
      case None => prev
      case Some(k) => prev + [(last.0, k)]
  }

  /** The loop detecting every table's primary key. */
  method DetectPrimaryKeys(lemmatize: string -> string, dropExtension: bool, tables: Layout)
    returns (pks: seq<(string, string)>)
    ensures pks == PrimaryKeyEntries(lemmatize, dropExtension, tables)
  {
    pks := [];
    for i := 0 to |tables|
      invariant pks == PrimaryKeyEntries(lemmatize, dropExtension, tables[..i])
    {
      var table := tables[i];
      var candidates := CandidateKeys(SingularName(lemmatize, dropExtension, table.0));
      var key: Option<string> := None;
      for k := 0 to |candidates|
        invariant key == LastPresent(candidates[..k], table.1)
      {
        assert candidates[..k + 1][..k] == candidates[..k];
        if candidates[k] in table.1 {
          key := Some(candidates[k]);
        }
      }
      assert candidates[..|candidates|] == candidates;
      assert tables[..i + 1][..i] == tables[..i];
      if key.Some? {
        pks := pks + [(table.0, key.value)];
      }
    }
    assert tables[..|tables|] == tables;
  }

  /** Every entry is some table with the key inferred for it. */
  lemma {:induction false} PrimaryKeyEntrySound(lemmatize: string -> string, dropExtension: bool, tables: Layout, e: (string, string))
    requires e in PrimaryKeyEntries(lemmatize, dropExtension, tables)
    ensures exists i :: 0 <= i < |tables| && tables[i].0 == e.0 && PrimaryKeyOf(lemmatize, dropExtension, tables[i]) == Some(e.1)
  {
    var n := |tables| - 1;
    var prefix := tables[..n];
    if e in PrimaryKeyEntries(lemmatize, dropExtension, prefix) {
      PrimaryKeyEntrySound(lemmatize, dropExtension, prefix, e);
      var i :| 0 <= i < |prefix| && prefix[i].0 == e.0 && PrimaryKeyOf(lemmatize, dropExtension, prefix[i]) == Some(e.1);
      assert tables[i] == prefix[i];
    } else {
      assert tables[n].0 == e.0 && PrimaryKeyOf(lemmatize, dropExtension, tables[n]) == Some(e.1);
    }
  }

  /** Every table with an inferred key has its entry. */
  lemma {:induction false} PrimaryKeyEntryComplete(lemmatize: string -> string, dropExtension: bool, tables: Layout, i: nat)
    requires i < |tables| && PrimaryKeyOf(lemmatize, dropExtension, tables[i]).Some?
    ensures (tables[i].0, PrimaryKeyOf(lemmatize, dropExtension, tables[i]).value) in PrimaryKeyEntries(lemmatize, dropExtension, tables)
  {
    var n := |tables| - 1;
    if i < n {
      var prefix := tables[..n];
      assert prefix[i] == tables[i];
      PrimaryKeyEntryComplete(lemmatize, dropExtension, prefix, i);
    }
  }

  /** With distinct table names no table has two entries. */
  lemma {:induction false} PrimaryKeyEntriesUnique(lemmatize: string -> string, dropExtension: bool, tables: Layout)
    requires Distinct(Names(tables))
    ensures Distinct(Names(PrimaryKeyEntries(lemmatize, dropExtension, tables)))
  {
    if tables != [] {
      var n := |tables| - 1;
      var prefix := tables[..n];
      assert Names(prefix) == Names(tables)[..n];
      PrimaryKeyEntriesUnique(lemmatize, dropExtension, prefix);
      var prev := PrimaryKeyEntries(lemmatize, dropExtension, prefix);
      forall e | e in prev ensures e.0 != tables[n].0 {
        PrimaryKeyEntrySound(lemmatize, dropExtension, prefix, e);
        var i :| 0 <= i < |prefix| && prefix[i].0 == e.0 && PrimaryKeyOf(lemmatize, dropExtension, prefix[i]) == Some(e.1);
        assert Names(tables)[i] == e.0 && Names(tables)[n] == tables[n].0;
      }
      match PrimaryKeyOf(lemmatize, dropExtension, tables[n]) {
        case None =>
        case Some(k) =>
          var names := Names(prev + [(tables[n].0, k)]);
          assert names == Names(prev) + [tables[n].0];
          forall a | 0 <= a < |prev| ensures names[a] != tables[n].0 {
            assert prev[a] in prev;
          }
      }
    }
  }
}
