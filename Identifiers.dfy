/** Backtick quoting of SQL identifiers (`wrap_identifier` and
    `clean_identifier`, defined identically in the interpreter and in the
    sample-query generator). */
module Identifiers {
  import opened Text

  /** `wrap_identifier`: exactly one backtick is added on each side */
  function WrapIdentifier(id: string): (r: string)
    ensures |r| == |id| + 2
    ensures r[0] == '`' && r[|r| - 1] == '`' && r[1..|r| - 1] == id
  {
    "`" + id + "`"
  }

  /** `clean_identifier`: every backtick is removed */
  function CleanIdentifier(id: string): (r: string)
    ensures '`' !in r
    ensures |r| <= |id|
  {
    RemoveChar(id, '`')
  }

  /** Cleaning undoes wrapping for any identifier without backticks. */
  lemma {:induction false} CleanWrapRoundTrip(id: string)
    requires '`' !in id
    ensures CleanIdentifier(WrapIdentifier(id)) == id
  {
    RemoveCharAppend("`" + id, "`", '`');
    RemoveCharAppend("`", id, '`');
    RemoveCharAbsent(id, '`');
  }

  /** Cleaning is idempotent. */
  lemma CleanIdempotent(id: string)
    ensures CleanIdentifier(CleanIdentifier(id)) == CleanIdentifier(id)
  {
    RemoveCharAbsent(CleanIdentifier(id), '`');
  }

  /** A column qualified by its table, both names in backticks and joined by a dot. */
  function Qualified(t: string, c: string): string {
    WrapIdentifier(t) + "." + WrapIdentifier(c)
  }

  /** A joined table's column under the alias `table_column`, the form
      both programs use when they select from a join. */
  function Aliased(t: string, c: string): string {
    Qualified(t, c) + " AS " + WrapIdentifier(CleanIdentifier(t) + "_" + CleanIdentifier(c))
  }
}
