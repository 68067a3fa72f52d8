/** The independent intent scanners of query_interpreter.py:
    `detect_join`, `detect_group_by`, `detect_aggregation`,
    `detect_limit_and_offset` and `detect_limit_and_sort`. Each returns
    what the earliest (or, for limit and offset, the latest) qualifying
    token position yields. */
module IntentDetectors {
  import opened Text
  import opened Options
  import opened Schemas
  import opened Matching

  // ---------------------------------------------------------------------
  // Join

  const JoinKeywords: seq<string> := ["join", "combine", "merge", "along with"]

  function AnyTokenIn(tokens: seq<string>, words: seq<string>): (r: bool)
    ensures r <==> exists i :: 0 <= i < |tokens| && tokens[i] in words
  {
    if tokens == [] then false
    else tokens[0] in words || (assert forall i :: 0 < i < |tokens| ==> tokens[i] == tokens[1..][i - 1];
                               AnyTokenIn(tokens[1..], words))
  }

  /** `detect_join`: some token is a join keyword, or some join keyword
      occurs in the lower-cased query text. */
  function DetectJoin(query: string, tokens: seq<string>): (r: bool)
    ensures r <==>
      (exists i :: 0 <= i < |tokens| && tokens[i] in JoinKeywords)
      || (exists k :: 0 <= k < |JoinKeywords| && Contains(Lower(query), JoinKeywords[k]))
  {
    AnyTokenIn(tokens, JoinKeywords) || ContainsAny(Lower(query), JoinKeywords)
  }

  // ---------------------------------------------------------------------
  // Group by

  const GroupByKeywords: seq<string> := ["group", "by", "grouped"]

  /** A grouping cue at `i` whose next token matches a column. */
  predicate GroupCueAt(fuzzy: Matcher, tokens: seq<string>, columns: seq<string>, i: nat)
    requires i < |tokens|
  {
    tokens[i] in GroupByKeywords && i + 1 < |tokens| && Truthy(fuzzy(tokens[i + 1], columns)).Some?
  }

  /** The first grouping cue at or after `i`. */
  function FirstGroupCue(fuzzy: Matcher, tokens: seq<string>, columns: seq<string>, i: nat): (r: Option<nat>)
    decreases |tokens| - i
    ensures r.Some? ==> i <= r.value < |tokens| && GroupCueAt(fuzzy, tokens, columns, r.value)
    ensures r.Some? ==> forall j :: i <= j < r.value ==> !GroupCueAt(fuzzy, tokens, columns, j)
    ensures r.None? ==> forall j :: i <= j < |tokens| ==> !GroupCueAt(fuzzy, tokens, columns, j)
  {
    if i >= |tokens| then None
    else if GroupCueAt(fuzzy, tokens, columns, i) then Some(i)
    else FirstGroupCue(fuzzy, tokens, columns, i + 1)
  }

  /** `detect_group_by`: the column matched by the token after the first
      grouping cue whose next token matches some schema column. */
  function DetectGroupBy(fuzzy: Matcher, tokens: seq<string>, schema: Schema): (r: Option<string>)
    requires IsMatcher(fuzzy)
    ensures r.Some? ==> r.value in AllColumns(schema) && r.value != ""
    ensures r.None? <==> forall j :: 0 <= j < |tokens| ==> !GroupCueAt(fuzzy, tokens, AllColumns(schema), j)
  {
    match FirstGroupCue(fuzzy, tokens, AllColumns(schema), 0)
    case None => None
    case Some(j) => Truthy(fuzzy(tokens[j + 1], AllColumns(schema)))
  }

  // ---------------------------------------------------------------------
  // Aggregation

  /** The table from aggregation words to SQL aggregate functions. */
  const AggregationWords: map<string, string> := map[
    "total" := "SUM",
    "sum" := "SUM",
    "average" := "AVG",
    "mean" := "AVG",
    "maximum" := "MAX",
    "max" := "MAX",
    "minimum" := "MIN",
    "min" := "MIN",
    "count" := "COUNT",
    "number of" := "COUNT"
  ]

  predicate AggregationCueAt(fuzzy: Matcher, tokens: seq<string>, columns: seq<string>, i: nat)
    requires i < |tokens|
  {
    tokens[i] in AggregationWords && i + 1 < |tokens| && Truthy(fuzzy(tokens[i + 1], columns)).Some?
  }

  function FirstAggregationCue(fuzzy: Matcher, tokens: seq<string>, columns: seq<string>, i: nat): (r: Option<nat>)
    decreases |tokens| - i
    ensures r.Some? ==> i <= r.value < |tokens| && AggregationCueAt(fuzzy, tokens, columns, r.value)
    ensures r.Some? ==> forall j :: i <= j < r.value ==> !AggregationCueAt(fuzzy, tokens, columns, j)
    ensures r.None? ==> forall j :: i <= j < |tokens| ==> !AggregationCueAt(fuzzy, tokens, columns, j)
  {
    if i >= |tokens| then None
    else if AggregationCueAt(fuzzy, tokens, columns, i) then Some(i)
    else FirstAggregationCue(fuzzy, tokens, columns, i + 1)
  }

  /** `detect_aggregation`: the function of the first aggregation word
      whose next token matches a column, with that column; `(None, None)`
      is `None`. */
  function DetectAggregation(fuzzy: Matcher, tokens: seq<string>, schema: Schema): (r: Option<(string, string)>)
    requires IsMatcher(fuzzy)
    ensures r.Some? ==> r.value.0 in AggregationWords.Values
    ensures r.Some? ==> r.value.1 in AllColumns(schema) && r.value.1 != ""
    ensures r.None? <==> forall j :: 0 <= j < |tokens| ==> !AggregationCueAt(fuzzy, tokens, AllColumns(schema), j)
  {
    match FirstAggregationCue(fuzzy, tokens, AllColumns(schema), 0)
    case None => None
    case Some(j) => Some((AggregationWords[tokens[j]], Truthy(fuzzy(tokens[j + 1], AllColumns(schema))).value))
  }

  // ---------------------------------------------------------------------
  // Limit and offset

  const LimitCues: seq<string> := ["top", "first", "last"]
  const OffsetCues: seq<string> := ["skip", "offset", "after"]

  /** A digit token at `i` directly after one of `cues`. */
  predicate CuedNumberAt(tokens: seq<string>, cues: seq<string>, i: nat)
    requires i < |tokens|
  {
    IsDigits(tokens[i]) && i > 0 && tokens[i - 1] in cues
  }

  /** The last cued number among the first `n` tokens. */
  function LastCuedNumber(tokens: seq<string>, cues: seq<string>, n: nat): (r: Option<nat>)
    requires n <= |tokens|
    ensures r.Some? ==> 0 < r.value < n && CuedNumberAt(tokens, cues, r.value)
    ensures r.Some? ==> forall j :: r.value < j < n ==> !CuedNumberAt(tokens, cues, j)
    ensures r.None? ==> forall j :: 0 <= j < n ==> !CuedNumberAt(tokens, cues, j)
  {
    if n == 0 then None
    else if CuedNumberAt(tokens, cues, n - 1) then Some(n - 1)
    else LastCuedNumber(tokens, cues, n - 1)
  }

  /** The number the last cue among the first `n` tokens sets, if any. */
  function CuedValue(tokens: seq<string>, cues: seq<string>, n: nat): Option<nat>
    requires n <= |tokens|
  {
    match LastCuedNumber(tokens, cues, n)
    case None => None
    case Some(k) => Some(ParseNat(tokens[k]))
  }

  /** Scanning token `i` updates the cued value exactly when it is cued. */
  lemma CuedValueStep(tokens: seq<string>, cues: seq<string>, i: nat)
    requires i < |tokens|
    ensures CuedValue(tokens, cues, i + 1) ==
      if CuedNumberAt(tokens, cues, i) then Some(ParseNat(tokens[i])) else CuedValue(tokens, cues, i)
  {
  }

  /** `detect_limit_and_offset` */
  method DetectLimitAndOffset(tokens: seq<string>) returns (limit: Option<nat>, offset: nat)
    ensures limit == match LastCuedNumber(tokens, LimitCues, |tokens|)
      case None => None
      case Some(i) => Some(ParseNat(tokens[i]))
    ensures offset == match LastCuedNumber(tokens, OffsetCues, |tokens|)
      case None => 0
      case Some(i) => ParseNat(tokens[i])
  {
    limit := None;
    offset := 0;
    for i := 0 to |tokens|
      invariant limit == CuedValue(tokens, LimitCues, i)
      invariant offset == match CuedValue(tokens, OffsetCues, i) case None => 0 case Some(v) => v
    {
      CuedValueStep(tokens, LimitCues, i);
      CuedValueStep(tokens, OffsetCues, i);
      if IsDigits(tokens[i]) {
        var num := ParseNat(tokens[i]);
        if i > 0 && tokens[i - 1] in LimitCues {
          assert tokens[i - 1] !in OffsetCues;
          limit := Some(num);
        } else if i > 0 && tokens[i - 1] in OffsetCues {
          offset := num;
        }
      }
    }
  }

  // ---------------------------------------------------------------------
  // Sort

  const SortCues: seq<string> := ["order", "ordered", "sort", "sorted"]

  /** A sort cue that is not the last token. */
  predicate SortCueAt(tokens: seq<string>, i: nat)
    requires i < |tokens|
  {
    i + 1 < |tokens| && tokens[i] in SortCues
  }

  function FirstSortCue(tokens: seq<string>, i: nat): (r: Option<nat>)
    decreases |tokens| - i
    ensures r.Some? ==> i <= r.value < |tokens| && SortCueAt(tokens, r.value)
    ensures r.Some? ==> forall j :: i <= j < r.value ==> !SortCueAt(tokens, j)
    ensures r.None? ==> forall j :: i <= j < |tokens| ==> !SortCueAt(tokens, j)
  {
    if i >= |tokens| then None
    else if SortCueAt(tokens, i) then Some(i)
    else FirstSortCue(tokens, i + 1)
  }

  /** `detect_limit_and_sort`: only the first sort cue counts; its column is
      whatever the next token matches (possibly nothing), and the order is
      "DESC" exactly when the token two places on says so. */
  function DetectLimitAndSort(fuzzy: Matcher, tokens: seq<string>, schema: Schema): (r: (Option<string>, Option<string>))
    requires IsMatcher(fuzzy)
    ensures r.1.None? <==> forall j :: 0 <= j < |tokens| ==> !SortCueAt(tokens, j)
    ensures r.1.Some? ==> r.1.value == "ASC" || r.1.value == "DESC"
    ensures r.1 == Some("DESC") <==>
      (FirstSortCue(tokens, 0).Some? &&
       var i := FirstSortCue(tokens, 0).value;
       i + 2 < |tokens| && tokens[i + 2] in ["descending", "desc"])
    ensures r.1.None? ==> r.0.None?
    ensures r.0.Some? ==> r.0.value in AllColumns(schema) && r.0.value != ""
  {
    match FirstSortCue(tokens, 0)
    case None => (None, None)
    case Some(i) =>
      var column := Truthy(fuzzy(tokens[i + 1], AllColumns(schema)));
      var order := if i + 2 < |tokens| && tokens[i + 2] in ["descending", "desc"] then "DESC" else "ASC";
      (column, Some(order))
  }
}
