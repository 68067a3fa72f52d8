/** Column classification used by the sample-query generator
    (query_generation.py): the amount-like test, `find_aggregation_column`,
    the group-by candidates and the integer core of
    `is_evenly_distributed`. Column names arrive already wrapped in
    backticks and split into numeric and categorical lists. */
module SampleColumns {
  import opened Text
  import opened Options

  /** The result of `extract_columns_by_type`. */
  datatype ColumnsByType = ColumnsByType(numeric: seq<string>, categorical: seq<string>)

  /** The words of the regular expression `(price|quantity|budget|amount|total)`. */
  const AmountWords: seq<string> := ["price", "quantity", "budget", "amount", "total"]

  /** The lower-cased name mentions an amount. */
  predicate AmountLike(column: string) {
    ContainsAny(Lower(column), AmountWords)
  }

  // ---------------------------------------------------------------------
  // find_aggregation_column

  function FirstAmountLike(columns: seq<string>, i: nat): (r: Option<nat>)
    decreases |columns| - i
    ensures r.Some? ==> i <= r.value < |columns| && AmountLike(columns[r.value])
    ensures r.Some? ==> forall j :: i <= j < r.value ==> !AmountLike(columns[j])
    ensures r.None? ==> forall j :: i <= j < |columns| ==> !AmountLike(columns[j])
  {
    if i >= |columns| then None
    else if AmountLike(columns[i]) then Some(i)
    else FirstAmountLike(columns, i + 1)
  }

  /** `find_aggregation_column`: the first amount-like numeric column. */
  function FindAggregationColumn(columns: ColumnsByType): (r: Option<string>)
    ensures r.Some? ==> r.value in columns.numeric && AmountLike(r.value)
    ensures r.None? <==> forall c :: c in columns.numeric ==> !AmountLike(c)
  {
    match FirstAmountLike(columns.numeric, 0)
    case None => None
    case Some(k) => Some(columns.numeric[k])
  }

  // ---------------------------------------------------------------------
  // Group-by candidates

  /** The columns that are not amount-like, in their original order. */
  function NonAmount(columns: seq<string>): (r: seq<string>)
    ensures forall c :: c in r <==> c in columns && !AmountLike(c)
    ensures |r| <= |columns|
  {
    if columns == [] then []
    else (if AmountLike(columns[0]) then [] else [columns[0]]) + NonAmount(columns[1..])
  }

  function GroupByCandidates(columns: ColumnsByType): seq<string> {
    NonAmount(columns.categorical + columns.numeric)
  }

  // ---------------------------------------------------------------------
  // is_evenly_distributed, on integers

  /** A `COUNT(*)` of a non-empty group. */
  type GroupCount = n: nat | n >= 1 witness 1

  function Sum(counts: seq<GroupCount>): nat {
    if counts == [] then 0 else counts[0] + Sum(counts[1..])
  }

  /** The group holds at least a quarter of the total, stated without
      division. */
  predicate ReachesQuarter(count: nat, total: nat) {
    4 * count >= total
  }

  /** How many groups hold at least a quarter of `total`. */
  function QuarterCount(counts: seq<GroupCount>, total: nat): (n: nat)
    ensures n <= |counts|
  {
    if counts == [] then 0
    else (if ReachesQuarter(counts[0], total) then 1 else 0) + QuarterCount(counts[1..], total)
  }

  /** `is_evenly_distributed`, given the group counts of the column. */
  predicate EvenlyDistributed(counts: seq<GroupCount>) {
    QuarterCount(counts, Sum(counts)) > 1
  }

  lemma {:induction false} QuarterCountPositive(counts: seq<GroupCount>, total: nat)
    ensures QuarterCount(counts, total) > 0 <==>
      exists i :: 0 <= i < |counts| && ReachesQuarter(counts[i], total)
  {
    if counts != [] {
      QuarterCountPositive(counts[1..], total);
      assert forall i :: 0 < i < |counts| ==> counts[i] == counts[1..][i - 1];
      if QuarterCount(counts[1..], total) > 0 {
        var i :| 0 <= i < |counts[1..]| && ReachesQuarter(counts[1..][i], total);
        assert ReachesQuarter(counts[i + 1], total);
      }
    }
  }

  lemma {:induction false} QuarterCountTwo(counts: seq<GroupCount>, total: nat)
    ensures QuarterCount(counts, total) > 1 <==>
      exists i, j :: 0 <= i < j < |counts| && ReachesQuarter(counts[i], total) && ReachesQuarter(counts[j], total)
  {
    if counts != [] {
      var tail := counts[1..];
      QuarterCountTwo(tail, total);
      QuarterCountPositive(tail, total);
      assert forall i :: 0 < i < |counts| ==> counts[i] == tail[i - 1];
      if QuarterCount(counts, total) > 1 {
        if ReachesQuarter(counts[0], total) {
          var j :| 0 <= j < |tail| && ReachesQuarter(tail[j], total);
          assert ReachesQuarter(counts[j + 1], total);
        } else {
          var i, j :| 0 <= i < j < |tail| && ReachesQuarter(tail[i], total) && ReachesQuarter(tail[j], total);
          assert ReachesQuarter(counts[i + 1], total) && ReachesQuarter(counts[j + 1], total);
        }
      }
      if exists i, j :: 0 <= i < j < |counts| && ReachesQuarter(counts[i], total) && ReachesQuarter(counts[j], total) {
        var i, j :| 0 <= i < j < |counts| && ReachesQuarter(counts[i], total) && ReachesQuarter(counts[j], total);
        if i == 0 {
          assert ReachesQuarter(tail[j - 1], total);
        } else {
          assert ReachesQuarter(tail[i - 1], total) && ReachesQuarter(tail[j - 1], total);
        }
      }
    }
  }

  /** The test holds exactly when two different groups each hold at least
      a quarter of the rows. */
  lemma EvenlyDistributedMeaning(counts: seq<GroupCount>)
    ensures EvenlyDistributed(counts) <==>
      exists i, j :: 0 <= i < j < |counts| && 4 * counts[i] >= Sum(counts) && 4 * counts[j] >= Sum(counts)
  {
    QuarterCountTwo(counts, Sum(counts));
  }

  /** The total count of the groups reaching a quarter. */
  function QuarterSum(counts: seq<GroupCount>, total: nat): nat {
    if counts == [] then 0
    else (if ReachesQuarter(counts[0], total) then counts[0] else 0) + QuarterSum(counts[1..], total)
  }

  lemma {:induction false} QuarterSumBounds(counts: seq<GroupCount>, total: nat)
    ensures QuarterSum(counts, total) <= Sum(counts)
    ensures 4 * QuarterSum(counts, total) >= QuarterCount(counts, total) * total
  {
    if counts != [] {
      var tail := counts[1..];
      QuarterSumBounds(tail, total);
      var q := QuarterCount(tail, total);
      if ReachesQuarter(counts[0], total) {
        assert QuarterCount(counts, total) == q + 1;
        assert (q + 1) * total == q * total + total;
      } else {
        assert QuarterCount(counts, total) == q;
      }
    }
  }

  /** At most four groups can each hold a quarter of the rows. */
  lemma AtMostFourQuarters(counts: seq<GroupCount>)
    ensures QuarterCount(counts, Sum(counts)) <= 4
  {
    QuarterSumBounds(counts, Sum(counts));
    if counts != [] {
      assert Sum(counts) >= counts[0] >= 1;
      CancelFactor(QuarterCount(counts, Sum(counts)), Sum(counts));
    }
  }

  lemma CancelFactor(q: nat, t: nat)
    requires t >= 1 && q * t <= 4 * t
    ensures q <= 4
  {
    assert q * t - 4 * t == (q - 4) * t;
  }
}
