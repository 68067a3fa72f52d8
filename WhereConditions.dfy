/** `detect_where_conditions` (query_interpreter.py): a left-to-right scan
    with an index pointer. At a token that is a schema column, the next
    three, two or one tokens (in that order) are looked up in the
    natural-language operator table; on a hit, the token after the phrase
    is the value and the scan resumes after it. */
module WhereConditions {
  import opened Text
  import opened Options
  import opened Schemas

  /** The table from English comparison phrases to SQL operators. */
  const OperatorPhrases: map<string, string> := map[
    "less than" := "<",
    "at most" := "<=",
    "less than or equal" := "<=",
    "greater than" := ">",
    "more than" := ">",
    "at least" := ">=",
    "greater than or equal to" := ">=",
    "equal" := "=",
    "equal to" := "=",
    "is equal" := "=",
    "is not equal to" := "!=",
    "not equal to" := "!="
  ]

  /** A condition's value as Python holds it: `None`, an `int`, or a string
      (the token wrapped in single quotes, or the empty token unchanged). */
  datatype CondValue = NoneValue | IntValue(n: nat) | StrValue(s: string)

  datatype Condition = Condition(column: string, op: string, value: CondValue)

  /** One detected condition with where it was found: the column token's
      position and the length of the operator phrase after it. */
  datatype Detection = Detection(pos: nat, phraseLength: nat, condition: Condition)

  function Min(a: nat, b: nat): nat { if a < b then a else b }

  /** `" ".join(tokens[i + 1:i + 1 + length])`, with Python's slice clamping */
  function Phrase(tokens: seq<string>, i: nat, length: nat): string
    requires i < |tokens|
  {
    Join(" ", tokens[i + 1..Min(i + 1 + length, |tokens|)])
  }

  /** The operator phrase after position `i`, longest first. */
  function OperatorAt(tokens: seq<string>, i: nat): Option<(nat, string)>
    requires i < |tokens|
  {
    if Phrase(tokens, i, 3) in OperatorPhrases then Some((3, OperatorPhrases[Phrase(tokens, i, 3)]))
    else if Phrase(tokens, i, 2) in OperatorPhrases then Some((2, OperatorPhrases[Phrase(tokens, i, 2)]))
    else if Phrase(tokens, i, 1) in OperatorPhrases then Some((1, OperatorPhrases[Phrase(tokens, i, 1)]))
    else None
  }

  /** The phrase lengths tried, in order. */
  const PhraseLengths: seq<nat> := [3, 2, 1]

  /** The first length whose phrase is an operator phrase decides. */
  lemma OperatorAtFirstHit(tokens: seq<string>, i: nat, k: nat)
    requires i < |tokens| && k < 3
    requires forall j :: 0 <= j < k ==> Phrase(tokens, i, PhraseLengths[j]) !in OperatorPhrases
    requires Phrase(tokens, i, PhraseLengths[k]) in OperatorPhrases
    ensures OperatorAt(tokens, i) == Some((PhraseLengths[k], OperatorPhrases[Phrase(tokens, i, PhraseLengths[k])]))
  {
    if k == 1 {
      assert Phrase(tokens, i, PhraseLengths[0]) !in OperatorPhrases;
    } else if k == 2 {
      assert Phrase(tokens, i, PhraseLengths[0]) !in OperatorPhrases;
      assert Phrase(tokens, i, PhraseLengths[1]) !in OperatorPhrases;
    }
  }

  lemma OperatorAtMiss(tokens: seq<string>, i: nat)
    requires i < |tokens|
    requires forall j :: 0 <= j < 3 ==> Phrase(tokens, i, PhraseLengths[j]) !in OperatorPhrases
    ensures OperatorAt(tokens, i) == None
  {
    assert Phrase(tokens, i, PhraseLengths[0]) !in OperatorPhrases;
    assert Phrase(tokens, i, PhraseLengths[1]) !in OperatorPhrases;
    assert Phrase(tokens, i, PhraseLengths[2]) !in OperatorPhrases;
  }

  /** The phrase `OperatorAt` reports is an operator phrase and no longer
      phrase is one: 3 is tried before 2, and 2 before 1. */
  lemma OperatorAtLongestFirst(tokens: seq<string>, i: nat)
    requires i < |tokens|
    ensures OperatorAt(tokens, i).Some? ==>
      var (length, op) := OperatorAt(tokens, i).value;
      && 1 <= length <= 3
      && Phrase(tokens, i, length) in OperatorPhrases
      && op == OperatorPhrases[Phrase(tokens, i, length)]
      && forall longer :: length < longer <= 3 ==> Phrase(tokens, i, longer) !in OperatorPhrases
    ensures OperatorAt(tokens, i).None? <==>
      forall length :: 1 <= length <= 3 ==> Phrase(tokens, i, length) !in OperatorPhrases
  {
  }

  /** The value taken from position `vi`. */
  function ValueAt(tokens: seq<string>, vi: nat): CondValue {
    if vi >= |tokens| then NoneValue
    else if tokens[vi] != "" && IsDigits(tokens[vi]) then IntValue(ParseNat(tokens[vi]))
    else if tokens[vi] != "" then StrValue("'" + tokens[vi] + "'")
    else StrValue(tokens[vi])
  }

  /** The detections the scan makes when its pointer stands at `i`. */
  function Scan(tokens: seq<string>, columns: seq<string>, i: nat): seq<Detection>
    decreases |tokens| - i
  {
    if i >= |tokens| then []
    else if tokens[i] in columns && OperatorAt(tokens, i).Some? then
      var (length, op) := OperatorAt(tokens, i).value;
      var vi := i + 1 + length;
      [Detection(i, length, Condition(tokens[i], op, ValueAt(tokens, vi)))] + Scan(tokens, columns, vi + 1)
    else Scan(tokens, columns, i + 1)
  }

  function Conditions(ds: seq<Detection>): seq<Condition> {
    if ds == [] then [] else [ds[0].condition] + Conditions(ds[1..])
  }

  /** The inner `for phrase_length in [3, 2, 1]` loop: the first length
      whose phrase is in the operator table, with its operator. */
  method FindOperator(tokens: seq<string>, i: nat) returns (hit: Option<(nat, string)>)
    requires i < |tokens|
    ensures hit == OperatorAt(tokens, i)
  {
    var lengths := PhraseLengths;
    var k := 0;
    while k < 3
      invariant 0 <= k <= 3
      invariant forall j :: 0 <= j < k ==> Phrase(tokens, i, lengths[j]) !in OperatorPhrases
    {
      var phraseLength := lengths[k];
      var phrase := Join(" ", tokens[i + 1..Min(i + 1 + phraseLength, |tokens|)]);
      if phrase in OperatorPhrases {
        OperatorAtFirstHit(tokens, i, k);
        return Some((phraseLength, OperatorPhrases[phrase]));
      }
      k := k + 1;
    }
    OperatorAtMiss(tokens, i);
    return None;
  }

  /** The value token after the phrase, converted as the source does. */
  method ReadValue(tokens: seq<string>, valueIndex: nat) returns (value: CondValue)
    ensures value == ValueAt(tokens, valueIndex)
  {
    value := NoneValue;
    if valueIndex < |tokens| {
      var v := tokens[valueIndex];
      if v != "" && IsDigits(v) {
        value := IntValue(ParseNat(v));
      } else if v != "" {
        value := StrValue("'" + v + "'");
      } else {
        value := StrValue(v);
      }
    }
  }

  method DetectWhereConditions(tokens: seq<string>, schema: Schema) returns (conditions: seq<Condition>)
    ensures conditions == Conditions(Scan(tokens, AllColumns(schema), 0))
  {
    var allColumns := AllColumns(schema);
    conditions := [];
    var i: nat := 0;
    while i < |tokens|
      invariant conditions + Conditions(Scan(tokens, allColumns, i)) == Conditions(Scan(tokens, allColumns, 0))
      decreases |tokens| - i
    {
      var next := i + 1;
      var hit := None;
      if tokens[i] in allColumns {
        hit := FindOperator(tokens, i);
      }
      if hit.Some? {
        var (length, op) := hit.value;
        var valueIndex := i + 1 + length;
        var value := ReadValue(tokens, valueIndex);
        HitStep(tokens, allColumns, i, conditions, Conditions(Scan(tokens, allColumns, 0)));
        conditions := conditions + [Condition(tokens[i], op, value)];
        next := valueIndex + 1;
      } else {
        ScanMiss(tokens, allColumns, i);
      }
      i := next;
    }
  }

  lemma ScanHit(tokens: seq<string>, columns: seq<string>, i: nat)
    requires i < |tokens| && tokens[i] in columns && OperatorAt(tokens, i).Some?
    ensures
      var (length, op) := OperatorAt(tokens, i).value;
      Conditions(Scan(tokens, columns, i)) ==
        [Condition(tokens[i], op, ValueAt(tokens, i + 1 + length))] + Conditions(Scan(tokens, columns, i + 1 + length + 1))
  {
    var (length, op) := OperatorAt(tokens, i).value;
    var d := Detection(i, length, Condition(tokens[i], op, ValueAt(tokens, i + 1 + length)));
    var rest := Scan(tokens, columns, i + 1 + length + 1);
    assert Scan(tokens, columns, i) == [d] + rest;
    assert ([d] + rest)[1..] == rest;
  }

  /** The loop's invariant survives a hit: the recorded condition is the
      first one the scan from `i` yields. */
  lemma HitStep(tokens: seq<string>, columns: seq<string>, i: nat, done: seq<Condition>, total: seq<Condition>)
    requires i < |tokens| && tokens[i] in columns && OperatorAt(tokens, i).Some?
    requires done + Conditions(Scan(tokens, columns, i)) == total
    ensures
      var (length, op) := OperatorAt(tokens, i).value;
      done + [Condition(tokens[i], op, ValueAt(tokens, i + 1 + length))]
        + Conditions(Scan(tokens, columns, i + 1 + length + 1)) == total
  {
    var (length, op) := OperatorAt(tokens, i).value;
    var c := Condition(tokens[i], op, ValueAt(tokens, i + 1 + length));
    var later := Conditions(Scan(tokens, columns, i + 1 + length + 1));
    ScanHit(tokens, columns, i);
    assert done + [c] + later == done + ([c] + later);
  }

  lemma ScanMiss(tokens: seq<string>, columns: seq<string>, i: nat)
    requires i < |tokens| && !(tokens[i] in columns && OperatorAt(tokens, i).Some?)
    ensures Scan(tokens, columns, i) == Scan(tokens, columns, i + 1)
  {
  }

  /** What every detection satisfies: its column token is a schema
      column, its phrase is the longest operator phrase after it, and its
      value is an int for a digit token, a quoted string for any other
      token, and `None` past the end. */
  predicate WellDetected(tokens: seq<string>, columns: seq<string>, d: Detection) {
    var vi := d.pos + 1 + d.phraseLength;
    && d.pos < |tokens|
    && d.condition.column == tokens[d.pos] && d.condition.column in columns
    && 1 <= d.phraseLength <= 3
    && Phrase(tokens, d.pos, d.phraseLength) in OperatorPhrases
    && d.condition.op == OperatorPhrases[Phrase(tokens, d.pos, d.phraseLength)]
    && d.condition.op in OperatorPhrases.Values
    && (forall longer :: d.phraseLength < longer <= 3 ==> Phrase(tokens, d.pos, longer) !in OperatorPhrases)
    && (vi >= |tokens| ==> d.condition.value == NoneValue)
    && (vi < |tokens| && IsDigits(tokens[vi]) ==> d.condition.value == IntValue(ParseNat(tokens[vi])))
    && (vi < |tokens| && tokens[vi] != "" && !IsDigits(tokens[vi]) ==>
          d.condition.value == StrValue("'" + tokens[vi] + "'"))
  }

  /** The scan from `i` detects nothing before `i`. */
  lemma {:induction false} ScanFrom(tokens: seq<string>, columns: seq<string>, i: nat, a: nat)
    requires a < |Scan(tokens, columns, i)|
    ensures i <= Scan(tokens, columns, i)[a].pos
    decreases |tokens| - i
  {
    if tokens[i] in columns && OperatorAt(tokens, i).Some? {
      var (length, op) := OperatorAt(tokens, i).value;
      var d := Detection(i, length, Condition(tokens[i], op, ValueAt(tokens, i + 1 + length)));
      var rest := Scan(tokens, columns, i + 1 + length + 1);
      assert Scan(tokens, columns, i) == [d] + rest;
      if a > 0 {
        ScanFrom(tokens, columns, i + 1 + length + 1, a - 1);
        assert Scan(tokens, columns, i)[a] == rest[a - 1];
      }
    } else {
      ScanFrom(tokens, columns, i + 1, a);
    }
  }

  lemma {:induction false} ScanDetectionSound(tokens: seq<string>, columns: seq<string>, i: nat, a: nat)
    requires a < |Scan(tokens, columns, i)|
    ensures WellDetected(tokens, columns, Scan(tokens, columns, i)[a])
    decreases |tokens| - i
  {
    if tokens[i] in columns && OperatorAt(tokens, i).Some? {
      var (length, op) := OperatorAt(tokens, i).value;
      var d := Detection(i, length, Condition(tokens[i], op, ValueAt(tokens, i + 1 + length)));
      var rest := Scan(tokens, columns, i + 1 + length + 1);
      assert Scan(tokens, columns, i) == [d] + rest;
      if a > 0 {
        ScanDetectionSound(tokens, columns, i + 1 + length + 1, a - 1);
        assert Scan(tokens, columns, i)[a] == rest[a - 1];
      } else {
        DetectionAtSound(tokens, columns, i);
      }
    } else {
      ScanDetectionSound(tokens, columns, i + 1, a);
    }
  }

  /** The detection the scan makes at a column followed by an operator
      phrase is well formed. */
  lemma DetectionAtSound(tokens: seq<string>, columns: seq<string>, i: nat)
    requires i < |tokens| && tokens[i] in columns && OperatorAt(tokens, i).Some?
    ensures
      var (length, op) := OperatorAt(tokens, i).value;
      WellDetected(tokens, columns, Detection(i, length, Condition(tokens[i], op, ValueAt(tokens, i + 1 + length))))
  {
    var (length, op) := OperatorAt(tokens, i).value;
    OperatorAtLongestFirst(tokens, i);
    assert op in OperatorPhrases.Values;
  }

  /** Every detection made from pointer `i` on is well formed and lies at
      or after `i`. */
  lemma ScanSound(tokens: seq<string>, columns: seq<string>, i: nat)
    ensures forall d :: d in Scan(tokens, columns, i) ==> i <= d.pos && WellDetected(tokens, columns, d)
  {
    forall d | d in Scan(tokens, columns, i) ensures i <= d.pos && WellDetected(tokens, columns, d) {
      var a :| 0 <= a < |Scan(tokens, columns, i)| && Scan(tokens, columns, i)[a] == d;
      ScanFrom(tokens, columns, i, a);
      ScanDetectionSound(tokens, columns, i, a);
    }
  }

  /** Conditions come out left to right, and no token consumed as the
      operator phrase or the value of one condition starts another. */
  lemma {:induction false} ScanOrdered(tokens: seq<string>, columns: seq<string>, i: nat)
    ensures forall a, b :: 0 <= a < b < |Scan(tokens, columns, i)| ==>
      Scan(tokens, columns, i)[a].pos + Scan(tokens, columns, i)[a].phraseLength + 2 <= Scan(tokens, columns, i)[b].pos
    decreases |tokens| - i
  {
    if i < |tokens| {
      var ds := Scan(tokens, columns, i);
      if tokens[i] in columns && OperatorAt(tokens, i).Some? {
        var (length, op) := OperatorAt(tokens, i).value;
        var next := i + 1 + length + 1;
        var d := Detection(i, length, Condition(tokens[i], op, ValueAt(tokens, i + 1 + length)));
        var rest := Scan(tokens, columns, next);
        assert ds == [d] + rest;
        ScanOrdered(tokens, columns, next);
        forall a, b | 0 <= a < b < |ds|
          ensures ds[a].pos + ds[a].phraseLength + 2 <= ds[b].pos
        {
          assert ds[b] == rest[b - 1];
          if a == 0 {
            ScanFrom(tokens, columns, next, b - 1);
          } else {
            assert ds[a] == rest[a - 1];
          }
        }
      } else {
        ScanOrdered(tokens, columns, i + 1);
      }
    }
  }

  /** Position `p` falls in the span (column, phrase and value) of one of
      the detections. */
  predicate Covered(ds: seq<Detection>, p: nat) {
    exists a :: 0 <= a < |ds| && ds[a].pos <= p <= ds[a].pos + ds[a].phraseLength + 1
  }

  /** Nothing is missed: every column token followed by an operator phrase
      either starts a condition or was consumed by an earlier one. */
  lemma {:induction false} ScanComplete(tokens: seq<string>, columns: seq<string>, i: nat, p: nat)
    requires i <= p < |tokens| && tokens[p] in columns && OperatorAt(tokens, p).Some?
    ensures Covered(Scan(tokens, columns, i), p)
    decreases |tokens| - i
  {
    var ds := Scan(tokens, columns, i);
    if tokens[i] in columns && OperatorAt(tokens, i).Some? {
      var (length, op) := OperatorAt(tokens, i).value;
      var next := i + 1 + length + 1;
      var d := Detection(i, length, Condition(tokens[i], op, ValueAt(tokens, i + 1 + length)));
      var rest := Scan(tokens, columns, next);
      assert ds == [d] + rest;
      if p < next {
        assert ds[0].pos <= p <= ds[0].pos + ds[0].phraseLength + 1;
      } else {
        ScanComplete(tokens, columns, next, p);
        var a :| 0 <= a < |rest| && rest[a].pos <= p <= rest[a].pos + rest[a].phraseLength + 1;
        assert ds[a + 1] == rest[a];
      }
    } else {
      ScanComplete(tokens, columns, i + 1, p);
    }
  }

  lemma {:induction false} ConditionsOfScan(ds: seq<Detection>, a: nat)
    requires a < |ds|
    ensures |Conditions(ds)| == |ds| && Conditions(ds)[a] == ds[a].condition
  {
    if a > 0 {
      ConditionsOfScan(ds[1..], a - 1);
    } else {
      ConditionsLength(ds);
    }
  }

  lemma {:induction false} ConditionsLength(ds: seq<Detection>)
    ensures |Conditions(ds)| == |ds|
  {
    if ds != [] {
      ConditionsLength(ds[1..]);
    }
  }
}
