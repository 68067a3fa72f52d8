/** The sample-query generator's driver logic (query_generation.py): the
    LIMIT/OFFSET step, the final clean-up of a sample, the table weights,
    the keyword-first curation of `generate_sample_queries` and the retry
    loop of `construct_dynamic_query_with_keyword`. Query execution is
    replaced by its outcome (a row count, or none when it raised), and the
    random draws by parameters. */
module SampleQueries {
  import opened Text
  import opened Options
  import opened Discovery

  // ---------------------------------------------------------------------
  // LIMIT and OFFSET

  /** The substrings whose presence counts as an aggregate query. */
  const AggregateMarkers: seq<string> := ["min(", "max(", "avg(", "sum(", "count("]

  /** The keyword variant also treats a sorted query as aggregated. */
  const KeywordAggregateMarkers: seq<string> := AggregateMarkers + ["order by"]

  function Min(a: int, b: int): int { if a <= b then a else b }
  function Max(a: int, b: int): int { if a >= b then a else b }

  /** The ranges of `random.randint(1, 20)` and of the offset draw. */
  predicate PageDraw(rowCount: nat, limit: nat, offset: nat) {
    1 <= limit <= 20 && offset <= Max(0, Min(rowCount - limit, 20))
  }

  predicate Paginated(rowCount: Option<nat>, threshold: nat) {
    rowCount.Some? && rowCount.value > threshold
  }

  /** The LIMIT/OFFSET step: `(query, description)` afterwards. A query
      that raised (`rowCount == None`) or returned few rows is left alone. */
  function Paginate(query: string, description: string, rowCount: Option<nat>, threshold: nat,
                    markers: seq<string>, limit: nat, offset: nat): (r: (string, string))
    requires Paginated(rowCount, threshold) ==> PageDraw(rowCount.value, limit, offset)
    ensures !Paginated(rowCount, threshold) ==> r == (query, description)
    ensures Paginated(rowCount, threshold) ==>
      IsPrefix(query + " LIMIT " + NatToString(limit), r.0)
      && IsPrefix(description + " limiting results to " + NatToString(limit), r.1)
    ensures Paginated(rowCount, threshold) && ContainsAny(Lower(query), markers) ==>
      r == (query + " LIMIT " + NatToString(limit), description + " limiting results to " + NatToString(limit))
    ensures Paginated(rowCount, threshold) && !ContainsAny(Lower(query), markers) ==>
      EndsWith(r.0, " OFFSET " + NatToString(offset)) && EndsWith(r.1, " with offset " + NatToString(offset))
  {
    if !Paginated(rowCount, threshold) then (query, description)
    else
      var q := query + " LIMIT " + NatToString(limit);
      var d := description + " limiting results to " + NatToString(limit);
      if ContainsAny(Lower(query), markers) then (q, d)
      else
        assert (q + " OFFSET " + NatToString(offset))[..|q|] == q;
        assert (d + " with offset " + NatToString(offset))[..|d|] == d;
        (q + " OFFSET " + NatToString(offset), d + " with offset " + NatToString(offset))
  }

  /** Above the default threshold of 20 rows the page lies inside the
      result: at least `offset + limit` rows exist, and the offset is at
      most 20. */
  lemma PageInsideResult(rowCount: nat, threshold: nat, limit: nat, offset: nat)
    requires threshold >= 19 && rowCount > threshold && PageDraw(rowCount, limit, offset)
    ensures offset + limit <= rowCount && offset <= 20
  {
  }

  // ---------------------------------------------------------------------
  // Final clean-up

  datatype Sample = Sample(description: string, query: string)

  /** The description, trimmed and capitalised, ends with a full stop; the
      query loses its trailing semicolons and gets exactly one. */
  function Finalize(description: string, query: string): (s: Sample)
    ensures EndsWith(s.query, ";") && EndsWith(s.description, ".")
    ensures |s.query| < 2 || s.query[|s.query| - 2] != ';'
  {
    RStripCharLast(query, ';');
    Sample(Capitalize(Strip(description)) + ".", RStripChar(query, ';') + ";")
  }

  lemma {:induction false} RStripCharLast(s: string, c: char)
    ensures RStripChar(s, c) == [] || RStripChar(s, c)[|RStripChar(s, c)| - 1] != c
  {
    if s != [] && s[|s| - 1] == c {
      RStripCharLast(s[..|s| - 1], c);
    }
  }

  lemma {:induction false} ContainsDropLast(s: string, c: char, sub: string)
    requires Contains(s + [c], sub) && c !in sub
    ensures Contains(s, sub)
    decreases |s|
  {
    if IsPrefix(sub, s + [c]) {
      assert (s + [c])[|s|] == c;
      assert |sub| <= |s|;
      assert s[..|sub|] == (s + [c])[..|sub|];
    } else if s == [] {
      assert (s + [c])[1..] == [];
    } else {
      assert (s + [c])[1..] == s[1..] + [c];
      ContainsDropLast(s[1..], c, sub);
    }
  }

  lemma {:induction false} RStripKeeps(s: string, c: char, sub: string)
    requires Contains(s, sub) && c !in sub
    ensures Contains(RStripChar(s, c), sub)
    decreases |s|
  {
    if s != [] && s[|s| - 1] == c {
      assert s == s[..|s| - 1] + [c];
      ContainsDropLast(s[..|s| - 1], c, sub);
      RStripKeeps(s[..|s| - 1], c, sub);
    }
  }

  lemma {:induction false} LowerRStrip(s: string)
    ensures Lower(RStripChar(s, ';')) == RStripChar(Lower(s), ';')
    decreases |s|
  {
    if s != [] && s[|s| - 1] == ';' {
      assert Lower(s)[..|s| - 1] == Lower(s[..|s| - 1]);
      LowerRStrip(s[..|s| - 1]);
    }
  }

  /** A keyword without `;` that occurs in the lower-cased query still
      occurs in the lower-cased final query. */
  lemma FinalizeKeepsKeyword(description: string, query: string, keyword: string)
    requires ';' !in keyword && Contains(Lower(query), keyword)
    ensures Contains(Lower(Finalize(description, query).query), keyword)
  {
    var stripped := RStripChar(query, ';');
    LowerRStrip(query);
    RStripKeeps(Lower(query), ';', keyword);
    assert Lower(stripped + ";") == Lower(stripped) + ";";
    ContainsPrefixPart(Lower(stripped), ";", keyword);
  }

  // ---------------------------------------------------------------------
  // weighted_table_selection

  /** The weight of a table whose row count is known (`Some`) or unknown
      (`None`, the `float('inf')` of a failed or missing count). */
  function Weight(rowCount: Option<nat>, threshold: int): (w: nat)
    ensures w == 10 <==> rowCount.Some? && rowCount.value <= threshold
    ensures w == 1 || w == 10
  {
    if rowCount.Some? && rowCount.value <= threshold then 10 else 1
  }

  function RowCountOf(rowCounts: map<string, Option<nat>>, table: string): Option<nat> {
    if table in rowCounts then rowCounts[table] else None
  }

  /** The weight list handed to `random.choices`, one per table. */
  function Weights(rowCounts: map<string, Option<nat>>, tables: seq<string>, threshold: int): (ws: seq<nat>)
    ensures |ws| == |tables|
    ensures forall i :: 0 <= i < |tables| ==> ws[i] == Weight(RowCountOf(rowCounts, tables[i]), threshold)
  {
    seq(|tables|, i requires 0 <= i < |tables| => Weight(RowCountOf(rowCounts, tables[i]), threshold))
  }

  /** A table with fewer rows never weighs less. */
  lemma WeightMonotone(a: nat, b: Option<nat>, threshold: int)
    requires b.None? || a <= b.value
    ensures Weight(Some(a), threshold) >= Weight(b, threshold)
  {
  }

  // ---------------------------------------------------------------------
  // Keyword-first curation in generate_sample_queries

  const Keywords: seq<string> := ["group by", "where", "order by", "join"]

  predicate Has(s: Sample, keyword: string) {
    Contains(Lower(s.query), keyword)
  }

  predicate Covers(samples: seq<Sample>, keyword: string) {
    exists s :: s in samples && Has(s, keyword)
  }

  /** The first sample at or after `i` whose query mentions `keyword`. */
  function FirstWith(rest: seq<Sample>, keyword: string, i: nat): (r: Option<nat>)
    decreases |rest| - i
    ensures r.Some? ==> i <= r.value < |rest| && Has(rest[r.value], keyword)
    ensures r.Some? ==> forall j :: i <= j < r.value ==> !Has(rest[j], keyword)
    ensures r.None? ==> forall j :: i <= j < |rest| ==> !Has(rest[j], keyword)
  {
    if i >= |rest| then None
    else if Has(rest[i], keyword) then Some(i)
    else FirstWith(rest, keyword, i + 1)
  }

  /** One keyword pass: move the first matching sample to the selection.
      `list.remove` deletes the first equal element, which is this one,
      since no earlier element mentions the keyword. */
  function Pass(selected: seq<Sample>, rest: seq<Sample>, keyword: string): (p: (seq<Sample>, seq<Sample>))
    ensures multiset(p.0) + multiset(p.1) == multiset(selected) + multiset(rest)
    ensures IsPrefixOf(selected, p.0) && |p.0| <= |selected| + 1
    ensures Covers(selected + rest, keyword) ==> Covers(p.0, keyword)
  {
    match FirstWith(rest, keyword, 0)
    case None =>
      assert forall s :: s in selected + rest && Has(s, keyword) ==> s in selected;
      (selected, rest)
    case Some(i) =>
      assert rest == rest[..i] + [rest[i]] + rest[i + 1..];
      assert (selected + [rest[i]])[..|selected|] == selected;
      assert rest[i] in selected + [rest[i]];
      (selected + [rest[i]], rest[..i] + rest[i + 1..])
  }

  /** The keyword passes, one per keyword in order. */
  function Passes(selected: seq<Sample>, rest: seq<Sample>, keywords: seq<string>): (seq<Sample>, seq<Sample>) {
    if keywords == [] then (selected, rest)
    else
      var p := Passes(selected, rest, keywords[..|keywords| - 1]);
      Pass(p.0, p.1, keywords[|keywords| - 1])
  }

  /** The `while len(selected) < 5 and unique_queries` fill. */
  function Fill(selected: seq<Sample>, rest: seq<Sample>): seq<Sample> {
    selected + rest[..Min(Max(5 - |selected|, 0), |rest|)]
  }

  function Curated(pool: seq<Sample>): seq<Sample> {
    var p := Passes([], pool, Keywords);
    Fill(p.0, p.1)
  }

  /** Each pass adds at most one sample and nothing is lost; what a pass
      selects stays selected. */
  lemma {:induction false} PassesPreserve(selected: seq<Sample>, rest: seq<Sample>, keywords: seq<string>)
    ensures var p := Passes(selected, rest, keywords);
      && multiset(p.0) + multiset(p.1) == multiset(selected) + multiset(rest)
      && IsPrefixOf(selected, p.0) && |p.0| <= |selected| + |keywords|
    decreases |keywords|
  {
    if keywords != [] {
      PassesPreserve(selected, rest, keywords[..|keywords| - 1]);
    }
  }

  lemma CoversPermuted(a: seq<Sample>, b: seq<Sample>, keyword: string)
    requires multiset(a) == multiset(b) && Covers(a, keyword)
    ensures Covers(b, keyword)
  {
    var x :| x in a && Has(x, keyword);
    assert x in multiset(a);
  }

  lemma CoversExtended(a: seq<Sample>, b: seq<Sample>, keyword: string)
    requires IsPrefixOf(a, b) && Covers(a, keyword)
    ensures Covers(b, keyword)
  {
    var x :| x in a && Has(x, keyword);
    assert x in b[..|a|];
  }

  lemma {:induction false} PassesCover(selected: seq<Sample>, rest: seq<Sample>, keywords: seq<string>, j: nat)
    requires j < |keywords| && Covers(selected + rest, keywords[j])
    ensures Covers(Passes(selected, rest, keywords).0, keywords[j])
    decreases |keywords|
  {
    var init := keywords[..|keywords| - 1];
    var p := Passes(selected, rest, init);
    var q := Pass(p.0, p.1, keywords[|keywords| - 1]);
    assert q == Passes(selected, rest, keywords);
    if j < |keywords| - 1 {
      assert init[j] == keywords[j];
      PassesCover(selected, rest, init, j);
      CoversExtended(p.0, q.0, keywords[j]);
    } else {
      PassesPreserve(selected, rest, init);
      CoversPermuted(selected + rest, p.0 + p.1, keywords[j]);
    }
  }

  lemma {:induction false} DistinctCount<T>(b: seq<T>, x: T)
    requires Distinct(b)
    ensures multiset(b)[x] <= 1
    decreases |b|
  {
    if b != [] {
      assert b == [b[0]] + b[1..];
      DistinctCount(b[1..], x);
      if x == b[0] {
        assert x !in b[1..];
      }
    }
  }

  lemma SubDistinct<T>(a: seq<T>, b: seq<T>)
    requires multiset(a) <= multiset(b) && Distinct(b)
    ensures Distinct(a)
  {
    forall i, j | 0 <= i < j < |a|
      ensures a[i] != a[j]
    {
      if a[i] == a[j] {
        assert a == a[..j] + a[j..];
        assert a[i] in a[..j] && a[j] in a[j..];
        assert multiset(a)[a[i]] == multiset(a[..j])[a[i]] + multiset(a[j..])[a[i]];
        DistinctCount(b, a[i]);
      }
    }
  }

  /** Filling takes samples from the front of `rest` until there are five. */
  lemma FillDrawn(selected: seq<Sample>, rest: seq<Sample>)
    requires |selected| <= 5
    ensures |Fill(selected, rest)| == Min(5, |selected| + |rest|)
    ensures multiset(Fill(selected, rest)) <= multiset(selected) + multiset(rest)
  {
    var n := Min(Max(5 - |selected|, 0), |rest|);
    assert rest == rest[..n] + rest[n..];
    assert multiset(rest) == multiset(rest[..n]) + multiset(rest[n..]);
    assert multiset(Fill(selected, rest)) == multiset(selected) + multiset(rest[..n]);
  }

  /** The curated list is drawn from the pool and has up to five samples. */
  lemma CuratedDrawn(pool: seq<Sample>)
    ensures |Curated(pool)| == Min(5, |pool|)
    ensures multiset(Curated(pool)) <= multiset(pool)
  {
    var p := Passes([], pool, Keywords);
    PassesPreserve([], pool, Keywords);
    var none: seq<Sample> := [];
    assert multiset(p.0) + multiset(p.1) == multiset(pool) by {
      assert multiset(none) + multiset(pool) == multiset(pool);
    }
    assert |p.0| + |p.1| == |pool| by {
      assert |multiset(p.0) + multiset(p.1)| == |multiset(pool)|;
    }
    FillDrawn(p.0, p.1);
  }

  /** The curated list: five distinct samples from the pool, or all of a
      smaller pool, covering every keyword that some pooled query
      mentions. */
  lemma CuratedMeaning(pool: seq<Sample>)
    requires Distinct(pool)
    ensures |Curated(pool)| == Min(5, |pool|)
    ensures forall s :: s in Curated(pool) ==> s in pool
    ensures Distinct(Curated(pool))
    ensures forall k :: k in Keywords && Covers(pool, k) ==> Covers(Curated(pool), k)
  {
    var p := Passes([], pool, Keywords);
    var r := Curated(pool);
    CuratedDrawn(pool);
    SubDistinct(r, pool);
    forall s | s in r
      ensures s in pool
    {
      assert s in multiset(r);
    }
    forall k | k in Keywords && Covers(pool, k)
      ensures Covers(r, k)
    {
      var j :| 0 <= j < |Keywords| && Keywords[j] == k;
      assert [] + pool == pool;
      PassesCover([], pool, Keywords, j);
      var s :| s in p.0 && Has(s, k);
      assert s in r;
    }
  }


  /** The first index of a sample in `rest` mentioning `keyword`. */
  method FindWith(rest: seq<Sample>, keyword: string) returns (found: Option<nat>)
    ensures found == FirstWith(rest, keyword, 0)
  {
    for i := 0 to |rest|
      invariant FirstWith(rest, keyword, 0) == FirstWith(rest, keyword, i)
    {
      if Has(rest[i], keyword) {
        return Some(i);
      }
    }
    return None;
  }

  /** One keyword pass: the first query with the keyword moves over. */
  method KeywordPass(selected: seq<Sample>, rest: seq<Sample>, keyword: string)
    returns (selected': seq<Sample>, rest': seq<Sample>)
    ensures (selected', rest') == Pass(selected, rest, keyword)
  {
    selected', rest' := selected, rest;
    var found := FindWith(rest, keyword);
    if found.Some? {
      var i := found.value;
      selected' := selected + [rest[i]];
      rest' := rest[..i] + rest[i + 1..];
    }
  }

  /** The passes over one more keyword are one more pass. */
  lemma PassesStep(pool: seq<Sample>, keywords: seq<string>, n: nat)
    requires n < |keywords|
    ensures Passes([], pool, keywords[..n + 1]) ==
      var p := Passes([], pool, keywords[..n]);
      Pass(p.0, p.1, keywords[n])
  {
    assert keywords[..n + 1][..n] == keywords[..n];
  }

  /** The four keyword passes of `generate_sample_queries`. */
  method KeywordPasses(pool: seq<Sample>) returns (selected: seq<Sample>, rest: seq<Sample>)
    ensures (selected, rest) == Passes([], pool, Keywords)
  {
    var keywords := Keywords;
    selected := [];
    rest := pool;
    for n := 0 to |keywords|
      invariant (selected, rest) == Passes([], pool, keywords[..n])
    {
      PassesStep(pool, keywords, n);
      selected, rest := KeywordPass(selected, rest, keywords[n]);
    }
    assert keywords[..|keywords|] == keywords;
  }

  /** Moves queries from the front of the rest into the selection until it
      holds five or the rest is empty. */
  method FillSelection(start: seq<Sample>, pool: seq<Sample>) returns (selected: seq<Sample>)
    ensures selected == Fill(start, pool)
  {
    selected := start;
    var rest := pool;
    var m := 0;
    while |selected| < 5 && rest != []
      invariant 0 <= m <= |pool|
      invariant selected == start + pool[..m] && rest == pool[m..]
      invariant |start| < 5 ==> m <= 5 - |start|
      invariant |start| >= 5 ==> m == 0
    {
      assert pool[..m + 1] == pool[..m] + [rest[0]];
      selected := selected + [rest[0]];
      rest := rest[1..];
      m := m + 1;
    }
  }

  /** The selection loop of `generate_sample_queries`, over the shuffled
      list of distinct samples. */
  method CurateSelection(pool: seq<Sample>) returns (selected: seq<Sample>)
    ensures selected == Curated(pool)
  {
    var chosen, rest := KeywordPasses(pool);
    selected := FillSelection(chosen, rest);
  }

  // ---------------------------------------------------------------------
  // construct_dynamic_query_with_keyword

  /** Which clause builders an attempt calls, given the keyword and the
      four coin flips: (join, where, group by, order by). */
  function ClausePlan(keyword: string, joinCoin: bool, whereCoin: bool, groupCoin: bool, orderCoin: bool)
    : (plan: (bool, bool, bool, bool))
    ensures Lower(keyword) == "join" ==> plan.0
    ensures Lower(keyword) == "where" ==> plan.1
    ensures Lower(keyword) in ["group by", "groupby"] ==> plan.2 && !plan.0
    ensures Lower(keyword) in ["order by", "orderby"] ==> plan.3
    ensures !(plan.0 && plan.2)
  {
    var k := Lower(keyword);
    var join := k == "join" || (joinCoin && k !in ["group by", "groupby"]);
    var where := k == "where" || whereCoin;
    var group := (k in ["group by", "groupby"] || groupCoin) && !join;
    var order := k in ["order by", "orderby"] || orderCoin;
    (join, where, group, order)
  }

  /** What one attempt produced before the LIMIT step: the assembled
      query and description, the row count its execution returned (`None`
      when it raised) and the two page draws. */
  datatype Attempt = Attempt(description: string, query: string, rowCount: Option<nat>, limit: nat, offset: nat)

  predicate WellDrawn(a: Attempt, threshold: nat) {
    Paginated(a.rowCount, threshold) ==> PageDraw(a.rowCount.value, a.limit, a.offset)
  }

  function Paged(a: Attempt, threshold: nat): (string, string)
    requires WellDrawn(a, threshold)
  {
    Paginate(a.query, a.description, a.rowCount, threshold, KeywordAggregateMarkers, a.limit, a.offset)
  }

  /** The attempt is kept: it executed and its query mentions the keyword. */
  predicate Succeeds(a: Attempt, keyword: string, threshold: nat)
    requires WellDrawn(a, threshold)
  {
    a.rowCount.Some? && Contains(Lower(Paged(a, threshold).0), Lower(keyword))
  }

  /** The index of the first successful attempt below `maxAttempts`. */
  function FirstSuccess(attempts: nat -> Attempt, keyword: string, threshold: nat, i: nat, maxAttempts: nat): (r: Option<nat>)
    requires forall j :: 0 <= j < maxAttempts ==> WellDrawn(attempts(j), threshold)
    decreases maxAttempts - i
    ensures r.Some? ==> i <= r.value < maxAttempts && Succeeds(attempts(r.value), keyword, threshold)
    ensures r.Some? ==> forall j :: i <= j < r.value ==> !Succeeds(attempts(j), keyword, threshold)
    ensures r.None? ==> forall j :: i <= j < maxAttempts ==> !Succeeds(attempts(j), keyword, threshold)
  {
    if i >= maxAttempts then None
    else if Succeeds(attempts(i), keyword, threshold) then Some(i)
    else FirstSuccess(attempts, keyword, threshold, i + 1, maxAttempts)
  }

  /** The finished sample of the first attempt that keeps the keyword. */
  function KeywordSample(attempts: nat -> Attempt, keyword: string, threshold: nat, maxAttempts: nat): Option<Sample>
    requires forall j :: 0 <= j < maxAttempts ==> WellDrawn(attempts(j), threshold)
  {
    match FirstSuccess(attempts, keyword, threshold, 0, maxAttempts)
    case None => None
    case Some(j) => Some(Finalize(Paged(attempts(j), threshold).1, Paged(attempts(j), threshold).0))
  }

  /** The retry loop: the first attempt that keeps the keyword, or `None`
      after `maxAttempts` attempts. */
  method ConstructWithKeyword(attempts: nat -> Attempt, keyword: string, maxAttempts: nat, threshold: nat)
    returns (r: Option<Sample>)
    requires forall j :: 0 <= j < maxAttempts ==> WellDrawn(attempts(j), threshold)
    ensures r == KeywordSample(attempts, keyword, threshold, maxAttempts)
    ensures r.None? <==> forall j :: 0 <= j < maxAttempts ==> !Succeeds(attempts(j), keyword, threshold)
  {
    var attempt := 0;
    while attempt < maxAttempts
      invariant attempt <= maxAttempts
      invariant FirstSuccess(attempts, keyword, threshold, 0, maxAttempts) == FirstSuccess(attempts, keyword, threshold, attempt, maxAttempts)
    {
      var a := attempts(attempt);
      if a.rowCount.Some? {
        var paged := Paged(a, threshold);
        if Contains(Lower(paged.0), Lower(keyword)) {
          return Some(Finalize(paged.1, paged.0));
        }
      }
      attempt := attempt + 1;
    }
    return None;
  }

  /** A returned sample ends in `;` and mentions the keyword. */
  lemma KeywordSampleMeaning(attempts: nat -> Attempt, keyword: string, threshold: nat, maxAttempts: nat)
    requires forall i :: 0 <= i < maxAttempts ==> WellDrawn(attempts(i), threshold)
    requires ';' !in keyword
    requires KeywordSample(attempts, keyword, threshold, maxAttempts).Some?
    ensures var s := KeywordSample(attempts, keyword, threshold, maxAttempts).value;
      EndsWith(s.query, ";") && Contains(Lower(s.query), Lower(keyword))
  {
    var j := FirstSuccess(attempts, keyword, threshold, 0, maxAttempts).value;
    assert ';' !in Lower(keyword) by {
      assert forall i :: 0 <= i < |keyword| ==> LowerChar(keyword[i]) != ';';
    }
    FinalizeKeepsKeyword(Paged(attempts(j), threshold).1, Paged(attempts(j), threshold).0, Lower(keyword));
  }
}
