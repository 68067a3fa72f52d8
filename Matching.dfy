/** Approximate matching as the interpreter uses it. `fuzzy_match_difflib`
    wraps difflib's `get_close_matches(token, items, n=1, cutoff=0.7)`; its
    similarity measure is not modelled: a matcher is any function whose
    answer, when there is one, is one of the candidates. */
module Matching {
  import opened Options

  type Matcher = (string, seq<string>) -> Option<string>

  ghost predicate IsMatcher(fuzzy: Matcher) {
    forall token, items :: fuzzy(token, items).Some? ==> fuzzy(token, items).value in items
  }

  /** Python's `if matched:` on a match: `None` and the empty string are false. */
  function Truthy(m: Option<string>): Option<string> {
    if m.Some? && m.value != "" then m else None
  }

  /** The (truthy) match of every token against the same candidates. */
  function MatchAll(fuzzy: Matcher, tokens: seq<string>, items: seq<string>): (ms: seq<Option<string>>)
    ensures |ms| == |tokens|
  {
    seq(|tokens|, i requires 0 <= i < |tokens| => Truthy(fuzzy(tokens[i], items)))
  }

  lemma MatchAllMembers(fuzzy: Matcher, tokens: seq<string>, items: seq<string>)
    requires IsMatcher(fuzzy)
    ensures forall v :: Some(v) in MatchAll(fuzzy, tokens, items) ==> v in items && v != ""
  {
    forall v | Some(v) in MatchAll(fuzzy, tokens, items) ensures v in items && v != "" {
      var k :| 0 <= k < |tokens| && MatchAll(fuzzy, tokens, items)[k] == Some(v);
      assert fuzzy(tokens[k], items) == Some(v);
    }
  }
}
