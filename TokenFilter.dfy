/** The token filter at the end of `preprocess_query`
    (query_interpreter.py): placeholder tokens are swapped back for their
    quoted strings, other tokens are lower-cased and lemmatised and
    dropped when they are stop words that are not column names; then
    underscores turn back into spaces except in columns. */
module TokenFilter {
  import opened Text

  /** What the filter needs besides the tokens. */
  datatype Context = Context(
    quoted: map<string, string>,
    stopWords: set<string>,
    allColumns: seq<string>,
    lemmatize: string -> string)

  /** The normalised form of an unquoted token. */
  function Normal(ctx: Context, token: string): string {
    ctx.lemmatize(Lower(token))
  }

  predicate KeepsNormal(ctx: Context, token: string) {
    Normal(ctx, token) !in ctx.stopWords || Normal(ctx, token) in ctx.allColumns
  }

  /** The filtered tokens of `tokens`, in order. */
  function Kept(ctx: Context, tokens: seq<string>): seq<string> {
    if tokens == [] then []
    else
      var prev := Kept(ctx, tokens[..|tokens| - 1]);
      var t := tokens[|tokens| - 1];
      if t in ctx.quoted then prev + [ctx.quoted[t]]
      else if KeepsNormal(ctx, t) then prev + [Normal(ctx, t)]
      else prev
  }

  /** The loop building `filtered_tokens`. */
  method FilterTokens(ctx: Context, tokens: seq<string>) returns (filtered: seq<string>)
    ensures filtered == Kept(ctx, tokens)
  {
    filtered := [];
    for i := 0 to |tokens|
      invariant filtered == Kept(ctx, tokens[..i])
    {
      var token := tokens[i];
      assert tokens[..i + 1][..i] == tokens[..i];
      if token in ctx.quoted {
        filtered := filtered + [ctx.quoted[token]];
      } else {
        var tokenLower := ctx.lemmatize(Lower(token));
        if tokenLower !in ctx.stopWords || tokenLower in ctx.allColumns {
          filtered := filtered + [tokenLower];
        }
      }
    }
    assert tokens[..|tokens|] == tokens;
  }

  /** What a token of the filtered list comes from. */
  predicate Origin(ctx: Context, token: string, x: string) {
    if token in ctx.quoted then x == ctx.quoted[token] else KeepsNormal(ctx, token) && x == Normal(ctx, token)
  }

  /** Every filtered token comes from some input token, and every quoted
      placeholder and every kept token is in the filtered list. */
  lemma {:induction false} KeptMeaning(ctx: Context, tokens: seq<string>)
    ensures forall x :: x in Kept(ctx, tokens) ==> exists i :: 0 <= i < |tokens| && Origin(ctx, tokens[i], x)
    ensures forall i :: 0 <= i < |tokens| && tokens[i] in ctx.quoted ==> ctx.quoted[tokens[i]] in Kept(ctx, tokens)
    ensures forall i :: 0 <= i < |tokens| && tokens[i] !in ctx.quoted && KeepsNormal(ctx, tokens[i]) ==>
      Normal(ctx, tokens[i]) in Kept(ctx, tokens)
    ensures |Kept(ctx, tokens)| <= |tokens|
  {
    if tokens != [] {
      var prefix := tokens[..|tokens| - 1];
      KeptMeaning(ctx, prefix);
      assert forall i :: 0 <= i < |prefix| ==> prefix[i] == tokens[i];
      forall x | x in Kept(ctx, tokens) ensures exists i :: 0 <= i < |tokens| && Origin(ctx, tokens[i], x) {
        if x !in Kept(ctx, prefix) {
          assert Origin(ctx, tokens[|tokens| - 1], x);
        } else {
          var i :| 0 <= i < |prefix| && Origin(ctx, prefix[i], x);
          assert Origin(ctx, tokens[i], x);
        }
      }
    }
  }

  /** A stop word that is no column never survives from an unquoted token. */
  lemma StopWordsDropped(ctx: Context, tokens: seq<string>, w: string)
    requires w in ctx.stopWords && w !in ctx.allColumns
    requires forall t :: t in tokens ==> t !in ctx.quoted
    ensures w !in Kept(ctx, tokens)
  {
    KeptMeaning(ctx, tokens);
  }

  // ---------------------------------------------------------------------
  // Reverting underscores

  /** The rule of the final list comprehension. */
  function RevertToken(allColumns: seq<string>, token: string): (r: string)
    ensures token in allColumns ==> r == token
    ensures |r| == |token|
    ensures !Contains(token, "_QUOTED_") && token !in allColumns ==> '_' !in r
  {
    if !Contains(token, "_QUOTED_") && token !in allColumns then ReplaceChar(token, '_', ' ') else token
  }

  function Revert(allColumns: seq<string>, tokens: seq<string>): (r: seq<string>)
    ensures |r| == |tokens|
  {
    seq(|tokens|, i requires 0 <= i < |tokens| => RevertToken(allColumns, tokens[i]))
  }

  /** The tokens `preprocess_query` returns, as the code is written. */
  function PreprocessTokens(ctx: Context, tokens: seq<string>): seq<string> {
    Revert(ctx.allColumns, Kept(ctx, tokens))
  }

  /** Column names pass through the revert step unchanged. */
  lemma RevertKeepsColumns(allColumns: seq<string>, tokens: seq<string>, i: nat)
    requires i < |tokens| && tokens[i] in allColumns
    ensures Revert(allColumns, tokens)[i] == tokens[i]
  {
  }

  /** The `_QUOTED_` test looks at tokens after the placeholders have
      already been swapped back, so it does not protect quoted strings:
      a quoted `new_york` comes out as `new york`. */
  lemma QuotedUnderscoresLost()
    ensures var ctx := Context(map["_QUOTED_0_" := "new_york"], {}, [], s => s);
      PreprocessTokens(ctx, ["_QUOTED_0_"]) == ["new york"]
  {
    var ctx := Context(map["_QUOTED_0_" := "new_york"], {}, [], s => s);
    var tokens := ["_QUOTED_0_"];
    assert tokens[..0] == [];
    assert Kept(ctx, tokens) == ["new_york"];
    assert !Contains("new_york", "_QUOTED_") by {
      assert |"new_york"| == |"_QUOTED_"|;
      assert "new_york"[..8][0] != "_QUOTED_"[0];
      NoLongerSuffixContains("new_york"[1..], "_QUOTED_");
    }
    assert ReplaceChar("new_york", '_', ' ') == "new york";
  }

  lemma {:induction false} NoLongerSuffixContains(s: string, sub: string)
    requires |s| < |sub|
    ensures !Contains(s, sub)
  {
    if |s| > 0 {
      NoLongerSuffixContains(s[1..], sub);
    }
  }

  // ---------------------------------------------------------------------
  // The filter as evidently intended: quoted strings kept verbatim

  /** One filtered token, with whether it came from a quoted string. */
  datatype Filtered = Filtered(text: string, fromQuote: bool)

  function KeptTagged(ctx: Context, tokens: seq<string>): (r: seq<Filtered>)
    ensures |r| <= |tokens|
  {
    if tokens == [] then []
    else
      var prev := KeptTagged(ctx, tokens[..|tokens| - 1]);
      var t := tokens[|tokens| - 1];
      if t in ctx.quoted then prev + [Filtered(ctx.quoted[t], true)]
      else if KeepsNormal(ctx, t) then prev + [Filtered(Normal(ctx, t), false)]
      else prev
  }

  function RevertTagged(allColumns: seq<string>, f: Filtered): string {
    if f.fromQuote || f.text in allColumns then f.text else ReplaceChar(f.text, '_', ' ')
  }

  /** `preprocess_query`'s tokens with the revert step applied to unquoted
      tokens only. */
  function PreprocessTokensIntended(ctx: Context, tokens: seq<string>): (r: seq<string>)
  {
    var tagged := KeptTagged(ctx, tokens);
    seq(|tagged|, i requires 0 <= i < |tagged| => RevertTagged(ctx.allColumns, tagged[i]))
  }

  /** Dropping the tags gives the source's filtered list back. */
  lemma {:induction false} KeptTaggedText(ctx: Context, tokens: seq<string>)
    ensures |KeptTagged(ctx, tokens)| == |Kept(ctx, tokens)|
    ensures forall i :: 0 <= i < |Kept(ctx, tokens)| ==> KeptTagged(ctx, tokens)[i].text == Kept(ctx, tokens)[i]
  {
    if tokens != [] {
      KeptTaggedText(ctx, tokens[..|tokens| - 1]);
    }
  }

  /** Every quoted string reaches the token list verbatim. */
  lemma {:induction false} QuotedKeptVerbatim(ctx: Context, tokens: seq<string>, i: nat)
    requires i < |tokens| && tokens[i] in ctx.quoted
    ensures ctx.quoted[tokens[i]] in PreprocessTokensIntended(ctx, tokens)
  {
    var n := |tokens| - 1;
    var prefix := tokens[..n];
    var tagged := KeptTagged(ctx, tokens);
    if i < n {
      assert prefix[i] == tokens[i];
      QuotedKeptVerbatim(ctx, prefix, i);
      var prev := KeptTagged(ctx, prefix);
      assert tagged[..|prev|] == prev;
      var k :| 0 <= k < |prev| && RevertTagged(ctx.allColumns, prev[k]) == ctx.quoted[tokens[i]];
      assert RevertTagged(ctx.allColumns, tagged[k]) == ctx.quoted[tokens[i]];
      assert PreprocessTokensIntended(ctx, tokens)[k] == ctx.quoted[tokens[i]];
    } else {
      var prev := KeptTagged(ctx, prefix);
      assert tagged == prev + [Filtered(ctx.quoted[tokens[i]], true)];
      var k := |tagged| - 1;
      assert RevertTagged(ctx.allColumns, tagged[k]) == ctx.quoted[tokens[i]];
      assert PreprocessTokensIntended(ctx, tokens)[k] == ctx.quoted[tokens[i]];
    }
  }

  /** On tokens that did not come from quotes (and hold no placeholder
      marker) the intended filter agrees with the source. */
  lemma IntendedAgreesOnUnquoted(ctx: Context, tokens: seq<string>, i: nat)
    requires i < |KeptTagged(ctx, tokens)| && !KeptTagged(ctx, tokens)[i].fromQuote
    requires i < |Kept(ctx, tokens)| && !Contains(Kept(ctx, tokens)[i], "_QUOTED_")
    ensures PreprocessTokensIntended(ctx, tokens)[i] == PreprocessTokens(ctx, tokens)[i]
  {
    KeptTaggedText(ctx, tokens);
  }
}
