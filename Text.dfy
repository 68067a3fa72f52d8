/** The string operations the three programs rely on, restricted to what
    the model needs: ASCII case mapping, substring tests, joining, digit
    strings, character replacement and Python's whitespace handling
    (`str.strip()` and `re.sub(r'\s+', ' ', ...)`). */
module Text {

  // ---------------------------------------------------------------------
  // Case mapping (ASCII letters only)

  function LowerChar(c: char): char {
    if 'A' <= c <= 'Z' then (c as int + 32) as char else c
  }

  function UpperChar(c: char): char {
    if 'a' <= c <= 'z' then (c as int - 32) as char else c
  }

  /** Lower-cases every ASCII letter. */
  function Lower(s: string): string {
    seq(|s|, i requires 0 <= i < |s| => LowerChar(s[i]))
  }

  /** `s.capitalize()`: first character upper-cased, the rest lower-cased */
  function Capitalize(s: string): string {
    if s == [] then [] else [UpperChar(s[0])] + Lower(s[1..])
  }

  // ---------------------------------------------------------------------
  // Substrings

  predicate IsPrefix(p: string, s: string) {
    |p| <= |s| && s[..|p|] == p
  }

  predicate EndsWith(s: string, suffix: string) {
    |suffix| <= |s| && s[|s| - |suffix|..] == suffix
  }

  /** Python's `sub in s` */
  predicate Contains(s: string, sub: string)
    decreases |s|
  {
    IsPrefix(sub, s) || (|s| > 0 && Contains(s[1..], sub))
  }

  lemma {:induction false} ContainsAt(s: string, sub: string, k: nat)
    requires k + |sub| <= |s| && s[k..k + |sub|] == sub
    ensures Contains(s, sub)
  {
    if k > 0 {
      assert s[1..][k - 1..k - 1 + |sub|] == sub;
      ContainsAt(s[1..], sub, k - 1);
    } else {
      assert IsPrefix(sub, s);
    }
  }

  lemma {:induction false} ContainsPrefixPart(p: string, q: string, sub: string)
    requires Contains(p, sub)
    ensures Contains(p + q, sub)
  {
    if IsPrefix(sub, p) {
      assert (p + q)[..|sub|] == p[..|sub|];
    } else {
      assert (p + q)[1..] == p[1..] + q;
      ContainsPrefixPart(p[1..], q, sub);
    }
  }

  lemma {:induction false} ContainsSuffixPart(p: string, q: string, sub: string)
    requires Contains(q, sub)
    ensures Contains(p + q, sub)
  {
    if p != [] {
      assert (p + q)[1..] == p[1..] + q;
      ContainsSuffixPart(p[1..], q, sub);
    } else {
      assert p + q == q;
    }
  }

  /** Some word occurs in the text. */
  function ContainsAny(text: string, words: seq<string>): (r: bool)
    ensures r <==> exists k :: 0 <= k < |words| && Contains(text, words[k])
  {
    if words == [] then false
    else
      assert forall k :: 0 < k < |words| ==> words[k] == words[1..][k - 1];
      Contains(text, words[0]) || ContainsAny(text, words[1..])
  }

  // ---------------------------------------------------------------------
  // Building and rewriting strings

  /** The parts with the separator between consecutive ones. */
  function Join(sep: string, parts: seq<string>): string {
    if |parts| == 0 then ""
    else if |parts| == 1 then parts[0]
    else parts[0] + sep + Join(sep, parts[1..])
  }

  /** Every occurrence of character `a` replaced by `b`. */
  function ReplaceChar(s: string, a: char, b: char): string {
    seq(|s|, i requires 0 <= i < |s| => if s[i] == a then b else s[i])
  }

  /** Every occurrence of the character removed. */
  function RemoveChar(s: string, c: char): (r: string)
    ensures c !in r && |r| <= |s|
  {
    if s == [] then []
    else (if s[0] == c then [] else [s[0]]) + RemoveChar(s[1..], c)
  }

  lemma {:induction false} RemoveCharAbsent(s: string, c: char)
    requires c !in s
    ensures RemoveChar(s, c) == s
  {
    if s != [] {
      RemoveCharAbsent(s[1..], c);
    }
  }

  lemma {:induction false} RemoveCharAppend(s: string, t: string, c: char)
    ensures RemoveChar(s + t, c) == RemoveChar(s, c) + RemoveChar(t, c)
  {
    if s != [] {
      assert (s + t)[1..] == s[1..] + t;
      RemoveCharAppend(s[1..], t, c);
    } else {
      assert s + t == t;
    }
  }

  /** The text without its trailing run of the character. */
  function RStripChar(s: string, c: char): string {
    if s != [] && s[|s| - 1] == c then RStripChar(s[..|s| - 1], c) else s
  }

  /** The text before the first `(`, i.e. `t.split("(")[0]` */
  function BaseType(t: string): string {
    if t == [] || t[0] == '(' then [] else [t[0]] + BaseType(t[1..])
  }

  // ---------------------------------------------------------------------
  // Digit strings

  /** A non-empty text of ASCII digits. */
  predicate IsDigits(s: string) {
    |s| > 0 && forall i :: 0 <= i < |s| ==> '0' <= s[i] <= '9'
  }

  /** The number a digit string denotes; leading zeros are allowed. */
  function ParseNat(s: string): nat {
    if s == [] then 0
    else
      var d := s[|s| - 1] as int - '0' as int;
      ParseNat(s[..|s| - 1]) * 10 + (if 0 <= d <= 9 then d else 0)
  }

  function DigitChar(d: nat): char
    requires d < 10
  {
    ('0' as int + d) as char
  }

  /** The decimal digits of a number, without leading zeros. */
  function NatToString(n: nat): string {
    if n < 10 then [DigitChar(n)] else NatToString(n / 10) + [DigitChar(n % 10)]
  }

  // ---------------------------------------------------------------------
  // Whitespace

  /** The ASCII characters that Python's `str.isspace()` and the regular
      expression class `\s` treat as whitespace: space, tab, line feed,
      vertical tab, form feed, carriage return and the four separators
      U+001C to U+001F. */
  predicate IsSpace(c: char) {
    c == ' ' || c == '\t' || c == '\n' || c == '\r' || c == '\U{000B}' || c == '\U{000C}'
    || '\U{001C}' <= c <= '\U{001F}'
  }

  predicate NoSpace(s: string) {
    forall i :: 0 <= i < |s| ==> !IsSpace(s[i])
  }

  /** The text without leading whitespace. */
  function DropLeadingSpace(s: string): (r: string)
    ensures |r| <= |s|
    ensures r == [] || !IsSpace(r[0])
  {
    if s != [] && IsSpace(s[0]) then DropLeadingSpace(s[1..]) else s
  }

  /** The text without trailing whitespace. */
  function DropTrailingSpace(s: string): (r: string)
    ensures r == [] || !IsSpace(r[|r| - 1])
  {
    if s != [] && IsSpace(s[|s| - 1]) then DropTrailingSpace(s[..|s| - 1]) else s
  }

  /** The text without leading or trailing whitespace. */
  function Strip(s: string): string {
    DropTrailingSpace(DropLeadingSpace(s))
  }

  /** `re.sub(r'\s+', ' ', s)`: every maximal run of whitespace becomes one space */
  function CollapseSpace(s: string): string
    decreases |s|
  {
    if s == [] then []
    else if IsSpace(s[0]) then [' '] + CollapseSpace(DropLeadingSpace(s[1..]))
    else [s[0]] + CollapseSpace(s[1..])
  }

  /** A string in the form `re.sub(r'\s+', ' ', q).strip()` leaves: the only
      whitespace is single spaces between non-space characters. */
  predicate SingleSpaced(s: string) {
    && (forall i :: 0 <= i < |s| && IsSpace(s[i]) ==> s[i] == ' ')
    && (forall i :: 0 <= i < |s| - 1 && s[i] == ' ' ==> s[i + 1] != ' ')
    && (s != [] ==> s[0] != ' ' && s[|s| - 1] != ' ')
  }

  /** Collapsing leaves only single spaces, never two in a row, never a
      space directly after a collapsed run. */
  lemma {:induction false} CollapseSpaceForm(s: string)
    ensures forall i :: 0 <= i < |CollapseSpace(s)| && IsSpace(CollapseSpace(s)[i]) ==> CollapseSpace(s)[i] == ' '
    ensures forall i :: 0 <= i < |CollapseSpace(s)| - 1 && CollapseSpace(s)[i] == ' ' ==> CollapseSpace(s)[i + 1] != ' '
    ensures s != [] && !IsSpace(s[0]) ==> CollapseSpace(s) != [] && CollapseSpace(s)[0] == s[0]
    ensures s == [] <==> CollapseSpace(s) == []
    decreases |s|
  {
    if s != [] {
      if IsSpace(s[0]) {
        var t := DropLeadingSpace(s[1..]);
        CollapseSpaceForm(t);
      } else {
        CollapseSpaceForm(s[1..]);
      }
    }
  }

  lemma {:induction false} DropLeadingSpaceKeeps(s: string)
    requires forall i :: 0 <= i < |s| - 1 && s[i] == ' ' ==> s[i + 1] != ' '
    requires forall i :: 0 <= i < |s| && IsSpace(s[i]) ==> s[i] == ' '
    ensures forall i :: 0 <= i < |DropLeadingSpace(s)| - 1 && DropLeadingSpace(s)[i] == ' ' ==> DropLeadingSpace(s)[i + 1] != ' '
    ensures forall i :: 0 <= i < |DropLeadingSpace(s)| && IsSpace(DropLeadingSpace(s)[i]) ==> DropLeadingSpace(s)[i] == ' '
  {
    if s != [] && IsSpace(s[0]) {
      DropLeadingSpaceKeeps(s[1..]);
    }
  }

  lemma {:induction false} DropTrailingSpaceKeeps(s: string)
    requires forall i :: 0 <= i < |s| - 1 && s[i] == ' ' ==> s[i + 1] != ' '
    requires forall i :: 0 <= i < |s| && IsSpace(s[i]) ==> s[i] == ' '
    requires s != [] ==> s[0] != ' '
    ensures SingleSpaced(DropTrailingSpace(s))
    decreases |s|
  {
    if s != [] && IsSpace(s[|s| - 1]) {
      DropTrailingSpaceKeeps(s[..|s| - 1]);
    }
  }

  /** `re.sub(r'\s+', ' ', q).strip()` is single-spaced, whatever `q` is. */
  lemma NormalizedIsSingleSpaced(q: string)
    ensures SingleSpaced(Strip(CollapseSpace(q)))
  {
    var c := CollapseSpace(q);
    CollapseSpaceForm(q);
    DropLeadingSpaceKeeps(c);
    DropTrailingSpaceKeeps(DropLeadingSpace(c));
  }

  lemma {:induction false} DropLeadingSpaceOfSpaces(w: string, s: string)
    requires forall i :: 0 <= i < |w| ==> IsSpace(w[i])
    requires s != [] && !IsSpace(s[0])
    ensures DropLeadingSpace(w + s) == s
  {
    if w != [] {
      assert (w + s)[1..] == w[1..] + s;
      DropLeadingSpaceOfSpaces(w[1..], s);
    }
  }

  lemma {:induction false} DropTrailingSpaceKeepsPrefix(p: string, q: string)
    requires p != [] && NoSpace(p)
    ensures IsPrefix(p, DropTrailingSpace(p + q))
    decreases |q|
  {
    if q != [] && IsSpace(q[|q| - 1]) {
      assert (p + q)[..|p + q| - 1] == p + q[..|q| - 1];
      DropTrailingSpaceKeepsPrefix(p, q[..|q| - 1]);
    } else if q == [] {
      assert p + q == p;
    }
  }

  lemma {:induction false} CollapseSpaceKeepsPrefix(p: string, q: string)
    requires NoSpace(p)
    ensures CollapseSpace(p + q) == p + CollapseSpace(q)
    decreases |p|
  {
    if p != [] {
      assert (p + q)[1..] == p[1..] + q;
      CollapseSpaceKeepsPrefix(p[1..], q);
    } else {
      assert p + q == q;
    }
  }

  /** Normalising text that starts, after leading whitespace, with a word `p`
      keeps `p` at the front. */
  lemma NormalizedStartsWith(w: string, p: string, q: string)
    requires forall i :: 0 <= i < |w| ==> IsSpace(w[i])
    requires p != [] && NoSpace(p)
    ensures IsPrefix(p, Strip(CollapseSpace(Strip(w + p + q))))
  {
    assert w + p + q == w + (p + q);
    DropLeadingSpaceOfSpaces(w, p + q);
    DropTrailingSpaceKeepsPrefix(p, q);
    var s1 := Strip(w + p + q);
    var rest := s1[|p|..];
    assert s1 == p + rest;
    CollapseSpaceKeepsPrefix(p, rest);
    var s2 := CollapseSpace(s1);
    assert s2 == p + CollapseSpace(rest);
    assert DropLeadingSpace(s2) == s2;
    DropTrailingSpaceKeepsPrefix(p, CollapseSpace(rest));
  }
}
