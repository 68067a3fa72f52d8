/** "Append if matched and not yet present": the list-building idiom the
    schema matcher uses for tables and for each table's columns. The
    matches of successive tokens form a sequence of options; the discovered
    list keeps every matched value once, in order of first discovery. */
module Discovery {
  import opened Options

  predicate Distinct<T(==)>(s: seq<T>) {
    forall i, j :: 0 <= i < j < |s| ==> s[i] != s[j]
  }

  predicate IsPrefixOf<T(==)>(p: seq<T>, s: seq<T>) {
    |p| <= |s| && s[..|p|] == p
  }

  /** The list built by scanning `xs` left to right and appending each
      matched value that is not already in the list. */
  function Discover<T(==)>(xs: seq<Option<T>>): seq<T> {
    if xs == [] then []
    else
      var prev := Discover(xs[..|xs| - 1]);
      match xs[|xs| - 1]
      case None => prev
      case Some(v) => if v in prev then prev else prev + [v]
  }

  /** The position of the first match of `v`. */
  function FirstMatch<T(==)>(xs: seq<Option<T>>, v: T): (k: nat)
    requires Some(v) in xs
    ensures k < |xs| && xs[k] == Some(v)
    ensures forall j :: 0 <= j < k ==> xs[j] != Some(v)
  {
    if xs[0] == Some(v) then 0 else 1 + FirstMatch(xs[1..], v)
  }

  lemma {:induction false} DiscoverMember<T>(xs: seq<Option<T>>, v: T)
    ensures v in Discover(xs) <==> Some(v) in xs
  {
    if xs != [] {
      var init := xs[..|xs| - 1];
      DiscoverMember(init, v);
      assert xs == init + [xs[|xs| - 1]];
    }
  }

  /** Every discovered value was matched by some token, and every matched
      value is discovered. */
  lemma DiscoverMembers<T>(xs: seq<Option<T>>)
    ensures forall v :: v in Discover(xs) <==> Some(v) in xs
  {
    forall v ensures v in Discover(xs) <==> Some(v) in xs {
      DiscoverMember(xs, v);
    }
  }

  lemma {:induction false} DiscoverDistinct<T>(xs: seq<Option<T>>)
    ensures Distinct(Discover(xs))
  {
    if xs != [] {
      DiscoverDistinct(xs[..|xs| - 1]);
    }
  }

  /** What the first `k` matches discover is a prefix of the final list. */
  lemma {:induction false} DiscoverPrefix<T>(xs: seq<Option<T>>, k: nat)
    requires k <= |xs|
    ensures IsPrefixOf(Discover(xs[..k]), Discover(xs))
  {
    if k < |xs| {
      var init := xs[..|xs| - 1];
      DiscoverPrefix(init, k);
      assert init[..k] == xs[..k];
    } else {
      assert xs[..k] == xs;
    }
  }

  /** A value enters the list exactly when its first match is scanned. */
  lemma PositionInDiscover<T>(xs: seq<Option<T>>, b: T)
    requires Some(b) in xs
    ensures |Discover(xs[..FirstMatch(xs, b)])| < |Discover(xs)|
    ensures Discover(xs)[|Discover(xs[..FirstMatch(xs, b)])|] == b
  {
    var kb := FirstMatch(xs, b);
    var before := xs[..kb];
    var upto := xs[..kb + 1];
    DiscoverMember(before, b);
    assert upto[..kb] == before;
    assert Discover(upto) == Discover(before) + [b];
    DiscoverPrefix(xs, kb + 1);
  }

  /** First-discovery order: an earlier entry was first matched earlier. */
  lemma DiscoverOrder<T>(xs: seq<Option<T>>, i: nat, j: nat)
    requires i < j < |Discover(xs)|
    ensures Some(Discover(xs)[i]) in xs && Some(Discover(xs)[j]) in xs
    ensures FirstMatch(xs, Discover(xs)[i]) < FirstMatch(xs, Discover(xs)[j])
  {
    var d := Discover(xs);
    var a, b := d[i], d[j];
    DiscoverMember(xs, a);
    DiscoverMember(xs, b);
    DiscoverDistinct(xs);
    var kb := FirstMatch(xs, b);
    var p := Discover(xs[..kb]);
    PositionInDiscover(xs, b);
    assert |p| == j;
    DiscoverPrefix(xs, kb);
    assert a == p[i] && a in p;
    DiscoverMember(xs[..kb], a);
    var w :| 0 <= w < kb && xs[..kb][w] == Some(a);
    assert xs[w] == Some(a);
  }

  /** Lists the elements of a set once each, in an order the model leaves
      open (Python's set iteration order). */
  method Enumerate<T(==)>(s: set<T>) returns (xs: seq<T>)
    ensures Distinct(xs)
    ensures forall x :: x in xs <==> x in s
  {
    xs := [];
    var rest := s;
    while rest != {}
      invariant Distinct(xs)
      invariant forall x :: x in xs <==> x in s && x !in rest
      invariant rest <= s
      decreases rest
    {
      var x :| x in rest;
      xs := xs + [x];
      rest := rest - {x};
    }
  }
}
