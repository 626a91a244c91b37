/**
 The regular expression matcher of uprogs/grep.c.  A C string is the sequence of
 its characters before the terminating zero, and a pointer into it an index, so
 the zero is where the index equals the length.
 */
module Grep {

  // ---------------------------------------------------------------- what a pattern means

  datatype Item = One(c: char) | Many(c: char)

  /** The items of a pattern from position i on; a dollar sign at the very end is an anchor, not an item. */
  function Items(re: string, i: nat): seq<Item>
    requires i <= |re|
    decreases |re| - i
  {
    if i == |re| || AtDollar(re, i) then []
    else if i + 1 < |re| && re[i + 1] == '*' then [Many(re[i])] + Items(re, i + 2)
    else [One(re[i])] + Items(re, i + 1)
  }

  predicate AtDollar(re: string, i: nat) {
    i + 1 == |re| && re[i] == '$'
  }

  predicate EndAnchored(re: string, i: nat) {
    i < |re| && re[|re| - 1] == '$'
  }

  predicate Fits(c: char, x: char) { c == '.' || c == x }

  /** The strings an item stands for. */
  predicate Stands(it: Item, w: string) {
    match it
    case One(c) => |w| == 1 && Fits(c, w[0])
    case Many(c) => forall k :: 0 <= k < |w| ==> Fits(c, w[k])
  }

  function Concat(parts: seq<string>): string {
    if parts == [] then [] else parts[0] + Concat(parts[1..])
  }

  /** The language of a pattern: one string for each item, put together. */
  ghost predicate InLanguage(items: seq<Item>, w: string) {
    exists parts: seq<string> :: Splits(items, parts, w)
  }

  ghost predicate Splits(items: seq<Item>, parts: seq<string>, w: string) {
    |parts| == |items| && Concat(parts) == w && forall k :: 0 <= k < |items| ==> Stands(items[k], parts[k])
  }

  /** Some stretch of the text that begins at t, and ends where the anchor wants it, is in the language of re from i
      on. */
  ghost predicate MatchesAt(re: string, i: nat, text: string, t: nat)
    requires i <= |re| && t <= |text|
  {
    exists b :: t <= b <= |text| && (EndAnchored(re, i) ==> b == |text|) && InLanguage(Items(re, i), text[t..b])
  }

  /** What grep is to find: a substring in the language, at the start if the pattern begins with a caret. */
  ghost predicate Matches(re: string, text: string) {
    if re != [] && re[0] == '^' then MatchesAt(re, 1, text, 0)
    else exists t :: 0 <= t <= |text| && MatchesAt(re, 0, text, t)
  }

  // ---------------------------------------------------------------- the language, item by item

  lemma {:induction false} EmptyLanguage(w: string)
    ensures InLanguage([], w) <==> w == []
  {
    assert w == [] ==> Splits([], [], w);
  }

  lemma {:induction false} FirstItem(it: Item, rest: seq<Item>, w: string)
    ensures InLanguage([it] + rest, w) <==> exists k :: 0 <= k <= |w| && Stands(it, w[..k]) && InLanguage(rest, w[k..])
  {
    var items := [it] + rest;
    if InLanguage(items, w) {
      var parts :| Splits(items, parts, w);
      var k := |parts[0]|;
      assert w[..k] == parts[0] && w[k..] == Concat(parts[1..]);
      assert Stands(items[0], parts[0]);
      assert Splits(rest, parts[1..], w[k..]) by {
        forall j | 0 <= j < |rest| ensures Stands(rest[j], parts[1..][j]) { assert items[j + 1] == rest[j]; }
      }
    }
    if k :| 0 <= k <= |w| && Stands(it, w[..k]) && InLanguage(rest, w[k..]) {
      var parts :| Splits(rest, parts, w[k..]);
      var all := [w[..k]] + parts;
      assert all[1..] == parts && Concat(all) == w[..k] + w[k..] == w;
      assert Splits(items, all, w);
    }
  }

  /** At the end of the pattern anything matches. */
  lemma AtEnd(re: string, text: string, t: nat)
    requires t <= |text|
    ensures MatchesAt(re, |re|, text, t)
  {
    EmptyLanguage([]);
    assert text[t..t] == [];
  }

  /** An anchor matches at the end of the text only. */
  lemma AtAnchor(re: string, i: nat, text: string, t: nat)
    requires i < |re| && t <= |text| && AtDollar(re, i)
    ensures MatchesAt(re, i, text, t) <==> t == |text|
  {
    EmptyLanguage(text[t..]);
    assert text[t..|text|] == text[t..];
  }

  /** Dropping a leading item leaves the anchor where it was. */
  lemma AnchorStays(re: string, i: nat, j: nat)
    requires i < j <= |re| && !AtDollar(re, i) && (j == i + 1 || (j == i + 2 && re[i + 1] == '*'))
    ensures EndAnchored(re, i) == EndAnchored(re, j)
  {
  }

  /** A match beginning with an item is a stretch the item stands for, and a match of the rest behind it. */
  lemma FirstOf(re: string, i: nat, j: nat, it: Item, text: string, t: nat)
    requires i < j <= |re| && t <= |text| && Items(re, i) == [it] + Items(re, j)
             && EndAnchored(re, i) == EndAnchored(re, j)
    ensures MatchesAt(re, i, text, t) <==>
                exists m :: t <= m <= |text| && Stands(it, text[t..m]) && MatchesAt(re, j, text, m)
  {
    if b :| t <= b <= |text| && (EndAnchored(re, i) ==> b == |text|) && InLanguage(Items(re, i), text[t..b]) {
      var m := Taken(it, Items(re, j), text, t, b);
    }
    if m :| t <= m <= |text| && Stands(it, text[t..m]) && MatchesAt(re, j, text, m) {
      var b :| m <= b <= |text| && (EndAnchored(re, j) ==> b == |text|) && InLanguage(Items(re, j), text[m..b]);
      Given(it, Items(re, j), text, t, m, b);
    }
  }

  lemma Taken(it: Item, rest: seq<Item>, text: string, t: nat, b: nat) returns (m: nat)
    requires t <= b <= |text| && InLanguage([it] + rest, text[t..b])
    ensures t <= m <= b && Stands(it, text[t..m]) && InLanguage(rest, text[m..b])
  {
    var w := text[t..b];
    FirstItem(it, rest, w);
    var k :| 0 <= k <= |w| && Stands(it, w[..k]) && InLanguage(rest, w[k..]);
    m := t + k;
    assert w[..k] == text[t..m] && w[k..] == text[m..b];
  }

  lemma Given(it: Item, rest: seq<Item>, text: string, t: nat, m: nat, b: nat)
    requires t <= m <= b <= |text| && Stands(it, text[t..m]) && InLanguage(rest, text[m..b])
    ensures InLanguage([it] + rest, text[t..b])
  {
    var w := text[t..b];
    assert w[..m - t] == text[t..m] && w[m - t..] == text[m..b];
    FirstItem(it, rest, w);
  }

  lemma AtOne(re: string, i: nat, text: string, t: nat)
    requires i < |re| && t <= |text| && !AtDollar(re, i) && !(i + 1 < |re| && re[i + 1] == '*')
    ensures MatchesAt(re, i, text, t) <==> t < |text| && Fits(re[i], text[t]) && MatchesAt(re, i + 1, text, t + 1)
  {
    AnchorStays(re, i, i + 1);
    FirstOf(re, i, i + 1, One(re[i]), text, t);
    if t < |text| && Fits(re[i], text[t]) && MatchesAt(re, i + 1, text, t + 1) {
      assert Stands(One(re[i]), text[t..t + 1]);
    }
  }

  // ---------------------------------------------------------------- the matcher

  /** match: true exactly when the text holds what the pattern describes. */
  method Match(re: string, text: string) returns (r: bool)
    ensures r <==> Matches(re, text)
  {
    if re != [] && re[0] == '^' {
      r := MatchHere(re, 1, text, 0);
      return;
    }
    var t := 0;
    while true
      invariant 0 <= t <= |text|
      invariant forall s :: 0 <= s < t ==> !MatchesAt(re, 0, text, s)
      decreases |text| - t
    {
      r := MatchHere(re, 0, text, t);
      if r { return; }
      if t == |text| { break; }
      t := t + 1;
    }
    r := false;
  }

  /** matchhere: the pattern from i on, at position t of the text. */
  method MatchHere(re: string, i: nat, text: string, t: nat) returns (r: bool)
    requires i <= |re| && t <= |text|
    ensures r <==> MatchesAt(re, i, text, t)
    decreases |re| - i, 0
  {
    if i == |re| {
      AtEnd(re, text, t);
      return true;
    }
    if i + 1 < |re| && re[i + 1] == '*' {
      AnchorStays(re, i, i + 2);
      FirstOf(re, i, i + 2, Many(re[i]), text, t);
      r := MatchStar(re[i], re, i + 2, text, t);
      return;
    }
    if re[i] == '$' && i + 1 == |re| {
      AtAnchor(re, i, text, t);
      return t == |text|;
    }
    AtOne(re, i, text, t);
    if t != |text| && (re[i] == '.' || re[i] == text[t]) {
      r := MatchHere(re, i + 1, text, t + 1);
      return;
    }
    return false;
  }

  /** matchstar: any number of characters that c fits, then the pattern from i on. */
  method MatchStar(c: char, re: string, i: nat, text: string, t: nat) returns (r: bool)
    requires i <= |re| && t <= |text|
    ensures r <==> exists m :: t <= m <= |text| && Stands(Many(c), text[t..m]) && MatchesAt(re, i, text, m)
    decreases |re| - i, 1
  {
    var u := t;
    while true
      invariant t <= u <= |text| && Stands(Many(c), text[t..u])
      invariant forall m :: t <= m < u ==> !MatchesAt(re, i, text, m)
      decreases |text| - u
    {
      r := MatchHere(re, i, text, u);
      if r { return; }
      if !(u != |text| && (text[u] == c || c == '.')) { break; }
      assert text[t..u + 1] == text[t..u] + [text[u]];
      u := u + 1;
    }
    r := false;
    StarReaches(c, text, t, u);
  }

  lemma StarReaches(c: char, text: string, t: nat, u: nat)
    requires t <= u <= |text|
    ensures forall m :: u < m <= |text| && Stands(Many(c), text[t..m]) ==> Fits(c, text[u])
  {
    forall m | u < m <= |text| && Stands(Many(c), text[t..m])
      ensures Fits(c, text[u])
    {
      assert text[t..m][u - t] == text[u];
    }
  }
}
