/**
 The command-line parser of uprogs/sh.c.  The buffer is the sequence of characters
 before the terminating zero, the cursor *ps an index into it and es its length.
 */
module Shell {
  import opened ShellLines

  /** The parser's panics. */
  datatype Error = MissingFile | MissingClose | Syntax | TooManyArgs | Leftovers

  datatype Result<T> = Ok(value: T, at: nat) | Err(error: Error)

  // ---------------------------------------------------------------- tokens

  function Skip(s: string, i: nat): (j: nat)
    requires i <= |s|
    ensures i <= j <= |s| && (j < |s| ==> !Space(s[j]))
    ensures i < |s| && !Space(s[i]) ==> j == i
    decreases |s| - i
  {
    if i < |s| && Space(s[i]) then Skip(s, i + 1) else i
  }

  function WordEnd(s: string, i: nat): (j: nat)
    requires i <= |s|
    ensures i <= j <= |s| && (j < |s| ==> !InWord(s[j]))
    ensures i < |s| && InWord(s[i]) ==> i < j
    ensures forall k :: i <= k < j ==> InWord(s[k])
    decreases |s| - i
  {
    if i < |s| && InWord(s[i]) then WordEnd(s, i + 1) else i
  }

  datatype Kind = End | Sign(c: char) | Append | Word

  /** What gettoken finds from i on: the token, its extent, and the cursor afterwards. */
  datatype Token = Token(kind: Kind, q: nat, eq: nat, at: nat)

  function Tok(s: string, i: nat): (t: Token)
    requires i <= |s|
    ensures i <= t.q <= t.eq <= t.at <= |s| && (t.kind != End ==> i < t.at)
    ensures t.kind == Word ==> IsWord(s[t.q..t.eq])
    ensures t.q == Skip(s, i) && t.at == Skip(s, t.eq)
  {
    var q := Skip(s, i);
    if q == |s| then Token(End, q, q, q)
    else if s[q] == '>' && q + 1 < |s| && s[q + 1] == '>' then Token(Append, q, q + 2, Skip(s, q + 2))
    else if Symbol(s[q]) then Token(Sign(s[q]), q, q + 1, Skip(s, q + 1))
    else Token(Word, q, WordEnd(s, q), Skip(s, WordEnd(s, q)))
  }

  /** peek: the next character that is not a space is one of toks. */
  predicate Ahead(s: string, i: nat, toks: string)
    requires i <= |s|
  {
    Skip(s, i) < |s| && s[Skip(s, i)] in toks
  }

  // ---------------------------------------------------------------- the grammar the parser follows

  /** parseredirs: the targets from i on, behind those in acc. */
  function Redirs(s: string, i: nat, acc: seq<Target>): (r: Result<seq<Target>>)
    requires i <= |s|
    ensures r.Ok? ==> i <= r.at <= |s|
    decreases |s| - i
  {
    if !Ahead(s, i, "<>") then Ok(acc, Skip(s, i))
    else
      var t := Tok(s, i);
      var f := Tok(s, t.at);
      if f.kind != Word then Err(MissingFile)
      else Redirs(s, f.at, acc + [Target(s[f.q..f.eq], t.kind != Sign('<'))])
  }

  function Wrap(c: Cmd, to: seq<Target>): Cmd {
    if to == [] then c else Redir(Wrap(c, to[..|to| - 1]), to[|to| - 1])
  }

  /** parseexec's loop: words and redirections up to a sign that ends the command. */
  function Words(s: string, i: nat, argv: seq<string>, to: seq<Target>): (r: Result<Cmd>)
    requires i <= |s|
    ensures r.Ok? ==> i <= r.at <= |s|
    decreases |s| - i
  {
    if Ahead(s, i, "|)&;") then Ok(Wrap(Exec(argv), to), Skip(s, i))
    else
      var t := Tok(s, i);
      if t.kind == End then Ok(Wrap(Exec(argv), to), t.at)
      else if t.kind != Word then Err(Syntax)
      else if |argv| + 1 >= MAXARGS then Err(TooManyArgs)
      else
        var more := Redirs(s, t.at, to);
        if more.Err? then Err(more.error)
        else Words(s, more.at, argv + [s[t.q..t.eq]], more.value)
  }

  function ExecAt(s: string, i: nat): (r: Result<Cmd>)
    requires i <= |s|
    ensures r.Ok? ==> i <= r.at <= |s|
    decreases |s| - i, 1
  {
    if Ahead(s, i, "(") then BlockAt(s, i)
    else
      var to := Redirs(s, i, []);
      if to.Err? then Err(to.error) else Words(s, to.at, [], to.value)
  }

  function BlockAt(s: string, i: nat): (r: Result<Cmd>)
    requires i <= |s| && Ahead(s, i, "(")
    ensures r.Ok? ==> i < r.at <= |s|
    decreases |s| - i, 0
  {
    CloseAt(s, LineAt(s, Tok(s, i).at))
  }

  /** What stands behind the line in a block. */
  function CloseAt(s: string, c: Result<Cmd>): (r: Result<Cmd>)
    requires c.Ok? ==> c.at <= |s|
    ensures r.Ok? ==> c.Ok? && c.at <= r.at <= |s|
  {
    if c.Err? then c
    else if !Ahead(s, c.at, ")") then Err(MissingClose)
    else
      var to := Redirs(s, Tok(s, c.at).at, []);
      if to.Err? then Err(to.error) else Ok(Wrap(c.value, to.value), to.at)
  }

  function PipeAt(s: string, i: nat): (r: Result<Cmd>)
    requires i <= |s|
    ensures r.Ok? ==> i <= r.at <= |s|
    decreases |s| - i, 2
  {
    var c := ExecAt(s, i);
    if c.Err? then c
    else if !Ahead(s, c.at, "|") then Ok(c.value, Skip(s, c.at))
    else
      var d := PipeAt(s, Tok(s, c.at).at);
      if d.Err? then d else Ok(Pipe(c.value, d.value), d.at)
  }

  /** Ampersands behind a pipeline. */
  function Backs(s: string, i: nat, c: Cmd): (r: Result<Cmd>)
    requires i <= |s|
    ensures r.Ok? && i <= r.at <= |s|
    decreases |s| - i
  {
    if Ahead(s, i, "&") then Backs(s, Tok(s, i).at, Back(c)) else Ok(c, Skip(s, i))
  }

  function LineAt(s: string, i: nat): (r: Result<Cmd>)
    requires i <= |s|
    ensures r.Ok? ==> i <= r.at <= |s|
    decreases |s| - i, 3
  {
    var p := PipeAt(s, i);
    if p.Err? then p
    else
      var c := Backs(s, p.at, p.value);
      if !Ahead(s, c.at, ";") then Ok(c.value, Skip(s, c.at))
      else
        var d := LineAt(s, Tok(s, c.at).at);
        if d.Err? then d else Ok(List(c.value, d.value), d.at)
  }

  /** parsecmd. */
  function Parsed(s: string): Result<Cmd> {
    var c := LineAt(s, 0);
    if c.Err? then c else if Skip(s, c.at) != |s| then Err(Leftovers) else Ok(c.value, |s|)
  }

  // ---------------------------------------------------------------- typed text as tokens

  /** The next token from i on is x. */
  predicate Gives(s: string, i: nat, x: string)
    requires i <= |s|
  {
    var t := Tok(s, i);
    t.kind != End && s[t.q..t.eq] == x
  }

  /** The tokens from i on are these, and then s ends. */
  predicate Spelt(s: string, i: nat, tokens: seq<string>)
    requires i <= |s|
    decreases |tokens|
  {
    if tokens == [] then Tok(s, i).kind == End
    else Gives(s, i, tokens[0]) && Spelt(s, Tok(s, i).at, tokens[1..])
  }

  lemma SpeltCons(s: string, i: nat, x: string, rest: seq<string>)
    requires i <= |s|
    ensures Spelt(s, i, [x] + rest) <==> Gives(s, i, x) && Spelt(s, Tok(s, i).at, rest)
  {
    assert ([x] + rest)[1..] == rest;
  }

  lemma SkipTwice(s: string, i: nat)
    requires i <= |s|
    ensures Skip(s, Skip(s, i)) == Skip(s, i) && Tok(s, Skip(s, i)) == Tok(s, i)
  {
    var j := Skip(s, i);
    assert Skip(s, j) == j;
  }

  lemma SpeltSkip(s: string, i: nat, tokens: seq<string>)
    requires i <= |s|
    ensures Spelt(s, Skip(s, i), tokens) <==> Spelt(s, i, tokens)
  {
    SkipTwice(s, i);
  }

  /** What kind a token is shows in its text. */
  lemma GivesKind(s: string, i: nat, x: string)
    requires i <= |s| && Gives(s, i, x)
    ensures x != [] && Skip(s, i) < |s| && s[Skip(s, i)] == x[0] && (IsWord(x) || IsSign(x))
    ensures var k := Tok(s, i).kind;
            && (k == Word <==> IsWord(x)) && (k == Append <==> x == ">>")
            && forall c: char :: k == Sign(c) <==> x == [c] && Symbol(c)
  {
    var t := Tok(s, i);
    assert x[0] == s[t.q];
  }

  lemma SpeltAhead(s: string, i: nat, tokens: seq<string>, toks: string)
    requires i <= |s| && Spelt(s, i, tokens)
    ensures Ahead(s, i, toks) <==> tokens != [] && tokens[0] != [] && tokens[0][0] in toks
  {
    if tokens != [] { GivesKind(s, i, tokens[0]); }
  }

  lemma {:induction false} SkipIs(s: string, i: nat, j: nat)
    requires i <= j <= |s| && White(s[i..j]) && (j < |s| ==> !Space(s[j]))
    ensures Skip(s, i) == j
    decreases j - i
  {
    if i < j {
      assert s[i] == s[i..j][0];
      assert s[i + 1..j] == s[i..j][1..];
      SkipIs(s, i + 1, j);
    }
  }

  lemma {:induction false} SkipWhite(s: string, i: nat)
    requires i <= |s|
    ensures White(s[i..Skip(s, i)])
    decreases |s| - i
  {
    if i < |s| && Space(s[i]) {
      SkipWhite(s, i + 1);
      assert s[i..Skip(s, i)] == [s[i]] + s[i + 1..Skip(s, i + 1)];
    }
  }

  lemma WordEndIs(s: string, q: nat, e: nat)
    requires q <= e <= |s| && (forall k :: q <= k < e ==> InWord(s[k])) && (e < |s| ==> !InWord(s[e]))
    ensures WordEnd(s, q) == e
  {
    var j := WordEnd(s, q);
    assert j < |s| ==> !InWord(s[j]);
    assert e < |s| ==> !InWord(s[e]);
  }

  /** A token that stands at q, and does not merge with what follows, is read. */
  lemma TokIs(s: string, i: nat, q: nat, x: string, e: nat)
    requires i <= q <= e <= |s| && Skip(s, i) == q && (IsWord(x) || IsSign(x)) && s[q..e] == x
    requires e < |s| ==> !(IsWord(x) && InWord(s[e])) && !(x == ">" && s[e] == '>')
    ensures Gives(s, i, x) && Tok(s, i).at == Skip(s, e)
  {
    assert e == q + |x|;
    assert forall k :: q <= k < e ==> s[k] == x[k - q];
    if IsWord(x) { WordEndIs(s, q, e); }
  }

  /** What is typed is read: the tokens, whatever white space stands between them. */
  lemma {:induction false} TypedSpelt(s: string, i: nat, tokens: seq<string>, gaps: seq<string>)
    requires i <= |s| && Spacing(tokens, gaps) && s[i..] == Typed(tokens, gaps)
    requires forall k :: 0 <= k < |tokens| ==> IsWord(tokens[k]) || IsSign(tokens[k])
    ensures Spelt(s, i, tokens)
    decreases |tokens|
  {
    var g := gaps[0];
    if tokens == [] {
      assert s[i..|s|] == s[i..];
      SkipIs(s, i, |s|);
    } else {
      var x, more, mgaps := tokens[0], tokens[1..], gaps[1..];
      var q, e := i + |g|, i + |g| + |x|;
      var rest := Typed(more, mgaps);
      assert s[i..] == g + x + rest;
      assert s[i..q] == s[i..][..|g|] == g;
      assert s[q..e] == s[i..][|g|..|g| + |x|] == x;
      assert s[e..] == s[i..][|g| + |x|..] == rest;
      NoMerge(tokens, gaps);
      if e < |s| { assert s[e] == rest[0]; }
      assert x != [] && s[q] == x[0];
      SkipIs(s, i, q);
      TokIs(s, i, q, x, e);
      SpacingRest(tokens, gaps);
      TypedSpelt(s, e, more, mgaps);
      SpeltSkip(s, e, more);
    }
  }

  lemma SpacingRest(tokens: seq<string>, gaps: seq<string>)
    requires tokens != [] && Spacing(tokens, gaps)
    ensures Spacing(tokens[1..], gaps[1..])
  {
    forall k | 0 < k < |tokens[1..]| && Merge(tokens[1..][k - 1], tokens[1..][k])
      ensures gaps[1..][k] != []
    {
      assert Merge(tokens[k], tokens[k + 1]);
    }
  }

  /** The character behind the first token does not belong to it. */
  lemma NoMerge(tokens: seq<string>, gaps: seq<string>)
    requires tokens != [] && Spacing(tokens, gaps) && forall k ::
               0 <= k < |tokens| ==> IsWord(tokens[k]) || IsSign(tokens[k])
    ensures var x, rest := tokens[0], Typed(tokens[1..], gaps[1..]);
            rest != [] ==> !(IsWord(x) && InWord(rest[0])) && !(x == ">" && rest[0] == '>')
  {
    var x, rest := tokens[0], Typed(tokens[1..], gaps[1..]);
    var g := gaps[1];
    if g != [] {
      assert rest[0] == g[0];
    } else if |tokens| > 1 {
      var y := tokens[1];
      assert !Merge(tokens[0], tokens[1]);
      assert rest[0] == y[0];
    }
  }

  /** What stands behind a token does not belong to it. */
  lemma TokenEnds(s: string, i: nat, x: string)
    requires i <= |s| && Gives(s, i, x)
    ensures var e := Tok(s, i).eq; e < |s| ==> !(IsWord(x) && InWord(s[e])) && !(x == ">" && s[e] == '>')
  {
    GivesKind(s, i, x);
  }

  /** Reading goes on at the end of the token. */
  lemma AfterToken(s: string, i: nat, x: string, more: seq<string>)
    requires i <= |s| && Gives(s, i, x) && Spelt(s, Tok(s, i).at, more)
    ensures var e := Tok(s, i).eq;
            && Skip(s, i) == Tok(s, i).q <= e <= |s| && s[Skip(s, i)..e] == x && Spelt(s, e, more) && x != []
            && (e < |s| ==> !(IsWord(x) && InWord(s[e])) && !(x == ">" && s[e] == '>'))
    ensures more != [] ==> more[0] != []
  {
    var e := Tok(s, i).eq;
    GivesKind(s, i, x);
    assert Spelt(s, e, more) by { SpeltSkip(s, e, more); }
    TokenEnds(s, i, x);
    if more != [] { GivesKind(s, Tok(s, i).at, more[0]); }
  }

  /** Whatever is read was typed. */
  lemma {:induction false} SpeltTyped(s: string, i: nat, tokens: seq<string>) returns (gaps: seq<string>)
    requires i <= |s| && Spelt(s, i, tokens)
    ensures Spacing(tokens, gaps) && s[i..] == Typed(tokens, gaps)
    decreases |tokens|
  {
    SkipWhite(s, i);
    var q := Skip(s, i);
    if tokens == [] {
      assert s[i..q] == s[i..];
      gaps := [s[i..q]];
    } else {
      var x, more := tokens[0], tokens[1..];
      var e := Tok(s, i).eq;
      AfterToken(s, i, x, more);
      var mgaps := SpeltTyped(s, e, more);
      gaps := [s[i..q]] + mgaps;
      assert gaps[1..] == mgaps;
      ThreeParts(s, i, q, e);
      TypedCons(tokens, gaps);
      SpacingMore(s, e, tokens, gaps);
    }
  }

  lemma ThreeParts(s: string, i: nat, q: nat, e: nat)
    requires i <= q <= e <= |s|
    ensures s[i..] == s[i..q] + s[q..e] + s[e..]
  {
  }

  lemma TypedCons(tokens: seq<string>, gaps: seq<string>)
    requires tokens != [] && |gaps| == |tokens| + 1
    ensures Typed(tokens, gaps) == gaps[0] + tokens[0] + Typed(tokens[1..], gaps[1..])
  {
  }

  lemma SpacingMore(s: string, e: nat, tokens: seq<string>, gaps: seq<string>)
    requires tokens != [] && |gaps| == |tokens| + 1 && Spacing(tokens[1..], gaps[1..]) && White(gaps[0]) && e <= |s|
    requires s[e..] == Typed(tokens[1..], gaps[1..]) && (|tokens| > 1 ==> tokens[1] != [])
    requires e < |s| ==> !(IsWord(tokens[0]) && InWord(s[e])) && !(tokens[0] == ">" && s[e] == '>')
    ensures Spacing(tokens, gaps)
  {
    if |tokens| > 1 && gaps[1] == [] {
      assert e < |s| && s[e] == s[e..][0] == tokens[1][0];
      assert !Merge(tokens[0], tokens[1]);
    }
    forall k | 0 < k < |tokens| && Merge(tokens[k - 1], tokens[k])
      ensures gaps[k] != []
    {
      if k > 1 { assert Merge(tokens[1..][k - 2], tokens[1..][k - 1]); }
    }
    forall k | 0 <= k < |gaps|
      ensures White(gaps[k])
    {
      if k > 0 { assert gaps[k] == gaps[1..][k - 1]; }
    }
  }

  // ---------------------------------------------------------------- every line is parsed as its tree

  predicate AllTokens(tokens: seq<string>) {
    forall k :: 0 <= k < |tokens| ==> IsWord(tokens[k]) || IsSign(tokens[k])
  }

  lemma {:induction false} ItemsTokens(items: seq<Item>, rest: seq<string>)
    requires ProperItems(items) && AllTokens(rest)
    ensures AllTokens(ItemsThen(items, rest))
  {
    if items != [] { ItemsTokens(items[1..], rest); }
  }

  lemma {:induction false} UnitTokens(u: Unit, rest: seq<string>)
    requires ProperUnit(u) && AllTokens(rest)
    ensures AllTokens(UnitThen(u, rest))
  {
    match u
    case Simple(items) => ItemsTokens(items, rest);
    case Paren(l, to) =>
      ItemsTokens(to, rest);
      LineTokens(l, [")"] + ItemsThen(to, rest));
  }

  lemma {:induction false} PipelineTokens(p: Pipeline, rest: seq<string>)
    requires ProperPipeline(p) && AllTokens(rest)
    ensures AllTokens(PipelineThen(p, rest))
  {
    match p
    case One(u) => UnitTokens(u, rest);
    case Bar(u, q) =>
      PipelineTokens(q, rest);
      UnitTokens(u, ["|"] + PipelineThen(q, rest));
  }

  lemma AmpsTokens(n: nat, rest: seq<string>)
    requires AllTokens(rest)
    ensures AllTokens(AmpsThen(n, rest))
  {
  }

  lemma {:induction false} LineTokens(l: Line, rest: seq<string>)
    requires ProperLine(l) && AllTokens(rest)
    ensures AllTokens(LineThen(l, rest))
  {
    match l
    case Last(p, n) =>
      AmpsTokens(n, rest);
      PipelineTokens(p, AmpsThen(n, rest));
    case Then(p, n, m) =>
      LineTokens(m, rest);
      AmpsTokens(n, [";"] + LineThen(m, rest));
      PipelineTokens(p, AmpsThen(n, [";"] + LineThen(m, rest)));
  }

  /** What may follow: nothing, or one of these signs. */
  predicate Stops(rest: seq<string>, signs: string) {
    rest != [] ==> |rest[0]| == 1 && rest[0][0] in signs
  }

  /** Redirections, and then words and redirections: parseexec from a place between two tokens. */
  function ItemsAt(s: string, i: nat, argv: seq<string>, to: seq<Target>): (r: Result<Cmd>)
    requires i <= |s|
    ensures r.Ok? ==> i <= r.at <= |s|
  {
    var more := Redirs(s, i, to);
    if more.Err? then Err(more.error) else Words(s, more.at, argv, more.value)
  }

  lemma ItemsEnd(s: string, i: nat, argv: seq<string>, to: seq<Target>, rest: seq<string>)
    requires i <= |s| && Spelt(s, i, rest) && Stops(rest, "|)&;")
    ensures ItemsAt(s, i, argv, to) == Ok(Wrap(Exec(argv), to), Skip(s, i)) && Spelt(s, Skip(s, i), rest)
  {
    SpeltAhead(s, i, rest, "<>");
    SpeltSkip(s, i, rest);
    SpeltAhead(s, Skip(s, i), rest, "|)&;");
    SkipTwice(s, i);
  }

  lemma ItemsTo(s: string, i: nat, argv: seq<string>, to: seq<Target>, sign: string, file: string, rest: seq<string>)
    requires i <= |s| && Spelt(s, i, [sign] + ([file] + rest)) && ProperItem(To(sign, file))
    ensures var t, f := Tok(s, i), Tok(s, Tok(s, i).at);
            && i < f.at && Spelt(s, f.at, rest)
            && Redirs(s, i, to) == Redirs(s, f.at, to + [Target(file, sign != "<")])
            && ItemsAt(s, i, argv, to) == ItemsAt(s, f.at, argv, to + [Target(file, sign != "<")])
  {
    SpeltCons(s, i, sign, [file] + rest);
    GivesKind(s, i, sign);
    SpeltCons(s, Tok(s, i).at, file, rest);
    GivesKind(s, Tok(s, i).at, file);
    assert Ahead(s, i, "<>");
  }

  lemma ItemsArg(s: string, i: nat, argv: seq<string>, to: seq<Target>, w: string, rest: seq<string>)
    requires i <= |s| && Spelt(s, i, [w] + rest) && IsWord(w) && |argv| + 1 < MAXARGS
    ensures var t := Tok(s, i);
            && i < t.at && Spelt(s, t.at, rest) && ItemsAt(s, i, argv, to) == ItemsAt(s, t.at, argv + [w], to)
  {
    SpeltCons(s, i, w, rest);
    GivesKind(s, i, w);
    SkipTwice(s, i);
    assert !Ahead(s, i, "<>");
    assert !Ahead(s, Skip(s, i), "|)&;");
  }

  lemma ArgFirst(items: seq<Item>, w: string, more: seq<Item>, rest: seq<string>, argv: seq<string>)
    requires items == [Arg(w)] + more
    ensures items[1..] == more && ItemsThen(items, rest) == [w] + ItemsThen(more, rest)
    ensures Args(items) == [w] + Args(more) && argv + Args(items) == argv + [w] + Args(more)
    ensures Targets(items) == Targets(more)
  {
    assert items[1..] == more;
  }

  lemma ToFirst(items: seq<Item>, sign: string, f: string, x: Target, more: seq<Item>, rest: seq<string>,
                to: seq<Target>)
    requires items == [To(sign, f)] + more && x == Target(f, sign != "<")
    ensures items[1..] == more && ItemsThen(items, rest) == [sign] + ([f] + ItemsThen(more, rest))
    ensures Targets(items) == [x] + Targets(more) && to + Targets(items) == to + [x] + Targets(more)
    ensures Args(items) == Args(more)
  {
    assert items[1..] == more;
  }

  /** Words and redirections in any order. */
  lemma {:induction false} ItemsRead(s: string, i: nat, items: seq<Item>, rest: seq<string>, argv: seq<string>,
                                     to: seq<Target>)
    requires i <= |s| && Spelt(s, i, ItemsThen(items, rest)) && Stops(rest, "|)&;")
    requires ProperItems(items) && |argv| + |Args(items)| < MAXARGS
    ensures var r := ItemsAt(s, i, argv, to);
            r.Ok? && r.value == Wrap(Exec(argv + Args(items)), to + Targets(items)) && Spelt(s, r.at, rest)
    decreases |items|
  {
    if items == [] {
      assert argv + [] == argv && to + [] == to;
      ItemsEnd(s, i, argv, to, rest);
    } else {
      var more := items[1..];
      match items[0]
      case Arg(w) =>
        ArgFirst(items, w, more, rest, argv);
        ItemsArg(s, i, argv, to, w, ItemsThen(more, rest));
        ItemsRead(s, Tok(s, i).at, more, rest, argv + [w], to);
      case To(sign, f) =>
        var x := Target(f, sign != "<");
        ToFirst(items, sign, f, x, more, rest, to);
        ItemsTo(s, i, argv, to, sign, f, ItemsThen(more, rest));
        ItemsRead(s, Tok(s, Tok(s, i).at).at, more, rest, argv, to + [x]);
    }
  }

  lemma TargetsEnd(s: string, i: nat, rest: seq<string>, to: seq<Target>)
    requires i <= |s| && Spelt(s, i, rest) && Stops(rest, "|)&;")
    ensures Redirs(s, i, to) == Ok(to, Skip(s, i)) && to + Targets([]) == to && Spelt(s, Skip(s, i), rest)
  {
    SpeltAhead(s, i, rest, "<>");
    SpeltSkip(s, i, rest);
  }

  /** The redirections behind a parenthesis. */
  lemma {:induction false} TargetsRead(s: string, i: nat, items: seq<Item>, rest: seq<string>, to: seq<Target>)
    requires i <= |s| && Spelt(s, i, ItemsThen(items, rest)) && Stops(rest, "|)&;")
    requires ProperItems(items) && Args(items) == []
    ensures var r := Redirs(s, i, to); r.Ok? && r.value == to + Targets(items) && Spelt(s, r.at, rest)
    decreases |items|
  {
    if items == [] {
      TargetsEnd(s, i, rest, to);
    } else {
      var x, more := items[0], items[1..];
      var t := Target(x.file, x.sign != "<");
      ToFirst(items, x.sign, x.file, t, more, rest, to);
      ItemsTo(s, i, [], to, x.sign, x.file, ItemsThen(more, rest));
      TargetsRead(s, Tok(s, Tok(s, i).at).at, more, rest, to + [t]);
    }
  }

  lemma {:induction false} WrapAround(c: Cmd, to: seq<Target>)
    ensures Wrap(c, to) == Around(c, to)
    decreases |to|
  {
    if to != [] {
      WrapFirst(c, to);
      WrapAround(Redir(c, to[0]), to[1..]);
    }
  }

  lemma {:induction false} WrapFirst(c: Cmd, to: seq<Target>)
    requires to != []
    ensures Wrap(c, to) == Wrap(Redir(c, to[0]), to[1..])
    decreases |to|
  {
    if |to| > 1 {
      var most := to[..|to| - 1];
      WrapFirst(c, most);
      assert to[1..][..|to| - 2] == most[1..];
    } else {
      assert to[..0] == [];
    }
  }

  lemma {:induction false} UnitRead(s: string, i: nat, u: Unit, rest: seq<string>)
    requires i <= |s| && ProperUnit(u) && Spelt(s, i, UnitThen(u, rest)) && Stops(rest, "|)&;")
    ensures var r := ExecAt(s, i); r.Ok? && r.value == UnitTree(u) && Spelt(s, r.at, rest)
    decreases u
  {
    SpeltAhead(s, i, UnitThen(u, rest), "(");
    match u
    case Simple(items) =>
      NotOpen(items, rest);
      ItemsRead(s, i, items, rest, [], []);
      WrapAround(Exec(Args(items)), Targets(items));
      assert [] + Args(items) == Args(items) && [] + Targets(items) == Targets(items);
    case Paren(l, to) =>
      var tail := [")"] + ItemsThen(to, rest);
      SpeltCons(s, i, "(", LineThen(l, tail));
      LineRead(s, Tok(s, i).at, l, tail);
      CloseRead(s, LineAt(s, Tok(s, i).at), to, rest);
  }

  lemma NotOpen(items: seq<Item>, rest: seq<string>)
    requires ProperItems(items) && Stops(rest, "|)&;")
    ensures var x := ItemsThen(items, rest); x != [] ==> x[0] != [] && x[0][0] != '('
  {
  }

  lemma CloseRead(s: string, c: Result<Cmd>, to: seq<Item>, rest: seq<string>)
    requires c.Ok? && c.at <= |s| && Spelt(s, c.at, [")"] + ItemsThen(to, rest)) && Stops(rest, "|)&;")
    requires ProperItems(to) && Args(to) == []
    ensures var r := CloseAt(s, c); r.Ok? && r.value == Around(c.value, Targets(to)) && Spelt(s, r.at, rest)
  {
    SpeltAhead(s, c.at, [")"] + ItemsThen(to, rest), ")");
    SpeltCons(s, c.at, ")", ItemsThen(to, rest));
    TargetsRead(s, Tok(s, c.at).at, to, rest, []);
    WrapAround(c.value, Targets(to));
    assert [] + Targets(to) == Targets(to);
  }

  lemma {:induction false} PipelineRead(s: string, i: nat, p: Pipeline, rest: seq<string>)
    requires i <= |s| && ProperPipeline(p) && Spelt(s, i, PipelineThen(p, rest)) && Stops(rest, "&;)")
    ensures var r := PipeAt(s, i); r.Ok? && r.value == PipelineTree(p) && Spelt(s, r.at, rest)
    decreases p
  {
    var c := ExecAt(s, i);
    match p
    case One(u) =>
      UnitRead(s, i, u, rest);
      SpeltAhead(s, c.at, rest, "|");
      SpeltSkip(s, c.at, rest);
    case Bar(u, q) =>
      var tail := ["|"] + PipelineThen(q, rest);
      UnitRead(s, i, u, tail);
      SpeltAhead(s, c.at, tail, "|");
      SpeltCons(s, c.at, "|", PipelineThen(q, rest));
      PipelineRead(s, Tok(s, c.at).at, q, rest);
  }

  lemma {:induction false} AmpsRead(s: string, i: nat, c: Cmd, n: nat, rest: seq<string>)
    requires i <= |s| && Spelt(s, i, AmpsThen(n, rest)) && Stops(rest, ";)")
    ensures var r := Backs(s, i, c); r.value == AmpsTree(c, n) && Spelt(s, r.at, rest)
    decreases n
  {
    if n > 0 {
      var more, j := AmpsThen(n - 1, rest), Tok(s, i).at;
      assert Spelt(s, i, ["&"] + more) by { AmpFirst(n, rest); }
      OneAmp(s, i, c, more);
      AmpsRead(s, j, Back(c), n - 1, rest);
      assert AmpsTree(Back(c), n - 1) == AmpsTree(c, n) by { BackOnce(c, n); }
    } else {
      AmpsEnd(s, i, c, rest);
    }
  }

  lemma AmpsEnd(s: string, i: nat, c: Cmd, rest: seq<string>)
    requires i <= |s| && Spelt(s, i, AmpsThen(0, rest)) && Stops(rest, ";)")
    ensures Backs(s, i, c) == Ok(c, Skip(s, i)) && Spelt(s, Skip(s, i), rest)
  {
    assert AmpsThen(0, rest) == rest;
    SpeltAhead(s, i, rest, "&");
    SpeltSkip(s, i, rest);
  }

  lemma OneAmp(s: string, i: nat, c: Cmd, rest: seq<string>)
    requires i <= |s| && Spelt(s, i, ["&"] + rest)
    ensures Spelt(s, Tok(s, i).at, rest) && Backs(s, i, c) == Backs(s, Tok(s, i).at, Back(c))
  {
    SpeltAhead(s, i, ["&"] + rest, "&");
    SpeltCons(s, i, "&", rest);
  }

  lemma {:induction false} BackOnce(c: Cmd, n: nat)
    requires n > 0
    ensures AmpsTree(Back(c), n - 1) == AmpsTree(c, n)
  {
    if n > 1 { BackOnce(c, n - 1); }
  }

  lemma AmpFirst(n: nat, rest: seq<string>)
    requires n > 0
    ensures AmpsThen(n, rest) == ["&"] + AmpsThen(n - 1, rest)
  {
  }

  lemma AmpsStop(n: nat, rest: seq<string>)
    requires Stops(rest, ";)")
    ensures Stops(AmpsThen(n, rest), "&;)")
  {
  }

  lemma {:induction false} LineRead(s: string, i: nat, l: Line, rest: seq<string>)
    requires i <= |s| && ProperLine(l) && Spelt(s, i, LineThen(l, rest)) && Stops(rest, ")")
    ensures var r := LineAt(s, i); r.Ok? && r.value == LineTree(l) && Spelt(s, r.at, rest)
    decreases l
  {
    var tail := if l.Last? then rest else [";"] + LineThen(l.next, rest);
    AmpsStop(l.amps, tail);
    PipelineRead(s, i, l.pipe, AmpsThen(l.amps, tail));
    var p := PipeAt(s, i);
    AmpsRead(s, p.at, p.value, l.amps, tail);
    var c := Backs(s, p.at, p.value);
    SpeltAhead(s, c.at, tail, ";");
    if l.Last? {
      SpeltSkip(s, c.at, rest);
    } else {
      SpeltCons(s, c.at, ";", LineThen(l.next, rest));
      LineRead(s, Tok(s, c.at).at, l.next, rest);
    }
  }

  /** A line of proper words, however it is spaced, is parsed as its tree. */
  lemma LineParsed(s: string, l: Line)
    requires ProperLine(l) && IsTyped(s, l)
    ensures Parsed(s) == Ok(LineTree(l), |s|)
  {
    var tokens := LineThen(l, []);
    var gaps :| Spacing(tokens, gaps) && s == Typed(tokens, gaps);
    assert s[0..] == s;
    LineTokens(l, []);
    TypedSpelt(s, 0, tokens, gaps);
    LineRead(s, 0, l, []);
  }

  // ---------------------------------------------------------------- only lines are parsed

  /** The sign and the file where parseredirs finds a redirection. */
  lemma ToThere(s: string, i: nat, argv: seq<string>, to: seq<Target>) returns (sign: string, file: string, at: nat)
    requires i <= |s| && Ahead(s, i, "<>") && Redirs(s, i, to).Ok?
    ensures ProperItem(To(sign, file)) && Gives(s, i, sign) && Gives(s, Tok(s, i).at, file)
    ensures at == Tok(s, Tok(s, i).at).at && i < at <= |s|
    ensures Redirs(s, i, to) == Redirs(s, at, to + [Target(file, sign != "<")])
            && ItemsAt(s, i, argv, to) == ItemsAt(s, at, argv, to + [Target(file, sign != "<")])
  {
    var t := Tok(s, i);
    var f := Tok(s, t.at);
    sign, file, at := s[t.q..t.eq], s[f.q..f.eq], f.at;
    GivesKind(s, i, sign);
    GivesKind(s, t.at, file);
  }

  lemma {:induction false} ItemsSound(s: string, i: nat, argv: seq<string>, to: seq<Target>, rest: seq<string>)
    returns (items: seq<Item>)
    requires i <= |s| && ItemsAt(s, i, argv, to).Ok? && Spelt(s, ItemsAt(s, i, argv, to).at, rest)
    ensures ProperItems(items) && Spelt(s, i, ItemsThen(items, rest))
    ensures |argv| < MAXARGS ==> |argv| + |Args(items)| < MAXARGS
    ensures ItemsAt(s, i, argv, to).value == Wrap(Exec(argv + Args(items)), to + Targets(items))
    decreases |s| - i
  {
    var t := Tok(s, i);
    if Ahead(s, i, "<>") {
      var sign, file, at := ToThere(s, i, argv, to);
      var x := Target(file, sign != "<");
      var more := ItemsSound(s, at, argv, to + [x], rest);
      items := [To(sign, file)] + more;
      ToFirst(items, sign, file, x, more, rest, to);
      SpeltCons(s, t.at, file, ItemsThen(more, rest));
      SpeltCons(s, i, sign, [file] + ItemsThen(more, rest));
      ItemMore(To(sign, file), more);
    } else if Ahead(s, i, "|)&;") || t.kind == End {
      items := [];
      SkipTwice(s, i);
      assert argv + [] == argv && to + [] == to;
      SpeltSkip(s, i, rest);
    } else {
      SkipTwice(s, i);
      var w := s[t.q..t.eq];
      var more := ItemsSound(s, t.at, argv + [w], to, rest);
      items := [Arg(w)] + more;
      ArgFirst(items, w, more, rest, argv);
      SpeltCons(s, i, w, ItemsThen(more, rest));
      ItemMore(Arg(w), more);
    }
  }

  lemma ItemMore(x: Item, more: seq<Item>)
    requires ProperItem(x) && ProperItems(more)
    ensures ProperItems([x] + more)
  {
  }

  lemma {:induction false} TargetsSound(s: string, i: nat, to: seq<Target>, rest: seq<string>)
    returns (items: seq<Item>)
    requires i <= |s| && Redirs(s, i, to).Ok? && Spelt(s, Redirs(s, i, to).at, rest)
    ensures ProperItems(items) && Args(items) == [] && Spelt(s, i, ItemsThen(items, rest))
    ensures Redirs(s, i, to).value == to + Targets(items)
    decreases |s| - i
  {
    if Ahead(s, i, "<>") {
      var sign, file, at := ToThere(s, i, [], to);
      var x := Target(file, sign != "<");
      var more := TargetsSound(s, at, to + [x], rest);
      items := [To(sign, file)] + more;
      ToFirst(items, sign, file, x, more, rest, to);
      SpeltCons(s, Tok(s, i).at, file, ItemsThen(more, rest));
      SpeltCons(s, i, sign, [file] + ItemsThen(more, rest));
      ItemMore(To(sign, file), more);
    } else {
      items := [];
      assert to + [] == to;
      SpeltSkip(s, i, rest);
    }
  }

  /** A sign that peek sees is the next token. */
  lemma AheadGives(s: string, i: nat, x: string)
    requires i <= |s| && |x| == 1 && x[0] in "|&;()" && Ahead(s, i, x)
    ensures Gives(s, i, x) && i < Tok(s, i).at
  {
    var q := Skip(s, i);
    assert s[q] == x[0] && s[q..q + 1] == [s[q]] == x;
    assert Tok(s, i) == Token(Sign(s[q]), q, q + 1, Skip(s, q + 1));
  }

  lemma {:induction false} UnitSound(s: string, i: nat, rest: seq<string>) returns (u: Unit)
    requires i <= |s| && ExecAt(s, i).Ok? && Spelt(s, ExecAt(s, i).at, rest)
    ensures ProperUnit(u) && Spelt(s, i, UnitThen(u, rest)) && UnitTree(u) == ExecAt(s, i).value
    decreases |s| - i, 1
  {
    if Ahead(s, i, "(") {
      AheadGives(s, i, "(");
      var c := LineAt(s, Tok(s, i).at);
      AheadGives(s, c.at, ")");
      var to := TargetsSound(s, Tok(s, c.at).at, [], rest);
      var tail := [")"] + ItemsThen(to, rest);
      SpeltCons(s, c.at, ")", ItemsThen(to, rest));
      var l := LineSound(s, Tok(s, i).at, tail);
      SpeltCons(s, i, "(", LineThen(l, tail));
      u := Paren(l, to);
      WrapAround(c.value, Targets(to));
      assert [] + Targets(to) == Targets(to);
    } else {
      var items := ItemsSound(s, i, [], [], rest);
      u := Simple(items);
      WrapAround(Exec(Args(items)), Targets(items));
      assert [] + Args(items) == Args(items) && [] + Targets(items) == Targets(items);
    }
  }

  lemma {:induction false} PipelineSound(s: string, i: nat, rest: seq<string>) returns (p: Pipeline)
    requires i <= |s| && PipeAt(s, i).Ok? && Spelt(s, PipeAt(s, i).at, rest)
    ensures ProperPipeline(p) && Spelt(s, i, PipelineThen(p, rest)) && PipelineTree(p) == PipeAt(s, i).value
    decreases |s| - i, 2
  {
    var c := ExecAt(s, i);
    if Ahead(s, c.at, "|") {
      AheadGives(s, c.at, "|");
      var q := PipelineSound(s, Tok(s, c.at).at, rest);
      SpeltCons(s, c.at, "|", PipelineThen(q, rest));
      var u := UnitSound(s, i, ["|"] + PipelineThen(q, rest));
      p := Bar(u, q);
    } else {
      SpeltSkip(s, c.at, rest);
      var u := UnitSound(s, i, rest);
      p := One(u);
    }
  }

  lemma {:induction false} AmpsSound(s: string, i: nat, c: Cmd, rest: seq<string>) returns (n: nat)
    requires i <= |s| && Spelt(s, Backs(s, i, c).at, rest)
    ensures Spelt(s, i, AmpsThen(n, rest)) && AmpsTree(c, n) == Backs(s, i, c).value
    decreases |s| - i
  {
    if Ahead(s, i, "&") {
      AheadGives(s, i, "&");
      var m := AmpsSound(s, Tok(s, i).at, Back(c), rest);
      n := m + 1;
      AmpFirst(n, rest);
      SpeltCons(s, i, "&", AmpsThen(m, rest));
      BackOnce(c, n);
    } else {
      n := 0;
      assert AmpsThen(0, rest) == rest;
      SpeltSkip(s, i, rest);
    }
  }

  lemma {:induction false} LineSound(s: string, i: nat, rest: seq<string>) returns (l: Line)
    requires i <= |s| && LineAt(s, i).Ok? && Spelt(s, LineAt(s, i).at, rest)
    ensures ProperLine(l) && Spelt(s, i, LineThen(l, rest)) && LineTree(l) == LineAt(s, i).value
    decreases |s| - i, 3
  {
    var p := PipeAt(s, i);
    var c := Backs(s, p.at, p.value);
    if Ahead(s, c.at, ";") {
      AheadGives(s, c.at, ";");
      var m := LineSound(s, Tok(s, c.at).at, rest);
      var tail := [";"] + LineThen(m, rest);
      SpeltCons(s, c.at, ";", LineThen(m, rest));
      var n := AmpsSound(s, p.at, p.value, tail);
      var q := PipelineSound(s, i, AmpsThen(n, tail));
      l := Then(q, n, m);
    } else {
      SpeltSkip(s, c.at, rest);
      var n := AmpsSound(s, p.at, p.value, rest);
      var q := PipelineSound(s, i, AmpsThen(n, rest));
      l := Last(q, n);
    }
  }

  /** Whatever is parsed is a line of proper words, and is parsed as its tree. */
  lemma ParsedLine(s: string) returns (l: Line)
    requires Parsed(s).Ok?
    ensures ProperLine(l) && IsTyped(s, l) && LineTree(l) == Parsed(s).value
  {
    var c := LineAt(s, 0);
    l := LineSound(s, 0, []);
    var gaps := SpeltTyped(s, 0, LineThen(l, []));
    assert s[0..] == s;
  }

  /** A simple command: its words, with the redirections around them in the order in which they stand. */
  lemma SimpleCommand(items: seq<Item>, gaps: seq<string>)
    requires ProperItems(items) && |Args(items)| < MAXARGS && Spacing(ItemsThen(items, []), gaps)
    ensures var s := Typed(ItemsThen(items, []), gaps);
              Parsed(s) == Ok(Around(Exec(Args(items)), Targets(items)), |s|)
  {
    var u := Simple(items);
    OneUnit(u);
    assert AmpsThen(0, []) == [];
    assert LineThen(Only(u), []) == PipelineThen(One(u), AmpsThen(0, [])) == ItemsThen(items, []);
    LineParsed(Typed(ItemsThen(items, []), gaps), Only(u));
  }

  /** Printing a command and parsing what was printed gives the command back. */
  lemma RoundTrip(c: Cmd)
    requires WellFormed(c)
    ensures Parsed(Print(c)) == Ok(c, |Print(c)|)
  {
    LineForIs(c);
    PrintIsTyped(c);
    LineParsed(Print(c), LineFor(c));
  }

  /** The trees the parser returns are exactly those with at most nine proper words a command and proper file names. */
  lemma ParserRange(c: Cmd)
    ensures WellFormed(c) <==> exists s :: Parsed(s).Ok? && Parsed(s).value == c
  {
    if WellFormed(c) {
      RoundTrip(c);
      assert Parsed(Print(c)).value == c;
    }
    if s :| Parsed(s).Ok? && Parsed(s).value == c {
      var l := ParsedLine(s);
      LineFormed(l);
    }
  }

  // ---------------------------------------------------------------- the code

  /** The loop over white space that gettoken and peek share. */
  method SkipSpaces(s: string, i: nat) returns (j: nat)
    requires i <= |s|
    ensures j == Skip(s, i)
  {
    j := i;
    while j < |s| && Space(s[j])
      invariant i <= j <= |s| && Skip(s, j) == Skip(s, i)
    {
      j := j + 1;
    }
  }

  /** gettoken. */
  method GetToken(s: string, i: nat) returns (t: Token)
    requires i <= |s|
    ensures t == Tok(s, i)
  {
    var q := SkipSpaces(s, i);
    var e, kind := q, End;
    if q < |s| {
      if s[q] in "|();&<" {
        e, kind := q + 1, Sign(s[q]);
      } else if s[q] == '>' {
        e, kind := q + 1, Sign('>');
        if e < |s| && s[e] == '>' { e, kind := e + 1, Append; }
      } else {
        kind := Word;
        while e < |s| && !Space(s[e]) && !Symbol(s[e])
          invariant q <= e <= |s| && WordEnd(s, e) == WordEnd(s, q)
        {
          e := e + 1;
        }
      }
    }
    var at := SkipSpaces(s, e);
    t := Token(kind, q, e, at);
  }

  /** peek, which leaves the cursor behind the white space. */
  method Peeks(s: string, i: nat, toks: string) returns (r: bool, j: nat)
    requires i <= |s|
    ensures j == Skip(s, i) && r == Ahead(s, i, toks)
  {
    j := SkipSpaces(s, i);
    r := j < |s| && s[j] in toks;
  }

  /** parseredirs: the redirections to put around the command. */
  method ParseRedirs(s: string, i: nat, acc: seq<Target>) returns (r: Result<seq<Target>>)
    requires i <= |s|
    ensures r == Redirs(s, i, acc)
  {
    var to := acc;
    var more, j := Peeks(s, i, "<>");
    SkipTwice(s, i);
    while more
      invariant j <= |s| && Redirs(s, j, to) == Redirs(s, i, acc) && more == Ahead(s, j, "<>") && Skip(s, j) == j
      decreases |s| - j
    {
      var t := GetToken(s, j);
      var f := GetToken(s, t.at);
      if f.kind != Word { return Err(MissingFile); }
      to := to + [Target(s[f.q..f.eq], t.kind != Sign('<'))];
      SkipTwice(s, f.at);
      more, j := Peeks(s, f.at, "<>");
    }
    r := Ok(to, j);
  }

  /** parseexec. */
  method ParseExec(s: string, i: nat) returns (r: Result<Cmd>)
    requires i <= |s|
    ensures r == ExecAt(s, i)
    decreases |s| - i, 1
  {
    var open, k := Peeks(s, i, "(");
    SkipTwice(s, i);
    if open { r := ParseBlock(s, i); return; }
    var to := ParseRedirs(s, k, []);
    assert Redirs(s, k, []) == Redirs(s, i, []);
    if to.Err? { return Err(to.error); }
    r := ParseWords(s, to.at, to.value);
  }

  /** parseexec's loop. */
  method ParseWords(s: string, i: nat, first: seq<Target>) returns (r: Result<Cmd>)
    requires i <= |s|
    ensures r == Words(s, i, [], first)
  {
    var argv: seq<string>, to, j := [], first, i;
    while true
      invariant j <= |s| && Words(s, j, argv, to) == Words(s, i, [], first)
      decreases |s| - j
    {
      var stop, k := Peeks(s, j, "|)&;");
      SkipTwice(s, j);
      if stop { return Ok(Wrap(Exec(argv), to), k); }
      var t := GetToken(s, k);
      if t.kind == End { return Ok(Wrap(Exec(argv), to), t.at); }
      if t.kind != Word { return Err(Syntax); }
      if |argv| + 1 >= MAXARGS { return Err(TooManyArgs); }
      var more := ParseRedirs(s, t.at, to);
      if more.Err? { return Err(more.error); }
      argv, to, j := argv + [s[t.q..t.eq]], more.value, more.at;
    }
  }

  /** parseblock, called where peek has seen a parenthesis. */
  method ParseBlock(s: string, i: nat) returns (r: Result<Cmd>)
    requires i <= |s| && Ahead(s, i, "(")
    ensures r == BlockAt(s, i)
    decreases |s| - i, 0
  {
    var t := GetToken(s, i);
    var c := ParseLine(s, t.at);
    if c.Err? { return c; }
    var close, k := Peeks(s, c.at, ")");
    if !close { return Err(MissingClose); }
    SkipTwice(s, c.at);
    t := GetToken(s, k);
    var to := ParseRedirs(s, t.at, []);
    if to.Err? { return Err(to.error); }
    r := Ok(Wrap(c.value, to.value), to.at);
  }

  /** parsepipe. */
  method ParsePipe(s: string, i: nat) returns (r: Result<Cmd>)
    requires i <= |s|
    ensures r == PipeAt(s, i)
    decreases |s| - i, 2
  {
    var c := ParseExec(s, i);
    if c.Err? { return c; }
    var bar, k := Peeks(s, c.at, "|");
    if !bar { return Ok(c.value, k); }
    SkipTwice(s, c.at);
    var t := GetToken(s, k);
    var d := ParsePipe(s, t.at);
    if d.Err? { return d; }
    r := Ok(Pipe(c.value, d.value), d.at);
  }

  /** parseline. */
  method ParseLine(s: string, i: nat) returns (r: Result<Cmd>)
    requires i <= |s|
    ensures r == LineAt(s, i)
    decreases |s| - i, 3
  {
    var p := ParsePipe(s, i);
    if p.Err? { return p; }
    var cmd := p.value;
    var more, k := Peeks(s, p.at, "&");
    SkipTwice(s, p.at);
    while more
      invariant i <= k <= |s| && Backs(s, k, cmd) == Backs(s, p.at, p.value) && more == Ahead(s, k, "&") && Skip(s, k) == k
      decreases |s| - k
    {
      var t := GetToken(s, k);
      cmd := Back(cmd);
      SkipTwice(s, t.at);
      more, k := Peeks(s, t.at, "&");
    }
    var semi, n := Peeks(s, k, ";");
    if !semi { return Ok(cmd, n); }
    var t := GetToken(s, n);
    var d := ParseLine(s, t.at);
    if d.Err? { return d; }
    r := Ok(List(cmd, d.value), d.at);
  }

  /** parsecmd, which ends on every input. */
  method ParseCmd(s: string) returns (r: Result<Cmd>)
    ensures r == Parsed(s)
    ensures forall l :: ProperLine(l) && IsTyped(s, l) ==> r.Ok? && r.value == LineTree(l)
    ensures r.Ok? ==> exists l :: ProperLine(l) && IsTyped(s, l) && LineTree(l) == r.value
    ensures r.Ok? ==> WellFormed(r.value) && Parsed(Print(r.value)).Ok? && Parsed(Print(r.value)).value == r.value
  {
    r := ParseLine(s, 0);
    if r.Ok? {
      var _, j := Peeks(s, r.at, "");
      r := if j != |s| then Err(Leftovers) else Ok(r.value, j);
    }
    forall l | ProperLine(l) && IsTyped(s, l) ensures r.Ok? && r.value == LineTree(l) { LineParsed(s, l); }
    if r.Ok? {
      var l := ParsedLine(s);
      LineFormed(l);
      RoundTrip(r.value);
    }
  }
}
