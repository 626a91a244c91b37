/**
 The command lines that uprogs/sh.c is for, independently of its parser: how a line is
 put together from words, redirections, parentheses and signs, how it is typed with white
 space between its tokens, and the command tree that it stands for.
 */
module ShellLines {

  // ---------------------------------------------------------------- command trees

  datatype Cmd =
    | Exec(argv: seq<string>)
    | Redir(cmd: Cmd, to: Target)
    | Pipe(left: Cmd, right: Cmd)
    | List(left: Cmd, right: Cmd)
    | Back(cmd: Cmd)

  /** File and descriptor of a redirection: 1 and O_WRONLY|O_CREATE if it writes, 0 and O_RDONLY if not. */
  datatype Target = Target(file: string, writes: bool)

  const MAXARGS: nat := 10

  // ---------------------------------------------------------------- characters and tokens

  predicate Space(c: char) { c in " \t\r\n\U{0B}" }

  predicate Symbol(c: char) { c in "<|>&;()" }

  predicate InWord(c: char) { !Space(c) && !Symbol(c) }

  predicate IsWord(w: string) {
    w != [] && forall k :: 0 <= k < |w| ==> InWord(w[k])
  }

  predicate IsSign(x: string) {
    x == ">>" || (|x| == 1 && Symbol(x[0]))
  }

  predicate White(g: string) {
    forall k :: 0 <= k < |g| ==> Space(g[k])
  }

  /** Two tokens that would read as one, or as others, without white space between them. */
  predicate Merge(x: string, y: string) {
    (IsWord(x) && IsWord(y)) || (x == ">" && y != [] && y[0] == '>')
  }

  /** A gap before each token and one at the end. */
  predicate Spacing(tokens: seq<string>, gaps: seq<string>) {
    && |gaps| == |tokens| + 1 && (forall k :: 0 <= k < |gaps| ==> White(gaps[k]))
    && forall k :: 0 < k < |tokens| && Merge(tokens[k - 1], tokens[k]) ==> gaps[k] != []
  }

  /** The tokens as typed with these gaps. */
  function Typed(tokens: seq<string>, gaps: seq<string>): string
    requires |gaps| == |tokens| + 1
  {
    if tokens == [] then gaps[0] else gaps[0] + tokens[0] + Typed(tokens[1..], gaps[1..])
  }

  // ---------------------------------------------------------------- lines

  datatype Item = Arg(word: string) | To(sign: string, file: string)

  /** A command: words and redirections in any order, or a line in parentheses with redirections behind it. */
  datatype Unit = Simple(items: seq<Item>) | Paren(line: Line, to: seq<Item>)

  datatype Pipeline = One(cmd: Unit) | Bar(cmd: Unit, rest: Pipeline)

  /** A pipeline and a number of ampersands; behind a semicolon, another line. */
  datatype Line = Last(pipe: Pipeline, amps: nat) | Then(pipe: Pipeline, amps: nat, next: Line)

  function Args(items: seq<Item>): seq<string> {
    if items == [] then []
    else if items[0].Arg? then [items[0].word] + Args(items[1..])
    else Args(items[1..])
  }

  function Targets(items: seq<Item>): seq<Target> {
    if items == [] then []
    else if items[0].Arg? then Targets(items[1..])
    else [Target(items[0].file, items[0].sign != "<")] + Targets(items[1..])
  }

  predicate ProperItem(x: Item) {
    match x
    case Arg(w) => IsWord(w)
    case To(sign, f) => (sign == "<" || sign == ">" || sign == ">>") && IsWord(f)
  }

  predicate ProperItems(items: seq<Item>) {
    forall k :: 0 <= k < |items| ==> ProperItem(items[k])
  }

  predicate ProperUnit(u: Unit) {
    match u
    case Simple(items) => ProperItems(items) && |Args(items)| < MAXARGS
    case Paren(l, to) => ProperLine(l) && ProperItems(to) && Args(to) == []
  }

  predicate ProperPipeline(p: Pipeline) {
    ProperUnit(p.cmd) && (p.Bar? ==> ProperPipeline(p.rest))
  }

  /** Words and file names are proper ones, and no command has more than nine words. */
  predicate ProperLine(l: Line) {
    ProperPipeline(l.pipe) && (l.Then? ==> ProperLine(l.next))
  }

  // ---------------------------------------------------------------- the tokens of a line, and then rest

  function ItemsThen(items: seq<Item>, rest: seq<string>): seq<string> {
    if items == [] then rest
    else match items[0]
      case Arg(w) => [w] + ItemsThen(items[1..], rest)
      case To(sign, f) => [sign] + ([f] + ItemsThen(items[1..], rest))
  }

  function UnitThen(u: Unit, rest: seq<string>): seq<string> {
    match u
    case Simple(items) => ItemsThen(items, rest)
    case Paren(l, to) => ["("] + LineThen(l, [")"] + ItemsThen(to, rest))
  }

  function PipelineThen(p: Pipeline, rest: seq<string>): seq<string> {
    match p
    case One(u) => UnitThen(u, rest)
    case Bar(u, q) => UnitThen(u, ["|"] + PipelineThen(q, rest))
  }

  function AmpsThen(n: nat, rest: seq<string>): seq<string> {
    seq(n, _ => "&") + rest
  }

  function LineThen(l: Line, rest: seq<string>): seq<string> {
    match l
    case Last(p, n) => PipelineThen(p, AmpsThen(n, rest))
    case Then(p, n, m) => PipelineThen(p, AmpsThen(n, [";"] + LineThen(m, rest)))
  }

  /** s is the line typed with some white space. */
  ghost predicate IsTyped(s: string, l: Line) {
    exists gaps :: Spacing(LineThen(l, []), gaps) && s == Typed(LineThen(l, []), gaps)
  }

  // ---------------------------------------------------------------- the tree of a line

  /** The command with its output or input redirected to the first target, then to the next, and so on outwards. */
  function Around(c: Cmd, to: seq<Target>): Cmd
    decreases |to|
  {
    if to == [] then c else Around(Redir(c, to[0]), to[1..])
  }

  function UnitTree(u: Unit): Cmd {
    match u
    case Simple(items) => Around(Exec(Args(items)), Targets(items))
    case Paren(l, to) => Around(LineTree(l), Targets(to))
  }

  function PipelineTree(p: Pipeline): Cmd {
    match p
    case One(u) => UnitTree(u)
    case Bar(u, q) => Pipe(UnitTree(u), PipelineTree(q))
  }

  function AmpsTree(c: Cmd, n: nat): Cmd {
    if n == 0 then c else Back(AmpsTree(c, n - 1))
  }

  function LineTree(l: Line): Cmd {
    match l
    case Last(p, n) => AmpsTree(PipelineTree(p), n)
    case Then(p, n, m) => List(AmpsTree(PipelineTree(p), n), LineTree(m))
  }

  // ---------------------------------------------------------------- a line for every tree

  predicate WellFormed(c: Cmd) {
    match c
    case Exec(argv) => |argv| < MAXARGS && forall k :: 0 <= k < |argv| ==> IsWord(argv[k])
    case Redir(d, to) => WellFormed(d) && IsWord(to.file)
    case Pipe(l, r) => WellFormed(l) && WellFormed(r)
    case List(l, r) => WellFormed(l) && WellFormed(r)
    case Back(d) => WellFormed(d)
  }

  function ArgItems(argv: seq<string>): seq<Item> {
    seq(|argv|, k requires 0 <= k < |argv| => Arg(argv[k]))
  }

  function Only(u: Unit): Line { Last(One(u), 0) }

  /** A line that stands for the tree, its parts in parentheses. */
  function LineFor(c: Cmd): Line {
    match c
    case Exec(argv) => Only(Simple(ArgItems(argv)))
    case Redir(d, to) => Only(Paren(LineFor(d), [To(if to.writes then ">" else "<", to.file)]))
    case Pipe(l, r) => Last(Bar(Paren(LineFor(l), []), One(Paren(LineFor(r), []))), 0)
    case List(l, r) => Then(One(Paren(LineFor(l), [])), 0, Only(Paren(LineFor(r), [])))
    case Back(d) => Last(One(Paren(LineFor(d), [])), 1)
  }

  /** A blank before every token and at the end. */
  function Blanks(n: nat): seq<string> {
    seq(n + 1, _ => " ")
  }

  /** The tree as text. */
  function Print(c: Cmd): string {
    var tokens := LineThen(LineFor(c), []);
    Typed(tokens, Blanks(|tokens|))
  }

  lemma {:induction false} ArgsOf(argv: seq<string>)
    ensures Args(ArgItems(argv)) == argv && Targets(ArgItems(argv)) == []
  {
    if argv != [] {
      ArgsOf(argv[1..]);
      assert ArgItems(argv)[1..] == ArgItems(argv[1..]);
      assert [argv[0]] + argv[1..] == argv;
    }
  }

  lemma NoTarget(l: Line)
    requires ProperLine(l)
    ensures var u := Paren(l, []);
              ProperUnit(u) && ProperLine(Only(u)) && UnitTree(u) == LineTree(l) == LineTree(Only(u))
  {
    var u := Paren(l, []);
    assert Args([]) == [] && Targets([]) == [] && Around(LineTree(l), []) == LineTree(l);
    assert ProperUnit(u) && UnitTree(u) == LineTree(l);
    OneUnit(u);
  }

  lemma OneUnit(u: Unit)
    requires ProperUnit(u)
    ensures ProperLine(Only(u)) && LineTree(Only(u)) == UnitTree(u)
  {
    assert ProperPipeline(One(u)) && PipelineTree(One(u)) == UnitTree(u);
    assert AmpsTree(UnitTree(u), 0) == UnitTree(u);
  }

  lemma OneTarget(l: Line, to: Target)
    requires ProperLine(l) && IsWord(to.file)
    ensures var u := Paren(l, [To(if to.writes then ">" else "<", to.file)]);
              ProperLine(Only(u)) && LineTree(Only(u)) == Redir(LineTree(l), to)
  {
    var x := To(if to.writes then ">" else "<", to.file);
    assert [x][1..] == [] && [to][1..] == [] && Targets([]) == [] && Args([]) == [];
    assert Args([x]) == [] && Targets([x]) == [to];
    var u := Paren(l, [x]);
    assert ProperUnit(u) && UnitTree(u) == Around(LineTree(l), [to]) == Around(Redir(LineTree(l), to), []);
    OneUnit(u);
  }

  lemma {:induction false} LineForIs(c: Cmd)
    requires WellFormed(c)
    ensures ProperLine(LineFor(c)) && LineTree(LineFor(c)) == c
  {
    match c
    case Exec(argv) =>
      ArgsOf(argv);
      var u := Simple(ArgItems(argv));
      assert ProperUnit(u) && UnitTree(u) == Around(c, []) == c;
      OneUnit(u);
    case Redir(d, to) =>
      LineForIs(d);
      OneTarget(LineFor(d), to);
    case Pipe(l, r) =>
      LineForIs(l);
      LineForIs(r);
      NoTarget(LineFor(l));
      NoTarget(LineFor(r));
    case List(l, r) =>
      LineForIs(l);
      LineForIs(r);
      NoTarget(LineFor(l));
      NoTarget(LineFor(r));
    case Back(d) =>
      LineForIs(d);
      NoTarget(LineFor(d));
  }

  lemma PrintIsTyped(c: Cmd)
    ensures IsTyped(Print(c), LineFor(c))
  {
    var tokens := LineThen(LineFor(c), []);
    assert Spacing(tokens, Blanks(|tokens|));
  }

  // ---------------------------------------------------------------- every line's tree is well formed

  lemma {:induction false} AroundFormed(c: Cmd, items: seq<Item>)
    requires WellFormed(c) && ProperItems(items)
    ensures WellFormed(Around(c, Targets(items)))
    decreases |items|
  {
    if items != [] {
      if items[0].Arg? {
        AroundFormed(c, items[1..]);
      } else {
        var t := Target(items[0].file, items[0].sign != "<");
        assert Targets(items)[0] == t && Targets(items)[1..] == Targets(items[1..]);
        AroundFormed(Redir(c, t), items[1..]);
      }
    }
  }

  lemma {:induction false} ArgsProper(items: seq<Item>)
    requires ProperItems(items)
    ensures forall k :: 0 <= k < |Args(items)| ==> IsWord(Args(items)[k])
  {
    if items != [] { ArgsProper(items[1..]); }
  }

  lemma {:induction false} UnitFormed(u: Unit)
    requires ProperUnit(u)
    ensures WellFormed(UnitTree(u))
  {
    match u
    case Simple(items) =>
      ArgsProper(items);
      AroundFormed(Exec(Args(items)), items);
    case Paren(l, to) =>
      LineFormed(l);
      AroundFormed(LineTree(l), to);
  }

  lemma {:induction false} PipelineFormed(p: Pipeline)
    requires ProperPipeline(p)
    ensures WellFormed(PipelineTree(p))
  {
    UnitFormed(p.cmd);
    if p.Bar? { PipelineFormed(p.rest); }
  }

  lemma {:induction false} AmpsFormed(c: Cmd, n: nat)
    requires WellFormed(c)
    ensures WellFormed(AmpsTree(c, n))
  {
    if n > 0 { AmpsFormed(c, n - 1); }
  }

  lemma {:induction false} LineFormed(l: Line)
    requires ProperLine(l)
    ensures WellFormed(LineTree(l))
  {
    PipelineFormed(l.pipe);
    AmpsFormed(PipelineTree(l.pipe), l.amps);
    if l.Then? { LineFormed(l.next); }
  }
}
