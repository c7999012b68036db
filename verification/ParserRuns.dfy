/** The parser engine as a pushdown machine, and its correctness: it accepts exactly the token
    sequences that the grammar derives, it never stacks more than 30 states, and it stops. */
module ParserRuns {
  import opened Grammar
  import opened ParserTables

  /** The state stack, the derivation trees of the stacked symbols, and the tokens not yet
      shifted. */
  datatype Config =
    | Running(ss: seq<int>, forest: seq<Tree>, rest: seq<Token>)
    | Accepted(tree: Tree)
    | Rejected

  function Top(ss: seq<int>): int
    requires ss != []
  {
    ss[|ss| - 1]
  }

  /** The look-ahead symbol. */
  function Look(rest: seq<Token>): int {
    if rest == [] then 0 else Translate(rest[0].code)
  }

  lemma LookRange(rest: seq<Token>)
    ensures 0 <= Look(rest) < 24
  {
  }

  /** The input up to its end: no token translates to the end symbol. */
  ghost predicate Input(ts: seq<Token>) {
    forall t | t in ts :: Translate(t.code) != 0
  }

  ghost predicate Stack(ss: seq<int>) {
    && ss != [] && ss[0] == 0
    && forall i | 1 <= i < |ss| :: Edge(ss[i - 1], ss[i])
  }

  /** Every stacked state but the first stands for a derivation of its accessing symbol. */
  ghost predicate Spells(ss: seq<int>, forest: seq<Tree>) {
    && |ss| == |forest| + 1
    && forall i | 0 <= i < |forest| :: Derives(forest[i]) && Root(forest[i]) == Stos(ss[i + 1])
  }

  ghost predicate Good(c: Config) {
    c.Running? ==> Stack(c.ss) && Spells(c.ss, c.forest) && Input(c.rest)
  }

  lemma StackTop(ss: seq<int>)
    requires Stack(ss)
    ensures 0 <= Top(ss) < 110 && Top(ss) != 6
  {
    if |ss| > 1 {
      assert Edge(ss[|ss| - 2], ss[|ss| - 1]);
    }
  }

  /** Each state is at least as far along the longest path as it is high on the stack. */
  lemma {:induction false} StackDepth(ss: seq<int>)
    requires Stack(ss)
    ensures |ss| <= Depth(Top(ss)) + 1
  {
    if |ss| > 1 {
      var below := ss[..|ss| - 1];
      assert Edge(ss[|ss| - 2], ss[|ss| - 1]);
      StackDepth(below);
    }
  }

  /** However long the input, the stack stays far below `YYINITDEPTH`. */
  lemma StackBounded(ss: seq<int>)
    requires Stack(ss)
    ensures |ss| <= 30
  {
    StackDepth(ss);
    StackTop(ss);
    DepthBound(Top(ss));
  }

  lemma DepthBound(s: int)
    ensures Depth(s) <= 29
  {
  }

  /** An item of the state at height `j` is spelled out by the states below it, down to a state
      in which the rule may begin. */
  lemma {:induction false} ItemOnStack(ss: seq<int>, j: nat, n: int, d: nat)
    requires Stack(ss) && j < |ss| && HasItem(ss[j], n, d)
    ensures d <= j && IsSource(R1(n), ss[j - d])
    ensures forall i | 0 <= i < d :: Stos(ss[j - d + 1 + i]) == RhsAt(n, i)
    decreases d
  {
    hide Stos, RhsAt, R1, IsSource, Depth, HasItem;
    if d == 0 {
      ItemZero(ss[j], n);
    } else {
      if j == 0 {
        NoItemAtBottom(n, d);
      }
      assert Edge(ss[j - 1], ss[j]);
      ItemOnStack(ss, j - 1, n, d - 1);
      ItemSymbol(ss[j], n, d);
    }
  }

  lemma ItemZero(s: int, n: int)
    ensures HasItem(s, n, 0) == IsSource(R1(n), s)
  {
  }

  lemma NoItemAtBottom(n: int, d: int)
    requires 0 < d
    ensures !HasItem(0, n, d)
  {
  }

  lemma PushStack(ss: seq<int>, t: int)
    requires Stack(ss) && Edge(Top(ss), t)
    ensures Stack(ss + [t])
  {
  }

  lemma CutStack(ss: seq<int>, k: nat)
    requires Stack(ss) && 0 < k <= |ss|
    ensures Stack(ss[..k])
  {
  }

  /** What a reduction finds: the whole right-hand side on top, above a state in which the
      left-hand side may begin. */
  lemma ReduceFinds(ss: seq<int>, forest: seq<Tree>, a: int)
    requires Stack(ss) && Spells(ss, forest) && 0 <= a < 24 && Lookup(Top(ss), a).Reduce?
    ensures var n := Lookup(Top(ss), a).rule;
      && 2 <= n <= 25 && 25 <= R1(n) < 40 && 0 <= R2(n) < |ss|
      && IsSource(R1(n), ss[|ss| - 1 - R2(n)])
      && Derives(Node(n, forest[|forest| - R2(n)..]))
      && Rank(Goto(ss[|ss| - 1 - R2(n)], R1(n))) < Rank(Top(ss))
  {
    hide Lookup, Plain, Goto, Stos, Rank, Edge, IsSource, RhsAt, HasItem;
    StackTop(ss);
    Decompressed(Top(ss), a);
    var n := Plain(Top(ss), a).rule;
    ReduceItem(Top(ss), a, 0);
    RuleLength(n);
    ItemOnStack(ss, |ss| - 1, n, R2(n));
    var p := ss[|ss| - 1 - R2(n)];
    ReduceItem(Top(ss), a, p);
    var kids := forest[|forest| - R2(n)..];
    forall i | 0 <= i < |kids| ensures Derives(kids[i]) && Root(kids[i]) == RhsAt(n, i) {
      var h := |forest| - R2(n) + i;
      assert kids[i] == forest[h];
      assert Stos(ss[h + 1]) == RhsAt(n, i);
    }
  }

  lemma RuleLength(n: int)
    requires 1 <= n <= 25
    ensures 0 <= R2(n)
  {
  }

  /** One round of the engine. */
  function Step(c: Config): Config
    requires c.Running? && Good(c)
  {
    LookRange(c.rest);
    StackTop(c.ss);
    match Lookup(Top(c.ss), Look(c.rest))
    case Shift(t) =>
      Decompressed(Top(c.ss), Look(c.rest));
      ShiftEdge(Top(c.ss), Look(c.rest));
      Running(c.ss + [t], c.forest + [Leaf(c.rest[0])], c.rest[1..])
    case Reduce(n) =>
      ReduceFinds(c.ss, c.forest, Look(c.rest));
      var base := c.ss[..|c.ss| - R2(n)];
      Running(base + [Goto(Top(base), R1(n))],
              c.forest[..|c.forest| - R2(n)] + [Node(n, c.forest[|c.forest| - R2(n)..])], c.rest)
    case Accept =>
      AcceptFinds(c.ss, c.forest, Look(c.rest));
      Accepted(c.forest[0])
    case Error => Rejected
  }

  lemma AboveBottom(ss: seq<int>, j: nat)
    requires Stack(ss) && 0 < j < |ss|
    ensures ss[j] != 0
  {
    assert Edge(ss[j - 1], ss[j]);
  }

  lemma AcceptFinds(ss: seq<int>, forest: seq<Tree>, a: int)
    requires Stack(ss) && Spells(ss, forest) && 0 <= a < 24 && Lookup(Top(ss), a).Accept?
    ensures a == 0 && |forest| == 1 && Root(forest[0]) == PROGRAM
  {
    StackTop(ss);
    Decompressed(Top(ss), a);
    AcceptsInFinal(Top(ss), a);
    assert HasItem(2, 1, 1);
    if |ss| > 2 {
      AboveBottom(ss, |ss| - 2);
    }
    ItemOnStack(ss, |ss| - 1, 1, 1);
  }

  lemma StepGood(c: Config)
    requires c.Running? && Good(c)
    ensures Good(Step(c))
    ensures Step(c).Running? ==>
      |Step(c).rest| < |c.rest| || (|Step(c).rest| == |c.rest| && Rank(Top(Step(c).ss)) < Rank(Top(c.ss)))
  {
    hide Lookup, Plain, Goto, Stos, Rank, Edge, IsSource, HasItem, Depth;
    LookRange(c.rest);
    StackTop(c.ss);
    match Lookup(Top(c.ss), Look(c.rest)) {
      case Shift(t) =>
        Decompressed(Top(c.ss), Look(c.rest));
        ShiftEdge(Top(c.ss), Look(c.rest));
        PushStack(c.ss, t);
      case Reduce(n) =>
        ReduceFinds(c.ss, c.forest, Look(c.rest));
        var base := c.ss[..|c.ss| - R2(n)];
        CutStack(c.ss, |base|);
        GotoEdge(Top(base), R1(n));
        PushStack(base, Goto(Top(base), R1(n)));
      case Accept =>
      case Error =>
    }
  }

  lemma RankRange(s: int)
    ensures 0 <= Rank(s)
  {
  }

  /** The engine run to its end. */
  function Parse(c: Config): Config
    requires Good(c)
    decreases if c.Running? then |c.rest| else 0, if c.Running? then Rank(Top(c.ss)) else -1
  {
    if !c.Running? then c
    else
      StepGood(c);
      RankRange(Top(c.ss));
      Parse(Step(c))
  }

  // ------------------------------------------------------------------ soundness

  lemma {:induction false} YieldConcat(a: seq<Tree>, b: seq<Tree>)
    ensures YieldAll(a + b) == YieldAll(a) + YieldAll(b)
  {
    if a == [] {
      assert a + b == b;
    } else {
      assert (a + b)[1..] == a[1..] + b;
      YieldConcat(a[1..], b);
    }
  }

  lemma {:induction false} YieldOne(t: Tree)
    ensures YieldAll([t]) == Yield(t)
  {
  }

  lemma LookInside(rest: seq<Token>)
    requires Input(rest)
    ensures Look(rest) == 0 ==> rest == []
  {
  }

  /** The tokens read are those at the leaves of the stacked trees. */
  lemma StepYield(c: Config)
    requires c.Running? && Good(c)
    ensures Step(c).Running? ==> YieldAll(Step(c).forest) + Step(c).rest == YieldAll(c.forest) + c.rest
    ensures Step(c).Accepted? ==> Yield(Step(c).tree) == YieldAll(c.forest) + c.rest
  {
    hide Lookup, Plain, Goto, Stos, Rank, Edge, IsSource, Derives;
    LookRange(c.rest);
    StackTop(c.ss);
    match Lookup(Top(c.ss), Look(c.rest)) {
      case Shift(t) =>
        Decompressed(Top(c.ss), Look(c.rest));
        ShiftEdge(Top(c.ss), Look(c.rest));
        YieldConcat(c.forest, [Leaf(c.rest[0])]);
        YieldOne(Leaf(c.rest[0]));
        assert c.rest == [c.rest[0]] + c.rest[1..];
      case Reduce(n) =>
        ReduceFinds(c.ss, c.forest, Look(c.rest));
        var front, kids := c.forest[..|c.forest| - R2(n)], c.forest[|c.forest| - R2(n)..];
        assert c.forest == front + kids;
        YieldConcat(front, kids);
        YieldConcat(front, [Node(n, kids)]);
        YieldOne(Node(n, kids));
      case Accept =>
        AcceptFinds(c.ss, c.forest, Look(c.rest));
        assert c.forest == [c.forest[0]];
        YieldOne(c.forest[0]);
        LookInside(c.rest);
      case Error =>
    }
  }

  /** If the engine accepts, the tree it built derives the whole input from `program`. */
  lemma {:induction false} ParseSound(c: Config)
    requires Good(c) && c.Running? && Parse(c).Accepted?
    ensures var t := Parse(c).tree;
      Derives(t) && Root(t) == PROGRAM && Yield(t) == YieldAll(c.forest) + c.rest
    decreases |c.rest|, Rank(Top(c.ss))
  {
    StepGood(c);
    StepYield(c);
    RankRange(Top(c.ss));
    match Step(c) {
      case Running(ss, _, _) =>
        RankRange(Top(ss));
        ParseSound(Step(c));
      case Accepted(_) =>
        LookRange(c.rest);
        StackTop(c.ss);
        AcceptFinds(c.ss, c.forest, Look(c.rest));
      case Rejected =>
    }
  }

  // ------------------------------------------------------------------ completeness

  /** The parser may begin a derivation of `x` in state `s`, and then gets to state `t`. */
  ghost predicate Enters(s: int, x: int, t: int) {
    if x < 24 then 0 < x && 0 <= s < 110 && Plain(s, x) == Shift(t)
    else 25 <= x < 40 && IsSource(x, s) && Goto(s, x) == t
  }

  lemma FirstSymbols(n: int)
    requires 1 <= n <= 25
    ensures R1(n) == 34 ==> 0 < R2(n) && 37 <= RhsAt(n, 0) <= 39
    ensures 37 <= R1(n) <= 39 ==> 0 < R2(n) && RhsAt(n, 0) == TIDENTIFIER
  {
  }

  lemma {:induction false} FirstIsIdentifier(t: Tree)
    requires Derives(t) && (Root(t) == 34 || Root(t) == 37 || Root(t) == 38 || Root(t) == 39)
    ensures Yield(t) != [] && Translate(Yield(t)[0].code) == TIDENTIFIER
  {
    hide RhsAt, R1, R2;
    FirstSymbols(t.rule);
    var kid := t.kids[0];
    assert Root(kid) == RhsAt(t.rule, 0) && Derives(kid);
    if Root(t) == 34 {
      FirstIsIdentifier(kid);
    } else if kid.Node? {
      LhsRange(kid.rule);
    }
  }

  lemma FirstRoot(kids: seq<Tree>, n: int, d: nat)
    requires Derives(Node(n, kids)) && d < |kids| && 0 < RhsAt(n, d) < 24
    ensures kids[d].Leaf? && YieldAll(kids[d..]) != [] && Look(YieldAll(kids[d..])) == RhsAt(n, d)
  {
  }

  lemma LhsRange(n: int)
    requires 1 <= n <= 25
    ensures 24 <= R1(n) < 40
  {
  }

  /** What follows a symbol inside a rule always lets its derivation complete. */
  lemma NextInside(kids: seq<Tree>, n: int, d: nat, rest: seq<Token>)
    requires 2 <= n && Derives(Node(n, kids)) && d < |kids| && OkNext(R1(n), Look(rest))
    ensures OkNext(RhsAt(n, d), Look(YieldAll(kids[d + 1..]) + rest))
  {
    var x := RhsAt(n, d);
    if x == 32 {
      AfterBody(n, d);
      FirstRoot(kids, n, d + 1);
    } else if x == 33 {
      AfterNew(n, d);
      assert Root(kids[1]) == RhsAt(n, 1) && Derives(kids[1]);
      FirstIsIdentifier(kids[1]);
      assert kids[1..][0] == kids[1];
    } else if x == 34 || x == 37 || x == 38 || x == 39 {
      LastInRule(n, d);
      assert kids[d + 1..] == [] && YieldAll(kids[d + 1..]) + rest == rest;
    } else if x == 25 {
      NeverInside(n, d);
    }
  }

  lemma AfterBody(n: int, d: int)
    requires 2 <= n <= 25 && 0 <= d < R2(n) && RhsAt(n, d) == 32
    ensures d + 1 < R2(n) && RhsAt(n, d + 1) == RETURN
  {
  }

  lemma AfterNew(n: int, d: int)
    requires 2 <= n <= 25 && 0 <= d < R2(n) && RhsAt(n, d) == 33
    ensures n == 15 && d == 0 && R2(n) == 2 && RhsAt(n, 1) == 34
  {
  }

  lemma LastInRule(n: int, d: int)
    requires 2 <= n <= 25 && 0 <= d < R2(n)
    requires RhsAt(n, d) == 34 || RhsAt(n, d) == 37 || RhsAt(n, d) == 38 || RhsAt(n, d) == 39
    ensures d + 1 == R2(n) && (R1(n) == 32 || R1(n) == 34)
  {
    if n <= 12 {
      LastInHeader(n, d);
    } else {
      if {
        case n <= 18 => case 19 <= n <= 22 => case n == 23 => case n == 24 => case n == 25 =>
      }
    }
  }

  lemma LastInHeader(n: int, d: int)
    requires 2 <= n <= 12 && 0 <= d < R2(n)
    ensures RhsAt(n, d) < 33
  {
  }

  lemma NeverInside(n: int, d: int)
    requires 2 <= n <= 25 && 0 <= d < R2(n)
    ensures RhsAt(n, d) != 25
  {
  }

  lemma {:induction false} ParseStep(c: Config)
    requires Good(c) && c.Running?
    ensures Good(Step(c)) && Parse(c) == Parse(Step(c))
  {
    StepGood(c);
    RankRange(Top(c.ss));
  }

  /** The stack after the first `d` symbols of a rule. */
  ghost predicate Inside(ss: seq<int>, forest: seq<Tree>, n: int, kids: seq<Tree>, d: nat) {
    && 2 <= n && Derives(Node(n, kids)) && d <= |kids| && d <= |forest| && d < |ss|
    && forest[|forest| - d..] == kids[..d]
    && IsSource(R1(n), ss[|ss| - 1 - d])
    && Top(ss) == At(n, d, ss[|ss| - 1 - d])
  }

  /** The stack once the left-hand side has replaced those symbols. */
  ghost function Outside(ss: seq<int>, forest: seq<Tree>, n: int, kids: seq<Tree>, d: nat, rest: seq<Token>): Config
    requires Inside(ss, forest, n, kids, d)
  {
    Running(ss[..|ss| - d] + [Goto(ss[|ss| - 1 - d], R1(n))], forest[..|forest| - d] + [Node(n, kids)], rest)
  }

  lemma ReduceKids(ss: seq<int>, forest: seq<Tree>, n: int, kids: seq<Tree>, rest: seq<Token>)
    requires Good(Running(ss, forest, rest)) && Inside(ss, forest, n, kids, |kids|)
    requires OkNext(R1(n), Look(rest))
    ensures Step(Running(ss, forest, rest)) == Outside(ss, forest, n, kids, |kids|, rest)
  {
    hide Lookup, Plain, Goto, Stos, Rank, Edge, IsSource, Depth, At, OkNext;
    StackTop(ss);
    LookRange(rest);
    Decompressed(Top(ss), Look(rest));
    AtEnd(n, ss[|ss| - 1 - |kids|], Look(rest));
    assert ss[..|ss| - R2(n)] != [] && Top(ss[..|ss| - R2(n)]) == ss[|ss| - 1 - |kids|];
    assert forest[|forest| - R2(n)..] == kids;
  }

  lemma {:induction false} ParseDone(c: Config)
    requires !c.Running?
    ensures Parse(c) == c
  {
  }

  /** Whatever the context, the parser reads the yield of a derivation and then stands on the
      symbol it derives. */
  lemma {:induction false} ParseTree(ss: seq<int>, forest: seq<Tree>, t: Tree, s: int, rest: seq<Token>)
    requires Good(Running(ss, forest, Yield(t) + rest))
    requires Derives(t) && Root(t) != 24 && Enters(Top(ss), Root(t), s) && OkNext(Root(t), Look(rest))
    ensures Good(Running(ss + [s], forest + [t], rest))
    ensures Parse(Running(ss, forest, Yield(t) + rest)) == Parse(Running(ss + [s], forest + [t], rest))
    decreases t, 1, 0
  {
    var c := Running(ss, forest, Yield(t) + rest);
    match t {
      case Leaf(tok) =>
        ParseLeaf(ss, forest, tok, s, rest);
      case Node(n, kids) =>
        NodeRule(n, kids);
        assert kids[0..] == kids && kids[..0] == [];
        assert ss[..|ss| - 0] == ss && forest[..|forest| - 0] == forest;
        assert Inside(ss, forest, n, kids, 0);
        ParseKids(ss, forest, n, kids, 0, rest);
    }
  }

  lemma NodeRule(n: int, kids: seq<Tree>)
    requires Derives(Node(n, kids)) && R1(n) != 24
    ensures 2 <= n <= 25 && 25 <= R1(n) < 40
  {
  }

  lemma ParseLeaf(ss: seq<int>, forest: seq<Tree>, tok: Token, s: int, rest: seq<Token>)
    requires Good(Running(ss, forest, [tok] + rest))
    requires Enters(Top(ss), Translate(tok.code), s)
    ensures Good(Running(ss + [s], forest + [Leaf(tok)], rest))
    ensures Parse(Running(ss, forest, [tok] + rest)) == Parse(Running(ss + [s], forest + [Leaf(tok)], rest))
  {
    hide Lookup, Plain, Goto, Stos, Rank, Edge, IsSource, Depth, Parse;
    var c := Running(ss, forest, [tok] + rest);
    StackTop(ss);
    LookRange(c.rest);
    Decompressed(Top(ss), Look(c.rest));
    assert c.rest[1..] == rest;
    ParseStep(c);
  }

  lemma MoveInside(ss: seq<int>, forest: seq<Tree>, n: int, kids: seq<Tree>, d: nat, rest: seq<Token>)
    requires d < |kids| && Inside(ss, forest, n, kids, d)
    ensures var ss', forest' := ss + [At(n, d + 1, ss[|ss| - 1 - d])], forest + [kids[d]];
      && Inside(ss', forest', n, kids, d + 1)
      && Outside(ss', forest', n, kids, d + 1, rest) == Outside(ss, forest, n, kids, d, rest)
  {
    hide Goto, IsSource, At, RhsAt, Derives;
    var ss', forest' := ss + [At(n, d + 1, ss[|ss| - 1 - d])], forest + [kids[d]];
    assert forest'[|forest'| - (d + 1)..] == forest[|forest| - d..] + [kids[d]] == kids[..d + 1];
    assert ss'[|ss'| - 1 - (d + 1)] == ss[|ss| - 1 - d];
    assert ss'[..|ss'| - (d + 1)] == ss[..|ss| - d];
    assert forest'[..|forest'| - (d + 1)] == forest[..|forest| - d];
  }

  lemma FirstYield(kids: seq<Tree>, d: nat, rest: seq<Token>)
    requires d < |kids|
    ensures YieldAll(kids[d..]) + rest == Yield(kids[d]) + (YieldAll(kids[d + 1..]) + rest)
  {
    assert kids[d..][0] == kids[d] && kids[d..][1..] == kids[d + 1..];
  }

  lemma {:induction false} ParseKid(ss: seq<int>, forest: seq<Tree>, n: int, kids: seq<Tree>, d: nat, rest: seq<Token>)
    requires d < |kids| && Good(Running(ss, forest, YieldAll(kids[d..]) + rest))
    requires Inside(ss, forest, n, kids, d) && OkNext(R1(n), Look(rest))
    ensures var c := Running(ss + [At(n, d + 1, ss[|ss| - 1 - d])], forest + [kids[d]], YieldAll(kids[d + 1..]) + rest);
      Good(c) && Parse(Running(ss, forest, YieldAll(kids[d..]) + rest)) == Parse(c)
    decreases Node(n, kids), 0, 2 * (|kids| - d)
  {
    hide Lookup, Plain, Goto, Stos, Rank, Edge, IsSource, Depth, Parse, At, OkNext, RhsAt, HasItem;
    var o := ss[|ss| - 1 - d];
    AtNext(n, d, o);
    NextInside(kids, n, d, rest);
    assert Derives(kids[d]) && Root(kids[d]) == RhsAt(n, d);
    FirstYield(kids, d, rest);
    StackTop(ss);
    hide Good, YieldAll, Yield, Derives, Inside;
    ParseTree(ss, forest, kids[d], At(n, d + 1, o), YieldAll(kids[d + 1..]) + rest);
  }

  lemma {:induction false} ParseKids(ss: seq<int>, forest: seq<Tree>, n: int, kids: seq<Tree>, d: nat, rest: seq<Token>)
    requires d <= |kids| && Good(Running(ss, forest, YieldAll(kids[d..]) + rest))
    requires Inside(ss, forest, n, kids, d) && OkNext(R1(n), Look(rest))
    ensures Good(Outside(ss, forest, n, kids, d, rest))
    ensures Parse(Running(ss, forest, YieldAll(kids[d..]) + rest)) == Parse(Outside(ss, forest, n, kids, d, rest))
    decreases Node(n, kids), 0, 2 * (|kids| - d) + 1
  {
    hide Lookup, Plain, Goto, Stos, Rank, Edge, IsSource, Depth, Parse, At, OkNext, RhsAt, HasItem, Good;
    if d == |kids| {
      assert YieldAll(kids[d..]) + rest == rest;
      ReduceKids(ss, forest, n, kids, rest);
      ParseStep(Running(ss, forest, rest));
    } else {
      ParseKid(ss, forest, n, kids, d, rest);
      MoveInside(ss, forest, n, kids, d, rest);
      ParseKids(ss + [At(n, d + 1, ss[|ss| - 1 - d])], forest + [kids[d]], n, kids, d + 1, rest);
    }
  }

  // ------------------------------------------------------------------ the language

  function Begin(ts: seq<Token>): Config {
    Running([0], [], ts)
  }

  /** `ts` is a sentence of the grammar. */
  ghost predicate Sentence(ts: seq<Token>) {
    exists t :: IsDerivation(t, ts)
  }

  predicate IsDerivation(t: Tree, ts: seq<Token>) {
    Derives(t) && Root(t) == PROGRAM && Yield(t) == ts
  }

  /** Every derivation of the input is found. */
  lemma AcceptsAtEnd()
    ensures Lookup(2, 0) == Accept
  {
  }

  lemma ParseComplete(t: Tree, ts: seq<Token>)
    requires IsDerivation(t, ts) && Input(ts)
    ensures Parse(Begin(ts)) == Accepted(t)
  {
    assert Yield(t) + [] == ts;
    ParseTree([0], [], t, 2, []);
    AcceptsAtEnd();
    hide Lookup, Goto, Stos, Rank, Edge, IsSource, Depth, Derives, Yield;
    var c := Running([0, 2], [t], []);
    assert [0] + [2] == [0, 2] && [] + [t] == [t];
    ParseStep(c);
  }

  /** The parser accepts exactly the sentences of the grammar, with a derivation of the input as
      its parse. */
  lemma AcceptsExactlySentences(ts: seq<Token>)
    requires Input(ts)
    ensures Parse(Begin(ts)).Accepted? <==> Sentence(ts)
    ensures Parse(Begin(ts)).Accepted? ==> IsDerivation(Parse(Begin(ts)).tree, ts)
  {
    if Parse(Begin(ts)).Accepted? {
      ParseSound(Begin(ts));
      assert YieldAll([]) + ts == ts;
      assert IsDerivation(Parse(Begin(ts)).tree, ts);
    }
    if Sentence(ts) {
      var t :| IsDerivation(t, ts);
      ParseComplete(t, ts);
    }
  }

  /** The grammar is unambiguous. */
  lemma Unambiguous(t: Tree, u: Tree, ts: seq<Token>)
    requires Input(ts) && IsDerivation(t, ts) && IsDerivation(u, ts)
    ensures t == u
  {
    ParseComplete(t, ts);
    ParseComplete(u, ts);
  }
}
