/** Transaction files in plain form: a first line with the name, and then empty lines, header lines
    with the names of the columns, and body lines. These are exactly the sentences of the grammar. */
module Forms {
  import opened Grammar
  import opened Meaning
  import opened Translation
  import ParserRuns

  function Terminal(line: seq<Token>, i: nat): int
    requires i < |line|
  {
    Translate(line[i].code)
  }

  // ------------------------------------------------------------------ the lines

  /** `# name`. */
  predicate IsFirst(line: seq<Token>) {
    |line| == 2 && Terminal(line, 0) == COMMENT && Terminal(line, 1) == SIDENTIFIER
  }

  /** What stands at each place of a header line. */
  function XbusHeader(i: int): int {
    match i
    case 0 => COMMENT case 1 => BEGIN_CYCLE case 3 => END_CYCLE case 5 => BEGIN_TIME case 7 => END_TIME
    case 9 => RW case 11 => ADDR case 13 => DATA case 14 => TLPAREN case 15 => BYTEN case 16 => TRPAREN
    case _ => TCOMMA
  }

  function ApbHeader(i: int): int {
    match i
    case 0 => COMMENT case 1 => BEGIN_CYCLE case 3 => END_CYCLE case 5 => BEGIN_TIME case 7 => END_TIME
    case 9 => ID case 11 => RW case 13 => RESP case 15 => ADDR case 17 => DATA
    case _ => TCOMMA
  }

  function AhbHeader(i: int): int {
    match i
    case 0 => COMMENT case 1 => BEGIN_CYCLE case 3 => END_CYCLE case 5 => BEGIN_TIME case 7 => END_TIME
    case 9 => ID case 11 => RW case 13 => BST_TYPE case 15 => TRX_SIZE case 17 => TRX_PRT case 19 => LOCK
    case 21 => RESP case 23 => ADDR case 25 => DATA
    case _ => TCOMMA
  }

  predicate IsHeader(line: seq<Token>) {
    || (|line| == 18 && forall i | 0 <= i < 18 :: Terminal(line, i) == XbusHeader(i))
    || (|line| == 19 && forall i | 0 <= i < 19 :: Terminal(line, i) == ApbHeader(i))
    || (|line| == 27 && forall i | 0 <= i < 27 :: Terminal(line, i) == AhbHeader(i))
  }

  /** The fixed columns of a body line: numbers, but words where `words` says so, each followed by
      a comma. */
  predicate Columned(line: seq<Token>, k: nat, words: set<int>) {
    k <= |line| && forall i | 0 <= i < k :: Terminal(line, i) == Place(i, words)
  }

  function Place(i: int, words: set<int>): int {
    if i % 2 == 1 then TCOMMA else if i in words then SIDENTIFIER else TIDENTIFIER
  }

  /** `data , ` for each beat. */
  predicate IsData(l: seq<Token>) {
    && 2 <= |l| && Terminal(l, |l| - 2) == TIDENTIFIER && Terminal(l, |l| - 1) == TCOMMA
    && (|l| == 2 || IsData(l[..|l| - 2]))
  }

  /** `data ( byten ) ,` for each beat. */
  predicate IsDataByten(l: seq<Token>) {
    && 5 <= |l| && Terminal(l, |l| - 5) == TIDENTIFIER && Terminal(l, |l| - 4) == TLPAREN
    && Terminal(l, |l| - 3) == TIDENTIFIER && Terminal(l, |l| - 2) == TRPAREN && Terminal(l, |l| - 1) == TCOMMA
    && (|l| == 5 || IsDataByten(l[..|l| - 5]))
  }

  predicate IsXbus(line: seq<Token>) {
    Columned(line, 12, {8}) && IsDataByten(line[12..])
  }

  predicate IsApb(line: seq<Token>) {
    Columned(line, 16, {10, 12}) && IsData(line[16..])
  }

  predicate IsAhb(line: seq<Token>) {
    Columned(line, 24, {10, 12, 14, 16, 20}) && IsData(line[24..])
  }

  predicate IsLine(line: seq<Token>) {
    line == [] || IsHeader(line) || IsXbus(line) || IsApb(line) || IsAhb(line)
  }

  /** A file: the first line, or a file followed by another line. */
  ghost predicate IsFile(ts: seq<Token>)
    decreases |ts|
  {
    && ts != [] && IsReturn(ts[|ts| - 1])
    && (IsFirst(ts[..|ts| - 1])
        || exists k: nat | k < |ts| :: IsFile(ts[..k]) && IsLine(ts[k..|ts| - 1]))
  }

  // ------------------------------------------------------------------ the right-hand sides

  lemma {:induction false} HeaderPlaces(i: int)
    ensures 0 <= i < 18 ==> RhsAt(10, i) == XbusHeader(i)
    ensures 0 <= i < 19 ==> RhsAt(11, i) == ApbHeader(i)
    ensures 0 <= i < 27 ==> RhsAt(12, i) == AhbHeader(i)
  {
  }

  lemma {:induction false} HeaderSizes()
    ensures R2(10) == 18 && R2(11) == 19 && R2(12) == 27
    ensures R1(10) == HEADER_XBUS && R1(11) == HEADER_APB && R1(12) == HEADER_AHB
    ensures RhsAt(7, 0) == HEADER_AHB && RhsAt(8, 0) == HEADER_APB && RhsAt(9, 0) == HEADER_XBUS
    ensures R1(7) == HEADER_STMT && R1(8) == HEADER_STMT && R1(9) == HEADER_STMT
  {
  }

  lemma {:induction false} XbusPlaces(i: int)
    requires 0 <= i < 12
    ensures RhsAt(23, i) == Place(i, {8})
  {
  }

  lemma {:induction false} ApbPlaces(i: int)
    requires 0 <= i < 16
    ensures RhsAt(24, i) == Place(i, {10, 12})
  {
  }

  lemma {:induction false} AhbPlaces(i: int)
    requires 0 <= i < 24
    ensures RhsAt(25, i) == Place(i, {10, 12, 14, 16, 20})
  {
  }

  // ------------------------------------------------------------------ what is derived has the form

  lemma {:induction false} DataForm(d: Tree)
    requires Derives(d) && Root(d) == DATA_NO_BYTEN
    ensures IsData(Yield(d))
    decreases d
  {
    hide Translate, RhsAt, R1, R2;
    RootNode(d);
    ListRules(d.rule);
    DataSymbols();
    var kids := d.kids;
    if d.rule == 21 {
      KidIsLeaf(21, kids, 0);
      KidIsLeaf(21, kids, 1);
      AllLeaves(kids, NoMailbox);
    } else {
      Kid(d, 0);
      KidIsLeaf(22, kids, 1);
      KidIsLeaf(22, kids, 2);
      DataForm(kids[0]);
      AllLeaves(kids[1..], NoMailbox);
      assert Yield(d)[..|Yield(d)| - 2] == Yield(kids[0]);
    }
  }

  lemma {:induction false} DataBytenForm(d: Tree)
    requires Derives(d) && Root(d) == DATA_HAS_BYTEN
    ensures IsDataByten(Yield(d))
    decreases d
  {
    hide Translate, RhsAt, R1, R2;
    RootNode(d);
    ListRules(d.rule);
    FirstPairSymbols();
    PairSymbols();
    var kids := d.kids;
    var k := if d.rule == 19 then 0 else 1;
    forall i | k <= i < |kids| ensures kids[i].Leaf? && Translate(kids[i].tok.code) == RhsAt(d.rule, i) {
      KidIsLeaf(d.rule, kids, i);
    }
    AllLeaves(kids[k..], NoMailbox);
    if k == 0 {
      assert kids[0..] == kids;
    } else {
      Kid(d, 0);
      DataBytenForm(kids[0]);
      assert Yield(d)[..|Yield(d)| - 5] == Yield(kids[0]);
    }
  }

  lemma {:induction false} BodyForm(n: int, kids: seq<Tree>)
    requires 23 <= n <= 25 && Derives(Node(n, kids))
    ensures IsLine(YieldAll(kids))
  {
    hide Translate, RhsAt, R1, R2, Place, IsData, IsDataByten, IsHeader;
    var k, y := BodyColumns(n, kids, NoMailbox);
    if n == 23 {
      DataBytenForm(kids[12]);
      forall i | 0 <= i < 12 ensures RhsAt(23, i) == Place(i, {8}) { XbusPlaces(i); }
    } else if n == 24 {
      DataForm(kids[16]);
      forall i | 0 <= i < 16 ensures RhsAt(24, i) == Place(i, {10, 12}) { ApbPlaces(i); }
    } else {
      DataForm(kids[24]);
      forall i | 0 <= i < 24 ensures RhsAt(25, i) == Place(i, {10, 12, 14, 16, 20}) { AhbPlaces(i); }
    }
  }

  lemma {:induction false} HeaderForm(h: Tree)
    requires Derives(h) && Root(h) == HEADER_STMT
    ensures IsHeader(Yield(h))
  {
    hide RhsAt, R1, R2, Translate, XbusHeader, ApbHeader, AhbHeader;
    RootNode(h);
    BodyRules(h.rule);
    UnitSymbols(h.rule);
    Kid(h, 0);
    var b := h.kids[0];
    RootNode(b);
    BodyRules(b.rule);
    HeaderSizes();
    forall i | 0 <= i < |b.kids| ensures b.kids[i].Leaf? && Translate(b.kids[i].tok.code) == RhsAt(b.rule, i) {
      HeaderSymbols(b.rule, i);
      KidIsLeaf(b.rule, b.kids, i);
    }
    AllLeaves(b.kids, NoMailbox);
    OneKid(h.kids, NoMailbox);
    forall i | 0 <= i < |b.kids|
      ensures RhsAt(b.rule, i) ==
        (if b.rule == 10 then XbusHeader(i) else if b.rule == 11 then ApbHeader(i) else AhbHeader(i))
    {
      HeaderPlaces(i);
    }
  }

  lemma {:induction false} BodyStatementForm(b: Tree)
    requires Derives(b) && Root(b) == BODY_STMT
    ensures IsLine(Yield(b))
  {
    hide Translate, RhsAt, R1, R2, IsLine;
    RootNode(b);
    BodyRules(b.rule);
    BodySymbol();
    Kid(b, 0);
    Kid(b, 1);
    RootNode(b.kids[0]);
    BodyRules(b.kids[0].rule);
    assert b.kids[0].kids == [];
    assert Yield(b.kids[0]) == [];
    TwoKids(b.kids, NoMailbox);
    assert [] + Yield(b.kids[1]) == Yield(b.kids[1]);
    var s := b.kids[1];
    RootNode(s);
    BodyRules(s.rule);
    UnitSymbols(s.rule);
    Kid(s, 0);
    RootNode(s.kids[0]);
    BodyRules(s.kids[0].rule);
    OneKid(s.kids, NoMailbox);
    BodyForm(s.kids[0].rule, s.kids[0].kids);
  }

  lemma {:induction false} FileOn(ts: seq<Token>, line: seq<Token>, r: Token)
    requires IsFile(ts) && IsLine(line) && IsReturn(r)
    ensures IsFile(ts + line + [r])
  {
    hide IsLine, IsReturn;
    var all := ts + line + [r];
    assert all[..|ts|] == ts && all[|ts|..|all| - 1] == line;
  }

  lemma {:induction false} TopForm(t: Tree)
    requires Derives(t) && Root(t) == TOP_STMT
    ensures IsFile(Yield(t))
    decreases t
  {
    hide RhsAt, R1, R2, Translate, IsReturn, IsHeader, IsXbus, IsApb, IsAhb;
    RootNode(t);
    BodyRules(t.rule);
    FirstLineSymbols();
    LineSymbols();
    var kids := t.kids;
    Kid(t, |kids| - 1);
    ReturnLeaf(kids[|kids| - 1]);
    var ret := kids[|kids| - 1].tok;
    Kid(t, 0);
    if t.rule == 3 {
      TwoKids(kids, NoMailbox);
      FirstForm(kids[0]);
      assert (Yield(kids[0]) + [ret])[..2] == Yield(kids[0]);
    } else {
      TopForm(kids[0]);
      if t.rule == 6 {
        TwoKids(kids, NoMailbox);
        assert Yield(kids[0]) + [] + [ret] == Yield(kids[0]) + [ret];
        FileOn(Yield(kids[0]), [], ret);
      } else {
        Kid(t, 1);
        ThreeKids(kids, NoMailbox);
        if t.rule == 4 {
          HeaderForm(kids[1]);
        } else {
          BodyStatementForm(kids[1]);
        }
        FileOn(Yield(kids[0]), Yield(kids[1]), ret);
      }
    }
  }

  lemma {:induction false} FirstForm(t: Tree)
    requires Derives(t) && Root(t) == INSTANCE_STMT
    ensures IsFirst(Yield(t))
  {
    hide RhsAt, R1, R2, Translate;
    RootNode(t);
    BodyRules(t.rule);
    FirstLineSymbols();
    KidIsLeaf(13, t.kids, 0);
    KidIsLeaf(13, t.kids, 1);
    AllLeaves(t.kids, NoMailbox);
  }

  // ------------------------------------------------------------------ what has the form is derived

  ghost predicate IsTree(t: Tree, x: int, ts: seq<Token>) {
    Derives(t) && Root(t) == x && Yield(t) == ts
  }

  function Leaves(ts: seq<Token>): seq<Tree> {
    seq(|ts|, i requires 0 <= i < |ts| => Leaf(ts[i]))
  }

  /** Leaves, and perhaps one tree at either end, put together by a rule. */
  lemma {:induction false} ByRule(n: int, before: seq<Tree>, l: seq<Token>, after: seq<Tree>)
    requires 1 <= n <= 25 && |before| + |l| + |after| == R2(n) && |before| <= 1 && |after| <= 1
    requires forall i | 0 <= i < |before| :: Derives(before[i]) && Root(before[i]) == RhsAt(n, i)
    requires forall i | 0 <= i < |l| :: Terminal(l, i) == RhsAt(n, |before| + i) != END
    requires forall i | 0 <= i < |after| :: Derives(after[i]) && Root(after[i]) == RhsAt(n, |before| + |l| + i)
    ensures IsTree(Node(n, before + Leaves(l) + after), R1(n), YieldAll(before) + l + YieldAll(after))
  {
    hide RhsAt, R1, R2, Translate;
    var kids := before + Leaves(l) + after;
    LeavesYield(l);
    ParserRuns.YieldConcat(before + Leaves(l), after);
    ParserRuns.YieldConcat(before, Leaves(l));
    forall i | 0 <= i < |kids| ensures Derives(kids[i]) && Root(kids[i]) == RhsAt(n, i) {
      if |before| <= i < |before| + |l| {
        assert kids[i] == Leaf(l[i - |before|]) && Terminal(l, i - |before|) == RhsAt(n, |before| + (i - |before|));
      } else if |before| + |l| <= i {
        assert kids[i] == after[i - |before| - |l|];
      }
    }
  }

  lemma {:induction false} LeavesYield(l: seq<Token>)
    ensures YieldAll(Leaves(l)) == l
  {
    if l != [] {
      LeavesYield(l[1..]);
      assert Leaves(l)[1..] == Leaves(l[1..]);
    }
  }

  lemma {:induction false} DataTree(l: seq<Token>) returns (d: Tree)
    requires IsData(l)
    ensures IsTree(d, DATA_NO_BYTEN, l)
  {
    hide Translate, RhsAt, R2, Derives, Yield;
    DataSymbols();
    ListRules(21);
    ListRules(22);
    if |l| == 2 {
      ByRule(21, [], l, []);
      d := Node(21, [] + Leaves(l) + []);
      ParserRuns.YieldOne(d);
      assert [] + l + [] == l;
    } else {
      var front, last := l[..|l| - 2], l[|l| - 2..];
      var d' := DataTree(front);
      ByRule(22, [d'], last, []);
      d := Node(22, [d'] + Leaves(last) + []);
      ParserRuns.YieldOne(d');
      assert front + last + [] == l;
    }
  }

  lemma {:induction false} DataBytenTree(l: seq<Token>) returns (d: Tree)
    requires IsDataByten(l)
    ensures IsTree(d, DATA_HAS_BYTEN, l)
  {
    hide Translate, RhsAt, R2, Derives, Yield;
    FirstPairSymbols();
    PairSymbols();
    ListRules(19);
    ListRules(20);
    if |l| == 5 {
      ByRule(19, [], l, []);
      d := Node(19, [] + Leaves(l) + []);
      ParserRuns.YieldOne(d);
      assert [] + l + [] == l;
    } else {
      var front, last := l[..|l| - 5], l[|l| - 5..];
      var d' := DataBytenTree(front);
      ByRule(20, [d'], last, []);
      d := Node(20, [d'] + Leaves(last) + []);
      ParserRuns.YieldOne(d');
      assert front + last + [] == l;
    }
  }

  lemma {:induction false} UnitTree(n: int, a: Tree)
    requires 1 <= n <= 25 && R2(n) == 1 && Derives(a) && Root(a) == RhsAt(n, 0)
    ensures IsTree(Node(n, [a]), R1(n), Yield(a))
  {
    hide R1, R2, RhsAt;
    ParserRuns.YieldOne(a);
  }

  lemma {:induction false} PairTree(n: int, a: Tree, b: Tree)
    requires 1 <= n <= 25 && R2(n) == 2
    requires Derives(a) && Root(a) == RhsAt(n, 0) && Derives(b) && Root(b) == RhsAt(n, 1)
    ensures IsTree(Node(n, [a, b]), R1(n), Yield(a) + Yield(b))
  {
    hide R1, R2, RhsAt;
    TwoKids([a, b], NoMailbox);
  }

  lemma {:induction false} TripleTree(n: int, a: Tree, b: Tree, c: Tree)
    requires 1 <= n <= 25 && R2(n) == 3
    requires Derives(a) && Root(a) == RhsAt(n, 0) && Derives(b) && Root(b) == RhsAt(n, 1)
    requires Derives(c) && Root(c) == RhsAt(n, 2)
    ensures IsTree(Node(n, [a, b, c]), R1(n), Yield(a) + Yield(b) + Yield(c))
  {
    hide R1, R2, RhsAt;
    ThreeKids([a, b, c], NoMailbox);
  }

  lemma {:induction false} UnitRules(n: int)
    requires 23 <= n <= 25
    ensures R2(41 - n) == 1 && R1(41 - n) == SUB_BODY_STMT && RhsAt(41 - n, 0) == R1(n)
    ensures R1(14) == NEW_TRANSFER && R1(15) == BODY_STMT
  {
  }

  lemma {:induction false} BodyTree(line: seq<Token>, n: int, k: nat, d: Tree) returns (b: Tree)
    requires 23 <= n <= 25 && k <= |line| && R2(n) == k + 1
    requires forall i | 0 <= i < k :: Terminal(line, i) == RhsAt(n, i) != END
    requires IsTree(d, RhsAt(n, k), line[k..])
    ensures IsTree(b, BODY_STMT, line)
  {
    hide Translate, RhsAt, R1, R2, Derives, Yield;
    ByRule(n, [], line[..k], [d]);
    var inner := Node(n, [] + Leaves(line[..k]) + [d]);
    ParserRuns.YieldOne(d);
    assert [] + line[..k] + line[k..] == line;
    UnitRules(n);
    BodySymbol();
    UnitTree(41 - n, inner);
    ByRule(14, [], [], []);
    var blank := Node(14, [] + Leaves([]) + []);
    ParserRuns.YieldOne(blank);
    PairTree(15, blank, Node(41 - n, [inner]));
    assert [] + [] + [] + line == line;
    b := Node(15, [blank, Node(41 - n, [inner])]);
  }

  lemma {:induction false} HeaderTree(line: seq<Token>) returns (h: Tree)
    requires IsHeader(line)
    ensures IsTree(h, HEADER_STMT, line)
  {
    hide Translate, RhsAt, R1, R2, Derives, Yield, XbusHeader, ApbHeader, AhbHeader;
    HeaderSizes();
    var n := if |line| == 18 then 10 else if |line| == 19 then 11 else 12;
    forall i | 0 <= i < |line| ensures Terminal(line, i) == RhsAt(n, i) != END {
      HeaderPlaces(i);
      HeaderSymbols(n, i);
    }
    ByRule(n, [], line, []);
    var inner := Node(n, [] + Leaves(line) + []);
    ParserRuns.YieldOne(inner);
    assert [] + line + [] == line;
    UnitSymbols(19 - n);
    UnitTree(19 - n, inner);
    h := Node(19 - n, [inner]);
  }

  lemma {:induction false} BodyLineTree(line: seq<Token>) returns (b: Tree)
    requires IsXbus(line) || IsApb(line) || IsAhb(line)
    ensures IsTree(b, BODY_STMT, line)
  {
    hide Translate, RhsAt, R1, R2, Derives, Yield, IsData, IsDataByten;
    var n := if IsXbus(line) then 23 else if IsApb(line) then 24 else 25;
    var k := if n == 23 then 12 else if n == 24 then 16 else 24;
    BodySizes();
    forall i | 0 <= i < k ensures Terminal(line, i) == RhsAt(n, i) != END {
      if n == 23 {
        XbusPlaces(i);
      } else if n == 24 {
        ApbPlaces(i);
      } else {
        AhbPlaces(i);
      }
    }
    BodySymbols(n, k);
    var d;
    if n == 23 {
      d := DataBytenTree(line[12..]);
    } else {
      d := DataTree(line[k..]);
    }
    b := BodyTree(line, n, k, d);
  }

  lemma {:induction false} BodySizes()
    ensures R2(23) == 13 && R2(24) == 17 && R2(25) == 25
  {
  }

  lemma {:induction false} TopRules()
    ensures R1(2) == PROGRAM && R1(3) == TOP_STMT && R1(4) == TOP_STMT && R1(5) == TOP_STMT && R1(6) == TOP_STMT
    ensures R1(13) == INSTANCE_STMT
  {
  }

  lemma {:induction false} FirstTree(line: seq<Token>, r: Token) returns (t: Tree)
    requires IsFirst(line) && IsReturn(r)
    ensures IsTree(t, TOP_STMT, line + [r])
  {
    hide RhsAt, R1, R2, Derives, Yield;
    TopRules();
    FirstLineSymbols();
    ReturnTree(r);
    ByRule(13, [], line, []);
    var first := Node(13, [] + Leaves(line) + []);
    ParserRuns.YieldOne(first);
    assert [] + line + [] == line;
    PairTree(3, first, Leaf(r));
    t := Node(3, [first, Leaf(r)]);
  }

  lemma {:induction false} NextTree(top: Tree, ts: seq<Token>, line: seq<Token>, r: Token) returns (t: Tree)
    requires IsTree(top, TOP_STMT, ts) && IsLine(line) && IsReturn(r)
    ensures IsTree(t, TOP_STMT, ts + line + [r])
  {
    hide RhsAt, R1, R2, Derives, Yield, IsHeader, IsXbus, IsApb, IsAhb;
    TopRules();
    LineSymbols();
    ReturnTree(r);
    if line == [] {
      PairTree(6, top, Leaf(r));
      t := Node(6, [top, Leaf(r)]);
      assert ts + [] + [r] == ts + [r];
    } else if IsHeader(line) {
      var h := HeaderTree(line);
      TripleTree(4, top, h, Leaf(r));
      t := Node(4, [top, h, Leaf(r)]);
    } else {
      var b := BodyLineTree(line);
      TripleTree(5, top, b, Leaf(r));
      t := Node(5, [top, b, Leaf(r)]);
    }
  }

  lemma {:induction false} TopTree(ts: seq<Token>) returns (t: Tree)
    requires IsFile(ts)
    ensures IsTree(t, TOP_STMT, ts)
    decreases |ts|
  {
    hide IsTree, IsFirst, IsLine, IsReturn;
    var front, r := ts[..|ts| - 1], ts[|ts| - 1];
    if IsFirst(front) {
      t := FirstTree(front, r);
      assert ts == front + [r];
    } else {
      var k: nat :| k < |ts| && IsFile(ts[..k]) && IsLine(ts[k..|ts| - 1]);
      var top := TopTree(ts[..k]);
      t := NextTree(top, ts[..k], ts[k..|ts| - 1], r);
      assert ts == ts[..k] + ts[k..|ts| - 1] + [r];
    }
  }

  lemma {:induction false} ReturnTree(r: Token)
    requires IsReturn(r)
    ensures IsTree(Leaf(r), RETURN, [r])
  {
  }

  /** The parser's grammar derives exactly the files: those that begin with the name, and go on with
      empty lines, header lines and body lines, each ended by a line end. */
  lemma {:induction false} SentencesAreFiles(ts: seq<Token>)
    ensures ParserRuns.Sentence(ts) <==> IsFile(ts)
  {
    hide RhsAt, R1, R2, IsFile;
    TopRules();
    FirstLineSymbols();
    if ParserRuns.Sentence(ts) {
      var t :| ParserRuns.IsDerivation(t, ts);
      RootNode(t);
      BodyRules(t.rule);
      Kid(t, 0);
      OneKid(t.kids, NoMailbox);
      TopForm(t.kids[0]);
    }
    if IsFile(ts) {
      var top := TopTree(ts);
      UnitTree(2, top);
      assert ParserRuns.IsDerivation(Node(2, [top]), ts);
    }
  }
}
