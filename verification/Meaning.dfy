/** The actions of a derivation build the mailbox that the lines of the file ask for. */
module Meaning {
  import opened Grammar
  import opened Translation

  /** The tokens of the first `k` trees, all of them leaves. */
  function LeafToks(kids: seq<Tree>, k: nat): seq<Token>
    requires k <= |kids| && forall i | 0 <= i < k :: kids[i].Leaf?
  {
    seq(k, i requires 0 <= i < k => kids[i].tok)
  }

  lemma {:induction false} LeafPrefix(kids: seq<Tree>, k: nat, env: Env)
    requires k <= |kids| && forall i | 0 <= i < k :: kids[i].Leaf?
    ensures YieldAll(kids) == LeafToks(kids, k) + YieldAll(kids[k..])
    ensures ExecAll(kids, env) == ExecAll(kids[k..], env)
  {
    if k == 0 {
      assert kids[0..] == kids;
    } else {
      LeafPrefix(kids[1..], k - 1, env);
      assert kids[1..][k - 1..] == kids[k..];
      assert LeafToks(kids, k) == [kids[0].tok] + LeafToks(kids[1..], k - 1);
    }
  }

  lemma {:induction false} AllLeaves(kids: seq<Tree>, env: Env)
    requires forall i | 0 <= i < |kids| :: kids[i].Leaf?
    ensures YieldAll(kids) == LeafToks(kids, |kids|) && ExecAll(kids, env) == env
  {
    LeafPrefix(kids, |kids|, env);
    assert kids[|kids|..] == [];
  }

  /** A symbol below 24 is derived only by a token. */
  lemma KidIsLeaf(n: int, kids: seq<Tree>, i: nat)
    requires Derives(Node(n, kids)) && i < |kids| && RhsAt(n, i) < 24
    ensures kids[i].Leaf? && Translate(kids[i].tok.code) == RhsAt(n, i)
  {
  }

  // ------------------------------------------------------------------ lines

  lemma {:induction false} NoReturnSymbol(n: int, i: nat)
    requires 7 <= n <= 25 && i < R2(n)
    ensures RhsAt(n, i) != RETURN && RhsAt(n, i) != PROGRAM && RhsAt(n, i) != TOP_STMT
  {
  }

  lemma LateRule(n: int)
    requires 1 <= n < 7
    ensures R1(n) == ACCEPT || R1(n) == PROGRAM || R1(n) == TOP_STMT
  {
  }

  /** No line end occurs inside what a header, body or instance derives. */
  lemma {:induction false} NoReturns(t: Tree)
    requires Derives(t) && Root(t) != RETURN && (t.Node? ==> 7 <= t.rule)
    ensures forall tok | tok in Yield(t) :: !IsReturn(tok)
    decreases t, 0
  {
    match t
    case Leaf(tok) =>
    case Node(n, kids) =>
      forall i | 0 <= i < |kids|
        ensures Derives(kids[i]) && Root(kids[i]) != RETURN && (kids[i].Node? ==> 7 <= kids[i].rule)
      {
        assert Root(kids[i]) == RhsAt(n, i) && Derives(kids[i]);
        NoReturnSymbol(n, i);
        if kids[i].Node? && kids[i].rule < 7 {
          LateRule(kids[i].rule);
          NeverAccept(n, i);
        }
      }
      NoReturnsAll(kids);
  }

  lemma NeverAccept(n: int, i: nat)
    requires 1 <= n <= 25 && i < R2(n)
    ensures RhsAt(n, i) != ACCEPT
  {
  }

  lemma {:induction false} NoReturnsAll(ts: seq<Tree>)
    requires forall i | 0 <= i < |ts| :: Derives(ts[i]) && Root(ts[i]) != RETURN && (ts[i].Node? ==> 7 <= ts[i].rule)
    ensures forall tok | tok in YieldAll(ts) :: !IsReturn(tok)
    decreases ts, 1
  {
    if ts != [] {
      NoReturns(ts[0]);
      NoReturnsAll(ts[1..]);
    }
  }

  ghost predicate Complete(ts: seq<Token>) {
    ts == [] || IsReturn(ts[|ts| - 1])
  }

  lemma {:induction false} LinesNonempty(ts: seq<Token>)
    requires Complete(ts) && ts != []
    ensures Lines(ts) != []
  {
    if !IsReturn(ts[0]) {
      LinesNonempty(ts[1..]);
    }
  }

  /** Another line at the end of complete lines. */
  lemma {:induction false} LinesAppend(a: seq<Token>, line: seq<Token>, r: Token)
    requires Complete(a) && IsReturn(r) && forall tok | tok in line :: !IsReturn(tok)
    ensures Lines(a + line + [r]) == Lines(a) + [line]
    decreases |a| + |line|
  {
    var all := a + line + [r];
    if a != [] {
      assert all[1..] == a[1..] + line + [r];
      LinesAppend(a[1..], line, r);
      if !IsReturn(a[0]) {
        LinesNonempty(a[1..]);
      }
    } else if line != [] {
      assert line[0] in line;
      assert all[1..] == [] + line[1..] + [r];
      LinesAppend([], line[1..], r);
      assert [line[0]] + line[1..] == line;
    } else {
      assert all == [r] && all[1..] == [];
    }
  }

  // ------------------------------------------------------------------ beats

  lemma {:induction false} EveryConcat(a: seq<Token>, b: seq<Token>, i: nat, j: nat, stride: nat, m: nat)
    requires 0 < stride && j < stride && i + m * stride == |a| + j
    ensures Every(a + b, i, stride) == Every(a, i, stride) + Every(b, j, stride)
    decreases m
  {
    if m == 0 {
      EveryShift(a, b, j, stride);
    } else {
      assert i + stride + (m - 1) * stride == |a| + j;
      EveryBound(i, m, stride, |a|, j);
      EveryConcat(a, b, i + stride, j, stride, m - 1);
    }
  }

  lemma EveryBound(i: nat, m: nat, stride: nat, n: nat, j: nat)
    requires 0 < m && j < stride && i + m * stride == n + j
    ensures i < n
  {
  }

  lemma {:induction false} EveryStep(line: seq<Token>, i: nat, stride: nat)
    requires 0 < stride && i < |line|
    ensures Every(line, i, stride) == [line[i].text] + Every(line, i + stride, stride)
  {
  }

  lemma {:induction false} EveryEnd(line: seq<Token>, i: nat, stride: nat)
    requires 0 < stride && |line| <= i
    ensures Every(line, i, stride) == []
  {
  }

  lemma {:induction false} EveryShift(a: seq<Token>, b: seq<Token>, j: nat, stride: nat)
    requires 0 < stride
    ensures Every(a + b, |a| + j, stride) == Every(b, j, stride)
    decreases |b| - j
  {
    hide Every;
    if j < |b| {
      EveryShift(a, b, j + stride, stride);
      EveryStep(a + b, |a| + j, stride);
      EveryStep(b, j, stride);
    } else {
      EveryEnd(a + b, |a| + j, stride);
      EveryEnd(b, j, stride);
    }
  }

  function WithBeats(t: Transfer, data: seq<string>, byten: seq<string>): Transfer {
    t.(data := t.data + data, byten := t.byten + byten)
  }

  lemma {:induction false} RootNode(t: Tree)
    requires Derives(t) && 24 <= Root(t)
    ensures t.Node? && 1 <= t.rule <= 25 && |t.kids| == R2(t.rule)
  {
  }

  lemma ListRules(n: int)
    requires 1 <= n <= 25
    ensures R1(n) == DATA_NO_BYTEN <==> n == 21 || n == 22
    ensures R1(n) == DATA_HAS_BYTEN <==> n == 19 || n == 20
  {
  }

  lemma DataSymbols()
    ensures R2(21) == 2 && RhsAt(21, 0) == 22 && RhsAt(21, 1) == 20
    ensures R2(22) == 3 && RhsAt(22, 0) == 36 && RhsAt(22, 1) == 22 && RhsAt(22, 2) == 20
  {
  }

  lemma FirstPairSymbols()
    ensures R2(19) == 5 && RhsAt(19, 0) == 22 && RhsAt(19, 1) == 18 && RhsAt(19, 2) == 22
      && RhsAt(19, 3) == 19 && RhsAt(19, 4) == 20
  {
    assert Prhs(19) == 105;
  }

  lemma PairSymbols()
    ensures R2(20) == 6 && RhsAt(20, 0) == 35 && RhsAt(20, 1) == 22 && RhsAt(20, 2) == 18
      && RhsAt(20, 3) == 22 && RhsAt(20, 4) == 19 && RhsAt(20, 5) == 20
  {
  }

  lemma OnLastOpen(name: string, sent: seq<Transfer>, t: Transfer, f: Transfer -> Transfer)
    ensures OnLast(Mailbox(name, sent + [t]), f) == Mailbox(name, sent + [f(t)])
  {
  }

  /** The actions of the four list rules on the open transfer. */
  lemma BeatActions(kids: seq<Tree>, name: string, sent: seq<Transfer>, t: Transfer)
    ensures Act(19, kids, Mailbox(name, sent + [t]))
      == Mailbox(name, sent + [WithBeats(t, [Text(kids, 0)], [Text(kids, 2)])])
    ensures Act(20, kids, Mailbox(name, sent + [t]))
      == Mailbox(name, sent + [WithBeats(t, [Text(kids, 1)], [Text(kids, 3)])])
    ensures Act(21, kids, Mailbox(name, sent + [t])) == Mailbox(name, sent + [WithBeats(t, [Text(kids, 0)], [])])
    ensures Act(22, kids, Mailbox(name, sent + [t])) == Mailbox(name, sent + [WithBeats(t, [Text(kids, 1)], [])])
  {
  }

  lemma {:induction false} OneMore(y: seq<Token>, m: nat, b: seq<Token>, t: Transfer)
    requires |y| == 2 * m && |b| == 2
    ensures WithBeats(WithBeats(t, Every(y, 0, 2), []), [b[0].text], []) == WithBeats(t, Every(y + b, 0, 2), [])
  {
    EveryConcat(y, b, 0, 0, 2, m);
    assert Every(b, 0, 2) == [b[0].text];
    assert t.byten + [] == t.byten;
  }

  /** A list of beats adds its data words to the open transfer, in column order. */
  lemma {:induction false} DataMeans(d: Tree, name: string, sent: seq<Transfer>, t: Transfer) returns (m: nat)
    requires Derives(d) && Root(d) == DATA_NO_BYTEN
    ensures |Yield(d)| == 2 * m
    ensures Exec(d, Mailbox(name, sent + [t])) == Mailbox(name, sent + [WithBeats(t, Every(Yield(d), 0, 2), [])])
    decreases d
  {
    hide Every, WithBeats, Act, Translate, RhsAt, R1, R2;
    RootNode(d);
    ListRules(d.rule);
    DataSymbols();
    var kids := d.kids;
    if d.rule == 21 {
      KidIsLeaf(21, kids, 0);
      KidIsLeaf(21, kids, 1);
      AllLeaves(kids, Mailbox(name, sent + [t]));
      m := 1;
      BeatActions(kids, name, sent, t);
      OneMore([], 0, Yield(d), t);
      NoBeats(t, 2);
      assert [] + Yield(d) == Yield(d);
    } else {
      KidIsLeaf(22, kids, 1);
      KidIsLeaf(22, kids, 2);
      assert Derives(kids[0]) && Root(kids[0]) == 36;
      var m' := DataMeans(kids[0], name, sent, t);
      var y := Yield(kids[0]);
      var t' := WithBeats(t, Every(y, 0, 2), []);
      AllLeaves(kids[1..], Mailbox(name, sent + [t']));
      m := m' + 1;
      BeatActions(kids, name, sent, t');
      OneMore(y, m', YieldAll(kids[1..]), t);
    }
  }

  lemma {:induction false} NoBeats(t: Transfer, stride: nat)
    requires 0 < stride
    ensures WithBeats(t, Every([], 0, stride), []) == t
    ensures stride == 5 ==> WithBeats(t, Every([], 0, stride), Every([], 2, stride)) == t
  {
  }

  lemma {:induction false} OnePairMore(y: seq<Token>, m: nat, b: seq<Token>, t: Transfer)
    requires |y| == 5 * m && |b| == 5
    ensures WithBeats(WithBeats(t, Every(y, 0, 5), Every(y, 2, 5)), [b[0].text], [b[2].text])
      == WithBeats(t, Every(y + b, 0, 5), Every(y + b, 2, 5))
  {
    EveryConcat(y, b, 0, 0, 5, m);
    EveryConcat(y, b, 2, 2, 5, m);
    assert Every(b, 0, 5) == [b[0].text] && Every(b, 2, 5) == [b[2].text];
  }

  /** Likewise with byte enables. */
  lemma {:induction false} PairsMean(d: Tree, name: string, sent: seq<Transfer>, t: Transfer) returns (m: nat)
    requires Derives(d) && Root(d) == DATA_HAS_BYTEN
    ensures |Yield(d)| == 5 * m
    ensures Exec(d, Mailbox(name, sent + [t]))
      == Mailbox(name, sent + [WithBeats(t, Every(Yield(d), 0, 5), Every(Yield(d), 2, 5))])
    decreases d
  {
    hide Every, WithBeats, Act, Translate, RhsAt, R1, R2;
    RootNode(d);
    ListRules(d.rule);
    FirstPairSymbols();
    PairSymbols();
    var kids := d.kids;
    if d.rule == 19 {
      forall i | 0 <= i < 5 ensures kids[i].Leaf? { KidIsLeaf(19, kids, i); }
      AllLeaves(kids, Mailbox(name, sent + [t]));
      m := 1;
      BeatActions(kids, name, sent, t);
      OnePairMore([], 0, Yield(d), t);
      NoBeats(t, 5);
      assert [] + Yield(d) == Yield(d);
    } else {
      forall i | 1 <= i < 6 ensures kids[i].Leaf? { KidIsLeaf(20, kids, i); }
      assert Derives(kids[0]) && Root(kids[0]) == 35;
      var m' := PairsMean(kids[0], name, sent, t);
      var y := Yield(kids[0]);
      var t' := WithBeats(t, Every(y, 0, 5), Every(y, 2, 5));
      AllLeaves(kids[1..], Mailbox(name, sent + [t']));
      m := m' + 1;
      BeatActions(kids, name, sent, t');
      OnePairMore(y, m', YieldAll(kids[1..]), t);
    }
  }

  // ------------------------------------------------------------------ one line

  lemma BodyLength(n: int)
    requires 23 <= n <= 25
    ensures R2(n) == if n == 23 then 13 else if n == 24 then 17 else 25
  {
  }

  lemma BodySymbols(n: int, i: nat)
    requires 23 <= n <= 25 && i < R2(n)
    ensures i < R2(n) - 1 ==> 0 < RhsAt(n, i) < 24
    ensures i == R2(n) - 1 ==> RhsAt(n, i) == if n == 23 then DATA_HAS_BYTEN else DATA_NO_BYTEN
    ensures i == 0 ==> RhsAt(n, i) == TIDENTIFIER
    ensures i == 8 ==> RhsAt(n, i) == if n == 23 then SIDENTIFIER else TIDENTIFIER
    ensures i == 14 && n > 23 ==> RhsAt(n, i) == if n == 24 then TIDENTIFIER else SIDENTIFIER
  {
  }

  ghost predicate Columns(kids: seq<Tree>, line: seq<Token>, k: nat) {
    k <= |kids| && k <= |line| && forall i | 0 <= i < k :: kids[i].Leaf? && line[i] == kids[i].tok
  }

  /** The fixed columns of a body line, and the list of beats behind them. */
  lemma BodyColumns(n: int, kids: seq<Tree>, env: Env) returns (k: nat, y: seq<Token>)
    requires 23 <= n <= 25 && Derives(Node(n, kids))
    ensures k == (if n == 23 then 12 else if n == 24 then 16 else 24) && |kids| == k + 1
    ensures Derives(kids[k]) && Root(kids[k]) == (if n == 23 then DATA_HAS_BYTEN else DATA_NO_BYTEN)
    ensures y == Yield(kids[k]) && |YieldAll(kids)| == k + |y| && YieldAll(kids)[k..] == y
    ensures Columns(kids, YieldAll(kids), k)
    ensures forall i | 0 <= i < k :: Translate(YieldAll(kids)[i].code) == RhsAt(n, i)
    ensures ExecAll(kids, env) == Exec(kids[k], env)
  {
    hide R2, RhsAt, Translate;
    BodyLength(n);
    BodySymbols(n, 0);
    k := R2(n) - 1;
    forall i | 0 <= i < k ensures kids[i].Leaf? && Translate(kids[i].tok.code) == RhsAt(n, i) {
      BodySymbols(n, i);
      KidIsLeaf(n, kids, i);
    }
    BodySymbols(n, k);
    assert Derives(kids[k]) && Root(kids[k]) == RhsAt(n, k);
    y := Yield(kids[k]);
    LeafPrefix(kids, k, env);
    assert kids[k..] == [kids[k]];
    assert kids[k..][1..] == [];
    assert YieldAll(kids[k..]) == y;
  }

  lemma {:induction false} XbusTransfer(kids: seq<Tree>, line: seq<Token>, y: seq<Token>)
    requires Columns(kids, line, 12) && Translate(line[8].code) == SIDENTIFIER
    requires Every(line, 12, 5) == Every(y, 0, 5) && Every(line, 14, 5) == Every(y, 2, 5)
    ensures SetXbus(WithBeats(Blank, Every(y, 0, 5), Every(y, 2, 5)), kids) == LineTransfer(line)
  {
  }

  lemma {:induction false} ApbTransfer(kids: seq<Tree>, line: seq<Token>, y: seq<Token>)
    requires Columns(kids, line, 16)
    requires Translate(line[8].code) == TIDENTIFIER && Translate(line[14].code) == TIDENTIFIER
    requires Every(line, 16, 2) == Every(y, 0, 2)
    ensures SetApb(WithBeats(Blank, Every(y, 0, 2), []), kids) == LineTransfer(line)
  {
  }

  lemma {:induction false} AhbTransfer(kids: seq<Tree>, line: seq<Token>, y: seq<Token>)
    requires Columns(kids, line, 24)
    requires Translate(line[8].code) == TIDENTIFIER && Translate(line[14].code) == SIDENTIFIER
    requires Every(line, 24, 2) == Every(y, 0, 2)
    ensures SetAhb(WithBeats(Blank, Every(y, 0, 2), []), kids) == LineTransfer(line)
  {
  }

  lemma {:induction false} XbusMeans(kids: seq<Tree>, name: string, sent: seq<Transfer>)
    requires Derives(Node(23, kids))
    ensures Exec(Node(23, kids), Mailbox(name, sent + [Blank])) == Mailbox(name, sent + [LineTransfer(YieldAll(kids))])
  {
    hide Every, WithBeats, Translate, R1, R2, RhsAt, SetXbus, LineTransfer, Yield, YieldAll;
    var k, y := BodyColumns(23, kids, Mailbox(name, sent + [Blank]));
    var line := YieldAll(kids);
    BodyLength(23);
    BodySymbols(23, 8);
    assert line == line[..12] + y;
    var m := PairsMean(kids[12], name, sent, Blank);
    EveryShift(line[..12], y, 0, 5);
    EveryShift(line[..12], y, 2, 5);
    XbusTransfer(kids, line, y);
    OnLastOpen(name, sent, WithBeats(Blank, Every(y, 0, 5), Every(y, 2, 5)), t => SetXbus(t, kids));
  }

  lemma {:induction false} ApbMeans(kids: seq<Tree>, name: string, sent: seq<Transfer>)
    requires Derives(Node(24, kids))
    ensures Exec(Node(24, kids), Mailbox(name, sent + [Blank])) == Mailbox(name, sent + [LineTransfer(YieldAll(kids))])
  {
    hide Every, WithBeats, Translate, R1, R2, RhsAt, SetApb, LineTransfer, Yield, YieldAll;
    var k, y := BodyColumns(24, kids, Mailbox(name, sent + [Blank]));
    var line := YieldAll(kids);
    BodyLength(24);
    BodySymbols(24, 8);
    BodySymbols(24, 14);
    assert line == line[..16] + y;
    var m := DataMeans(kids[16], name, sent, Blank);
    EveryShift(line[..16], y, 0, 2);
    ApbTransfer(kids, line, y);
    OnLastOpen(name, sent, WithBeats(Blank, Every(y, 0, 2), []), t => SetApb(t, kids));
  }

  lemma {:induction false} AhbMeans(kids: seq<Tree>, name: string, sent: seq<Transfer>)
    requires Derives(Node(25, kids))
    ensures Exec(Node(25, kids), Mailbox(name, sent + [Blank])) == Mailbox(name, sent + [LineTransfer(YieldAll(kids))])
  {
    hide Every, WithBeats, Translate, R1, R2, RhsAt, SetAhb, LineTransfer, Yield, YieldAll;
    var k, y := BodyColumns(25, kids, Mailbox(name, sent + [Blank]));
    var line := YieldAll(kids);
    BodyLength(25);
    BodySymbols(25, 8);
    BodySymbols(25, 14);
    assert line == line[..24] + y;
    var m := DataMeans(kids[24], name, sent, Blank);
    EveryShift(line[..24], y, 0, 2);
    AhbTransfer(kids, line, y);
    OnLastOpen(name, sent, WithBeats(Blank, Every(y, 0, 2), []), t => SetAhb(t, kids));
  }

  /** The transfer of a body line is the one its columns spell. */
  lemma {:induction false} LineMeans(n: int, kids: seq<Tree>, name: string, sent: seq<Transfer>)
    requires 23 <= n <= 25 && Derives(Node(n, kids))
    ensures Exec(Node(n, kids), Mailbox(name, sent + [Blank])) == Mailbox(name, sent + [LineTransfer(YieldAll(kids))])
    ensures LineTransfers(YieldAll(kids)) == [LineTransfer(YieldAll(kids))]
  {
    hide Every, Translate, R1, R2, RhsAt, LineTransfer, Yield, YieldAll, Exec;
    var k, y := BodyColumns(n, kids, NoMailbox);
    BodyLength(n);
    BodySymbols(n, 0);
    if n == 23 {
      XbusMeans(kids, name, sent);
    } else if n == 24 {
      ApbMeans(kids, name, sent);
    } else {
      AhbMeans(kids, name, sent);
    }
  }

  lemma BodyRules(n: int)
    requires 1 <= n <= 25
    ensures R1(n) == BODY_STMT ==> n == 15
    ensures R1(n) == NEW_TRANSFER ==> n == 14
    ensures R1(n) == SUB_BODY_STMT ==> 16 <= n <= 18
    ensures 37 <= R1(n) <= 39 ==> 23 <= n <= 25
    ensures R1(n) == HEADER_STMT ==> 7 <= n <= 9
    ensures 28 <= R1(n) <= 30 ==> 10 <= n <= 12
    ensures R1(n) == INSTANCE_STMT ==> n == 13
    ensures R1(n) == TOP_STMT ==> 3 <= n <= 6
    ensures R1(n) == PROGRAM ==> n == 2
  {
  }

  lemma UnitSymbols(n: int)
    ensures 16 <= n <= 18 ==> R2(n) == 1 && 37 <= RhsAt(n, 0) <= 39
    ensures 7 <= n <= 9 ==> R2(n) == 1 && 28 <= RhsAt(n, 0) <= 30
  {
  }

  lemma BodySymbol()
    ensures R2(14) == 0 && R2(15) == 2 && RhsAt(15, 0) == NEW_TRANSFER && RhsAt(15, 1) == SUB_BODY_STMT
  {
  }

  lemma FirstLineSymbols()
    ensures R2(13) == 2 && RhsAt(13, 0) == COMMENT && RhsAt(13, 1) == SIDENTIFIER
    ensures R2(2) == 1 && RhsAt(2, 0) == TOP_STMT
    ensures R2(3) == 2 && RhsAt(3, 0) == INSTANCE_STMT && RhsAt(3, 1) == RETURN
  {
  }

  lemma LineSymbols()
    ensures R2(4) == 3 && RhsAt(4, 0) == TOP_STMT && RhsAt(4, 1) == HEADER_STMT && RhsAt(4, 2) == RETURN
    ensures R2(5) == 3 && RhsAt(5, 0) == TOP_STMT && RhsAt(5, 1) == BODY_STMT && RhsAt(5, 2) == RETURN
    ensures R2(6) == 2 && RhsAt(6, 0) == TOP_STMT && RhsAt(6, 1) == RETURN
  {
  }

  /** A derivation with a single child does what the child does. */
  lemma {:induction false} OneKid(kids: seq<Tree>, env: Env)
    requires |kids| == 1
    ensures YieldAll(kids) == Yield(kids[0]) && ExecAll(kids, env) == Exec(kids[0], env)
  {
  }

  lemma {:induction false} TwoKids(kids: seq<Tree>, env: Env)
    requires |kids| == 2
    ensures YieldAll(kids) == Yield(kids[0]) + Yield(kids[1])
    ensures ExecAll(kids, env) == Exec(kids[1], Exec(kids[0], env))
  {
    OneKid(kids[1..], Exec(kids[0], env));
  }

  lemma {:induction false} ThreeKids(kids: seq<Tree>, env: Env)
    requires |kids| == 3
    ensures YieldAll(kids) == Yield(kids[0]) + Yield(kids[1]) + Yield(kids[2])
    ensures ExecAll(kids, env) == Exec(kids[2], Exec(kids[1], Exec(kids[0], env)))
  {
    TwoKids(kids[1..], Exec(kids[0], env));
  }

  lemma {:induction false} Kid(t: Tree, i: nat)
    requires Derives(t) && t.Node? && i < |t.kids|
    ensures Derives(t.kids[i]) && Root(t.kids[i]) == RhsAt(t.rule, i)
  {
  }

  lemma {:induction false} SubBodyMeans(s: Tree, name: string, sent: seq<Transfer>)
    requires Derives(s) && Root(s) == SUB_BODY_STMT
    ensures Exec(s, Mailbox(name, sent + [Blank])) == Mailbox(name, sent + LineTransfers(Yield(s)))
  {
    hide Translate, RhsAt, R1, R2, LineTransfers, LineTransfer;
    RootNode(s);
    BodyRules(s.rule);
    UnitSymbols(s.rule);
    Kid(s, 0);
    RootNode(s.kids[0]);
    BodyRules(s.kids[0].rule);
    LineMeans(s.kids[0].rule, s.kids[0].kids, name, sent);
    OneKid(s.kids, Mailbox(name, sent + [Blank]));
  }

  /** A body statement appends exactly the transfer of its line. */
  lemma {:induction false} BodyMeans(b: Tree, name: string, sent: seq<Transfer>)
    requires Derives(b) && Root(b) == BODY_STMT
    ensures Exec(b, Mailbox(name, sent)) == Mailbox(name, sent + LineTransfers(Yield(b)))
  {
    hide Translate, RhsAt, R1, R2, LineTransfers, LineTransfer;
    RootNode(b);
    BodyRules(b.rule);
    BodySymbol();
    Kid(b, 0);
    Kid(b, 1);
    RootNode(b.kids[0]);
    BodyRules(b.kids[0].rule);
    assert b.kids[0].kids == [];
    assert Exec(b.kids[0], Mailbox(name, sent)) == Mailbox(name, sent + [Blank]);
    assert Yield(b.kids[0]) == [];
    SubBodyMeans(b.kids[1], name, sent);
    TwoKids(b.kids, Mailbox(name, sent));
    assert [] + Yield(b.kids[1]) == Yield(b.kids[1]);
  }

  lemma HeaderSymbols(n: int, i: nat)
    requires 10 <= n <= 12 && i < R2(n)
    ensures 0 < RhsAt(n, i) < 24 && (i == 0 ==> RhsAt(n, i) == COMMENT)
  {
  }

  lemma HeaderLength(n: int)
    requires 10 <= n <= 12
    ensures 0 < R2(n)
  {
  }

  /** A header line has no effect. */
  lemma {:induction false} HeaderMeans(h: Tree, env: Env)
    requires Derives(h) && Root(h) == HEADER_STMT
    ensures Exec(h, env) == env && LineTransfers(Yield(h)) == []
  {
    hide RhsAt, R1, R2, Translate, LineTransfer, Every;
    RootNode(h);
    BodyRules(h.rule);
    UnitSymbols(h.rule);
    Kid(h, 0);
    var b := h.kids[0];
    RootNode(b);
    BodyRules(b.rule);
    HeaderLength(b.rule);
    forall i | 0 <= i < |b.kids| ensures b.kids[i].Leaf? && Translate(b.kids[i].tok.code) == RhsAt(b.rule, i) {
      HeaderSymbols(b.rule, i);
      KidIsLeaf(b.rule, b.kids, i);
    }
    HeaderSymbols(b.rule, 0);
    AllLeaves(b.kids, env);
    OneKid(h.kids, env);
  }

  lemma {:induction false} InstanceMeans(t: Tree, env: Env)
    requires Derives(t) && Root(t) == INSTANCE_STMT
    ensures |Yield(t)| == 2 && Exec(t, env) == Mailbox(Yield(t)[1].text, [])
  {
    hide RhsAt, R1, R2, Translate;
    RootNode(t);
    BodyRules(t.rule);
    FirstLineSymbols();
    KidIsLeaf(13, t.kids, 0);
    KidIsLeaf(13, t.kids, 1);
    AllLeaves(t.kids, env);
  }

  lemma FileAppend(ts: seq<Token>, line: seq<Token>, r: Token)
    requires Complete(ts) && ts != [] && IsReturn(r) && forall tok | tok in line :: !IsReturn(tok)
    requires FileMailbox(ts).Mailbox?
    ensures Complete(ts + line + [r])
    ensures FileMailbox(ts + line + [r])
      == Mailbox(FileMailbox(ts).name, FileMailbox(ts).sent + LineTransfers(line))
  {
    hide LineTransfers;
    LinesAppend(ts, line, r);
    LinesNonempty(ts);
    var lines := Lines(ts);
    assert (lines + [line])[1..] == lines[1..] + [line];
    assert (lines[1..] + [line])[..|lines[1..]|] == lines[1..];
  }

  lemma {:induction false} ReturnLeaf(t: Tree)
    requires Derives(t) && Root(t) == RETURN
    ensures t.Leaf? && IsReturn(t.tok)
  {
  }

  lemma {:induction false} TopMeans(t: Tree)
    requires Derives(t) && Root(t) == TOP_STMT
    ensures Yield(t) != [] && Complete(Yield(t))
    ensures FileMailbox(Yield(t)).Mailbox? && Exec(t, NoMailbox) == FileMailbox(Yield(t))
    decreases t
  {
    hide RhsAt, R1, R2, Translate, LineTransfers, FileMailbox, Lines, IsReturn;
    RootNode(t);
    BodyRules(t.rule);
    FirstLineSymbols();
    LineSymbols();
    var kids := t.kids;
    Kid(t, |kids| - 1);
    ReturnLeaf(kids[|kids| - 1]);
    var ret := kids[|kids| - 1].tok;
    Kid(t, 0);
    if t.rule == 3 {
      FirstLine(kids[0], ret);
      TwoKids(kids, NoMailbox);
    } else {
      TopMeans(kids[0]);
      var ts, env := Yield(kids[0]), Exec(kids[0], NoMailbox);
      if t.rule == 6 {
        FileAppend(ts, [], ret);
        NoTransfer();
        TwoKids(kids, NoMailbox);
        assert ts + [] + [ret] == ts + [ret];
      } else {
        Kid(t, 1);
        RootNode(kids[1]);
        BodyRules(kids[1].rule);
        NotReturn(kids[1]);
        NoReturns(kids[1]);
        FileAppend(ts, Yield(kids[1]), ret);
        ThreeKids(kids, NoMailbox);
        if t.rule == 4 {
          HeaderMeans(kids[1], env);
        } else {
          BodyMeans(kids[1], env.name, env.sent);
        }
      }
    }
  }

  lemma NotReturn(t: Tree)
    requires Root(t) >= 24
    ensures Root(t) != RETURN
  {
  }

  lemma NoTransfer()
    ensures LineTransfers([]) == []
  {
  }

  lemma {:induction false} FirstLine(inst: Tree, ret: Token)
    requires Derives(inst) && Root(inst) == INSTANCE_STMT && IsReturn(ret)
    ensures Complete(Yield(inst) + [ret])
    ensures FileMailbox(Yield(inst) + [ret]) == Exec(inst, NoMailbox)
    ensures FileMailbox(Yield(inst) + [ret]).Mailbox?
  {
    RootNode(inst);
    BodyRules(inst.rule);
    InstanceMeans(inst, NoMailbox);
    NoReturns(inst);
    LinesAppend([], Yield(inst), ret);
    assert [] + Yield(inst) + [ret] == Yield(inst) + [ret];
    assert Lines(Yield(inst) + [ret]) == [Yield(inst)];
  }

  /** For every derivation of a file, the actions leave the mailbox named by the first line with
      one transfer for each body line, in order, each with its columns. */
  lemma {:induction false} ProgramMeans(t: Tree)
    requires Derives(t) && Root(t) == PROGRAM
    ensures Exec(t, NoMailbox) == FileMailbox(Yield(t)) && FileMailbox(Yield(t)).Mailbox?
  {
    hide RhsAt, R1, R2, Translate, LineTransfers, FileMailbox, Lines, IsReturn;
    RootNode(t);
    BodyRules(t.rule);
    FirstLineSymbols();
    Kid(t, 0);
    TopMeans(t.kids[0]);
    OneKid(t.kids, NoMailbox);
  }
}
