/** Why the wrapper's null checks never fire: the mailbox exists before the first transfer, and
    a transfer is open whenever a beat or a body is reduced. */
module Actions {
  import opened Grammar
  import opened ParserTables
  import opened ParserRuns
  import opened Translation
  import opened Meaning

  ghost predicate Open(env: Env) {
    env.Mailbox? && env.sent != []
  }

  lemma {:induction false} ExecConcat(a: seq<Tree>, b: seq<Tree>, env: Env)
    ensures ExecAll(a + b, env) == ExecAll(b, ExecAll(a, env))
  {
    if a == [] {
      assert a + b == b;
    } else {
      assert (a + b)[1..] == a[1..] + b;
      ExecConcat(a[1..], b, Exec(a[0], env));
    }
  }

  /** Rules that belong to a body. */
  ghost predicate InBody(t: Tree) {
    Derives(t) && (t.Node? ==> 14 <= t.rule)
  }

  lemma BodyKidSymbol(n: int, i: nat)
    requires 14 <= n <= 25 && i < R2(n)
    ensures RhsAt(n, i) < 24 || 33 <= RhsAt(n, i)
  {
  }

  lemma {:induction false} BodyRoot(t: Tree)
    requires Derives(t) && !(24 <= Root(t) < 33)
    ensures InBody(t)
  {
  }

  /** An open transfer stays open while its body is parsed. */
  lemma {:induction false} KeepsOpen(t: Tree, env: Env)
    requires InBody(t) && Open(env)
    ensures Open(Exec(t, env))
    decreases t, 0
  {
    if t.Node? {
      forall i | 0 <= i < |t.kids| ensures InBody(t.kids[i]) {
        Kid(t, i);
        BodyKidSymbol(t.rule, i);
        BodyRoot(t.kids[i]);
      }
      KeepsOpenAll(t.kids, env);
    }
  }

  lemma {:induction false} KeepsOpenAll(ts: seq<Tree>, env: Env)
    requires (forall i | 0 <= i < |ts| :: InBody(ts[i])) && Open(env)
    ensures Open(ExecAll(ts, env))
    decreases ts, 1
  {
    if ts != [] {
      KeepsOpen(ts[0], env);
      KeepsOpenAll(ts[1..], Exec(ts[0], env));
    }
  }

  lemma EarlyBelow(p: int, t: int)
    requires Edge(p, t) && 24 <= Stos(t) < 33
    ensures p == 0 || p == 3
  {
    EarlyState(t);
    assert HasItem(t, 13, 1) || HasItem(t, 1, 1) || HasItem(t, 4, 1) || HasItem(t, 3, 1) || HasItem(t, 4, 2)
      || HasItem(t, 5, 2) || HasItem(t, 7, 1) || HasItem(t, 8, 1) || HasItem(t, 9, 1);
  }

  lemma EarlyState(t: int)
    requires 1 <= t < 110 && 24 <= Stos(t) < 33
    ensures t == 2 || t == 3 || t == 4 || 9 <= t <= 13
  {
  }

  /** State 3, after `top_stmt`, is always second on the stack. */
  lemma AfterTop(ss: seq<int>, j: nat)
    requires Stack(ss) && j < |ss| && ss[j] == 3
    ensures j == 1
  {
    assert HasItem(3, 4, 1);
    ItemOnStack(ss, j, 4, 1);
    if j > 1 {
      AboveBottom(ss, j - 1);
    }
  }

  /** Above the first three states only body symbols are stacked. */
  lemma AboveBody(ss: seq<int>, j: nat)
    requires Stack(ss) && 3 <= j < |ss|
    ensures !(24 <= Stos(ss[j]) < 33)
  {
    if 24 <= Stos(ss[j]) < 33 {
      assert Edge(ss[j - 1], ss[j]);
      EarlyBelow(ss[j - 1], ss[j]);
      AboveBottom(ss, j - 1);
      AfterTop(ss, j - 1);
    }
  }

  /** Below a beat or a body the stack begins with `top_stmt` and the new transfer. */
  lemma BodyBelow(ss: seq<int>, j: nat, x: int)
    requires Stack(ss) && j < |ss| && IsSource(x, ss[j]) && 35 <= x <= 39
    ensures 3 <= |ss| && ss[1] == 3 && ss[2] == 14
  {
    var i := if x == 35 then j - 12 else if x == 36 then (if ss[j] == 76 then j - 16 else j - 24) else j;
    if x == 35 {
      assert HasItem(53, 23, 12);
      ItemOnStack(ss, j, 23, 12);
    } else if x == 36 {
      assert HasItem(76, 24, 16) && HasItem(106, 25, 24);
      if ss[j] == 76 {
        ItemOnStack(ss, j, 24, 16);
      } else {
        ItemOnStack(ss, j, 25, 24);
      }
    }
    assert ss[i] == 14;
    assert HasItem(14, 15, 1);
    ItemOnStack(ss, i, 15, 1);
    AfterTop(ss, i - 1);
  }

  /** Before a new transfer is made there is a mailbox; before a beat or a body is reduced there
      is an open transfer. */
  lemma {:induction false} ActionReady(ss: seq<int>, forest: seq<Tree>, a: int)
    requires Stack(ss) && Spells(ss, forest) && 0 <= a < 24 && Lookup(Top(ss), a).Reduce?
    ensures Lookup(Top(ss), a).rule == 14 ==> ExecAll(forest, NoMailbox).Mailbox?
    ensures 19 <= Lookup(Top(ss), a).rule ==> Open(ExecAll(forest, NoMailbox))
  {
    hide Plain, Lookup, Goto, HasItem, Depth, Rank;
    ReduceFinds(ss, forest, a);
    var n := Lookup(Top(ss), a).rule;
    if n == 14 {
      NewAtTop(ss);
      assert forest == [forest[0]];
      TopMeans(forest[0]);
      OneKid(forest, NoMailbox);
    } else if 19 <= n {
      BodyLhsRange(n);
      BodyBelow(ss, |ss| - 1 - R2(n), R1(n));
      TransferOpened(ss, forest);
    }
  }

  lemma NewAtTop(ss: seq<int>)
    requires Stack(ss) && IsSource(R1(14), ss[|ss| - 1 - R2(14)])
    ensures |ss| == 2 && Stos(ss[1]) == TOP_STMT
  {
    AfterTop(ss, |ss| - 1);
  }

  lemma BodyLhsRange(n: int)
    requires 19 <= n <= 25
    ensures 35 <= R1(n) <= 39
  {
  }

  lemma {:induction false} TransferOpened(ss: seq<int>, forest: seq<Tree>)
    requires Stack(ss) && Spells(ss, forest) && 3 <= |ss| && ss[1] == 3 && ss[2] == 14
    ensures Open(ExecAll(forest, NoMailbox))
  {
    hide R1, R2, RhsAt, Edge, HasItem, Plain, Lookup, Translate, Yield, YieldAll, Goto, IsSource;
    assert Root(forest[0]) == TOP_STMT && Derives(forest[0]);
    assert Root(forest[1]) == NEW_TRANSFER && Derives(forest[1]);
    TopMeans(forest[0]);
    RootNode(forest[1]);
    BodyRules(forest[1].rule);
    BodySymbol();
    assert forest[1].kids == [];
    var env := Exec(forest[0], NoMailbox);
    assert Open(Exec(forest[1], env));
    forall i | 0 <= i < |forest[2..]| ensures InBody(forest[2..][i]) {
      assert forest[2..][i] == forest[i + 2];
      AboveBody(ss, i + 3);
      BodyRoot(forest[i + 2]);
    }
    KeepsOpenAll(forest[2..], Exec(forest[1], env));
    ExecConcat(forest[..2], forest[2..], NoMailbox);
    assert forest == forest[..2] + forest[2..];
    TwoKids(forest[..2], NoMailbox);
  }
}
