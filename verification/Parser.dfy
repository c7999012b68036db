/** `yyparse`: the engine over its fixed arrays, with the actions on the mailbox objects. */
module Parser {
  import opened Grammar
  import opened ParserTables
  import opened Options
  import opened ParserRuns
  import opened Translation
  import opened Meaning
  import opened Actions
  import opened ScannerRules
  import opened Scanning
  import Scanner

  // ------------------------------------------------------------------ the mailbox

  class SmtdvTransfer {
    var fields: Transfer

    constructor ()
      ensures fields == Blank
    {
      fields := Blank;
    }
  }

  class MailBox {
    const name: string
    var m_vec: seq<SmtdvTransfer>
    var m_it: nat

    constructor (name: string)
      ensures this.name == name && m_vec == [] && m_it == 0
    {
      this.name := name;
      m_vec, m_it := [], 0;
    }

    /** Pushing also rewinds the iterator. */
    method Push(tt: SmtdvTransfer)
      modifies this
      ensures m_vec == old(m_vec) + [tt] && m_it == 0
    {
      m_vec := m_vec + [tt];
      m_it := 0;
    }

    method Next() returns (tt: SmtdvTransfer?)
      requires m_it <= |m_vec|
      modifies this`m_it
      ensures old(m_it) < |m_vec| ==> tt == m_vec[old(m_it)] && m_it == old(m_it) + 1
      ensures old(m_it) == |m_vec| ==> tt == null && m_it == old(m_it)
    {
      if m_it != |m_vec| {
        tt := m_vec[m_it];
        m_it := m_it + 1;
      } else {
        tt := null;
      }
    }
  }

  ghost function Values(es: seq<SmtdvTransfer>): (r: seq<Transfer>)
    reads es
    ensures |r| == |es|
  {
    seq(|es|, i requires 0 <= i < |es| reads es => es[i].fields)
  }

  ghost function Footprint(mb: MailBox?): set<object>
    reads mb
  {
    if mb == null then {} else {mb} + (set x: SmtdvTransfer | x in mb.m_vec)
  }

  ghost function EnvOf(mb: MailBox?): Env
    reads mb, Footprint(mb)
  {
    if mb == null then NoMailbox else Mailbox(mb.name, Values(mb.m_vec))
  }

  /** The two globals: the transfer being filled is the last one pushed, and no transfer is
      pushed twice. */
  ghost predicate Linked(mb: MailBox?, trx: SmtdvTransfer?)
    reads mb, Footprint(mb)
  {
    && (mb == null ==> trx == null)
    && (mb != null ==> mb.m_it <= |mb.m_vec| && forall i, j | 0 <= i < j < |mb.m_vec| :: mb.m_vec[i] != mb.m_vec[j])
    && (mb != null && mb.m_vec != [] ==> trx == mb.m_vec[|mb.m_vec| - 1])
  }

  /** The symbol values that an action sees. */
  ghost predicate Matches(vals: seq<string>, kids: seq<Tree>) {
    |vals| == |kids| && forall i | 0 <= i < |kids| :: kids[i].Leaf? ==> vals[i] == kids[i].tok.text
  }

  /** Where a list rule has its data word. */
  function FirstColumn(n: int): nat {
    if n == 19 || n == 21 then 0 else 1
  }

  /** The children whose text a list rule uses are tokens. */
  lemma ListKids(n: int, kids: seq<Tree>, k: nat)
    requires 19 <= n <= 22 && Derives(Node(n, kids)) && k == FirstColumn(n)
    ensures k < |kids| && kids[k].Leaf?
    ensures n <= 20 ==> k + 2 < |kids| && kids[k + 2].Leaf?
  {
  }

  lemma NodeLength(n: int, kids: seq<Tree>)
    requires Derives(Node(n, kids))
    ensures |kids| == R2(n)
  {
  }

  /** Writes one field after another through `global_trx`, as the setters do. */
  method SetColumns(n: int, vals: seq<string>, trx: SmtdvTransfer, ghost kids: seq<Tree>)
    requires 23 <= n <= 25 && Derives(Node(n, kids)) && Matches(vals, kids)
    modifies trx
    ensures trx.fields == (if n == 23 then SetXbus(old(trx.fields), kids) else
      if n == 24 then SetApb(old(trx.fields), kids) else SetAhb(old(trx.fields), kids))
  {
    hide RhsAt, R2, Derives, Translate, YieldAll, Yield, Exec, ExecAll, Root;
    ghost var k, y := BodyColumns(n, kids, NoMailbox);
    trx.fields := trx.fields.(beginCycle := Some(vals[0]));
    trx.fields := trx.fields.(endCycle := Some(vals[2]));
    trx.fields := trx.fields.(beginTime := Some(vals[4]));
    trx.fields := trx.fields.(endTime := Some(vals[6]));
    if n == 23 {
      trx.fields := trx.fields.(rw := Some(vals[8]));
      trx.fields := trx.fields.(addr := Some(vals[10]));
    } else if n == 24 {
      trx.fields := trx.fields.(id := Some(vals[8]));
      trx.fields := trx.fields.(rw := Some(vals[10]));
      trx.fields := trx.fields.(resp := Some(vals[12]));
      trx.fields := trx.fields.(addr := Some(vals[14]));
    } else {
      trx.fields := trx.fields.(id := Some(vals[8]));
      trx.fields := trx.fields.(rw := Some(vals[10]));
      trx.fields := trx.fields.(bstType := Some(vals[12]));
      trx.fields := trx.fields.(trxSize := Some(vals[14]));
      trx.fields := trx.fields.(trxPrt := Some(vals[16]));
      trx.fields := trx.fields.(id := Some(vals[18]));
      trx.fields := trx.fields.(resp := Some(vals[20]));
      trx.fields := trx.fields.(addr := Some(vals[22]));
    }
  }

  /** The actions of the list rules. */
  method RunBeat(n: int, vals: seq<string>, mb: MailBox, trx: SmtdvTransfer, ghost kids: seq<Tree>)
    requires 19 <= n <= 22 && Derives(Node(n, kids)) && Matches(vals, kids) && Linked(mb, trx) && mb.m_vec != []
    modifies trx
    ensures Linked(mb, trx) && EnvOf(mb) == Act(n, kids, old(EnvOf(mb)))
  {
    hide RhsAt, R2, Derives;
    var k := FirstColumn(n);
    ListKids(n, kids, k);
    if n <= 20 {
      trx.fields := AddBeat(trx.fields, vals[k], [vals[k + 2]]);
    } else {
      trx.fields := AddBeat(trx.fields, vals[k], []);
    }
  }

  /** The actions of the body rules. */
  method RunBody(n: int, vals: seq<string>, mb: MailBox, trx: SmtdvTransfer, ghost kids: seq<Tree>)
    requires 23 <= n <= 25 && Derives(Node(n, kids)) && Matches(vals, kids) && Linked(mb, trx) && mb.m_vec != []
    modifies trx
    ensures Linked(mb, trx) && EnvOf(mb) == Act(n, kids, old(EnvOf(mb)))
  {
    hide RhsAt, R2, Derives, SetXbus, SetApb, SetAhb;
    SetColumns(n, vals, trx, kids);
  }

  /** The action of rule `n`; the wrapper's null checks never fire. */
  method RunAction(n: int, vals: seq<string>, mb: MailBox?, trx: SmtdvTransfer?, ghost kids: seq<Tree>)
    returns (mb': MailBox?, trx': SmtdvTransfer?)
    requires 2 <= n <= 25 && Derives(Node(n, kids)) && Matches(vals, kids) && Linked(mb, trx)
    requires n == 14 ==> mb != null
    requires 19 <= n ==> Open(EnvOf(mb))
    modifies Footprint(mb)
    ensures Linked(mb', trx') && EnvOf(mb') == Act(n, kids, old(EnvOf(mb)))
    ensures fresh(Footprint(mb') - old(Footprint(mb)))
  {
    hide RhsAt, R2, Derives;
    mb', trx' := mb, trx;
    if n == 13 {
      FirstLineSymbols();
      NodeLength(n, kids);
      KidIsLeaf(13, kids, 1);
      mb' := new MailBox(vals[1]);
      trx' := null;
    } else if n == 14 {
      trx' := new SmtdvTransfer();
      mb.Push(trx');
    } else if 19 <= n <= 22 {
      RunBeat(n, vals, mb, trx, kids);
    } else if 23 <= n {
      RunBody(n, vals, mb, trx, kids);
    }
  }

  // ------------------------------------------------------------------ the engine

  /** Every token before the end has one of the declared codes. */
  lemma {:induction false} TokensInput(t: string)
    ensures Input(Tokens(t)) && forall tok | tok in Tokens(t) :: 0 < tok.code
    decreases |t|
  {
    hide Lex;
    CodeRange(t);
    if Lex(t).tok.code != 0 {
      LexShortens(t);
      TokensInput(Lex(t).rest);
    }
  }

  lemma {:induction false} CodeRange(t: string)
    ensures Lex(t).tok.code == 0 || 258 <= Lex(t).tok.code <= 278
    decreases |t|
  {
    hide Earliest;
    if t != "" {
      TakesOne(t);
      if Earliest(t[..Longest(t)]) == 1 {
        CodeRange(t[Longest(t)..]);
      }
    }
  }

  const YYINITDEPTH := 200
  const YYEMPTY := -2

  /** The tokens not yet shifted: the look-ahead, if it has been read, and what is left to scan. */
  ghost predicate LookAhead(yychar: int, yylval: string, pending: string, rest: seq<Token>) {
    if yychar == YYEMPTY then rest == Tokens(pending)
    else if yychar <= 0 then rest == []
    else rest == [Token(yychar, yylval)] + Tokens(pending)
  }

  /** The stacks hold the machine's states, and the text of every stacked token. */
  ghost predicate Stacked(yyss: seq<int>, yyvs: seq<string>, forest: seq<Tree>) {
    && |yyvs| == |yyss| == |forest| + 1
    && forall i | 0 <= i < |forest| :: forest[i].Leaf? ==> yyvs[i + 1] == forest[i].tok.text
  }

  /** `YYLEX`, if there is no look-ahead yet. */
  method ReadAhead(lexer: Scanner.Scanner, yychar0: int, yylval0: string, ghost rest: seq<Token>)
    returns (yychar: int, yylval: string)
    requires lexer.Valid() && LookAhead(yychar0, yylval0, lexer.Pending(), rest)
    modifies lexer, lexer.chBuf
    ensures lexer.Valid() && LookAhead(yychar, yylval, lexer.Pending(), rest) && yychar != YYEMPTY
    ensures lexer.chBuf == old(lexer.chBuf) || fresh(lexer.chBuf)
  {
    hide Lex;
    yychar, yylval := yychar0, yylval0;
    if yychar == YYEMPTY {
      CodeRange(lexer.Pending());
      yychar, yylval := lexer.Yylex();
    }
  }

  /** What the engine does next: `yybackup` up to the point where it shifts, reduces, accepts
      or fails. The look-ahead is read only when the state needs it. */
  method Decide(yystate: int, lexer: Scanner.Scanner, yychar0: int, yylval0: string, ghost rest: seq<Token>)
    returns (act: Action, yychar: int, yylval: string)
    requires 0 <= yystate < 110 && lexer.Valid() && LookAhead(yychar0, yylval0, lexer.Pending(), rest)
    modifies lexer, lexer.chBuf
    ensures 0 <= Look(rest) < 24 && act == Lookup(yystate, Look(rest))
    ensures lexer.Valid() && LookAhead(yychar, yylval, lexer.Pending(), rest)
    ensures lexer.chBuf == old(lexer.chBuf) || fresh(lexer.chBuf)
    ensures act.Shift? || act.Accept? ==> yychar != YYEMPTY
  {
    hide Tokens, Translate;
    yychar, yylval := yychar0, yylval0;
    LookRange(rest);
    var yyn := Pact(yystate);
    if yyn != -76 {
      yychar, yylval := ReadAhead(lexer, yychar, yylval, rest);
      var yytoken := if yychar <= 0 then 0 else Translate(yychar);
      assert yytoken == Look(rest);
      yyn := yyn + yytoken;
      if 0 <= yyn <= 103 && Check(yyn) == yytoken {
        yyn := Table(yyn);
        if yyn <= 0 {
          if yyn == 0 || yyn == -15 {
            act := Error;
          } else {
            act := Reduce(-yyn);
          }
        } else if yyn == 6 {
          act := Accept;
        } else {
          act := Shift(yyn);
        }
        return;
      }
    }
    yyn := Defact(yystate);
    if yyn == 0 {
      act := Error;
    } else {
      act := Reduce(yyn);
    }
  }

  lemma {:induction false} EnvShift(forest: seq<Tree>, tok: Token)
    ensures ExecAll(forest + [Leaf(tok)], NoMailbox) == ExecAll(forest, NoMailbox)
  {
    ExecConcat(forest, [Leaf(tok)], NoMailbox);
    OneKid([Leaf(tok)], ExecAll(forest, NoMailbox));
  }

  lemma {:induction false} EnvReduce(forest: seq<Tree>, n: int, k: nat)
    requires k <= |forest|
    ensures ExecAll(forest[..|forest| - k] + [Node(n, forest[|forest| - k..])], NoMailbox)
      == Act(n, forest[|forest| - k..], ExecAll(forest, NoMailbox))
  {
    var front, kids := forest[..|forest| - k], forest[|forest| - k..];
    ExecConcat(front, [Node(n, kids)], NoMailbox);
    ExecConcat(front, kids, NoMailbox);
    OneKid([Node(n, kids)], ExecAll(front, NoMailbox));
    assert forest == front + kids;
  }

  /** `YYPOPSTACK` and the push of the state that follows. */
  method Replace(yyss: array<int>, yyvs: array<string>, yyssp: nat, n: int, ghost forest: seq<Tree>)
    returns (sp: nat)
    requires yyss.Length == yyvs.Length == YYINITDEPTH && yyssp < YYINITDEPTH - 1
    requires 1 <= n <= 25 && 0 <= R2(n) <= yyssp
    requires Stacked(yyss[..yyssp + 1], yyvs[..yyssp + 1], forest)
    modifies yyss, yyvs
    ensures sp == yyssp - R2(n) + 1
    ensures yyss[..sp + 1] == old(yyss[..sp]) + [Goto(old(yyss[sp - 1]), R1(n))]
    ensures Stacked(yyss[..sp + 1], yyvs[..sp + 1],
                    forest[..|forest| - R2(n)] + [Node(n, forest[|forest| - R2(n)..])])
  {
    hide R1, R2, Goto, Pgoto, Check, Table, Defgoto;
    var yylen := R2(n);
    var yyval := yyvs[yyssp + 1 - yylen];
    sp := yyssp - yylen;
    ghost var below, texts := yyss[..sp + 1], yyvs[..sp + 1];
    var yystate := Goto(yyss[sp], R1(n));
    sp := sp + 1;
    yyvs[sp] := yyval;
    yyss[sp] := yystate;
    assert yyss[..sp + 1] == below + [yystate] && yyvs[..sp + 1] == texts + [yyval];
  }

  /** The arrays hold the machine's configuration, on its way to the same outcome as at the
      start, with room for one more state. */
  ghost predicate Machine(yyss: array<int>, yyvs: array<string>, yyssp: nat, forest: seq<Tree>, rest: seq<Token>,
                          input: seq<Token>)
    requires Input(input)
    reads yyss, yyvs
  {
    && yyss.Length == yyvs.Length == YYINITDEPTH && yyssp < YYINITDEPTH - 1
    && Good(Running(yyss[..yyssp + 1], forest, rest))
    && Parse(Running(yyss[..yyssp + 1], forest, rest)) == Parse(Begin(input))
    && Stacked(yyss[..yyssp + 1], yyvs[..yyssp + 1], forest)
  }

  lemma MachineFacts(yyss: array<int>, yyvs: array<string>, yyssp: nat, forest: seq<Tree>, rest: seq<Token>,
                     input: seq<Token>)
    requires Input(input) && Machine(yyss, yyvs, yyssp, forest, rest, input)
    ensures yyss.Length == yyvs.Length == YYINITDEPTH && yyssp < YYINITDEPTH - 1 && |forest| == yyssp
    ensures Good(Running(yyss[..yyssp + 1], forest, rest)) && Top(yyss[..yyssp + 1]) == yyss[yyssp]
    ensures Parse(Running(yyss[..yyssp + 1], forest, rest)) == Parse(Begin(input))
    ensures Stack(yyss[..yyssp + 1]) && Spells(yyss[..yyssp + 1], forest)
    ensures 0 <= yyss[yyssp] < 110 && 0 <= Look(rest) < 24 && 0 <= Rank(yyss[yyssp])
  {
    hide Translate, Rank, Parse;
    StackTop(yyss[..yyssp + 1]);
    LookRange(rest);
    RankRange(yyss[yyssp]);
  }

  lemma MachineStarts(yyss: array<int>, yyvs: array<string>, input: seq<Token>)
    requires Input(input) && yyss.Length == yyvs.Length == YYINITDEPTH && yyss[0] == 0
    ensures Machine(yyss, yyvs, 0, [], input, input)
  {
    assert yyss[..1] == [0];
  }

  /** `yyshift`. */
  method Push(yyss: array<int>, yyvs: array<string>, yyssp: nat, t: int, yylval: string,
              ghost forest: seq<Tree>, ghost rest: seq<Token>, ghost input: seq<Token>)
    requires Input(input) && yyss != yyvs as object
    requires Machine(yyss, yyvs, yyssp, forest, rest, input)
    requires rest != [] && yylval == rest[0].text
    requires 0 <= yyss[yyssp] < 110 && 0 <= Look(rest) < 24 && Lookup(yyss[yyssp], Look(rest)) == Shift(t)
    modifies yyss, yyvs
    ensures yyssp + 1 < YYINITDEPTH - 1
    ensures Machine(yyss, yyvs, yyssp + 1, forest + [Leaf(rest[0])], rest[1..], input)
  {
    hide Lookup, Plain, Goto, Stos, Rank, Edge, Depth, Parse, Good, R1, R2, Translate;
    ghost var c := Running(yyss[..yyssp + 1], forest, rest);
    ParseStep(c);
    yyss[yyssp + 1], yyvs[yyssp + 1] := t, yylval;
    assert yyss[..yyssp + 2] == c.ss + [t];
    Fits(Step(c));
  }

  lemma Fits(c: Config)
    requires Good(c) && c.Running?
    ensures |c.ss| <= 30
  {
    StackBounded(c.ss);
  }

  /** `yyreduce`, after the action. */
  method Pop(yyss: array<int>, yyvs: array<string>, yyssp: nat, n: int,
             ghost forest: seq<Tree>, ghost rest: seq<Token>, ghost input: seq<Token>)
    returns (sp: nat)
    requires Input(input) && yyss != yyvs as object
    requires Machine(yyss, yyvs, yyssp, forest, rest, input)
    requires 0 <= yyss[yyssp] < 110 && 0 <= Look(rest) < 24 && Lookup(yyss[yyssp], Look(rest)) == Reduce(n)
    requires 1 <= n <= 25 && R2(n) <= |forest|
    modifies yyss, yyvs
    ensures Machine(yyss, yyvs, sp, forest[..|forest| - R2(n)] + [Node(n, forest[|forest| - R2(n)..])], rest, input)
    ensures sp < YYINITDEPTH - 1 && Rank(yyss[sp]) < old(Rank(yyss[yyssp]))
  {
    hide Lookup, Plain, Goto, Stos, Rank, Edge, Depth, Parse, R1, R2, Translate, IsSource, Derives;
    ghost var c := Running(yyss[..yyssp + 1], forest, rest);
    ParseStep(c);
    StepGood(c);
    sp := Replace(yyss, yyvs, yyssp, n, forest);
    assert Step(c).ss == yyss[..sp + 1];
    Fits(Step(c));
  }

  /** The action of a reduction, on the values that the stack holds for its right-hand side. */
  method Perform(n: int, vals: seq<string>, mb: MailBox?, trx: SmtdvTransfer?,
                 ghost ss: seq<int>, ghost yyvs: seq<string>, ghost forest: seq<Tree>, ghost a: int)
    returns (mb': MailBox?, trx': SmtdvTransfer?)
    requires Stack(ss) && Spells(ss, forest) && Stacked(ss, yyvs, forest)
    requires 0 <= Top(ss) < 110 && 0 <= a < 24 && Lookup(Top(ss), a) == Reduce(n)
    requires 0 <= R2(n) <= |forest| && vals == yyvs[|yyvs| - R2(n)..]
    requires Linked(mb, trx) && EnvOf(mb) == ExecAll(forest, NoMailbox)
    modifies Footprint(mb)
    ensures Linked(mb', trx') && fresh(Footprint(mb') - old(Footprint(mb)))
    ensures EnvOf(mb') == ExecAll(forest[..|forest| - R2(n)] + [Node(n, forest[|forest| - R2(n)..])], NoMailbox)
  {
    hide Lookup, Plain, Goto, Stos, Rank, Edge, Depth, R1, R2, IsSource, Derives, Act, Linked, EnvOf, Exec;
    hide Stack, Spells, ExecAll, Footprint, Open;
    ReduceFinds(ss, forest, a);
    ActionReady(ss, forest, a);
    Unlink(mb, trx);
    ghost var kids := forest[|forest| - R2(n)..];
    forall i | 0 <= i < |kids| && kids[i].Leaf? ensures vals[i] == kids[i].tok.text {
      assert forest[|forest| - R2(n) + i] == kids[i];
    }
    mb', trx' := RunAction(n, vals, mb, trx, kids);
    EnvReduce(forest, n, R2(n));
  }

  /** A shift leaves the mailbox alone. */
  method ShiftBy(t: int, yyss: array<int>, yyvs: array<string>, yyssp: nat, yylval: string,
                 ghost mb: MailBox?, ghost trx: SmtdvTransfer?,
                 ghost forest: seq<Tree>, ghost rest: seq<Token>, ghost input: seq<Token>)
    requires Input(input) && yyss != yyvs as object && yyss !in Footprint(mb) && yyvs !in Footprint(mb)
    requires Machine(yyss, yyvs, yyssp, forest, rest, input)
    requires rest != [] && yylval == rest[0].text
    requires 0 <= yyss[yyssp] < 110 && 0 <= Look(rest) < 24 && Lookup(yyss[yyssp], Look(rest)) == Shift(t)
    requires Linked(mb, trx) && EnvOf(mb) == ExecAll(forest, NoMailbox)
    modifies yyss, yyvs
    ensures yyssp + 1 < YYINITDEPTH - 1
    ensures Machine(yyss, yyvs, yyssp + 1, forest + [Leaf(rest[0])], rest[1..], input)
    ensures Linked(mb, trx) && Footprint(mb) == old(Footprint(mb))
    ensures EnvOf(mb) == ExecAll(forest + [Leaf(rest[0])], NoMailbox)
  {
    hide Lookup, Plain, Goto, Stos, Edge, Depth, Parse, R1, R2, RhsAt, Translate, Rank, Exec, Linked, EnvOf, Machine;
    EnvShift(forest, rest[0]);
    Push(yyss, yyvs, yyssp, t, yylval, forest, rest, input);
  }

  /** `yyreduce`: the action, then the stacks. */
  method ReduceBy(n: int, yyss: array<int>, yyvs: array<string>, yyssp: nat, mb: MailBox?, trx: SmtdvTransfer?,
                  ghost forest: seq<Tree>, ghost rest: seq<Token>, ghost input: seq<Token>)
    returns (sp: nat, mb': MailBox?, trx': SmtdvTransfer?)
    requires Input(input) && yyss != yyvs as object && yyss !in Footprint(mb) && yyvs !in Footprint(mb)
    requires Machine(yyss, yyvs, yyssp, forest, rest, input)
    requires 0 <= yyss[yyssp] < 110 && 0 <= Look(rest) < 24 && Lookup(yyss[yyssp], Look(rest)) == Reduce(n)
    requires 1 <= n <= 25 && R2(n) <= |forest|
    requires Linked(mb, trx) && EnvOf(mb) == ExecAll(forest, NoMailbox)
    modifies yyss, yyvs, Footprint(mb)
    ensures Machine(yyss, yyvs, sp, forest[..|forest| - R2(n)] + [Node(n, forest[|forest| - R2(n)..])], rest, input)
    ensures sp < YYINITDEPTH - 1 && Rank(yyss[sp]) < old(Rank(yyss[yyssp]))
    ensures Linked(mb', trx') && fresh(Footprint(mb') - old(Footprint(mb)))
    ensures yyss !in Footprint(mb') && yyvs !in Footprint(mb')
    ensures EnvOf(mb') == ExecAll(forest[..|forest| - R2(n)] + [Node(n, forest[|forest| - R2(n)..])], NoMailbox)
  {
    hide Act, At, Check, Defact, Defgoto, Depth, Derives, Edge, EnvOf, Every, Exec, ExecAll, FileMailbox, Goto,
      HasItem, IsSource, Linked, Lines, Look, Lookup, Pact, Parse, Pgoto, Plain, Prhs, R1, R2, Rank, RhsAt,
      RhsSymbols, Root, Sentence, Step, Stos, Table, Translate, Yield, YieldAll;
    ghost var texts := yyvs[..yyssp + 1];
    assert texts[yyssp + 1 - R2(n)..] == yyvs[yyssp + 1 - R2(n)..yyssp + 1];
    mb', trx' := Perform(n, yyvs[yyssp + 1 - R2(n)..yyssp + 1], mb, trx, yyss[..yyssp + 1], texts, forest, Look(rest));
    sp := Pop(yyss, yyvs, yyssp, n, forest, rest, input);
  }

  /** The state of the engine between two rounds. */
  ghost predicate Ready(yyss: array<int>, yyvs: array<string>, yyssp: nat, lexer: Scanner.Scanner, yychar: int,
                        yylval: string, mb: MailBox?, trx: SmtdvTransfer?,
                        forest: seq<Tree>, rest: seq<Token>, input: seq<Token>)
    requires Input(input)
    reads yyss, yyvs, lexer, lexer.chBuf, mb, Footprint(mb)
  {
    && Machine(yyss, yyvs, yyssp, forest, rest, input)
    && lexer.Valid() && LookAhead(yychar, yylval, lexer.Pending(), rest)
    && Linked(mb, trx) && EnvOf(mb) == ExecAll(forest, NoMailbox)
    && {yyss, yyvs} !! {lexer, lexer.chBuf} !! Footprint(mb) && yyss != yyvs as object
  }

  /** What the machine says about an input: the mailbox to leave, if it accepts. */
  ghost function Verdict(input: seq<Token>): Option<Env>
    requires Input(input)
  {
    var c := Parse(Begin(input));
    if c.Accepted? then Some(FileMailbox(Yield(c.tree))) else None
  }

  /** `yybackup` between two rounds. */
  method Backup(yyss: array<int>, yyvs: array<string>, yyssp: nat, lexer: Scanner.Scanner, yychar: int, yylval: string,
                ghost mb: MailBox?, ghost trx: SmtdvTransfer?, ghost forest: seq<Tree>, ghost rest: seq<Token>,
                ghost input: seq<Token>)
    returns (act: Action, yychar': int, yylval': string)
    requires Input(input) && Ready(yyss, yyvs, yyssp, lexer, yychar, yylval, mb, trx, forest, rest, input)
    modifies lexer, lexer.chBuf
    ensures lexer.chBuf == old(lexer.chBuf) || fresh(lexer.chBuf)
    ensures Footprint(mb) == old(Footprint(mb))
    ensures Ready(yyss, yyvs, yyssp, lexer, yychar', yylval', mb, trx, forest, rest, input)
    ensures yyss.Length == YYINITDEPTH && yyssp < YYINITDEPTH - 1 && 0 <= yyss[yyssp] < 110 && 0 <= Look(rest) < 24
    ensures act == Lookup(yyss[yyssp], Look(rest)) && (act.Shift? || act.Accept? ==> yychar' != YYEMPTY)
  {
    hide Begin, Check, Defact, Edge, EnvOf, Exec, ExecAll, Good, Input, Linked, Look, Lookup, LookAhead, Machine,
      Pact, Parse, Rank, Spells, Stack, Step, Stos, Table, Tokens, Top, Translate;
    MachineFacts(yyss, yyvs, yyssp, forest, rest, input);
    act, yychar', yylval' := Decide(yyss[yyssp], lexer, yychar, yylval, rest);
    assert Footprint(mb) == old(Footprint(mb));
    assert Linked(mb, trx) && EnvOf(mb) == old(EnvOf(mb));
    assert Machine(yyss, yyvs, yyssp, forest, rest, input);
  }

  /** `yyshift` between two rounds. */
  method ShiftRound(t: int, yyss: array<int>, yyvs: array<string>, yyssp: nat, lexer: Scanner.Scanner, yychar: int,
                    yylval: string, ghost mb: MailBox?, ghost trx: SmtdvTransfer?,
                    ghost forest: seq<Tree>, ghost rest: seq<Token>, ghost input: seq<Token>)
    requires Input(input) && Ready(yyss, yyvs, yyssp, lexer, yychar, yylval, mb, trx, forest, rest, input)
    requires yyss.Length == YYINITDEPTH && yyssp < YYINITDEPTH - 1 && 0 <= yyss[yyssp] < 110 && 0 <= Look(rest) < 24
    requires Lookup(yyss[yyssp], Look(rest)) == Shift(t) && yychar != YYEMPTY
    modifies yyss, yyvs
    ensures rest != [] && Footprint(mb) == old(Footprint(mb)) && lexer.Valid() && yyssp + 1 < YYINITDEPTH - 1
    ensures Ready(yyss, yyvs, yyssp + 1, lexer, YYEMPTY, yylval, mb, trx, forest + [Leaf(rest[0])], rest[1..], input)
  {
    hide EnvOf, ExecAll, Linked, Look, Lookup, Machine, Parse, Rank, Stack, Tokens, Translate;
    MachineFacts(yyss, yyvs, yyssp, forest, rest, input);
    ShiftsToken(yyss[..yyssp + 1], forest, rest, t);
    ShiftBy(t, yyss, yyvs, yyssp, yylval, mb, trx, forest, rest, input);
  }

  /** `yyreduce` between two rounds. */
  method ReduceRound(n: int, yyss: array<int>, yyvs: array<string>, yyssp: nat, lexer: Scanner.Scanner,
                     ghost yychar: int, ghost yylval: string, mb: MailBox?, trx: SmtdvTransfer?,
                     ghost forest: seq<Tree>, ghost rest: seq<Token>, ghost input: seq<Token>)
    returns (sp: nat, mb': MailBox?, trx': SmtdvTransfer?, ghost forest': seq<Tree>)
    requires Input(input) && Ready(yyss, yyvs, yyssp, lexer, yychar, yylval, mb, trx, forest, rest, input)
    requires yyss.Length == YYINITDEPTH && yyssp < YYINITDEPTH - 1 && 0 <= yyss[yyssp] < 110 && 0 <= Look(rest) < 24
    requires Lookup(yyss[yyssp], Look(rest)) == Reduce(n)
    modifies yyss, yyvs, Footprint(mb)
    ensures fresh(Footprint(mb') - old(Footprint(mb))) && lexer.Valid()
    ensures Ready(yyss, yyvs, sp, lexer, yychar, yylval, mb', trx', forest', rest, input)
    ensures sp < YYINITDEPTH - 1 && Rank(yyss[sp]) < old(Rank(yyss[yyssp]))
  {
    hide Derives, EnvOf, ExecAll, Goto, IsSource, Linked, Look, Lookup, Machine, Parse, R1, R2, Rank, Stack, Tokens,
      Translate;
    MachineFacts(yyss, yyvs, yyssp, forest, rest, input);
    ReduceFinds(yyss[..yyssp + 1], forest, Look(rest));
    sp, mb', trx' := ReduceBy(n, yyss, yyvs, yyssp, mb, trx, forest, rest, input);
    forest' := forest[..|forest| - R2(n)] + [Node(n, forest[|forest| - R2(n)..])];
  }

  /** How the engine ends. */
  lemma Finishes(yyss: array<int>, yyvs: array<string>, yyssp: nat, lexer: Scanner.Scanner, yychar: int, yylval: string,
                 mb: MailBox?, trx: SmtdvTransfer?, forest: seq<Tree>, rest: seq<Token>, input: seq<Token>)
    requires Input(input) && Ready(yyss, yyvs, yyssp, lexer, yychar, yylval, mb, trx, forest, rest, input)
    requires yyss.Length == YYINITDEPTH && yyssp < YYINITDEPTH - 1 && 0 <= yyss[yyssp] < 110 && 0 <= Look(rest) < 24
    ensures lexer.Valid()
    ensures Lookup(yyss[yyssp], Look(rest)).Error? ==> Verdict(input) == None
    ensures Lookup(yyss[yyssp], Look(rest)).Accept? ==>
      mb != null && mb.m_it <= |mb.m_vec| && Verdict(input) == Some(EnvOf(mb))
  {
    hide EnvOf, ExecAll, FileMailbox, Linked, Look, Lookup, Machine, Parse, Rank, Stack, Tokens, Translate, Yield;
    MachineFacts(yyss, yyvs, yyssp, forest, rest, input);
    Stops(yyss[..yyssp + 1], forest, rest);
    Unlink(mb, trx);
  }

  /** The parser on a text: whether it accepts, and the mailbox it leaves. It accepts exactly if
      the tokens of the text are a sentence of the grammar, and then the mailbox is the one that
      the lines ask for; neither depends on how the file is read. */
  method YyParse(lexer: Scanner.Scanner) returns (ok: bool, mb: MailBox?)
    requires lexer.Valid()
    modifies lexer, lexer.chBuf
    ensures ok <==> Sentence(old(Tokens(lexer.Pending())))
    ensures lexer.Valid() && fresh(Footprint(mb))
    ensures ok ==> mb != null && mb.m_it <= |mb.m_vec| && EnvOf(mb) == FileMailbox(old(Tokens(lexer.Pending())))
  {
    hide EnvOf, FileMailbox, Input, Look, Lookup, Machine, Parse, Rank, Ready, Sentence;
    hide Tokens, Translate, Verdict, Yield;
    ghost var input, forest := Tokens(lexer.Pending()), [];
    TokensInput(lexer.Pending());
    Verdicts(input);
    var yyss, yyvs := new int[YYINITDEPTH], new string[YYINITDEPTH](_ => "");
    var yyssp: nat, yychar, yylval := 0, YYEMPTY, "";
    var trx: SmtdvTransfer? := null;
    mb := null;
    yyss[0] := 0;
    ghost var rest := input;
    ReadyToStart(yyss, yyvs, lexer, input);
    while true
      invariant yyssp < YYINITDEPTH - 1 && fresh(Footprint(mb))
      invariant lexer.chBuf == old(lexer.chBuf) || fresh(lexer.chBuf)
      invariant Ready(yyss, yyvs, yyssp, lexer, yychar, yylval, mb, trx, forest, rest, input)
      decreases |rest|, Rank(yyss[yyssp])
    {
      RankRange(yyss[yyssp]);
      var act;
      act, yychar, yylval := Backup(yyss, yyvs, yyssp, lexer, yychar, yylval, mb, trx, forest, rest, input);
      match act {
        case Error =>
          Finishes(yyss, yyvs, yyssp, lexer, yychar, yylval, mb, trx, forest, rest, input);
          return false, mb;
        case Accept =>
          Finishes(yyss, yyvs, yyssp, lexer, yychar, yylval, mb, trx, forest, rest, input);
          return true, mb;
        case Shift(t) =>
          ShiftRound(t, yyss, yyvs, yyssp, lexer, yychar, yylval, mb, trx, forest, rest, input);
          forest := forest + [Leaf(rest[0])];
          rest := rest[1..];
          yyssp, yychar := yyssp + 1, YYEMPTY;
        case Reduce(n) =>
          yyssp, mb, trx, forest :=
            ReduceRound(n, yyss, yyvs, yyssp, lexer, yychar, yylval, mb, trx, forest, rest, input);
      }
    }
  }

  lemma Verdicts(input: seq<Token>)
    requires Input(input)
    ensures Verdict(input).Some? <==> Sentence(input)
    ensures Verdict(input).Some? ==> Verdict(input) == Some(FileMailbox(input))
  {
    hide Parse, FileMailbox, Sentence;
    AcceptsExactlySentences(input);
  }

  lemma ReadyToStart(yyss: array<int>, yyvs: array<string>, lexer: Scanner.Scanner, input: seq<Token>)
    requires Input(input) && lexer.Valid() && input == Tokens(lexer.Pending())
    requires yyss.Length == yyvs.Length == YYINITDEPTH && yyss[0] == 0
    requires {yyss, yyvs} !! {lexer, lexer.chBuf} && yyss != yyvs as object
    ensures Footprint(null) == {} && Ready(yyss, yyvs, 0, lexer, YYEMPTY, "", null, null, [], input, input)
  {
    MachineStarts(yyss, yyvs, input);
    NothingYet();
  }

  lemma NothingYet()
    ensures ExecAll([], NoMailbox) == NoMailbox && Footprint(null) == {} && Linked(null, null)
    ensures EnvOf(null) == NoMailbox
  {
  }

  lemma Unlink(mb: MailBox?, trx: SmtdvTransfer?)
    requires Linked(mb, trx)
    ensures mb != null ==> mb.m_it <= |mb.m_vec|
    ensures mb == null ==> EnvOf(mb).NoMailbox?
  {
  }

  /** How the machine ends. */
  lemma {:induction false} Stops(ss: seq<int>, forest: seq<Tree>, rest: seq<Token>)
    requires Good(Running(ss, forest, rest)) && 0 <= Top(ss) < 110 && 0 <= Look(rest) < 24
    ensures Lookup(Top(ss), Look(rest)).Error? ==> !Parse(Running(ss, forest, rest)).Accepted?
    ensures Lookup(Top(ss), Look(rest)).Accept? ==>
      && Parse(Running(ss, forest, rest)).Accepted?
      && ExecAll(forest, NoMailbox) == FileMailbox(Yield(Parse(Running(ss, forest, rest)).tree))
      && FileMailbox(Yield(Parse(Running(ss, forest, rest)).tree)).Mailbox?
  {
    hide Lookup, Plain, Goto, Stos, Rank, Edge, Depth, Parse, R1, R2, Translate, IsSource, Derives, FileMailbox, Exec;
    var c := Running(ss, forest, rest);
    ParseStep(c);
    match Lookup(Top(ss), Look(rest)) {
      case Error =>
        ParseDone(Step(c));
      case Accept =>
        ParseDone(Step(c));
        AcceptFinds(ss, forest, Look(rest));
        ProgramMeans(forest[0]);
        assert Derives(forest[0]);
        OneKid(forest, NoMailbox);
      case _ =>
    }
  }

  lemma ShiftsToken(ss: seq<int>, forest: seq<Tree>, rest: seq<Token>, t: int)
    requires Good(Running(ss, forest, rest)) && 0 <= Top(ss) < 110 && 0 <= Look(rest) < 24
    requires Lookup(Top(ss), Look(rest)) == Shift(t)
    ensures rest != []
  {
  }
}
