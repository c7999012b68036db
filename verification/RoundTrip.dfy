/** Files written out as text come back: the scanner and the grammar read the rows that a writer has
    put down, and the mailbox holds their transfers. */
module RoundTrip {
  import opened Forms
  import opened Grammar
  import opened Meaning
  import opened Options
  import Parser
  import ParserRuns
  import Scanner
  import opened ScannerRules
  import opened Scanning
  import opened Translation

  /** A line of a file: nothing, the names of the columns, or a transfer. */
  datatype Row =
    | NoRow
    | XbusNames
    | ApbNames
    | AhbNames
    | XbusRow(beginCycle: string, endCycle: string, beginTime: string, endTime: string, rw: string, addr: string,
              data: seq<string>, byten: seq<string>)
    | ApbRow(beginCycle: string, endCycle: string, beginTime: string, endTime: string, id: string, rw: string,
             resp: string, addr: string, data: seq<string>)
    | AhbRow(beginCycle: string, endCycle: string, beginTime: string, endTime: string, id: string, rw: string,
             bstType: string, trxSize: string, trxPrt: string, lock: string, resp: string, addr: string,
             data: seq<string>)

  /** Each cell with a comma behind it. */
  function Cells(cs: seq<string>): (ps: seq<string>)
    ensures |ps| == 2 * |cs|
  {
    if cs == [] then [] else Cells(cs[..|cs| - 1]) + [cs[|cs| - 1], ","]
  }

  /** Data words with their byte enables. */
  function Beats(data: seq<string>, byten: seq<string>): (ps: seq<string>)
    requires |data| == |byten|
    ensures |ps| == 5 * |data|
  {
    if data == [] then []
    else
      var n := |data| - 1;
      Beats(data[..n], byten[..n]) + [data[n], "(", byten[n], ")", ","]
  }

  function FixedCells(r: Row): seq<string> {
    match r
    case XbusRow(bc, ec, bt, et, rw, addr, _, _) => [bc, ec, bt, et, rw, addr]
    case ApbRow(bc, ec, bt, et, id, rw, resp, addr, _) => [bc, ec, bt, et, id, rw, resp, addr]
    case AhbRow(bc, ec, bt, et, id, rw, bst, size, prt, lock, resp, addr, _) =>
      [bc, ec, bt, et, id, rw, bst, size, prt, lock, resp, addr]
    case XbusNames => ["begin_cycle", "end_cycle", "begin_time", "end_time", "r/w", "addr"]
    case ApbNames => ["begin_cycle", "end_cycle", "begin_time", "end_time", "id", "r/w", "resp", "addr", "data"]
    case AhbNames =>
      ["begin_cycle", "end_cycle", "begin_time", "end_time", "id", "r/w", "bst_type", "trx_size", "trx_prt", "lock",
       "resp", "addr", "data"]
    case NoRow => []
  }

  /** The pieces of text of a row. */
  function RowPieces(r: Row): seq<string>
    requires r.XbusRow? ==> |r.data| == |r.byten|
  {
    match r
    case XbusNames => ["#"] + Cells(FixedCells(r)) + ["data", "(", "byten", ")", ","]
    case ApbNames => ["#"] + Cells(FixedCells(r))
    case AhbNames => ["#"] + Cells(FixedCells(r))
    case XbusRow(_, _, _, _, _, _, data, byten) => Cells(FixedCells(r)) + Beats(data, byten)
    case ApbRow(_, _, _, _, _, _, _, _, data) => Cells(FixedCells(r) + data)
    case AhbRow(_, _, _, _, _, _, _, _, _, _, _, _, data) => Cells(FixedCells(r) + data)
    case NoRow => []
  }

  /** A hexadecimal number, and a word that is neither a number nor reserved. */
  predicate IsNumber(s: string) {
    s != "" && AllHex(s)
  }

  predicate IsName(s: string) {
    s != "" && AllWord(s) && !AllHex(s) && !IsLiteral(s)
  }

  predicate AllNumbers(ss: seq<string>) {
    forall i | 0 <= i < |ss| :: IsNumber(ss[i])
  }

  /** What a writer may put into a row. */
  predicate Legal(r: Row)
    ensures Legal(r) && r.XbusRow? ==> |r.data| == |r.byten|
  {
    match r
    case XbusRow(bc, ec, bt, et, rw, addr, data, byten) =>
      AllNumbers([bc, ec, bt, et, addr] + data + byten) && IsName(rw) && 0 < |data| == |byten|
    case ApbRow(bc, ec, bt, et, id, rw, resp, addr, data) =>
      AllNumbers([bc, ec, bt, et, id, addr] + data) && IsName(rw) && IsName(resp) && 0 < |data|
    case AhbRow(bc, ec, bt, et, id, rw, bst, size, prt, lock, resp, addr, data) =>
      && AllNumbers([bc, ec, bt, et, id, lock, addr] + data) && 0 < |data|
      && IsName(rw) && IsName(bst) && IsName(size) && IsName(prt) && IsName(resp)
    case _ => true
  }

  predicate AllLegal(rows: seq<Row>) {
    forall i | 0 <= i < |rows| :: Legal(rows[i])
  }

  function FilePieces(name: string, rows: seq<Row>): seq<string>
    requires AllLegal(rows)
  {
    if rows == [] then ["#", name, "\n"]
    else
      assert Legal(rows[|rows| - 1]);
      FilePieces(name, rows[..|rows| - 1]) + RowPieces(rows[|rows| - 1]) + ["\n"]
  }

  /** The text of a file. */
  function Written(name: string, rows: seq<Row>): string
    requires AllLegal(rows)
  {
    Join(FilePieces(name, rows))
  }

  /** The transfers that the rows stand for. On an AHB row the lock setter writes `id`. */
  function RowTransfers(r: Row): seq<Transfer> {
    match r
    case XbusRow(bc, ec, bt, et, rw, addr, data, byten) =>
      [Blank.(beginCycle := Some(bc), endCycle := Some(ec), beginTime := Some(bt), endTime := Some(et),
              rw := Some(rw), addr := Some(addr), data := data, byten := byten)]
    case ApbRow(bc, ec, bt, et, id, rw, resp, addr, data) =>
      [Blank.(beginCycle := Some(bc), endCycle := Some(ec), beginTime := Some(bt), endTime := Some(et),
              id := Some(id), rw := Some(rw), resp := Some(resp), addr := Some(addr), data := data)]
    case AhbRow(bc, ec, bt, et, id, rw, bst, size, prt, lock, resp, addr, data) =>
      [Blank.(beginCycle := Some(bc), endCycle := Some(ec), beginTime := Some(bt), endTime := Some(et),
              id := Some(lock), rw := Some(rw), bstType := Some(bst), trxSize := Some(size), trxPrt := Some(prt),
              resp := Some(resp), addr := Some(addr), data := data)]
    case _ => []
  }

  function Transfers(rows: seq<Row>): seq<Transfer> {
    if rows == [] then [] else Transfers(rows[..|rows| - 1]) + RowTransfers(rows[|rows| - 1])
  }

  // ------------------------------------------------------------------ pieces and their tokens

  function TokenOf(p: string): Token {
    ToToken(Earliest(p), p)
  }

  function TokensOf(ps: seq<string>): (ts: seq<Token>)
    ensures |ts| == |ps|
  {
    seq(|ps|, i requires 0 <= i < |ps| => TokenOf(ps[i]))
  }

  lemma {:induction false} TokensOfConcat(a: seq<string>, b: seq<string>)
    ensures TokensOf(a + b) == TokensOf(a) + TokensOf(b)
  {
  }

  /** A piece that gives a token: its terminal, and the text it keeps. */
  ghost predicate Gives(p: string, x: int, text: string) {
    Translate(TokenOf(p).code) == x && TokenOf(p).text == text
  }

  lemma {:induction false} NumberGives(p: string)
    requires IsNumber(p)
    ensures Gives(p, TIDENTIFIER, p) && Solid(p)
  {
    hide FirstFrom, Literal;
    NotLiteral(p);
    OtherRules(p);
    PieceToken(p);
    assert IsHex(p[0]);
  }

  /** No reserved word is a number. */
  lemma {:induction false} NotLiteral(p: string)
    requires IsNumber(p)
    ensures !IsLiteral(p) && p != " " && p != "\t"
  {
    assert IsHex(p[0]);
    forall r | 2 <= r <= 20 ensures p != Literal(r) {
      SomeOther(r);
    }
  }

  lemma {:induction false} SomeOther(r: int)
    requires 2 <= r <= 20
    ensures !AllHex(Literal(r))
  {
    var w := Literal(r);
    assert !IsHex(w[0]) || (1 < |w| && !IsHex(w[1])) || (2 < |w| && !IsHex(w[2])) || (3 < |w| && !IsHex(w[3]));
  }

  lemma {:induction false} NameGives(p: string)
    requires IsName(p)
    ensures Gives(p, SIDENTIFIER, p) && Solid(p)
  {
    hide FirstFrom, Literal;
    assert IsWord(p[0]);
    assert p != " " && p != "\t";
    OtherRules(p);
    PieceToken(p);
  }

  lemma {:induction false} LiteralGives(r: int, x: int)
    requires 2 <= r <= 20 && Translate(Code(r)) == x
    ensures Gives(Literal(r), x, "") && Solid(Literal(r))
  {
    LiteralRule(r);
    hide Earliest;
    SomeText(r);
  }

  lemma {:induction false} SomeText(r: int)
    requires 2 <= r <= 20
    ensures Literal(r) != "" && Code(r) != 0
  {
  }

  // ------------------------------------------------------------------ tidy pieces

  predicate Solid(p: string) {
    p != "" && Earliest(p) != 0 && Earliest(p) != 1 && Code(Earliest(p)) != 0
  }

  /** Pieces that each give one token, and of which the last and one of any two neighbours are
      separators. */
  predicate Tidy(ps: seq<string>) {
    forall i | 0 <= i < |ps| :: TidyAt(ps, i)
  }

  predicate TidyAt(ps: seq<string>, i: nat)
    requires i < |ps|
  {
    Solid(ps[i]) && (IsSeparator(ps[i]) || (i + 1 < |ps| && IsSeparator(ps[i + 1])))
  }

  lemma {:induction false} TidyConcat(a: seq<string>, b: seq<string>)
    requires Tidy(a) && Tidy(b)
    ensures Tidy(a + b)
  {
    hide Solid, IsSeparator;
    forall i | 0 <= i < |a + b| ensures TidyAt(a + b, i) {
      assert if i < |a| then TidyAt(a, i) else TidyAt(b, i - |a|);
    }
  }

  lemma {:induction false} TidyRead(ps: seq<string>)
    requires Tidy(ps)
    ensures Tokens(Join(ps)) == TokensOf(ps)
  {
    hide Earliest, Code, IsSeparator, ToToken, Join, Tokens;
    forall i | 0 <= i < |ps|
      ensures Solid(ps[i]) && (IsSeparator(ps[i]) || i + 1 == |ps| || IsSeparator(ps[i + 1]))
    {
      assert TidyAt(ps, i);
    }
    SeparatedIsGreedy(ps);
    TokensOfCut(ps, Join(ps));
    DeliveredEach(ps);
  }

  /** The separators, and what they stand for. */
  lemma {:induction false} Separators()
    ensures Solid(",") && IsSeparator(",") && Gives(",", TCOMMA, "")
    ensures Solid("(") && IsSeparator("(") && Gives("(", TLPAREN, "")
    ensures Solid(")") && IsSeparator(")") && Gives(")", TRPAREN, "")
    ensures Solid("#") && IsSeparator("#") && Gives("#", COMMENT, "")
    ensures Solid("\n") && IsSeparator("\n") && Gives("\n", RETURN, "")
  {
    FirstTerminals();
    OtherTerminals();
    FirstSpellings();
    OtherSpellings();
    hide Earliest, Code, ToToken, Translate, Literal;
    LiteralGives(17, TCOMMA);
    LiteralGives(18, TLPAREN);
    LiteralGives(19, TRPAREN);
    LiteralGives(20, COMMENT);
    LiteralGives(2, RETURN);
  }

  lemma {:induction false} TidyOne(p: string, q: string)
    requires Solid(p) && Solid(q) && IsSeparator(q)
    ensures Tidy([p, q]) && Tidy([q])
  {
    hide Solid, IsSeparator;
  }

  lemma {:induction false} CellsTidy(cs: seq<string>)
    requires forall i | 0 <= i < |cs| :: Solid(cs[i])
    ensures Tidy(Cells(cs))
  {
    hide Solid, IsSeparator;
    if cs != [] {
      Separators();
      CellsTidy(cs[..|cs| - 1]);
      TidyOne(cs[|cs| - 1], ",");
      TidyConcat(Cells(cs[..|cs| - 1]), [cs[|cs| - 1], ","]);
    }
  }

  lemma {:induction false} BeatTidy(d: string, b: string)
    requires Solid(d) && Solid(b)
    ensures Tidy([d, "(", b, ")", ","])
  {
    hide Solid, IsSeparator, Tidy;
    Separators();
    TidyOne(d, "(");
    TidyOne(b, ")");
    TidyOne(b, ",");
    TidyConcat([b, ")"], [","]);
    TidyConcat([d, "("], [b, ")"] + [","]);
    assert [d, "("] + ([b, ")"] + [","]) == [d, "(", b, ")", ","];
  }

  lemma {:induction false} BeatsTidy(data: seq<string>, byten: seq<string>)
    requires |data| == |byten| && AllNumbers(data) && AllNumbers(byten)
    ensures Tidy(Beats(data, byten))
  {
    hide Solid, IsSeparator, IsNumber;
    if data != [] {
      var n := |data| - 1;
      Separators();
      NumberGives(data[n]);
      NumberGives(byten[n]);
      BeatsTidy(data[..n], byten[..n]);
      BeatTidy(data[n], byten[n]);
      TidyConcat(Beats(data[..n], byten[..n]), [data[n], "(", byten[n], ")", ","]);
    }
  }

  // ------------------------------------------------------------------ the tokens of a row

  lemma {:induction false} CellsConcat(a: seq<string>, b: seq<string>)
    ensures Cells(a + b) == Cells(a) + Cells(b)
  {
    if b == [] {
      assert a + b == a;
    } else {
      assert (a + b)[..|a + b| - 1] == a + b[..|b| - 1];
      CellsConcat(a, b[..|b| - 1]);
    }
  }

  lemma {:induction false} CellAt(cs: seq<string>, i: nat)
    requires i < |cs|
    ensures Cells(cs)[2 * i] == cs[i] && Cells(cs)[2 * i + 1] == ","
  {
    if i < |cs| - 1 {
      CellAt(cs[..|cs| - 1], i);
    }
  }

  lemma {:induction false} CellGives(p: string, word: bool)
    requires if word then IsName(p) else IsNumber(p)
    ensures Gives(p, if word then SIDENTIFIER else TIDENTIFIER, p)
  {
    hide IsName, IsNumber, Gives;
    if word {
      NameGives(p);
    } else {
      NumberGives(p);
    }
  }

  lemma {:induction false} CellColumn(cs: seq<string>, rest: seq<Token>, i: nat, word: bool)
    requires i < |cs| && if word then IsName(cs[i]) else IsNumber(cs[i])
    ensures var l := TokensOf(Cells(cs)) + rest;
      && Terminal(l, 2 * i) == (if word then SIDENTIFIER else TIDENTIFIER) && l[2 * i].text == cs[i]
      && Terminal(l, 2 * i + 1) == TCOMMA
  {
    hide IsName, IsNumber, TokenOf, Cells, Translate, Solid, IsSeparator;
    CellAt(cs, i);
    var ts := TokensOf(Cells(cs));
    assert ts[2 * i] == TokenOf(cs[i]) && ts[2 * i + 1] == TokenOf(",");
    CellGives(cs[i], word);
    Separators();
  }

  lemma {:induction false} CellsColumned(cs: seq<string>, rest: seq<Token>, words: set<int>)
    requires forall i | 0 <= i < |cs| :: if 2 * i in words then IsName(cs[i]) else IsNumber(cs[i])
    ensures Columned(TokensOf(Cells(cs)) + rest, 2 * |cs|, words)
    ensures forall i | 0 <= i < |cs| :: (TokensOf(Cells(cs)) + rest)[2 * i].text == cs[i]
  {
    hide IsName, IsNumber, TokensOf, Cells, Translate;
    var l := TokensOf(Cells(cs)) + rest;
    forall i | 0 <= i < |cs| ensures l[2 * i].text == cs[i] {
      CellColumn(cs, rest, i, 2 * i in words);
    }
    forall k | 0 <= k < 2 * |cs| ensures Terminal(l, k) == Place(k, words) {
      assert k == 2 * (k / 2) + k % 2;
      CellColumn(cs, rest, k / 2, 2 * (k / 2) in words);
    }
  }

  lemma {:induction false} DataMore(a: seq<Token>, b: seq<Token>, data: seq<string>, d: string)
    requires |a| == 2 * |data| && |b| == 2 && Terminal(b, 0) == TIDENTIFIER && Terminal(b, 1) == TCOMMA
    requires b[0].text == d && (a == [] || IsData(a)) && Every(a, 0, 2) == data
    ensures IsData(a + b) && Every(a + b, 0, 2) == data + [d]
  {
    hide Translate, Every;
    EveryStep(b, 0, 2);
    EveryEnd(b, 2, 2);
    EveryConcat(a, b, 0, 0, 2, |data|);
    assert (a + b)[..|a + b| - 2] == a;
  }

  lemma {:induction false} DataTokens(data: seq<string>)
    requires AllNumbers(data) && data != []
    ensures var l := TokensOf(Cells(data)); IsData(l) && Every(l, 0, 2) == data
  {
    hide IsNumber, TokenOf, Translate, IsData, Every;
    var n := |data| - 1;
    var front, last := data[..n], [data[n], ","];
    assert data == front + [data[n]];
    TokensOfConcat(Cells(front), last);
    NumberGives(data[n]);
    Separators();
    if n == 0 {
      EveryEnd([], 0, 2);
    } else {
      DataTokens(front);
    }
    DataMore(TokensOf(Cells(front)), TokensOf(last), front, data[n]);
  }

  lemma {:induction false} BeatMore(a: seq<Token>, b: seq<Token>, data: seq<string>, byten: seq<string>)
    requires |a| == 5 * |data| == 5 * |byten| && |b| == 5
    requires Terminal(b, 0) == TIDENTIFIER && Terminal(b, 1) == TLPAREN && Terminal(b, 2) == TIDENTIFIER
    requires Terminal(b, 3) == TRPAREN && Terminal(b, 4) == TCOMMA
    requires (a == [] || IsDataByten(a)) && Every(a, 0, 5) == data && Every(a, 2, 5) == byten
    ensures IsDataByten(a + b)
    ensures Every(a + b, 0, 5) == data + [b[0].text] && Every(a + b, 2, 5) == byten + [b[2].text]
  {
    hide Translate, Every;
    EveryStep(b, 0, 5);
    EveryEnd(b, 5, 5);
    EveryStep(b, 2, 5);
    EveryEnd(b, 7, 5);
    EveryConcat(a, b, 0, 0, 5, |data|);
    EveryConcat(a, b, 2, 2, 5, |data|);
    assert (a + b)[..|a + b| - 5] == a;
  }

  lemma {:induction false} OneBeat(d: string, b: string)
    requires IsNumber(d) && IsNumber(b)
    ensures var l := TokensOf([d, "(", b, ")", ","]);
      && Terminal(l, 0) == TIDENTIFIER && Terminal(l, 1) == TLPAREN && Terminal(l, 2) == TIDENTIFIER
      && Terminal(l, 3) == TRPAREN && Terminal(l, 4) == TCOMMA && l[0].text == d && l[2].text == b
  {
    hide IsNumber, TokenOf, Translate;
    NumberGives(d);
    NumberGives(b);
    Separators();
  }

  lemma {:induction false} BeatsLast(data: seq<string>, byten: seq<string>, d: string, b: string)
    requires |data| == |byten|
    ensures TokensOf(Beats(data + [d], byten + [b])) == TokensOf(Beats(data, byten)) + TokensOf([d, "(", b, ")", ","])
  {
    hide TokenOf;
    assert (data + [d])[..|data|] == data && (byten + [b])[..|byten|] == byten;
    TokensOfConcat(Beats(data, byten), [d, "(", b, ")", ","]);
  }

  lemma {:induction false} BeatsTokens(data: seq<string>, byten: seq<string>)
    requires AllNumbers(data) && AllNumbers(byten) && |data| == |byten| && data != []
    ensures var l := TokensOf(Beats(data, byten));
      IsDataByten(l) && Every(l, 0, 5) == data && Every(l, 2, 5) == byten
  {
    hide IsNumber, TokensOf, Translate, Every, IsDataByten, Beats;
    var n := |data| - 1;
    var front, bytens, d, b := data[..n], byten[..n], data[n], byten[n];
    assert data == front + [d] && byten == bytens + [b];
    BeatsLast(front, bytens, d, b);
    OneBeat(d, b);
    var l := TokensOf(Beats(front, bytens));
    if n == 0 {
      EveryEnd(l, 0, 5);
      EveryEnd(l, 2, 5);
    } else {
      BeatsTokens(front, bytens);
    }
    BeatMore(l, TokensOf([d, "(", b, ")", ","]), front, bytens);
  }

  lemma {:induction false} FixedNumbers(cs: seq<string>, data: seq<string>)
    requires AllNumbers(cs + data)
    ensures AllNumbers(cs) && AllNumbers(data)
  {
    assert forall i | 0 <= i < |cs| :: (cs + data)[i] == cs[i];
    assert forall i | 0 <= i < |data| :: (cs + data)[|cs| + i] == data[i];
  }

  lemma {:induction false} SolidCells(cs: seq<string>)
    requires forall i | 0 <= i < |cs| :: IsNumber(cs[i]) || IsName(cs[i])
    ensures Tidy(Cells(cs))
  {
    hide IsNumber, IsName, Solid, Tidy;
    forall i | 0 <= i < |cs| ensures Solid(cs[i]) {
      if IsNumber(cs[i]) {
        NumberGives(cs[i]);
      } else {
        NameGives(cs[i]);
      }
    }
    CellsTidy(cs);
  }

  /** What is to be shown of each row: it is read as its own tokens, which form a line, and the line
      gives its transfer. */
  ghost predicate Reads(r: Row)
    requires Legal(r)
  {
    && Tidy(RowPieces(r)) && IsLine(TokensOf(RowPieces(r)))
    && LineTransfers(TokensOf(RowPieces(r))) == RowTransfers(r)
  }

  lemma {:induction false} XbusReads(r: Row)
    requires Legal(r) && r.XbusRow?
    ensures Reads(r)
  {
    hide IsNumber, IsName, TokenOf, Tidy, IsDataByten, Every, Translate, Cells, Beats;
    var cs := FixedCells(r);
    FixedNumbers([r.beginCycle, r.endCycle, r.beginTime, r.endTime, r.addr] + r.data, r.byten);
    FixedNumbers([r.beginCycle, r.endCycle, r.beginTime, r.endTime, r.addr], r.data);
    var ns := [r.beginCycle, r.endCycle, r.beginTime, r.endTime, r.addr];
    assert IsNumber(ns[0]) && IsNumber(ns[1]) && IsNumber(ns[2]) && IsNumber(ns[3]) && IsNumber(ns[4]);
    SolidCells(cs);
    BeatsTidy(r.data, r.byten);
    TidyConcat(Cells(cs), Beats(r.data, r.byten));
    var a, b := TokensOf(Cells(cs)), TokensOf(Beats(r.data, r.byten));
    TokensOfConcat(Cells(cs), Beats(r.data, r.byten));
    CellsColumned(cs, b, {8});
    BeatsTokens(r.data, r.byten);
    EveryShift(a, b, 0, 5);
    EveryShift(a, b, 2, 5);
    assert (a + b)[12..] == b;
    XbusColumns(r, a + b);
  }

  lemma {:induction false} XbusColumns(r: Row, l: seq<Token>)
    requires r.XbusRow? && Columned(l, 12, {8})
    requires forall i | 0 <= i < 6 :: l[2 * i].text == FixedCells(r)[i]
    requires Every(l, 12, 5) == r.data && Every(l, 14, 5) == r.byten
    ensures LineTransfers(l) == RowTransfers(r)
  {
    hide Every;
    assert Terminal(l, 0) == Place(0, {8}) && Terminal(l, 8) == Place(8, {8});
    assert l[2 * 0].text == r.beginCycle && l[2 * 1].text == r.endCycle && l[2 * 2].text == r.beginTime;
    assert l[2 * 3].text == r.endTime && l[2 * 4].text == r.rw && l[2 * 5].text == r.addr;
  }

  lemma {:induction false} ApbReads(r: Row)
    requires Legal(r) && r.ApbRow?
    ensures Reads(r)
  {
    hide IsNumber, IsName, TokenOf, Tidy, IsData, Every, Translate, Cells;
    var cs := FixedCells(r);
    var ns := [r.beginCycle, r.endCycle, r.beginTime, r.endTime, r.id, r.addr];
    FixedNumbers(ns, r.data);
    assert IsNumber(ns[0]) && IsNumber(ns[1]) && IsNumber(ns[2]) && IsNumber(ns[3]) && IsNumber(ns[4]);
    assert IsNumber(ns[5]);
    SolidCells(cs + r.data);
    CellsConcat(cs, r.data);
    var a, b := TokensOf(Cells(cs)), TokensOf(Cells(r.data));
    TokensOfConcat(Cells(cs), Cells(r.data));
    CellsColumned(cs, b, {10, 12});
    DataTokens(r.data);
    EveryShift(a, b, 0, 2);
    assert (a + b)[16..] == b;
    ApbColumns(r, a + b);
  }

  lemma {:induction false} ApbColumns(r: Row, l: seq<Token>)
    requires r.ApbRow? && Columned(l, 16, {10, 12})
    requires forall i | 0 <= i < 8 :: l[2 * i].text == FixedCells(r)[i]
    requires Every(l, 16, 2) == r.data
    ensures LineTransfers(l) == RowTransfers(r)
  {
    hide Every;
    assert Terminal(l, 0) == Place(0, {10, 12}) && Terminal(l, 8) == Place(8, {10, 12});
    assert Terminal(l, 14) == Place(14, {10, 12});
    assert l[2 * 0].text == r.beginCycle && l[2 * 1].text == r.endCycle && l[2 * 2].text == r.beginTime;
    assert l[2 * 3].text == r.endTime && l[2 * 4].text == r.id && l[2 * 5].text == r.rw;
    assert l[2 * 6].text == r.resp && l[2 * 7].text == r.addr;
  }

  lemma {:induction false} AhbReads(r: Row)
    requires Legal(r) && r.AhbRow?
    ensures Reads(r)
  {
    hide IsNumber, IsName, TokenOf, Tidy, IsData, Every, Translate, Cells;
    var cs := FixedCells(r);
    var ns := [r.beginCycle, r.endCycle, r.beginTime, r.endTime, r.id, r.lock, r.addr];
    FixedNumbers(ns, r.data);
    assert IsNumber(ns[0]) && IsNumber(ns[1]) && IsNumber(ns[2]) && IsNumber(ns[3]) && IsNumber(ns[4]);
    assert IsNumber(ns[5]) && IsNumber(ns[6]);
    SolidCells(cs + r.data);
    CellsConcat(cs, r.data);
    var a, b := TokensOf(Cells(cs)), TokensOf(Cells(r.data));
    TokensOfConcat(Cells(cs), Cells(r.data));
    CellsColumned(cs, b, {10, 12, 14, 16, 20});
    DataTokens(r.data);
    EveryShift(a, b, 0, 2);
    assert (a + b)[24..] == b;
    AhbColumns(r, a + b);
  }

  lemma {:induction false} AhbColumns(r: Row, l: seq<Token>)
    requires r.AhbRow? && Columned(l, 24, {10, 12, 14, 16, 20})
    requires forall i | 0 <= i < 12 :: l[2 * i].text == FixedCells(r)[i]
    requires Every(l, 24, 2) == r.data
    ensures LineTransfers(l) == RowTransfers(r)
  {
    hide Every;
    var words := {10, 12, 14, 16, 20};
    assert Terminal(l, 0) == Place(0, words) && Terminal(l, 8) == Place(8, words);
    assert Terminal(l, 14) == Place(14, words);
    assert l[2 * 0].text == r.beginCycle && l[2 * 1].text == r.endCycle && l[2 * 2].text == r.beginTime;
    assert l[2 * 3].text == r.endTime && l[2 * 5].text == r.rw && l[2 * 6].text == r.bstType;
    assert l[2 * 7].text == r.trxSize && l[2 * 8].text == r.trxPrt && l[2 * 9].text == r.lock;
    assert l[2 * 10].text == r.resp && l[2 * 11].text == r.addr;
  }

  // ------------------------------------------------------------------ header rows

  /** The reserved words, and what they stand for. */
  lemma {:induction false} FirstWords()
    ensures Solid("begin_cycle") && Gives("begin_cycle", BEGIN_CYCLE, "")
    ensures Solid("end_cycle") && Gives("end_cycle", END_CYCLE, "")
    ensures Solid("begin_time") && Gives("begin_time", BEGIN_TIME, "")
    ensures Solid("end_time") && Gives("end_time", END_TIME, "")
    ensures Solid("r/w") && Gives("r/w", RW, "") && Solid("id") && Gives("id", ID, "")
    ensures Solid("bst_type") && Gives("bst_type", BST_TYPE, "")
    ensures Solid("trx_size") && Gives("trx_size", TRX_SIZE, "")
  {
    FirstTerminals();
    FirstSpellings();
    OtherSpellings();
    hide Earliest, Code, ToToken, Translate, Literal;
    LiteralGives(3, BEGIN_CYCLE);
    LiteralGives(4, END_CYCLE);
    LiteralGives(5, BEGIN_TIME);
    LiteralGives(6, END_TIME);
    LiteralGives(7, RW);
    LiteralGives(8, ID);
    LiteralGives(9, BST_TYPE);
    LiteralGives(10, TRX_SIZE);
  }

  lemma {:induction false} OtherWords()
    ensures Solid("trx_prt") && Gives("trx_prt", TRX_PRT, "") && Solid("lock") && Gives("lock", LOCK, "")
    ensures Solid("addr") && Gives("addr", ADDR, "") && Solid("resp") && Gives("resp", RESP, "")
    ensures Solid("data") && Gives("data", DATA, "") && Solid("byten") && Gives("byten", BYTEN, "")
  {
    FirstTerminals();
    OtherTerminals();
    OtherSpellings();
    hide Earliest, Code, ToToken, Translate, Literal;
    LiteralGives(11, TRX_PRT);
    LiteralGives(12, LOCK);
    LiteralGives(13, ADDR);
    LiteralGives(14, RESP);
    LiteralGives(15, DATA);
    LiteralGives(16, BYTEN);
  }

  /** A header row begins with `#`, and has the names in every other place. */
  lemma {:induction false} NamesColumned(cs: seq<string>, xs: seq<int>, rest: seq<string>)
    requires |xs| == |cs| && forall i | 0 <= i < |cs| :: Solid(cs[i]) && Gives(cs[i], xs[i], "")
    requires Tidy(rest)
    ensures var ps := ["#"] + Cells(cs) + rest;
      && Tidy(ps) && Terminal(TokensOf(ps), 0) == COMMENT
      && (forall i | 0 <= i < |cs| ::
            Terminal(TokensOf(ps), 2 * i + 1) == xs[i] && Terminal(TokensOf(ps), 2 * i + 2) == TCOMMA)
      && TokensOf(ps)[2 * |cs| + 1..] == TokensOf(rest)
  {
    hide TokenOf, Solid, Tidy, Translate, IsSeparator;
    var ps := ["#"] + Cells(cs) + rest;
    Separators();
    TidyOne("#", "#");
    CellsTidy(cs);
    TidyConcat(["#"], Cells(cs));
    TidyConcat(["#"] + Cells(cs), rest);
    forall i | 0 <= i < |cs| ensures ps[2 * i + 1] == cs[i] && ps[2 * i + 2] == "," {
      CellAt(cs, i);
    }
    assert ps[0] == "#";
  }

  lemma {:induction false} NoTransferThere(l: seq<Token>)
    requires l != [] && Terminal(l, 0) == COMMENT
    ensures LineTransfers(l) == []
  {
  }

  lemma {:induction false} XbusNamesRead()
    ensures Reads(XbusNames)
  {
    hide TokenOf, Solid, Tidy, Translate, IsSeparator, Gives, LineTransfers;
    var cs, xs := FixedCells(XbusNames), [BEGIN_CYCLE, END_CYCLE, BEGIN_TIME, END_TIME, RW, ADDR];
    FirstWords();
    OtherWords();
    var rest := ["data", "(", "byten", ")", ","];
    BeatTidy("data", "byten");
    Separators();
    NamesColumned(cs, xs, rest);
    var l := TokensOf(RowPieces(XbusNames));
    assert l[13..] == TokensOf(rest);
    NamesTail(l, rest);
    NoTransferThere(l);
    forall i | 0 <= i < 18 ensures Terminal(l, i) == XbusHeader(i) {
      if i < 13 {
        OddEven(i, 6);
      }
    }
  }

  lemma {:induction false} NamesTail(l: seq<Token>, rest: seq<string>)
    requires |l| == 18 && l[13..] == TokensOf(rest) && rest == ["data", "(", "byten", ")", ","]
    ensures Terminal(l, 13) == DATA && Terminal(l, 14) == TLPAREN && Terminal(l, 15) == BYTEN
    ensures Terminal(l, 16) == TRPAREN && Terminal(l, 17) == TCOMMA
  {
    hide TokenOf, Translate;
    OtherWords();
    Separators();
    assert forall i | 0 <= i < 5 :: l[13 + i] == TokensOf(rest)[i];
    assert l[13 + 0] == TokenOf("data") && l[13 + 1] == TokenOf("(") && l[13 + 2] == TokenOf("byten");
    assert l[13 + 3] == TokenOf(")") && l[13 + 4] == TokenOf(",");
  }

  lemma {:induction false} OddEven(i: nat, n: nat)
    requires i < 2 * n + 1
    ensures i == 0 || (i % 2 == 1 && i == 2 * (i / 2) + 1 && i / 2 < n) || (i == 2 * (i / 2 - 1) + 2 && 1 <= i / 2 <= n)
  {
  }

  const APB_NAMES := [BEGIN_CYCLE, END_CYCLE, BEGIN_TIME, END_TIME, ID, RW, RESP, ADDR, DATA]

  const AHB_NAMES := [BEGIN_CYCLE, END_CYCLE, BEGIN_TIME, END_TIME, ID, RW, BST_TYPE, TRX_SIZE, TRX_PRT, LOCK, RESP,
    ADDR, DATA]

  lemma {:induction false} ApbAlternates(j: int)
    requires 0 <= j < 9
    ensures ApbHeader(2 * j + 1) == APB_NAMES[j] && ApbHeader(2 * j + 2) == TCOMMA && ApbHeader(0) == COMMENT
  {
  }

  lemma {:induction false} AhbAlternates(j: int)
    requires 0 <= j < 13
    ensures AhbHeader(2 * j + 1) == AHB_NAMES[j] && AhbHeader(2 * j + 2) == TCOMMA && AhbHeader(0) == COMMENT
  {
  }

  lemma {:induction false} NamesGive(i: int)
    ensures 0 <= i < 9 ==> Solid(FixedCells(ApbNames)[i]) && Gives(FixedCells(ApbNames)[i], APB_NAMES[i], "")
    ensures 0 <= i < 13 ==> Solid(FixedCells(AhbNames)[i]) && Gives(FixedCells(AhbNames)[i], AHB_NAMES[i], "")
  {
    hide TokenOf, Solid, Gives;
    FirstWords();
    OtherWords();
  }

  lemma {:induction false} NothingTidy()
    ensures Tidy([])
  {
  }

  lemma {:induction false} ApbNamesRead()
    ensures Reads(ApbNames)
  {
    hide TokenOf, Solid, Tidy, Translate, IsSeparator, Gives, LineTransfers, ApbHeader;
    var cs := FixedCells(ApbNames);
    forall i | 0 <= i < 9 ensures Solid(cs[i]) && Gives(cs[i], APB_NAMES[i], "") {
      NamesGive(i);
    }
    NothingTidy();
    NamesColumned(cs, APB_NAMES, []);
    var l := TokensOf(RowPieces(ApbNames));
    assert ["#"] + Cells(cs) + [] == RowPieces(ApbNames);
    NoTransferThere(l);
    forall i | 0 <= i < 19 ensures Terminal(l, i) == ApbHeader(i) {
      OddEven(i, 9);
      ApbAlternates(if i < 2 then 0 else if i % 2 == 1 then i / 2 else i / 2 - 1);
    }
  }

  lemma {:induction false} AhbNamesRead()
    ensures Reads(AhbNames)
  {
    hide TokenOf, Solid, Tidy, Translate, IsSeparator, Gives, LineTransfers, AhbHeader;
    var cs := FixedCells(AhbNames);
    forall i | 0 <= i < 13 ensures Solid(cs[i]) && Gives(cs[i], AHB_NAMES[i], "") {
      NamesGive(i);
    }
    NothingTidy();
    NamesColumned(cs, AHB_NAMES, []);
    var l := TokensOf(RowPieces(AhbNames));
    assert ["#"] + Cells(cs) + [] == RowPieces(AhbNames);
    NoTransferThere(l);
    forall i | 0 <= i < 27 ensures Terminal(l, i) == AhbHeader(i) {
      OddEven(i, 13);
      AhbAlternates(if i < 2 then 0 else if i % 2 == 1 then i / 2 else i / 2 - 1);
    }
  }

  // ------------------------------------------------------------------ whole files

  lemma {:induction false} RowReads(r: Row)
    requires Legal(r)
    ensures Reads(r)
  {
    match r
    case XbusNames => XbusNamesRead();
    case ApbNames => ApbNamesRead();
    case AhbNames => AhbNamesRead();
    case XbusRow(_, _, _, _, _, _, _, _) => XbusReads(r);
    case ApbRow(_, _, _, _, _, _, _, _, _) => ApbReads(r);
    case AhbRow(_, _, _, _, _, _, _, _, _, _, _, _, _) => AhbReads(r);
    case NoRow =>
  }

  lemma {:induction false} NoReturnInLine(line: seq<Token>)
    requires IsLine(line)
    ensures forall tok | tok in line :: !IsReturn(tok)
  {
    hide IsHeader, IsXbus, IsApb, IsAhb, IsReturn;
    if line != [] {
      var t;
      if IsHeader(line) {
        t := HeaderTree(line);
      } else {
        t := BodyLineTree(line);
      }
      RootNode(t);
      BodyRules(t.rule);
      NoReturns(t);
    }
  }

  lemma {:induction false} FirstReads(name: string)
    requires IsName(name)
    ensures var ps := ["#", name, "\n"];
      Tidy(ps) && IsFile(TokensOf(ps)) && FileMailbox(TokensOf(ps)) == Mailbox(name, [])
  {
    hide TokenOf, Solid, IsName, IsSeparator, Translate;
    var ts := TokensOf(["#", name, "\n"]);
    Separators();
    NameGives(name);
    TidyOne("#", "#");
    TidyOne(name, "\n");
    TidyConcat(["#"], [name, "\n"]);
    assert ["#"] + [name, "\n"] == ["#", name, "\n"];
    assert ts[..2] == [ts[0], ts[1]];
    LinesAppend([], [ts[0], ts[1]], ts[2]);
    assert [] + [ts[0], ts[1]] + [ts[2]] == ts;
  }

  lemma {:induction false} FileReads(name: string, rows: seq<Row>)
    requires IsName(name) && AllLegal(rows)
    ensures var ts := TokensOf(FilePieces(name, rows));
      Tidy(FilePieces(name, rows)) && IsFile(ts) && FileMailbox(ts) == Mailbox(name, Transfers(rows))
  {
    hide TokenOf, Solid, IsName, Legal, Tidy, IsSeparator, IsFirst, IsLine, FileMailbox, RowPieces, RowTransfers;
    if rows == [] {
      FirstReads(name);
    } else {
      var front, r := rows[..|rows| - 1], rows[|rows| - 1];
      var ps, qs := FilePieces(name, front), RowPieces(r);
      FileReads(name, front);
      RowReads(r);
      NewlineReads();
      TidyConcat(ps, qs);
      TidyConcat(ps + qs, ["\n"]);
      TokensOfConcat(ps, qs);
      TokensOfConcat(ps + qs, ["\n"]);
      var ts, line, ret := TokensOf(ps), TokensOf(qs), TokenOf("\n");
      assert TokensOf(["\n"]) == [ret];
      FileOn(ts, line, ret);
      NoReturnInLine(line);
      FileAppend(ts, line, ret);
    }
  }

  lemma {:induction false} NewlineReads()
    ensures Tidy(["\n"]) && IsReturn(TokenOf("\n"))
  {
    hide TokenOf, Solid, IsSeparator;
    Separators();
  }

  /** What a writer has put down is read back: the text is a sentence, and its mailbox holds the name
      and the transfers of the rows, in order. */
  lemma {:induction false} WrittenIsRead(name: string, rows: seq<Row>)
    requires IsName(name) && AllLegal(rows)
    ensures ParserRuns.Sentence(Tokens(Written(name, rows)))
    ensures FileMailbox(Tokens(Written(name, rows))) == Mailbox(name, Transfers(rows))
  {
    hide IsFile, FileMailbox, Join, Tokens;
    FileReads(name, rows);
    TidyRead(FilePieces(name, rows));
    SentencesAreFiles(TokensOf(FilePieces(name, rows)));
  }

  /** And so `yyparse` accepts the file, however it is read, and leaves that mailbox. */
  method ReadBack(lexer: Scanner.Scanner, ghost name: string, ghost rows: seq<Row>)
    returns (ok: bool, mb: Parser.MailBox?)
    requires lexer.Valid() && IsName(name) && AllLegal(rows) && lexer.Pending() == Written(name, rows)
    modifies lexer, lexer.chBuf
    ensures ok && mb != null && mb.m_it <= |mb.m_vec| && Parser.EnvOf(mb) == Mailbox(name, Transfers(rows))
  {
    hide Parser.EnvOf, FileMailbox, Tokens, Written, Transfers;
    WrittenIsRead(name, rows);
    ok, mb := Parser.YyParse(lexer);
  }
}
