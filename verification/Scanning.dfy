/** What the scanner is for: it cuts a text into longest matches of its rules and turns them into
    tokens. */
module Scanning {
  import opened Grammar
  import opened ScannerTables
  import opened ScannerRules

  /** The longest of the first `k` prefixes that some rule matches. */
  function LastMatch(t: string, k: nat): (m: nat)
    requires k <= |t|
    ensures m <= k
  {
    if k == 0 || Earliest(t[..k]) != 0 then k else LastMatch(t, k - 1)
  }

  lemma {:induction false} LastMatchIsLast(t: string, k: nat)
    requires k <= |t|
    ensures LastMatch(t, k) == 0 || Earliest(t[..LastMatch(t, k)]) != 0
    ensures forall j | LastMatch(t, k) < j <= k :: Earliest(t[..j]) == 0
  {
    hide Earliest;
    if k != 0 && Earliest(t[..k]) == 0 {
      LastMatchIsLast(t, k - 1);
    }
  }

  function Longest(t: string): nat {
    LastMatch(t, |t|)
  }

  /** Although two rules match the empty text, every token takes at least one character. */
  lemma {:induction false} TakesOne(t: string)
    requires t != ""
    ensures 1 <= Longest(t) && 1 <= Earliest(t[..Longest(t)]) <= 23
  {
    hide FirstFrom;
    LastMatchIsLast(t, |t|);
    var w := t[..1];
    if w == "\n" {
      assert Matches(2, w);
    } else {
      assert Matches(23, w);
    }
    assert Earliest(w) != 0;
  }

  /** The token code of a rule; a character that fits nowhere ends the token stream. */
  function Code(r: int): int {
    match r
    case 2 => 258 case 3 => 259 case 4 => 260 case 5 => 261 case 6 => 262 case 7 => 269 case 8 => 263 case 9 => 264
    case 10 => 265 case 11 => 266 case 12 => 267 case 13 => 270 case 14 => 268 case 15 => 271 case 16 => 272
    case 17 => 275 case 18 => 273 case 19 => 274 case 20 => 276 case 21 => 277 case 22 => 278
    case _ => 0
  }

  /** A token and what is left to scan. Only the two identifier rules save their text. */
  datatype Lexed = Lexed(tok: Token, rest: string)

  function ToToken(r: int, text: string): Token {
    Token(Code(r), if r == 21 || r == 22 then text else "")
  }

  /** The next token of a text: blanks are skipped, and the end of the text is code 0. */
  function Lex(t: string): Lexed
    decreases |t|
  {
    if t == "" then Lexed(Token(0, ""), "")
    else
      TakesOne(t);
      var text, rest := t[..Longest(t)], t[Longest(t)..];
      if Earliest(text) == 1 then Lex(rest) else Lexed(ToToken(Earliest(text), text), rest)
  }

  lemma {:induction false} LexShortens(t: string)
    requires Lex(t).tok.code != 0
    ensures |Lex(t).rest| < |t|
    decreases |t|
  {
    if t != "" {
      TakesOne(t);
      if Earliest(t[..Longest(t)]) == 1 {
        LexShortens(t[Longest(t)..]);
      }
    }
  }

  /** The tokens up to the first code 0. */
  function Tokens(t: string): seq<Token>
    decreases |t|
  {
    if Lex(t).tok.code == 0 then [] else LexShortens(t); [Lex(t).tok] + Tokens(Lex(t).rest)
  }

  /** Once no transition is left, nothing longer matches. */
  lemma {:induction false} NothingLonger(t: string, k: nat, j: nat)
    requires 0 < k < j <= |t| && Base(Run(t[..k])) == 102
    ensures Run(t[..j]) == JAM && Earliest(t[..j]) == 0
    decreases j
  {
    hide Plain, AcceptOf, FirstFrom, Base;
    var w := t[..j - 1];
    assert t[..j][..j - 1] == w;
    ClassKinds(t[j - 1]);
    RunRange(w);
    if j - 1 > k {
      NothingLonger(t, k, j - 1);
      FinalBase(JAM);
    }
    FinalJams(Run(w), Class(t[j - 1]));
    AcceptsEarliest(t[..j]);
    JamRejects();
  }

  lemma {:induction false} FinalBase(s: int)
    requires 1 <= s <= JAM
    ensures Base(s) == 102 <==> 4 <= s <= 10 || s == 41 || s == JAM
  {
  }

  lemma {:induction false} FinalJams(s: int, c: int)
    requires Base(s) == 102 && 1 <= c && 1 < s <= JAM
    ensures Plain(s, c) == JAM
  {
  }

  lemma {:induction false} JamRejects()
    ensures AcceptOf(JAM) == 0
  {
  }

  /** So the scanner may stop there: its last accepting position is the longest match. */
  lemma {:induction false} StopsAtLongest(t: string, k: nat)
    requires 0 < k <= |t| && Base(Run(t[..k])) == 102
    ensures Longest(t) == LastMatch(t, k)
  {
    hide Earliest, Base;
    forall j | k < j <= |t| ensures Earliest(t[..j]) == 0 {
      NothingLonger(t, k, j);
    }
    SameLast(t, k, |t|);
  }

  lemma {:induction false} SameLast(t: string, k: nat, n: nat)
    requires k <= n <= |t| && forall j | k < j <= n :: Earliest(t[..j]) == 0
    ensures LastMatch(t, n) == LastMatch(t, k)
    decreases n
  {
    hide Earliest;
    if k < n {
      SameLast(t, k, n - 1);
    }
  }

  // ------------------------------------------------------------------ the pieces

  /** The pieces that the scanner cuts a text into. */
  function Pieces(t: string): seq<string>
    decreases |t|
  {
    if t == "" then [] else TakesOne(t); [t[..Longest(t)]] + Pieces(t[Longest(t)..])
  }

  function Join(ps: seq<string>): string {
    if ps == [] then "" else ps[0] + Join(ps[1..])
  }

  /** `ps` is cut off `t` greedily: each piece is the longest prefix that some rule matches. */
  ghost predicate Greedy(ps: seq<string>, t: string) {
    if ps == [] then t == ""
    else
      && ps[0] != "" && ps[0] <= t && Earliest(ps[0]) != 0
      && (forall j | |ps[0]| < j <= |t| :: Earliest(t[..j]) == 0)
      && Greedy(ps[1..], t[|ps[0]|..])
  }

  /** No character is lost or reordered, and the cut is greedy. */
  lemma {:induction false} PiecesOfText(t: string)
    ensures Join(Pieces(t)) == t && Greedy(Pieces(t), t)
    decreases |t|
  {
    hide Earliest;
    if t != "" {
      TakesOne(t);
      LastMatchIsLast(t, |t|);
      var n := Longest(t);
      PiecesOfText(t[n..]);
      assert Pieces(t)[1..] == Pieces(t[n..]);
      assert t == t[..n] + t[n..];
    }
  }

  /** There is only one such cut. */
  lemma {:induction false} OnlyCut(ps: seq<string>, t: string)
    requires Greedy(ps, t)
    ensures ps == Pieces(t)
    decreases |t|
  {
    hide Earliest;
    if t == "" {
    } else {
      TakesOne(t);
      LastMatchIsLast(t, |t|);
      assert t[..|ps[0]|] == ps[0];
      assert |ps[0]| == Longest(t);
      OnlyCut(ps[1..], t[|ps[0]|..]);
    }
  }

  /** The tokens of pieces: blanks give none, and code 0 ends them. */
  function Delivered(ps: seq<string>): seq<Token> {
    if ps == [] then []
    else if Earliest(ps[0]) == 1 then Delivered(ps[1..])
    else if Code(Earliest(ps[0])) == 0 then []
    else [ToToken(Earliest(ps[0]), ps[0])] + Delivered(ps[1..])
  }

  /** What the scanner delivers are the tokens of the pieces of any greedy cut. */
  lemma {:induction false} TokensOfCut(ps: seq<string>, t: string)
    requires Greedy(ps, t)
    ensures Tokens(t) == Delivered(ps)
  {
    OnlyCut(ps, t);
    TokensOfPieces(t);
  }

  lemma {:induction false} TokensOfPieces(t: string)
    ensures Tokens(t) == Delivered(Pieces(t))
    decreases |t|
  {
    hide Earliest, Code;
    if t != "" {
      TakesOne(t);
      var rest := t[Longest(t)..];
      assert Pieces(t)[1..] == Pieces(rest);
      TokensOfPieces(rest);
    }
  }

  // ------------------------------------------------------------------ which token a piece is

  lemma {:induction false} DifferentTexts(a: int, b: int)
    requires 2 <= a < b <= 20
    ensures Literal(a) != Literal(b)
  {
    var x, y := Literal(a), Literal(b);
    assert |x| != |y| || x[0] != y[0];
  }

  /** A fixed text is taken by its own rule, although it is also a word. */
  lemma {:induction false} LiteralRule(r: int)
    requires 2 <= r <= 20
    ensures Earliest(Literal(r)) == r
  {
    var a := Earliest(Literal(r));
    assert Matches(r, Literal(r));
    if 2 <= a < r {
      DifferentTexts(a, r);
    }
  }

  predicate IsLiteral(w: string) {
    exists r | 2 <= r <= 20 :: w == Literal(r)
  }

  predicate AllHex(w: string) {
    forall i | 0 <= i < |w| :: IsHex(w[i])
  }

  predicate AllWord(w: string) {
    forall i | 0 <= i < |w| :: IsWord(w[i])
  }

  lemma {:induction false} OtherRules(w: string)
    requires w != "" && w != " " && w != "\t" && !IsLiteral(w)
    ensures AllHex(w) ==> Earliest(w) == 21
    ensures AllWord(w) && !AllHex(w) ==> Earliest(w) == 22
    ensures !AllWord(w) && |w| == 1 ==> Earliest(w) == 23
  {
    var a := Earliest(w);
    hide Literal;
    assert 2 <= a <= 20 ==> w == Literal(a);
    assert AllHex(w) ==> Matches(21, w);
    assert AllWord(w) ==> Matches(22, w);
    if |w| == 1 {
      NewlineIsLiteral(w);
    }
    assert |w| == 1 ==> Matches(23, w);
  }

  lemma {:induction false} NewlineIsLiteral(w: string)
    requires !IsLiteral(w) && |w| == 1
    ensures w[0] != '\n'
  {
    assert w != Literal(2);
  }

  /** The next token, by the longest match `w` of what is left: each fixed text is its own terminal
      of the grammar, a hexadecimal number and any other word are identifiers that keep their text,
      and an odd character ends the input. */
  lemma {:induction false} NextToken(t: string)
    requires t != "" && t[..Longest(t)] != " " && t[..Longest(t)] != "\t"
    ensures var w, x, text := t[..Longest(t)], Translate(Lex(t).tok.code), Lex(t).tok.text;
      && Lex(t).rest == t[Longest(t)..]
      && (w == "\n" ==> x == RETURN) && (w == "," ==> x == TCOMMA) && (w == "#" ==> x == COMMENT)
      && (w == "(" ==> x == TLPAREN) && (w == ")" ==> x == TRPAREN)
      && (w == "begin_cycle" ==> x == BEGIN_CYCLE) && (w == "end_cycle" ==> x == END_CYCLE)
      && (w == "begin_time" ==> x == BEGIN_TIME) && (w == "end_time" ==> x == END_TIME)
      && (w == "r/w" ==> x == RW) && (w == "id" ==> x == ID) && (w == "bst_type" ==> x == BST_TYPE)
      && (w == "trx_size" ==> x == TRX_SIZE) && (w == "trx_prt" ==> x == TRX_PRT) && (w == "lock" ==> x == LOCK)
      && (w == "addr" ==> x == ADDR) && (w == "resp" ==> x == RESP) && (w == "data" ==> x == DATA)
      && (w == "byten" ==> x == BYTEN)
      && (!IsLiteral(w) ==>
           if AllHex(w) then x == TIDENTIFIER && text == w
           else if AllWord(w) then x == SIDENTIFIER && text == w
           else |w| == 1 && x == END)
  {
    hide Earliest, Code, Literal, AllHex, AllWord;
    TakesOne(t);
    PieceToken(t[..Longest(t)]);
  }

  /** A blank is skipped, and the end of the text is the end of the input. */
  lemma {:induction false} BlankSkipped(t: string)
    ensures t != "" && (t[..Longest(t)] == " " || t[..Longest(t)] == "\t") ==>
      Longest(t) == 1 && Lex(t) == Lex(t[1..]) && Tokens(t) == Tokens(t[1..])
    ensures Translate(Lex("").tok.code) == END && Tokens("") == []
  {
    if t != "" && (t[..Longest(t)] == " " || t[..Longest(t)] == "\t") {
      TakesOne(t);
      assert Matches(1, t[..Longest(t)]);
      assert Earliest(t[..Longest(t)]) == 1;
    }
  }

  lemma {:induction false} PieceToken(w: string)
    requires w != "" && w != " " && w != "\t" && Earliest(w) != 0
    ensures var x := Translate(Code(Earliest(w)));
      && Earliest(w) != 1
      && (w == "\n" ==> x == RETURN) && (w == "," ==> x == TCOMMA) && (w == "#" ==> x == COMMENT)
      && (w == "(" ==> x == TLPAREN) && (w == ")" ==> x == TRPAREN)
      && (w == "begin_cycle" ==> x == BEGIN_CYCLE) && (w == "end_cycle" ==> x == END_CYCLE)
      && (w == "begin_time" ==> x == BEGIN_TIME) && (w == "end_time" ==> x == END_TIME)
      && (w == "r/w" ==> x == RW) && (w == "id" ==> x == ID) && (w == "bst_type" ==> x == BST_TYPE)
      && (w == "trx_size" ==> x == TRX_SIZE) && (w == "trx_prt" ==> x == TRX_PRT) && (w == "lock" ==> x == LOCK)
      && (w == "addr" ==> x == ADDR) && (w == "resp" ==> x == RESP) && (w == "data" ==> x == DATA)
      && (w == "byten" ==> x == BYTEN)
      && (!IsLiteral(w) ==>
           if AllHex(w) then x == TIDENTIFIER && Earliest(w) == 21
           else if AllWord(w) then x == SIDENTIFIER && Earliest(w) == 22
           else |w| == 1 && x == END)
  {
    var a := Earliest(w);
    assert w == Literal(a) || a == 21 || a == 22 || a == 23;
    hide FirstFrom, Literal, Code, Translate, AllHex, AllWord;
    forall r | 2 <= r <= 20 && w == Literal(r) ensures a == r {
      LiteralRule(r);
    }
    FirstSpellings();
    OtherSpellings();
    FirstTerminals();
    OtherTerminals();
    if !IsLiteral(w) {
      OtherRules(w);
    }
  }

  lemma {:induction false} FirstTerminals()
    ensures Translate(Code(2)) == RETURN && Translate(Code(3)) == BEGIN_CYCLE && Translate(Code(4)) == END_CYCLE
    ensures Translate(Code(5)) == BEGIN_TIME && Translate(Code(6)) == END_TIME && Translate(Code(7)) == RW
    ensures Translate(Code(8)) == ID && Translate(Code(9)) == BST_TYPE && Translate(Code(10)) == TRX_SIZE
    ensures Translate(Code(11)) == TRX_PRT && Translate(Code(12)) == LOCK
  {
  }

  lemma {:induction false} OtherTerminals()
    ensures Translate(Code(13)) == ADDR && Translate(Code(14)) == RESP && Translate(Code(15)) == DATA
    ensures Translate(Code(16)) == BYTEN && Translate(Code(17)) == TCOMMA && Translate(Code(18)) == TLPAREN
    ensures Translate(Code(19)) == TRPAREN && Translate(Code(20)) == COMMENT
    ensures Translate(Code(21)) == TIDENTIFIER && Translate(Code(22)) == SIDENTIFIER && Translate(Code(23)) == END
  {
  }

  lemma {:induction false} FirstSpellings()
    ensures Literal(2) == "\n" && Literal(3) == "begin_cycle" && Literal(4) == "end_cycle"
    ensures Literal(5) == "begin_time" && Literal(6) == "end_time" && Literal(7) == "r/w" && Literal(8) == "id"
  {
  }

  lemma {:induction false} OtherSpellings()
    ensures Literal(9) == "bst_type" && Literal(10) == "trx_size" && Literal(11) == "trx_prt"
    ensures Literal(12) == "lock" && Literal(13) == "addr" && Literal(14) == "resp" && Literal(15) == "data"
    ensures Literal(16) == "byten" && Literal(17) == "," && Literal(18) == "(" && Literal(19) == ")"
    ensures Literal(20) == "#"
  {
  }

  // ------------------------------------------------------------------ words between separators

  predicate IsSeparator(p: string) {
    |p| == 1 && Odd(p[0])
  }

  /** No rule describes a longer text with such a character in it. */
  predicate Odd(ch: char) {
    !IsWord(ch) && ch != '/'
  }

  lemma {:induction false} LiteralChars(r: int, i: nat)
    requires 2 <= r <= 20 && 2 <= |Literal(r)| && i < |Literal(r)|
    ensures !Odd(Literal(r)[i])
  {
  }

  lemma {:induction false} OddAlone(u: string, i: nat)
    requires 2 <= |u| && i < |u| && Odd(u[i])
    ensures Earliest(u) == 0
  {
    hide Literal;
    forall r | 1 <= r <= 23 ensures !Matches(r, u) {
      NotMatched(r, u, i);
    }
  }

  lemma {:induction false} NotMatched(r: int, u: string, i: nat)
    requires 1 <= r <= 23 && 2 <= |u| && i < |u| && Odd(u[i])
    ensures !Matches(r, u)
  {
    if 2 <= r <= 20 && 2 <= |Literal(r)| && i < |Literal(r)| {
      LiteralChars(r, i);
    }
  }

  /** Pieces that some rule describes, with a separator between any two words. */
  predicate Separated(ps: seq<string>) {
    forall i | 0 <= i < |ps| ::
      && ps[i] != "" && Earliest(ps[i]) != 0
      && (IsSeparator(ps[i]) || i + 1 == |ps| || IsSeparator(ps[i + 1]))
  }

  /** Then the scanner takes the text apart into just these pieces. */
  lemma {:induction false} SeparatedIsGreedy(ps: seq<string>)
    requires Separated(ps)
    ensures Greedy(ps, Join(ps))
  {
    hide Earliest, Odd;
    if ps != [] {
      var p, t := ps[0], Join(ps);
      SeparatedIsGreedy(ps[1..]);
      assert t[|p|..] == Join(ps[1..]);
      forall j | |p| < j <= |t| ensures Earliest(t[..j]) == 0 {
        if IsSeparator(p) {
          OddAlone(t[..j], 0);
        } else {
          assert ps[1..][0] == ps[1] && Join(ps[1..])[0] == ps[1][0];
          OddAlone(t[..j], |p|);
        }
      }
    }
  }

  /** Pieces that are neither blank nor odd give one token each. */
  lemma {:induction false} DeliveredEach(ps: seq<string>)
    requires forall i | 0 <= i < |ps| :: Earliest(ps[i]) != 1 && Code(Earliest(ps[i])) != 0
    ensures |Delivered(ps)| == |ps|
    ensures forall i | 0 <= i < |ps| :: Delivered(ps)[i] == ToToken(Earliest(ps[i]), ps[i])
  {
    hide Earliest, Code, ToToken;
    if ps != [] {
      DeliveredEach(ps[1..]);
      assert forall i | 0 < i < |ps| :: ps[i] == ps[1..][i - 1];
    }
  }
}
