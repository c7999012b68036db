/** The grammar of transaction files: its symbols and rules as the generated parser numbers
    them, and its derivations. */
module Grammar {

  /** Terminals 0 to 23, nonterminals from 24. */
  const END := 0
  const ERROR := 1
  const UNDEFINED := 2
  const RETURN := 3
  const BEGIN_CYCLE := 4
  const END_CYCLE := 5
  const BEGIN_TIME := 6
  const END_TIME := 7
  const ID := 8
  const BST_TYPE := 9
  const TRX_SIZE := 10
  const TRX_PRT := 11
  const LOCK := 12
  const RESP := 13
  const RW := 14
  const ADDR := 15
  const DATA := 16
  const BYTEN := 17
  const TLPAREN := 18
  const TRPAREN := 19
  const TCOMMA := 20
  const COMMENT := 21
  const TIDENTIFIER := 22
  const SIDENTIFIER := 23
  const ACCEPT := 24
  const PROGRAM := 25
  const TOP_STMT := 26
  const HEADER_STMT := 27
  const HEADER_XBUS := 28
  const HEADER_APB := 29
  const HEADER_AHB := 30
  const INSTANCE_STMT := 31
  const BODY_STMT := 32
  const NEW_TRANSFER := 33
  const SUB_BODY_STMT := 34
  const DATA_HAS_BYTEN := 35
  const DATA_NO_BYTEN := 36
  const BODY_XBUS := 37
  const BODY_APB := 38
  const BODY_AHB := 39

  /** `yyr1`, `yyr2`, `yyprhs`, `yyrhs`: left-hand side and length of each rule, where its
      right-hand side starts, and all right-hand sides one after another. */

  function R1(i: int): int {
    match i
    case 0 => 0 case 1 => 24 case 2 => 25 case 7 => 27 case 8 => 27 case 9 => 27 case 10 => 28 case 11 => 29
    case 12 => 30 case 13 => 31 case 14 => 33 case 15 => 32 case 16 => 34 case 17 => 34 case 18 => 34
    case 19 => 35 case 20 => 35 case 21 => 36 case 22 => 36 case 23 => 37 case 24 => 38 case 25 => 39
    case _ => 26
  }

  function R2(i: int): nat {
    match i
    case 0 => 0 case 1 => 2 case 3 => 2 case 4 => 3 case 5 => 3 case 6 => 2 case 10 => 18 case 11 => 19
    case 12 => 27 case 13 => 2 case 14 => 0 case 15 => 2 case 19 => 5 case 20 => 6 case 21 => 2 case 22 => 3
    case 23 => 13 case 24 => 17 case 25 => 25
    case _ => 1
  }

  function Prhs(i: int): int {
    if i < 24 then
      match i {
      case 2 => 3 case 3 => 5 case 4 => 8 case 5 => 12 case 6 => 16 case 7 => 19 case 8 => 21 case 9 => 23
      case 10 => 25 case 11 => 44 case 12 => 64 case 13 => 92 case 14 => 95 case 15 => 96 case 16 => 99
      case 17 => 101 case 18 => 103 case 19 => 105 case 20 => 111 case 21 => 118 case 22 => 121 case 23 => 125
      case _ => 0
      }
    else
      match i {
      case 24 => 139 case 25 => 157
      case _ => 0
      }
  }

  function RhsSymbols(i: int): int {
    if i < 22 then
      match i {
      case 0 => 25 case 1 => 0 case 2 => -1 case 3 => 26 case 4 => -1 case 5 => 31 case 6 => 3 case 7 => -1
      case 8 => 26 case 9 => 27 case 10 => 3 case 11 => -1 case 12 => 26 case 13 => 32 case 14 => 3 case 15 => -1
      case 16 => 26 case 17 => 3 case 18 => -1 case 19 => 30 case 20 => -1 case 21 => 29
      case _ => 20
      }
    else if i < 56 then
      match i {
      case 22 => -1 case 23 => 28 case 24 => -1 case 25 => 21 case 26 => 4 case 28 => 5 case 30 => 6 case 32 => 7
      case 34 => 14 case 36 => 15 case 38 => 16 case 39 => 18 case 40 => 17 case 41 => 19 case 43 => -1
      case 44 => 21 case 45 => 4 case 47 => 5 case 49 => 6 case 51 => 7 case 53 => 8 case 55 => 14
      case _ => 20
      }
    else if i < 95 then
      match i {
      case 57 => 13 case 59 => 15 case 61 => 16 case 63 => -1 case 64 => 21 case 65 => 4 case 67 => 5 case 69 => 6
      case 71 => 7 case 73 => 8 case 75 => 14 case 77 => 9 case 79 => 10 case 81 => 11 case 83 => 12 case 85 => 13
      case 87 => 15 case 89 => 16 case 91 => -1 case 92 => 21 case 93 => 23 case 94 => -1
      case _ => 20
      }
    else if i < 119 then
      match i {
      case 95 => -1 case 96 => 33 case 97 => 34 case 98 => -1 case 99 => 39 case 100 => -1 case 101 => 38
      case 102 => -1 case 103 => 37 case 104 => -1 case 105 => 22 case 106 => 18 case 107 => 22 case 108 => 19
      case 110 => -1 case 111 => 35 case 112 => 22 case 113 => 18 case 114 => 22 case 115 => 19 case 117 => -1
      case 118 => 22
      case _ => 20
      }
    else if i < 157 then
      match i {
      case 120 => -1 case 121 => 36 case 122 => 22 case 124 => -1 case 125 => 22 case 127 => 22 case 129 => 22
      case 131 => 22 case 133 => 23 case 135 => 22 case 137 => 35 case 138 => -1 case 139 => 22 case 141 => 22
      case 143 => 22 case 145 => 22 case 147 => 22 case 149 => 23 case 151 => 23 case 153 => 22 case 155 => 36
      case 156 => -1
      case _ => 20
      }
    else
      match i {
      case 157 => 22 case 159 => 22 case 161 => 22 case 163 => 22 case 165 => 22 case 167 => 23 case 169 => 23
      case 171 => 23 case 173 => 23 case 175 => 22 case 177 => 23 case 179 => 22 case 181 => 36 case 182 => -1
      case _ => 20
      }
  }

  function RhsAt(n: int, i: int): int {
    RhsSymbols(Prhs(n) + i)
  }

  /** A token as the scanner returns it: its external code and its text. */
  datatype Token = Token(code: int, text: string)

  /** `YYTRANSLATE`, with every code up to zero read as the end of the input. */
  function Translate(code: int): int {
    if code <= 0 then END
    else if code == 256 then ERROR
    else if 258 <= code <= 278 then code - 255
    else UNDEFINED
  }

  /** A derivation tree. */
  datatype Tree = Leaf(tok: Token) | Node(rule: int, kids: seq<Tree>)

  function Root(t: Tree): int {
    match t
    case Leaf(tok) => Translate(tok.code)
    case Node(n, _) => R1(n)
  }

  /** Every inner node is an instance of a rule. */
  predicate Derives(t: Tree) {
    match t
    case Leaf(tok) => Translate(tok.code) != END
    case Node(n, kids) =>
      && 1 <= n <= 25 && |kids| == R2(n)
      && (forall i | 0 <= i < |kids| :: Derives(kids[i]))
      && (forall i | 0 <= i < |kids| :: Root(kids[i]) == RhsAt(n, i))
  }

  /** The tokens at the leaves, left to right. */
  function Yield(t: Tree): seq<Token>
    decreases t, 0
  {
    match t
    case Leaf(tok) => [tok]
    case Node(_, kids) => YieldAll(kids)
  }

  function YieldAll(ts: seq<Tree>): seq<Token>
    decreases ts, 1
  {
    if ts == [] then [] else Yield(ts[0]) + YieldAll(ts[1..])
  }
}
