/** The tables of the generated scanner, and the plain automaton that they compress. */
module ScannerTables {

  /** `yy_ec`: the class of a character. */
  function Ec(i: int): (c: int)
    ensures 0 <= c <= 31
  {
    if i < 75 then
      match i {
      case 0 => 0 case 9 => 2 case 10 => 3 case 32 => 2 case 35 => 4 case 40 => 5 case 41 => 6 case 44 => 7
      case 46 => 8 case 47 => 9 case 48 => 10 case 49 => 10 case 50 => 10 case 51 => 10 case 52 => 10
      case 53 => 10 case 54 => 10 case 55 => 10 case 56 => 10 case 57 => 10 case 65 => 8 case 66 => 8
      case 67 => 8 case 68 => 8 case 69 => 8 case 70 => 8 case 71 => 8 case 72 => 8 case 73 => 8 case 74 => 8
      case _ => 1
      }
    else if i < 110 then
      match i {
      case 75 => 8 case 76 => 8 case 77 => 8 case 78 => 8 case 79 => 8 case 80 => 8 case 81 => 8 case 82 => 8
      case 83 => 8 case 84 => 8 case 85 => 8 case 86 => 8 case 87 => 8 case 88 => 8 case 89 => 8 case 90 => 8
      case 95 => 11 case 97 => 12 case 98 => 13 case 99 => 14 case 100 => 15 case 101 => 16 case 102 => 10
      case 103 => 17 case 104 => 8 case 105 => 18 case 106 => 8 case 107 => 19 case 108 => 20 case 109 => 21
      case _ => 1
      }
    else
      match i {
      case 110 => 22 case 111 => 23 case 112 => 24 case 113 => 8 case 114 => 25 case 115 => 26 case 116 => 27
      case 117 => 8 case 118 => 8 case 119 => 28 case 120 => 29 case 121 => 30 case 122 => 31
      case _ => 1
      }
  }

  /** `yy_accept`: the rule that a state accepts, 0 for none and 25 for the end of the buffer. */
  function AcceptOf(i: int): (r: int)
    ensures 0 <= r <= 25
  {
    if i < 75 then
      match i {
      case 0 => 0 case 1 => 21 case 2 => 21 case 3 => 25 case 4 => 23 case 5 => 1 case 6 => 2 case 7 => 20
      case 8 => 18 case 9 => 19 case 10 => 17 case 12 => 21 case 13 => 21 case 14 => 21 case 15 => 21
      case 16 => 21 case 22 => 21 case 23 => 21 case 24 => 21 case 27 => 21 case 29 => 8 case 31 => 0
      case 34 => 21 case 41 => 7 case 44 => 13 case 48 => 15 case 50 => 12 case 51 => 14 case 55 => 16
      case 71 => 11
      case _ => 22
      }
    else
      match i {
      case 75 => 9 case 77 => 6 case 78 => 10 case 81 => 4 case 83 => 5 case 84 => 3 case 85 => 0
      case _ => 22
      }
  }

  function Meta(i: int): int {
    if i == 8 || 10 <= i <= 31 then 2 else if i == 0 then 0 else 1
  }

  function Base(i: int): (b: int)
    ensures 0 <= b <= 102
  {
    if i < 37 then
      match i {
      case 3 => 101 case 4 => 102 case 5 => 102 case 6 => 102 case 7 => 102 case 8 => 102 case 9 => 102
      case 10 => 102 case 12 => 22 case 13 => 85 case 14 => 17 case 15 => 87 case 16 => 76 case 17 => 82
      case 18 => 73 case 19 => 30 case 20 => 70 case 23 => 79 case 24 => 76 case 25 => 65 case 26 => 64
      case 27 => 63 case 28 => 74 case 30 => 74 case 31 => 59 case 32 => 60 case 33 => 56 case 34 => 59
      case 35 => 65 case 36 => 71
      case _ => 0
      }
    else if i < 73 then
      match i {
      case 37 => 65 case 38 => 68 case 39 => 68 case 40 => 59 case 41 => 102 case 42 => 53 case 43 => 65
      case 45 => 53 case 46 => 47 case 47 => 51 case 49 => 26 case 52 => 18 case 53 => 61 case 54 => 41
      case 56 => 40 case 57 => 51 case 58 => 43 case 59 => 49 case 60 => 27 case 61 => 42 case 62 => 51
      case 63 => 43 case 64 => 36 case 65 => 31 case 66 => 31 case 67 => 42 case 68 => 43 case 69 => 38
      case 70 => 41 case 72 => 40
      case _ => 0
      }
    else
      match i {
      case 73 => 41 case 74 => 31 case 76 => 35 case 79 => 30 case 80 => 33 case 82 => 32 case 85 => 102
      case 86 => 43
      case _ => 0
      }
  }

  function Def(i: int): int {
    match i
    case 0 => 0 case 1 => 85 case 2 => 1 case 3 => 85 case 4 => 85 case 5 => 85 case 6 => 85 case 7 => 85
    case 8 => 85 case 9 => 85 case 10 => 85 case 13 => 12 case 14 => 12 case 15 => 12 case 16 => 12
    case 22 => 12 case 23 => 12 case 24 => 12 case 27 => 12 case 31 => 85 case 34 => 12 case 41 => 85
    case 85 => 0 case 86 => 85
    case _ => 86
  }

  function Nxt(i: int): int {
    if i < 30 then
      match i {
      case 0 => 0 case 1 => 4 case 2 => 5 case 3 => 6 case 4 => 7 case 5 => 8 case 6 => 9 case 7 => 10
      case 8 => 11 case 9 => 4 case 10 => 12 case 11 => 11 case 12 => 13 case 13 => 14 case 14 => 12
      case 15 => 15 case 16 => 16 case 17 => 11 case 18 => 17 case 19 => 11 case 20 => 18 case 21 => 11
      case 22 => 11 case 23 => 11 case 24 => 11 case 25 => 19 case 26 => 11 case 27 => 20 case 28 => 11
      case 29 => 11
      case _ => 85
      }
    else if i < 60 then
      match i {
      case 30 => 11 case 31 => 11 case 32 => 22 case 33 => 24 case 34 => 22 case 35 => 22 case 36 => 22
      case 37 => 22 case 38 => 22 case 39 => 31 case 40 => 56 case 41 => 66 case 42 => 58 case 43 => 25
      case 44 => 59 case 45 => 21 case 46 => 32 case 47 => 26 case 48 => 84 case 49 => 83 case 50 => 82
      case 51 => 81 case 52 => 80 case 53 => 57 case 54 => 67 case 55 => 79 case 56 => 78 case 57 => 77
      case 58 => 76 case 59 => 75
      case _ => 85
      }
    else if i < 90 then
      match i {
      case 60 => 74 case 61 => 73 case 62 => 72 case 63 => 71 case 64 => 70 case 65 => 69 case 66 => 68
      case 67 => 65 case 68 => 64 case 69 => 63 case 70 => 62 case 71 => 61 case 72 => 60 case 73 => 55
      case 74 => 54 case 75 => 53 case 76 => 52 case 77 => 51 case 78 => 50 case 79 => 49 case 80 => 48
      case 81 => 47 case 82 => 46 case 83 => 45 case 84 => 44 case 85 => 43 case 86 => 42 case 87 => 41
      case 88 => 40 case 89 => 39
      case _ => 85
      }
    else
      match i {
      case 90 => 38 case 91 => 37 case 92 => 36 case 93 => 35 case 94 => 34 case 95 => 33 case 96 => 30
      case 97 => 29 case 98 => 28 case 99 => 27 case 100 => 23 case 102 => 3
      case _ => 85
      }
  }

  function Chk(i: int): int {
    if i < 30 then
      match i {
      case 0 => 0 case 1 => 1 case 2 => 1 case 3 => 1 case 4 => 1 case 5 => 1 case 6 => 1 case 7 => 1
      case 8 => 1 case 9 => 1 case 10 => 1 case 11 => 1 case 12 => 1 case 13 => 1 case 14 => 1 case 15 => 1
      case 16 => 1 case 17 => 1 case 18 => 1 case 19 => 1 case 20 => 1 case 21 => 1 case 22 => 1 case 23 => 1
      case 24 => 1 case 25 => 1 case 26 => 1 case 27 => 1 case 28 => 1 case 29 => 1
      case _ => 85
      }
    else if i < 60 then
      match i {
      case 30 => 1 case 31 => 1 case 32 => 12 case 33 => 14 case 34 => 12 case 35 => 12 case 36 => 12
      case 37 => 12 case 38 => 12 case 39 => 19 case 40 => 49 case 41 => 60 case 42 => 52 case 43 => 14
      case 44 => 52 case 45 => 86 case 46 => 19 case 47 => 14 case 48 => 82 case 49 => 80 case 50 => 79
      case 51 => 76 case 52 => 74 case 53 => 49 case 54 => 60 case 55 => 73 case 56 => 72 case 57 => 70
      case 58 => 69 case 59 => 68
      case _ => 85
      }
    else if i < 90 then
      match i {
      case 60 => 67 case 61 => 66 case 62 => 65 case 63 => 64 case 64 => 63 case 65 => 62 case 66 => 61
      case 67 => 59 case 68 => 58 case 69 => 57 case 70 => 56 case 71 => 54 case 72 => 53 case 73 => 47
      case 74 => 46 case 75 => 45 case 76 => 43 case 77 => 42 case 78 => 40 case 79 => 39 case 80 => 38
      case 81 => 37 case 82 => 36 case 83 => 35 case 84 => 34 case 85 => 33 case 86 => 32 case 87 => 31
      case 88 => 30 case 89 => 28
      case _ => 85
      }
    else
      match i {
      case 90 => 27 case 91 => 26 case 92 => 25 case 93 => 24 case 94 => 23 case 95 => 20 case 96 => 18
      case 97 => 17 case 98 => 16 case 99 => 15 case 100 => 13 case 101 => 3
      case _ => 85
      }
  }

  const JAM := 85

  /** How far a state is from the end of its `yy_def` chain. */
  function Level(s: int): nat {
    if s == JAM then 0
    else if s == 86 || s == 1 || 3 <= s <= 10 || s == 31 || s == 41 then 1
    else if (13 <= s <= 16) || s == 22 || s == 23 || s == 24 || s == 27 || s == 34 then 3
    else 2
  }

  /** The search that the scanner makes for each character: down the `yy_def` chain to the
      state whose row holds the class. */
  function Fallback(s: int, c: int): int
    requires 1 <= s <= 86 && 0 <= c <= 31
    decreases Level(s)
  {
    if Chk(Base(s) + c) == s then Nxt(Base(s) + c)
    else
      DefLevel(s, c);
      Fallback(Def(s), if Def(s) >= 86 then Meta(c) else c)
  }

  /** In bounds, and one step nearer the end. */
  lemma {:induction false} DefLevel(s: int, c: int)
    requires 1 <= s <= 86 && 0 <= c <= 31
    ensures 0 <= Base(s) + c < 134
    ensures Chk(Base(s) + c) != s ==> 1 <= Def(s) <= 86 && Level(Def(s)) < Level(s)
  {
  }

  // ------------------------------------------------------------------ the plain automaton

  /** The letters of the keywords, state by state: where `s` goes with class `c` on the way to a
      keyword, or 0. */
  function Child(s: int, c: int): int {
    if s < 36 then
      match s {
      case 13 => if c == 15 then 23 else 0
      case 14 => if c == 16 then 24 else if c == 26 then 25 else if c == 30 then 26 else 0
      case 15 => if c == 12 then 27 else 0 case 16 => if c == 22 then 28 else 0
      case 17 => if c == 15 then 29 else 0 case 18 => if c == 23 then 30 else 0
      case 19 => if c == 9 then 31 else if c == 16 then 32 else 0 case 20 => if c == 25 then 33 else 0
      case 23 => if c == 15 then 34 else 0 case 24 => if c == 17 then 35 else 0
      case 25 => if c == 27 then 36 else 0 case 26 => if c == 27 then 37 else 0
      case 27 => if c == 27 then 38 else 0 case 28 => if c == 15 then 39 else 0
      case 30 => if c == 14 then 40 else 0 case 31 => if c == 28 then 41 else 0
      case 32 => if c == 26 then 42 else 0 case 33 => if c == 29 then 43 else 0
      case 34 => if c == 25 then 44 else 0 case 35 => if c == 18 then 45 else 0
      case _ => 0
      }
    else if s < 62 then
      match s {
      case 36 => if c == 11 then 46 else 0 case 37 => if c == 16 then 47 else 0
      case 38 => if c == 12 then 48 else 0 case 39 => if c == 11 then 49 else 0
      case 40 => if c == 19 then 50 else 0 case 42 => if c == 24 then 51 else 0
      case 43 => if c == 11 then 52 else 0 case 45 => if c == 22 then 53 else 0
      case 46 => if c == 27 then 54 else 0 case 47 => if c == 22 then 55 else 0
      case 49 => if c == 14 then 56 else if c == 27 then 57 else 0
      case 52 => if c == 24 then 58 else if c == 26 then 59 else 0 case 53 => if c == 11 then 60 else 0
      case 54 => if c == 30 then 61 else 0 case 56 => if c == 30 then 62 else 0
      case 57 => if c == 18 then 63 else 0 case 58 => if c == 25 then 64 else 0
      case 59 => if c == 18 then 65 else 0 case 60 => if c == 14 then 66 else if c == 27 then 67 else 0
      case 61 => if c == 24 then 68 else 0
      case _ => 0
      }
    else
      match s {
      case 62 => if c == 14 then 69 else 0 case 63 => if c == 21 then 70 else 0
      case 64 => if c == 27 then 71 else 0 case 65 => if c == 31 then 72 else 0
      case 66 => if c == 30 then 73 else 0 case 67 => if c == 18 then 74 else 0
      case 68 => if c == 16 then 75 else 0 case 69 => if c == 20 then 76 else 0
      case 70 => if c == 16 then 77 else 0 case 72 => if c == 16 then 78 else 0
      case 73 => if c == 14 then 79 else 0 case 74 => if c == 21 then 80 else 0
      case 76 => if c == 16 then 81 else 0 case 79 => if c == 20 then 82 else 0
      case 80 => if c == 16 then 83 else 0 case 82 => if c == 16 then 84 else 0
      case _ => 0
      }
  }

  /** Letters, digits, `.` and `_`. */
  predicate WordClass(c: int) {
    c == 8 || 10 <= c
  }

  /** `a` to `f` and digits. */
  predicate HexClass(c: int) {
    c == 10 || 12 <= c <= 16
  }

  /** Whether everything read so far is in the word class; and in the hexadecimal class. */
  predicate WordState(s: int) {
    11 <= s < JAM && s != 31 && s != 41
  }

  predicate HexState(s: int) {
    (12 <= s <= 16) || (22 <= s <= 24) || s == 27 || s == 34
  }

  /** After one character: a state of its own for blanks, the line end, `#`, `(`, `)`, `,` and the
      first letters of the keywords; one state for each kind of the others. */
  function First(c: int): int {
    match c
    case 2 => 5 case 3 => 6 case 4 => 7 case 5 => 8 case 6 => 9 case 7 => 10 case 12 => 13 case 13 => 14
    case 15 => 15 case 16 => 16 case 18 => 17 case 20 => 18 case 25 => 19 case 27 => 20
    case _ => if HexClass(c) then 12 else if WordClass(c) then 11 else 4
  }

  function Plain(s: int, c: int): int {
    if c == 0 then (if s == 3 then JAM else 3)
    else if s == 1 then First(c)
    else if Child(s, c) != 0 then Child(s, c)
    else if HexState(s) && HexClass(c) then 22
    else if WordState(s) && WordClass(c) then 21
    else JAM
  }

  lemma {:induction false} FirstRow(c: int)
    requires 1 <= c <= 31
    ensures Chk(c) == 1 && Nxt(c) == First(c)
  {
  }

  lemma {:induction false} Row32(i: int)
    requires 32 <= i < 56 && Chk(i) != 12
    ensures 13 <= Chk(i) <= 86
    ensures Chk(i) < 85 ==> 1 <= i - Base(Chk(i)) <= 31 && Nxt(i) == Child(Chk(i), i - Base(Chk(i))) != 0
  {
  }

  lemma {:induction false} Row56(i: int)
    requires 56 <= i < 80 && Chk(i) != 12
    ensures 13 <= Chk(i) <= 86
    ensures Chk(i) < 85 ==> 1 <= i - Base(Chk(i)) <= 31 && Nxt(i) == Child(Chk(i), i - Base(Chk(i))) != 0
  {
  }

  lemma {:induction false} Row80(i: int)
    requires 80 <= i < 101 && Chk(i) != 12
    ensures 13 <= Chk(i) <= 86
    ensures Chk(i) < 85 ==> 1 <= i - Base(Chk(i)) <= 31 && Nxt(i) == Child(Chk(i), i - Base(Chk(i))) != 0
  {
  }

  lemma {:induction false} Edges13(s: int, c: int)
    requires 13 <= s < 32 && 1 <= c <= 31 && Child(s, c) != 0
    ensures Chk(Base(s) + c) == s && Nxt(Base(s) + c) == Child(s, c)
  {
    if {
      case s == 13 => case s == 14 => case s == 15 => case s == 16 => case s == 17 => case s == 18 =>
      case s == 19 => case s == 20 => case s == 23 => case s == 24 => case s == 25 => case s == 26 =>
      case s == 27 => case s == 28 => case s == 30 => case s == 31 =>
    }
  }

  lemma {:induction false} Edges32(s: int, c: int)
    requires 32 <= s < 53 && 1 <= c <= 31 && Child(s, c) != 0
    ensures Chk(Base(s) + c) == s && Nxt(Base(s) + c) == Child(s, c)
  {
    if {
      case s == 32 => case s == 33 => case s == 34 => case s == 35 => case s == 36 => case s == 37 =>
      case s == 38 => case s == 39 => case s == 40 => case s == 42 => case s == 43 => case s == 45 =>
      case s == 46 => case s == 47 => case s == 49 => case s == 52 =>
    }
  }

  lemma {:induction false} Edges53(s: int, c: int)
    requires 53 <= s < 70 && 1 <= c <= 31 && Child(s, c) != 0
    ensures Chk(Base(s) + c) == s && Nxt(Base(s) + c) == Child(s, c)
  {
    if {
      case s == 53 => case s == 54 => case s == 56 => case s == 57 => case s == 58 => case s == 59 =>
      case s == 60 => case s == 61 => case s == 62 => case s == 63 => case s == 64 => case s == 65 =>
      case s == 66 => case s == 67 => case s == 68 => case s == 69 =>
    }
  }

  lemma {:induction false} Edges70(s: int, c: int)
    requires 70 <= s < 85 && 1 <= c <= 31 && Child(s, c) != 0
    ensures Chk(Base(s) + c) == s && Nxt(Base(s) + c) == Child(s, c)
  {
  }

  lemma {:induction false} LowRow(i: int)
    requires 0 <= i < 134 && (i < 32 || 101 <= i)
    ensures Chk(i) <= 1 || Chk(i) == 3 || Chk(i) == JAM
  {
  }

  /** A row holds exactly the keyword letters of its state. */
  lemma {:induction false} OwnRow(s: int, c: int)
    requires 13 <= s < JAM && 0 <= c <= 31
    ensures 0 <= Base(s) + c < 134
    ensures Chk(Base(s) + c) == s <==> c != 0 && Child(s, c) != 0
    ensures c != 0 && Child(s, c) != 0 ==> Nxt(Base(s) + c) == Child(s, c)
  {
    hide Chk, Nxt, Child, Base;
    var i := Base(s) + c;
    if Chk(i) == s {
      if i < 32 || 101 <= i {
        LowRow(i);
      } else if i < 56 {
        Row32(i);
      } else if i < 80 {
        Row56(i);
      } else {
        Row80(i);
      }
    }
    if c != 0 && Child(s, c) != 0 {
      if s < 32 {
        Edges13(s, c);
      } else if s < 53 {
        Edges32(s, c);
      } else if s < 70 {
        Edges53(s, c);
      } else {
        Edges70(s, c);
      }
    }
  }

  lemma {:induction false} JamFalls(c: int)
    requires 0 <= c <= 31
    ensures Fallback(JAM, c) == if c == 0 then 3 else JAM
  {
  }

  /** The template row behind the word states. */
  lemma {:induction false} TemplateFalls(c: int)
    requires 0 <= c <= 31
    ensures Fallback(86, Meta(c)) == if c == 0 then 3 else if WordClass(c) then 21 else JAM
  {
  }

  lemma {:induction false} Row12(c: int)
    requires 0 <= c <= 31
    ensures Base(12) == 22 && Def(12) == 86
    ensures Chk(22 + c) == 12 <==> HexClass(c)
    ensures HexClass(c) ==> Nxt(22 + c) == 22
  {
  }

  lemma {:induction false} HexFalls(c: int)
    requires 0 <= c <= 31
    ensures Fallback(12, c) == Plain(12, c)
  {
    hide Chk, Nxt;
    Row12(c);
    TemplateFalls(c);
  }

  lemma {:induction false} EarlyRow(s: int, c: int)
    requires (s == 1 || 3 <= s <= 11) && 0 <= c <= 31
    ensures 0 <= Base(s) + c < 134
    ensures Chk(Base(s) + c) == s <==> (s == 1 && c != 0) || (s == 3 && c == 0)
    ensures Def(s) == if s == 11 then 86 else JAM
    ensures (s == 3 ==> Nxt(Base(s)) == JAM) && (s == 1 ==> Base(s) == 0)
  {
  }

  lemma {:induction false} DefOf(s: int)
    requires 13 <= s < JAM
    ensures Def(s) == if HexState(s) then 12 else if WordState(s) then 86 else JAM
  {
  }

  /** The compressed tables are the plain automaton. */
  lemma {:induction false} CompressedIsPlain(s: int, c: int)
    requires (s == 1 || 3 <= s <= JAM) && 0 <= c <= 31
    ensures Fallback(s, c) == Plain(s, c)
  {
    hide Chk, Nxt, Base, Def, Child, Level;
    JamFalls(c);
    TemplateFalls(c);
    HexFalls(c);
    if s == JAM {
      NoChild(s, c);
    } else if s <= 11 {
      EarlyRow(s, c);
      if s == 1 && c != 0 { FirstRow(c); }
      NoChild(s, c);
    } else if 13 <= s {
      OwnRow(s, c);
      DefOf(s);
      NoChild(12, c);
    }
  }

  lemma {:induction false} NoChild(s: int, c: int)
    requires s <= 12 || s == JAM
    ensures Child(s, c) == 0
  {
  }
}
