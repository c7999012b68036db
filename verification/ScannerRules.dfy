/** The rules of the scanner as patterns on text, and what the automaton accepts: exactly the
    earliest rule that matches all that was read. */
module ScannerRules {
  import opened ScannerTables

  /** The class by which a character inside the text counts: a NUL counts as any other odd one. */
  function Class(ch: char): (c: int)
    ensures 0 <= c <= 31
  {
    if ch == '\0' then 1 else Ec(ch as int)
  }

  /** The plain automaton on a text. */
  function Run(w: string): (s: int) {
    if w == "" then 1 else Plain(Run(w[..|w| - 1]), Class(w[|w| - 1]))
  }

  predicate IsHex(ch: char) {
    'a' <= ch <= 'f' || '0' <= ch <= '9'
  }

  predicate IsWord(ch: char) {
    'a' <= ch <= 'z' || 'A' <= ch <= 'Z' || '0' <= ch <= '9' || ch == '.' || ch == '_'
  }

  /** The rules that are fixed texts. */
  function Literal(r: int): string {
    match r
    case 3 => "begin_cycle" case 4 => "end_cycle" case 5 => "begin_time" case 6 => "end_time" case 7 => "r/w"
    case 8 => "id" case 9 => "bst_type" case 10 => "trx_size" case 11 => "trx_prt" case 12 => "lock"
    case 13 => "addr" case 14 => "resp" case 15 => "data" case 16 => "byten" case 17 => "," case 18 => "("
    case 19 => ")" case 20 => "#"
    case _ => "\n"
  }

  /** The text that rule `r` describes. */
  predicate Matches(r: int, w: string) {
    if r == 1 then w == " " || w == "\t"
    else if 2 <= r <= 20 then w == Literal(r)
    else if r == 21 then forall i | 0 <= i < |w| :: IsHex(w[i])
    else if r == 22 then forall i | 0 <= i < |w| :: IsWord(w[i])
    else r == 23 && |w| == 1 && w[0] != '\n'
  }

  /** The first rule, from `r` on, that matches; 0 if none does. */
  function FirstFrom(r: int, w: string): (a: int)
    requires 1 <= r <= 24
    ensures a == 0 ==> forall k | r <= k <= 23 :: !Matches(k, w)
    ensures a != 0 ==> r <= a <= 23 && Matches(a, w) && forall k | r <= k < a :: !Matches(k, w)
    decreases 24 - r
  {
    if r == 24 then 0 else if Matches(r, w) then r else FirstFrom(r + 1, w)
  }

  function Earliest(w: string): int {
    FirstFrom(1, w)
  }

  // ------------------------------------------------------------------ the keyword states

  predicate IsKeyState(s: int) {
    13 <= s < JAM && s != 21 && s != 22
  }

  /** The state and the letter's class by which a keyword state is reached. */
  function Up(s: int): int {
    if s < 59 then
      match s {
      case 23 => 13 case 24 => 14 case 25 => 14 case 26 => 14 case 27 => 15 case 28 => 16 case 29 => 17
      case 30 => 18 case 31 => 19 case 32 => 19 case 33 => 20 case 34 => 23 case 35 => 24 case 36 => 25
      case 37 => 26 case 38 => 27 case 39 => 28 case 40 => 30 case 41 => 31 case 42 => 32 case 43 => 33
      case 44 => 34 case 45 => 35 case 46 => 36 case 47 => 37 case 48 => 38 case 49 => 39 case 50 => 40
      case 51 => 42 case 52 => 43 case 53 => 45 case 54 => 46 case 55 => 47 case 56 => 49 case 57 => 49
      case 58 => 52
      case _ => 1
      }
    else
      match s {
      case 59 => 52 case 60 => 53 case 61 => 54 case 62 => 56 case 63 => 57 case 64 => 58 case 65 => 59
      case 66 => 60 case 67 => 60 case 68 => 61 case 69 => 62 case 70 => 63 case 71 => 64 case 72 => 65
      case 73 => 66 case 74 => 67 case 75 => 68 case 76 => 69 case 77 => 70 case 78 => 72 case 79 => 73
      case 80 => 74 case 81 => 76 case 82 => 79 case 83 => 80 case 84 => 82
      case _ => 1
      }
  }

  function Letter(s: int): int {
    if s < 55 then
      match s {
      case 13 => 12 case 14 => 13 case 15 => 15 case 17 => 18 case 18 => 20 case 19 => 25 case 20 => 27
      case 23 => 15 case 25 => 26 case 26 => 30 case 27 => 12 case 28 => 22 case 29 => 15 case 30 => 23
      case 31 => 9 case 33 => 25 case 34 => 15 case 35 => 17 case 36 => 27 case 37 => 27 case 38 => 27
      case 39 => 15 case 40 => 14 case 41 => 28 case 42 => 26 case 43 => 29 case 44 => 25 case 45 => 18
      case 46 => 11 case 48 => 12 case 49 => 11 case 50 => 19 case 51 => 24 case 52 => 11 case 53 => 22
      case 54 => 27
      case _ => 16
      }
    else
      match s {
      case 55 => 22 case 56 => 14 case 57 => 27 case 58 => 24 case 59 => 26 case 60 => 11 case 61 => 30
      case 62 => 30 case 63 => 18 case 64 => 25 case 65 => 18 case 66 => 14 case 67 => 27 case 68 => 24
      case 69 => 14 case 70 => 21 case 71 => 27 case 72 => 31 case 73 => 30 case 74 => 18 case 76 => 20
      case 79 => 14 case 80 => 21 case 82 => 20
      case _ => 16
      }
  }

  /** The only character of a class. */
  function OnlyChar(c: int): char {
    match c
    case 9 => '/' case 11 => '_' case 12 => 'a' case 13 => 'b' case 14 => 'c' case 15 => 'd' case 16 => 'e'
    case 17 => 'g' case 18 => 'i' case 19 => 'k' case 20 => 'l' case 21 => 'm' case 22 => 'n' case 23 => 'o'
    case 24 => 'p' case 25 => 'r' case 26 => 's' case 27 => 't' case 28 => 'w' case 29 => 'x' case 30 => 'y'
    case 31 => 'z'
    case _ => '?'
  }

  lemma {:induction false} ClassOnly(ch: char)
    requires Class(ch) == 9 || 11 <= Class(ch)
    ensures ch == OnlyChar(Class(ch))
  {
  }

  lemma {:induction false} OnlyClass(c: int)
    requires c == 9 || 11 <= c <= 31
    ensures Class(OnlyChar(c)) == c
  {
  }

  lemma {:induction false} ClassKinds(ch: char)
    ensures 1 <= Class(ch)
    ensures IsHex(ch) <==> HexClass(Class(ch))
    ensures IsWord(ch) <==> WordClass(Class(ch))
    ensures (ch == ' ' || ch == '\t') <==> Class(ch) == 2
    ensures ch == '\n' <==> Class(ch) == 3
    ensures ch == '#' <==> Class(ch) == 4
    ensures ch == '(' <==> Class(ch) == 5
    ensures ch == ')' <==> Class(ch) == 6
    ensures ch == ',' <==> Class(ch) == 7
  {
  }

  /** The keyword states form a tree, each reached by one letter from one state. */
  lemma {:induction false} TreeEdge(s: int)
    requires IsKeyState(s)
    ensures 1 <= Up(s) < s && (Up(s) == 1 || IsKeyState(Up(s))) && (Letter(s) == 9 || 11 <= Letter(s) <= 31)
    ensures Plain(Up(s), Letter(s)) == s
  {
  }

  lemma {:induction false} Grows13(p: int, c: int)
    requires 13 <= p < 20 && 1 <= c <= 31 && Child(p, c) != 0
    ensures IsKeyState(Child(p, c)) && Up(Child(p, c)) == p && Letter(Child(p, c)) == c
    ensures HexState(Child(p, c)) <==> HexState(p) && HexClass(c)
    ensures WordState(Child(p, c)) <==> WordState(p) && WordClass(c)
  {
  }

  lemma {:induction false} Grows20(p: int, c: int)
    requires 20 <= p < 35 && 1 <= c <= 31 && Child(p, c) != 0
    ensures IsKeyState(Child(p, c)) && Up(Child(p, c)) == p && Letter(Child(p, c)) == c
    ensures HexState(Child(p, c)) <==> HexState(p) && HexClass(c)
    ensures WordState(Child(p, c)) <==> WordState(p) && WordClass(c)
  {
  }

  lemma {:induction false} Grows35(p: int, c: int)
    requires 35 <= p < 50 && 1 <= c <= 31 && Child(p, c) != 0
    ensures IsKeyState(Child(p, c)) && Up(Child(p, c)) == p && Letter(Child(p, c)) == c
    ensures HexState(Child(p, c)) <==> HexState(p) && HexClass(c)
    ensures WordState(Child(p, c)) <==> WordState(p) && WordClass(c)
  {
  }

  lemma {:induction false} Grows50(p: int, c: int)
    requires 50 <= p < 62 && 1 <= c <= 31 && Child(p, c) != 0
    ensures IsKeyState(Child(p, c)) && Up(Child(p, c)) == p && Letter(Child(p, c)) == c
    ensures HexState(Child(p, c)) <==> HexState(p) && HexClass(c)
    ensures WordState(Child(p, c)) <==> WordState(p) && WordClass(c)
  {
  }

  lemma {:induction false} Grows62(p: int, c: int)
    requires 62 <= p < 85 && 1 <= c <= 31 && Child(p, c) != 0
    ensures IsKeyState(Child(p, c)) && Up(Child(p, c)) == p && Letter(Child(p, c)) == c
    ensures HexState(Child(p, c)) <==> HexState(p) && HexClass(c)
    ensures WordState(Child(p, c)) <==> WordState(p) && WordClass(c)
  {
  }

  /** How one more character changes the kind of what was read. */
  lemma {:induction false} PlainKinds(p: int, c: int)
    requires (p == 1 || 3 < p <= JAM) && 1 <= c <= 31
    ensures var s := Plain(p, c);
      && 3 < s <= JAM && (p != 1 ==> 12 < s) && (p == JAM ==> s == JAM)
      && (IsKeyState(s) ==> Up(s) == p && Letter(s) == c)
      && (HexState(s) <==> (p == 1 || HexState(p)) && HexClass(c))
      && (WordState(s) <==> (p == 1 || WordState(p)) && WordClass(c))
  {
    hide Child, Up, Letter;
    if p == 1 {
      FirstKinds(c);
    } else if p < 13 || p == JAM {
      NoChild(p, c);
    } else if Child(p, c) != 0 {
      if p < 20 {
        Grows13(p, c);
      } else if p < 35 {
        Grows20(p, c);
      } else if p < 50 {
        Grows35(p, c);
      } else if p < 62 {
        Grows50(p, c);
      } else {
        Grows62(p, c);
      }
    }
  }

  lemma {:induction false} FirstKinds(c: int)
    requires 1 <= c <= 31
    ensures 3 < First(c) < 21
    ensures IsKeyState(First(c)) ==> Up(First(c)) == 1 && Letter(First(c)) == c
    ensures HexState(First(c)) <==> HexClass(c)
    ensures WordState(First(c)) <==> WordClass(c)
  {
  }

  // ------------------------------------------------------------------ what has been read

  /** The letters on the way to a keyword state. */
  function Spelling(s: int): string
    requires s == 1 || IsKeyState(s)
    decreases s
  {
    if s == 1 then "" else TreeEdge(s); Spelling(Up(s)) + [OnlyChar(Letter(s))]
  }

  lemma {:induction false} RunRange(w: string)
    ensures if w == "" then Run(w) == 1 else 3 < Run(w) <= JAM && (Run(w) <= 12 ==> |w| == 1)
    ensures |w| == 1 ==> Run(w) == First(Class(w[0])) && Run(w) < 21
  {
    hide Plain, First;
    if w != "" {
      var front, ch := w[..|w| - 1], w[|w| - 1];
      ClassKinds(ch);
      RunRange(front);
      PlainKinds(Run(front), Class(ch));
      if |w| == 1 {
        assert front == "";
        StartsFirst(Class(ch));
        FirstKinds(Class(ch));
      }
    }
  }

  lemma {:induction false} StartsFirst(c: int)
    requires 1 <= c
    ensures Plain(1, c) == First(c)
  {
  }

  /** A text leads to a keyword state only if it is the letters on the way there. */
  lemma {:induction false} RunSpells(w: string)
    requires IsKeyState(Run(w))
    ensures w == Spelling(Run(w))
  {
    hide Plain, Up, Letter, OnlyChar, Class;
    var s, front, ch := Run(w), w[..|w| - 1], w[|w| - 1];
    RunRange(front);
    ClassKinds(ch);
    PlainKinds(Run(front), Class(ch));
    TreeEdge(s);
    ClassOnly(ch);
    if Run(front) != 1 {
      RunSpells(front);
    } else {
      RunStart(front);
    }
    assert w == front + [ch];
  }

  lemma {:induction false} RunStart(w: string)
    ensures Run(w) == 1 <==> w == ""
  {
    RunRange(w);
  }

  lemma {:induction false} SpellingRuns(s: int)
    requires s == 1 || IsKeyState(s)
    ensures Run(Spelling(s)) == s
    decreases s
  {
    hide Plain, Up, Letter, OnlyChar, Class;
    if s != 1 {
      TreeEdge(s);
      SpellingRuns(Up(s));
      OnlyClass(Letter(s));
      var w := Spelling(s);
      assert w[..|w| - 1] == Spelling(Up(s)) && w[|w| - 1] == OnlyChar(Letter(s));
    }
  }

  /** The state is hexadecimal, or a word state, exactly if all of the text is. */
  lemma {:induction false} RunKinds(w: string)
    requires w != ""
    ensures HexState(Run(w)) <==> Matches(21, w)
    ensures WordState(Run(w)) <==> Matches(22, w)
  {
    hide Plain, IsHex, IsWord;
    var front, ch := w[..|w| - 1], w[|w| - 1];
    RunRange(front);
    ClassKinds(ch);
    PlainKinds(Run(front), Class(ch));
    if front != "" {
      RunKinds(front);
    }
    assert w == front + [ch];
    assert forall i | 0 <= i < |front| :: w[i] == front[i];
  }

  /** The state of a fixed text. */
  function LiteralState(r: int): int {
    match r
    case 2 => 6 case 3 => 84 case 4 => 81 case 5 => 83 case 6 => 77 case 7 => 41 case 8 => 29 case 9 => 75
    case 10 => 78 case 11 => 71 case 12 => 50 case 13 => 44 case 14 => 51 case 15 => 48 case 16 => 55
    case 17 => 10 case 18 => 8 case 19 => 9 case 20 => 7
    case _ => 5
  }

  lemma {:induction false} Grow(s: int, front: string, ch: char, whole: string)
    requires IsKeyState(s) && Spelling(Up(s)) == front && OnlyChar(Letter(s)) == ch && whole == front + [ch]
    ensures Spelling(s) == whole
  {
  }

  lemma {:induction false} Spells3()
    ensures IsKeyState(84) && Spelling(84) == "begin_cycle"
  {
    hide Spelling;
    SpellsNothing();
    Grow(14, "", 'b', "b");
    Grow(24, "b", 'e', "be");
    Grow(35, "be", 'g', "beg");
    Grow(45, "beg", 'i', "begi");
    Grow(53, "begi", 'n', "begin");
    Grow(60, "begin", '_', "begin_");
    Grow(66, "begin_", 'c', "begin_c");
    Grow(73, "begin_c", 'y', "begin_cy");
    Grow(79, "begin_cy", 'c', "begin_cyc");
    Grow(82, "begin_cyc", 'l', "begin_cycl");
    Grow(84, "begin_cycl", 'e', "begin_cycle");
  }

  lemma {:induction false} Spells4()
    ensures IsKeyState(81) && Spelling(81) == "end_cycle"
  {
    hide Spelling;
    SpellsNothing();
    Grow(16, "", 'e', "e");
    Grow(28, "e", 'n', "en");
    Grow(39, "en", 'd', "end");
    Grow(49, "end", '_', "end_");
    Grow(56, "end_", 'c', "end_c");
    Grow(62, "end_c", 'y', "end_cy");
    Grow(69, "end_cy", 'c', "end_cyc");
    Grow(76, "end_cyc", 'l', "end_cycl");
    Grow(81, "end_cycl", 'e', "end_cycle");
  }

  lemma {:induction false} Spells5()
    ensures IsKeyState(83) && Spelling(83) == "begin_time"
  {
    hide Spelling;
    SpellsNothing();
    Grow(14, "", 'b', "b");
    Grow(24, "b", 'e', "be");
    Grow(35, "be", 'g', "beg");
    Grow(45, "beg", 'i', "begi");
    Grow(53, "begi", 'n', "begin");
    Grow(60, "begin", '_', "begin_");
    Grow(67, "begin_", 't', "begin_t");
    Grow(74, "begin_t", 'i', "begin_ti");
    Grow(80, "begin_ti", 'm', "begin_tim");
    Grow(83, "begin_tim", 'e', "begin_time");
  }

  lemma {:induction false} Spells6()
    ensures IsKeyState(77) && Spelling(77) == "end_time"
  {
    hide Spelling;
    SpellsNothing();
    Grow(16, "", 'e', "e");
    Grow(28, "e", 'n', "en");
    Grow(39, "en", 'd', "end");
    Grow(49, "end", '_', "end_");
    Grow(57, "end_", 't', "end_t");
    Grow(63, "end_t", 'i', "end_ti");
    Grow(70, "end_ti", 'm', "end_tim");
    Grow(77, "end_tim", 'e', "end_time");
  }

  lemma {:induction false} Spells7()
    ensures IsKeyState(41) && Spelling(41) == "r/w"
  {
    hide Spelling;
    SpellsNothing();
    Grow(19, "", 'r', "r");
    Grow(31, "r", '/', "r/");
    Grow(41, "r/", 'w', "r/w");
  }

  lemma {:induction false} Spells8()
    ensures IsKeyState(29) && Spelling(29) == "id"
  {
    hide Spelling;
    SpellsNothing();
    Grow(17, "", 'i', "i");
    Grow(29, "i", 'd', "id");
  }

  lemma {:induction false} Spells9()
    ensures IsKeyState(75) && Spelling(75) == "bst_type"
  {
    hide Spelling;
    SpellsNothing();
    Grow(14, "", 'b', "b");
    Grow(25, "b", 's', "bs");
    Grow(36, "bs", 't', "bst");
    Grow(46, "bst", '_', "bst_");
    Grow(54, "bst_", 't', "bst_t");
    Grow(61, "bst_t", 'y', "bst_ty");
    Grow(68, "bst_ty", 'p', "bst_typ");
    Grow(75, "bst_typ", 'e', "bst_type");
  }

  lemma {:induction false} Spells10()
    ensures IsKeyState(78) && Spelling(78) == "trx_size"
  {
    hide Spelling;
    SpellsNothing();
    Grow(20, "", 't', "t");
    Grow(33, "t", 'r', "tr");
    Grow(43, "tr", 'x', "trx");
    Grow(52, "trx", '_', "trx_");
    Grow(59, "trx_", 's', "trx_s");
    Grow(65, "trx_s", 'i', "trx_si");
    Grow(72, "trx_si", 'z', "trx_siz");
    Grow(78, "trx_siz", 'e', "trx_size");
  }

  lemma {:induction false} Spells11()
    ensures IsKeyState(71) && Spelling(71) == "trx_prt"
  {
    hide Spelling;
    SpellsNothing();
    Grow(20, "", 't', "t");
    Grow(33, "t", 'r', "tr");
    Grow(43, "tr", 'x', "trx");
    Grow(52, "trx", '_', "trx_");
    Grow(58, "trx_", 'p', "trx_p");
    Grow(64, "trx_p", 'r', "trx_pr");
    Grow(71, "trx_pr", 't', "trx_prt");
  }

  lemma {:induction false} Spells12()
    ensures IsKeyState(50) && Spelling(50) == "lock"
  {
    hide Spelling;
    SpellsNothing();
    Grow(18, "", 'l', "l");
    Grow(30, "l", 'o', "lo");
    Grow(40, "lo", 'c', "loc");
    Grow(50, "loc", 'k', "lock");
  }

  lemma {:induction false} Spells13()
    ensures IsKeyState(44) && Spelling(44) == "addr"
  {
    hide Spelling;
    SpellsNothing();
    Grow(13, "", 'a', "a");
    Grow(23, "a", 'd', "ad");
    Grow(34, "ad", 'd', "add");
    Grow(44, "add", 'r', "addr");
  }

  lemma {:induction false} Spells14()
    ensures IsKeyState(51) && Spelling(51) == "resp"
  {
    hide Spelling;
    SpellsNothing();
    Grow(19, "", 'r', "r");
    Grow(32, "r", 'e', "re");
    Grow(42, "re", 's', "res");
    Grow(51, "res", 'p', "resp");
  }

  lemma {:induction false} Spells15()
    ensures IsKeyState(48) && Spelling(48) == "data"
  {
    hide Spelling;
    SpellsNothing();
    Grow(15, "", 'd', "d");
    Grow(27, "d", 'a', "da");
    Grow(38, "da", 't', "dat");
    Grow(48, "dat", 'a', "data");
  }

  lemma {:induction false} Spells16()
    ensures IsKeyState(55) && Spelling(55) == "byten"
  {
    hide Spelling;
    SpellsNothing();
    Grow(14, "", 'b', "b");
    Grow(26, "b", 'y', "by");
    Grow(37, "by", 't', "byt");
    Grow(47, "byt", 'e', "byte");
    Grow(55, "byte", 'n', "byten");
  }

  lemma {:induction false} SpellsNothing()
    ensures Spelling(1) == ""
  {
  }

  lemma {:induction false} KeywordSpelling(r: int)
    requires 3 <= r <= 16
    ensures IsKeyState(LiteralState(r)) && Spelling(LiteralState(r)) == Literal(r)
  {
    hide Spelling;
    if {
      case r == 3 => Spells3();
      case r == 4 => Spells4();
      case r == 5 => Spells5();
      case r == 6 => Spells6();
      case r == 7 => Spells7();
      case r == 8 => Spells8();
      case r == 9 => Spells9();
      case r == 10 => Spells10();
      case r == 11 => Spells11();
      case r == 12 => Spells12();
      case r == 13 => Spells13();
      case r == 14 => Spells14();
      case r == 15 => Spells15();
      case r == 16 => Spells16();
    }
  }

  lemma {:induction false} LiteralRuns(r: int, w: string)
    requires 1 <= r <= 20 && w != ""
    ensures Matches(r, w) <==> Run(w) == LiteralState(r)
  {
    RunRange(w);
    if 3 <= r <= 16 {
      KeywordRuns(r, w);
    } else {
      ClassKinds(w[0]);
      MarkStates(Class(w[0]));
      assert |w| == 1 ==> w == [w[0]];
    }
  }

  lemma {:induction false} KeywordRuns(r: int, w: string)
    requires 3 <= r <= 16
    ensures Matches(r, w) <==> Run(w) == LiteralState(r)
  {
    hide Spelling, Run, Literal, LiteralState;
    KeywordSpelling(r);
    SpellingRuns(LiteralState(r));
    if Run(w) == LiteralState(r) {
      RunSpells(w);
    }
  }

  lemma {:induction false} MarkStates(c: int)
    requires 1 <= c <= 31
    ensures First(c) == 5 <==> c == 2
    ensures First(c) == 6 <==> c == 3
    ensures First(c) == 7 <==> c == 4
    ensures First(c) == 8 <==> c == 5
    ensures First(c) == 9 <==> c == 6
    ensures First(c) == 10 <==> c == 7
  {
  }

  lemma {:induction false} AcceptsEmpty()
    ensures AcceptOf(Run("")) == Earliest("")
  {
    hide FirstFrom;
    LiteralsLong();
    assert !Matches(1, "") && forall r | 2 <= r <= 20 :: !Matches(r, "");
    assert Matches(21, "");
  }

  /** What the automaton accepts after any text is the earliest rule that describes the text. */
  lemma {:induction false} AcceptsEarliest(w: string)
    ensures AcceptOf(Run(w)) == Earliest(w)
  {
    if w == "" {
      AcceptsEmpty();
    } else {
      hide Run, FirstFrom, Literal, AcceptOf, IsHex, IsWord, Matches;
      RunRange(w);
      RunKinds(w);
      OddRule(w);
      forall r | 1 <= r <= 20 ensures Matches(r, w) <==> Run(w) == LiteralState(r) {
        LiteralRuns(r, w);
      }
      AcceptCases(Run(w));
    }
  }

  lemma {:induction false} OddRule(w: string)
    requires w != ""
    ensures Matches(23, w) <==> |w| == 1 && Run(w) != 6
  {
  }

  lemma {:induction false} LiteralsLong()
    ensures forall r | 2 <= r <= 20 :: |Literal(r)| > 0
  {
  }

  /** `yy_accept`, read state by state. */
  lemma {:induction false} AcceptCases(s: int)
    requires 3 < s <= JAM
    ensures var a := AcceptOf(s);
      && (1 <= a <= 20 ==> s == LiteralState(a))
      && (forall r | 1 <= r <= 20 :: s == LiteralState(r) ==> r == a)
      && (a == 21 ==> HexState(s)) && (a == 22 ==> WordState(s) && !HexState(s))
      && (a == 23 ==> s == 4) && (a == 0 ==> !HexState(s) && !WordState(s) && 21 <= s)
      && a <= 23
  {
  }
}
