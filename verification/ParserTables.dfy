/** The generated LALR tables, the uncompressed automaton they encode, and what the proofs
    need to know about every state of it. */
module ParserTables {
  import opened Grammar

  /** There are 110 states and 24 terminals. `YYLAST` is 103, `YYPACT_NINF` -76,
      `YYTABLE_NINF` -15 and `YYFINAL` 6. */

  function Pact(i: int): int {
    if i < 35 then
      match i {
      case 0 => -12 case 1 => -13 case 2 => 11 case 3 => -3 case 4 => 9 case 8 => 10 case 9 => 12 case 13 => 13
      case 14 => -9 case 16 => 0 case 19 => 1 case 24 => 17 case 25 => 2 case 26 => 3 case 27 => 5 case 28 => 20
      case 29 => 6 case 30 => 7 case 31 => 14 case 32 => 22 case 33 => 8 case 34 => 15
      case _ => -76
      }
    else if i < 57 then
      match i {
      case 35 => 16 case 36 => -7 case 37 => -20 case 38 => 18 case 39 => 19 case 40 => 21 case 41 => 23
      case 42 => 26 case 43 => 27 case 44 => -6 case 45 => 24 case 46 => 25 case 47 => 28 case 48 => 29
      case 49 => 30 case 50 => -5 case 51 => 31 case 52 => 32 case 53 => 34 case 54 => 33 case 55 => 37
      case 56 => 36
      case _ => -76
      }
    else if i < 79 then
      match i {
      case 57 => 38 case 58 => 41 case 59 => 39 case 60 => 42 case 61 => 45 case 62 => 46 case 63 => -17
      case 64 => 40 case 65 => 47 case 66 => 44 case 67 => 48 case 68 => 50 case 69 => 51 case 70 => 52
      case 71 => 54 case 72 => 53 case 73 => 55 case 74 => 35 case 75 => 56 case 76 => 57 case 77 => 58
      case 78 => 60
      case _ => -76
      }
    else if i < 107 then
      match i {
      case 79 => 59 case 80 => 62 case 81 => 63 case 83 => 64 case 84 => 65 case 85 => 66 case 87 => 68
      case 88 => 73 case 91 => 69 case 92 => 70 case 94 => 71 case 96 => 74 case 97 => 61 case 98 => 67
      case 99 => 75 case 100 => 76 case 101 => 78 case 102 => 77 case 103 => 80 case 104 => 81 case 105 => 82
      case 106 => 57
      case _ => -76
      }
    else
      match i {
      case 107 => 83 case 108 => 65
      case _ => -76
      }
  }

  function Defact(i: int): int {
    if i < 96 then
      match i {
      case 3 => 2 case 5 => 13 case 6 => 1 case 7 => 6 case 10 => 9 case 11 => 8 case 12 => 7 case 15 => 3
      case 17 => 4 case 18 => 5 case 20 => 15 case 21 => 18 case 22 => 17 case 23 => 16 case 59 => 23 case 82 => 10
      case 84 => 24 case 86 => 19 case 89 => 11 case 90 => 21 case 93 => 20 case 95 => 22
      case _ => 0
      }
    else
      match i {
      case 108 => 25 case 109 => 12
      case _ => 0
      }
  }

  function Table(i: int): int {
    if i < 22 then
      match i {
      case 0 => 7 case 1 => 38 case 2 => 40 case 3 => 41 case 4 => 54 case 5 => 69 case 6 => 70 case 7 => 39
      case 8 => 55 case 9 => 1 case 10 => 5 case 11 => 6 case 12 => 15 case 13 => 19 case 14 => 16 case 15 => 17
      case 16 => 18 case 17 => 48 case 18 => 8 case 19 => -14 case 20 => 24 case 21 => 25
      case _ => 0
      }
    else if i < 48 then
      match i {
      case 22 => 26 case 23 => 28 case 24 => 27 case 25 => 29 case 26 => 30 case 27 => 32 case 28 => 31
      case 29 => 34 case 30 => 35 case 31 => 108 case 34 => 33 case 35 => 36 case 36 => 37 case 38 => 42
      case 39 => 43 case 40 => 46 case 41 => 44 case 42 => 47 case 43 => 45 case 45 => 50 case 46 => 49
      case 47 => 56
      case _ => 0
      }
    else if i < 72 then
      match i {
      case 48 => 51 case 49 => 52 case 50 => 53 case 51 => 81 case 52 => 66 case 53 => 60 case 54 => 62
      case 55 => 57 case 56 => 58 case 57 => 61 case 58 => 63 case 59 => 64 case 60 => 67 case 61 => 65
      case 62 => 71 case 63 => 68 case 64 => 73 case 65 => 72 case 66 => 80 case 68 => 74 case 69 => 75
      case 71 => 76
      case _ => 0
      }
    else if i < 95 then
      match i {
      case 72 => 77 case 73 => 78 case 74 => 99 case 75 => 79 case 76 => 82 case 78 => 87 case 79 => 83
      case 80 => 86 case 81 => 85 case 82 => 88 case 83 => 89 case 84 => 90 case 85 => 94 case 86 => 92
      case 87 => 91 case 88 => 93 case 89 => 95 case 90 => 100 case 91 => 97 case 92 => 96 case 93 => 103
      case 94 => 98
      case _ => 0
      }
    else
      match i {
      case 95 => 101 case 96 => 102 case 98 => 107 case 99 => 104 case 100 => 105 case 101 => 106 case 103 => 109
      case _ => 0
      }
  }

  function Check(i: int): int {
    if i < 25 then
      match i {
      case 0 => 3 case 1 => 8 case 2 => 22 case 3 => 23 case 4 => 9 case 5 => 22 case 6 => 23 case 7 => 14
      case 8 => 13 case 9 => 21 case 10 => 23 case 11 => 0 case 12 => 3 case 13 => 22 case 14 => 4 case 15 => 3
      case 16 => 3 case 17 => 23 case 18 => 21 case 19 => 22 case 22 => 5 case 24 => 22
      case _ => 20
      }
    else if i < 63 then
      match i {
      case 26 => 6 case 28 => 22 case 29 => 7 case 30 => 22 case 31 => 106 case 32 => -1 case 33 => -1
      case 37 => -1 case 40 => 14 case 42 => 15 case 44 => -1 case 46 => 22 case 47 => 16 case 51 => 16
      case 52 => 10 case 54 => 18 case 55 => 23 case 56 => 22 case 59 => 18 case 60 => 15 case 61 => 22
      case 62 => 22
      case _ => 20
      }
    else
      match i {
      case 63 => 17 case 65 => 18 case 66 => 11 case 67 => -1 case 69 => 19 case 70 => -1 case 73 => 19
      case 74 => 13 case 75 => 22 case 77 => -1 case 78 => 19 case 79 => 22 case 81 => 23 case 85 => 12
      case 87 => 22 case 90 => 23 case 92 => 22 case 93 => 15 case 97 => -1 case 98 => 16 case 99 => 22
      case 102 => -1
      case _ => 20
      }
  }

  function Pgoto(i: int): int {
    match i
    case 12 => -75
    case _ => -76
  }

  function Defgoto(i: int): int {
    match i
    case 1 => 2 case 2 => 3 case 3 => 9 case 4 => 10 case 5 => 11 case 6 => 12 case 7 => 4 case 8 => 13
    case 9 => 14 case 10 => 20 case 11 => 59 case 12 => 84 case 13 => 21 case 14 => 22 case 15 => 23
    case _ => -1
  }

  function Stos(i: int): int {
    if i < 22 then
      match i {
      case 0 => 0 case 1 => 21 case 2 => 25 case 3 => 26 case 4 => 31 case 5 => 23 case 6 => 0 case 7 => 3
      case 8 => 21 case 9 => 27 case 10 => 28 case 11 => 29 case 12 => 30 case 13 => 32 case 14 => 33 case 15 => 3
      case 16 => 4 case 17 => 3 case 18 => 3 case 19 => 22 case 20 => 34 case 21 => 37
      case _ => 20
      }
    else if i < 60 then
      match i {
      case 22 => 38 case 23 => 39 case 26 => 5 case 27 => 22 case 30 => 6 case 31 => 22 case 34 => 7 case 35 => 22
      case 38 => 8 case 39 => 14 case 40 => 22 case 41 => 23 case 46 => 14 case 47 => 15 case 48 => 23
      case 49 => 22 case 54 => 9 case 55 => 13 case 56 => 16 case 57 => 23 case 58 => 22 case 59 => 35
      case _ => 20
      }
    else if i < 97 then
      match i {
      case 62 => 18 case 64 => 18 case 65 => 22 case 66 => 10 case 67 => 15 case 68 => 17 case 69 => 22
      case 70 => 23 case 71 => 22 case 72 => 18 case 75 => 19 case 78 => 19 case 79 => 22 case 80 => 11
      case 81 => 16 case 83 => 22 case 84 => 36 case 85 => 23 case 87 => 19 case 91 => 22 case 94 => 12
      case 96 => 22
      case _ => 20
      }
    else
      match i {
      case 99 => 13 case 100 => 23 case 103 => 15 case 104 => 22 case 107 => 16 case 108 => 36
      case _ => 20
      }
  }

  datatype Action = Shift(state: int) | Reduce(rule: int) | Accept | Error

  /** `yybackup` and `yydefault`: what to do in state `s` when the next symbol is `a`. */
  function Lookup(s: int, a: int): Action {
    var k := Pact(s) + a;
    if Pact(s) == -76 || k < 0 || 103 < k || Check(k) != a then Default(s) else Decode(Table(k))
  }

  function Default(s: int): Action {
    if Defact(s) == 0 then Error else Reduce(Defact(s))
  }

  function Decode(n: int): Action {
    if n == 0 || n == -15 then Error
    else if n < 0 then Reduce(-n)
    else if n == 6 then Accept
    else Shift(n)
  }

  /** The state after `yyreduce`, when state `s` is uncovered and symbol `x` was derived. */
  function Goto(s: int, x: int): int {
    var k := Pgoto(x - 24) + s;
    if 0 <= k <= 103 && Check(k) == s then Table(k) else Defgoto(x - 24)
  }

  /** The automaton without compression. */
  function Plain(s: int, a: int): Action {
    if s < 22 then
      match s {
      case 0 => if a == 21 then Shift(1) else Error
      case 1 => if a == 23 then Shift(5) else Error
      case 2 => if a == 0 then Accept else Error
      case 3 => if a == 3 then Shift(7) else if a == 21 then Shift(8) else if a == 22 then Reduce(14) else Reduce(2)
      case 4 => if a == 3 then Shift(15) else Error
      case 5 => Reduce(13)
      case 6 => Reduce(1)
      case 7 => Reduce(6)
      case 8 => if a == 4 then Shift(16) else Error
      case 9 => if a == 3 then Shift(17) else Error
      case 10 => Reduce(9)
      case 11 => Reduce(8)
      case 12 => Reduce(7)
      case 13 => if a == 3 then Shift(18) else Error
      case 14 => if a == 22 then Shift(19) else Error
      case 15 => Reduce(3)
      case 16 => if a == 20 then Shift(24) else Error
      case 17 => Reduce(4)
      case 18 => Reduce(5)
      case 19 => if a == 20 then Shift(25) else Error
      case 20 => Reduce(15)
      case 21 => Reduce(18)
      case _ => Error
      }
    else if s < 44 then
      match s {
      case 22 => Reduce(17)
      case 23 => Reduce(16)
      case 24 => if a == 5 then Shift(26) else Error
      case 25 => if a == 22 then Shift(27) else Error
      case 26 => if a == 20 then Shift(28) else Error
      case 27 => if a == 20 then Shift(29) else Error
      case 28 => if a == 6 then Shift(30) else Error
      case 29 => if a == 22 then Shift(31) else Error
      case 30 => if a == 20 then Shift(32) else Error
      case 31 => if a == 20 then Shift(33) else Error
      case 32 => if a == 7 then Shift(34) else Error
      case 33 => if a == 22 then Shift(35) else Error
      case 34 => if a == 20 then Shift(36) else Error
      case 35 => if a == 20 then Shift(37) else Error
      case 36 => if a == 8 then Shift(38) else if a == 14 then Shift(39) else Error
      case 37 => if a == 22 then Shift(40) else if a == 23 then Shift(41) else Error
      case 38 => if a == 20 then Shift(42) else Error
      case 39 => if a == 20 then Shift(43) else Error
      case 40 => if a == 20 then Shift(44) else Error
      case 41 => if a == 20 then Shift(45) else Error
      case 42 => if a == 14 then Shift(46) else Error
      case 43 => if a == 15 then Shift(47) else Error
      case _ => Error
      }
    else if s < 66 then
      match s {
      case 44 => if a == 23 then Shift(48) else Error
      case 45 => if a == 22 then Shift(49) else Error
      case 46 => if a == 20 then Shift(50) else Error
      case 47 => if a == 20 then Shift(51) else Error
      case 48 => if a == 20 then Shift(52) else Error
      case 49 => if a == 20 then Shift(53) else Error
      case 50 => if a == 9 then Shift(54) else if a == 13 then Shift(55) else Error
      case 51 => if a == 16 then Shift(56) else Error
      case 52 => if a == 23 then Shift(57) else Error
      case 53 => if a == 22 then Shift(58) else Error
      case 54 => if a == 20 then Shift(60) else Error
      case 55 => if a == 20 then Shift(61) else Error
      case 56 => if a == 18 then Shift(62) else Error
      case 57 => if a == 20 then Shift(63) else Error
      case 58 => if a == 18 then Shift(64) else Error
      case 59 => if a == 22 then Shift(65) else Reduce(23)
      case 60 => if a == 10 then Shift(66) else Error
      case 61 => if a == 15 then Shift(67) else Error
      case 62 => if a == 17 then Shift(68) else Error
      case 63 => if a == 22 then Shift(69) else if a == 23 then Shift(70) else Error
      case 64 => if a == 22 then Shift(71) else Error
      case 65 => if a == 18 then Shift(72) else Error
      case _ => Error
      }
    else if s < 88 then
      match s {
      case 66 => if a == 20 then Shift(73) else Error
      case 67 => if a == 20 then Shift(74) else Error
      case 68 => if a == 19 then Shift(75) else Error
      case 69 => if a == 20 then Shift(76) else Error
      case 70 => if a == 20 then Shift(77) else Error
      case 71 => if a == 19 then Shift(78) else Error
      case 72 => if a == 22 then Shift(79) else Error
      case 73 => if a == 11 then Shift(80) else Error
      case 74 => if a == 16 then Shift(81) else Error
      case 75 => if a == 20 then Shift(82) else Error
      case 76 => if a == 22 then Shift(83) else Error
      case 77 => if a == 23 then Shift(85) else Error
      case 78 => if a == 20 then Shift(86) else Error
      case 79 => if a == 19 then Shift(87) else Error
      case 80 => if a == 20 then Shift(88) else Error
      case 81 => if a == 20 then Shift(89) else Error
      case 82 => Reduce(10)
      case 83 => if a == 20 then Shift(90) else Error
      case 84 => if a == 22 then Shift(91) else Reduce(24)
      case 85 => if a == 20 then Shift(92) else Error
      case 86 => Reduce(19)
      case 87 => if a == 20 then Shift(93) else Error
      case _ => Error
      }
    else
      match s {
      case 88 => if a == 12 then Shift(94) else Error
      case 89 => Reduce(11)
      case 90 => Reduce(21)
      case 91 => if a == 20 then Shift(95) else Error
      case 92 => if a == 22 then Shift(96) else Error
      case 93 => Reduce(20)
      case 94 => if a == 20 then Shift(97) else Error
      case 95 => Reduce(22)
      case 96 => if a == 20 then Shift(98) else Error
      case 97 => if a == 13 then Shift(99) else Error
      case 98 => if a == 23 then Shift(100) else Error
      case 99 => if a == 20 then Shift(101) else Error
      case 100 => if a == 20 then Shift(102) else Error
      case 101 => if a == 15 then Shift(103) else Error
      case 102 => if a == 22 then Shift(104) else Error
      case 103 => if a == 20 then Shift(105) else Error
      case 104 => if a == 20 then Shift(106) else Error
      case 105 => if a == 16 then Shift(107) else Error
      case 106 => if a == 22 then Shift(83) else Error
      case 107 => if a == 20 then Shift(109) else Error
      case 108 => if a == 22 then Shift(91) else Reduce(25)
      case 109 => Reduce(12)
      case _ => Error
      }
  }

  /** The states in which a derivation of `x` can begin. */
  predicate IsSource(x: int, s: int) {
    match x
    case 24 => s == 0
    case 25 => s == 0
    case 26 => s == 0
    case 27 => s == 3
    case 28 => s == 3
    case 29 => s == 3
    case 30 => s == 3
    case 31 => s == 0
    case 32 => s == 3
    case 33 => s == 3
    case 34 => s == 14
    case 35 => s == 53
    case 36 => s == 76 || s == 106
    case 37 => s == 14
    case 38 => s == 14
    case 39 => s == 14
    case _ => false
  }

  /** State `s` is reached by the first `d` symbols of the right-hand side of rule `n`. */
  predicate HasItem(s: int, n: int, d: int) {
    if d == 0 then IsSource(R1(n), s)
    else if s < 23 then
      match s {
      case 1 => d == 1 && n == 13
      case 2 => d == 1 && n == 1
      case 3 => d == 1 && (n == 2 || n == 4 || n == 5 || n == 6)
      case 4 => d == 1 && n == 3
      case 5 => d == 2 && n == 13
      case 6 => d == 2 && n == 1
      case 7 => d == 2 && n == 6
      case 8 => d == 1 && 10 <= n <= 12
      case 9 => d == 2 && n == 4
      case 10 => d == 1 && n == 9
      case 11 => d == 1 && n == 8
      case 12 => d == 1 && n == 7
      case 13 => d == 2 && n == 5
      case 14 => d == 1 && n == 15
      case 15 => d == 2 && n == 3
      case 16 => d == 2 && 10 <= n <= 12
      case 17 => d == 3 && n == 4
      case 18 => d == 3 && n == 5
      case 19 => d == 1 && 23 <= n <= 25
      case 20 => d == 2 && n == 15
      case 21 => d == 1 && n == 18
      case 22 => d == 1 && n == 17
      case _ => false
      }
    else if s < 45 then
      match s {
      case 23 => d == 1 && n == 16
      case 24 => d == 3 && 10 <= n <= 12
      case 25 => d == 2 && 23 <= n <= 25
      case 26 => d == 4 && 10 <= n <= 12
      case 27 => d == 3 && 23 <= n <= 25
      case 28 => d == 5 && 10 <= n <= 12
      case 29 => d == 4 && 23 <= n <= 25
      case 30 => d == 6 && 10 <= n <= 12
      case 31 => d == 5 && 23 <= n <= 25
      case 32 => d == 7 && 10 <= n <= 12
      case 33 => d == 6 && 23 <= n <= 25
      case 34 => d == 8 && 10 <= n <= 12
      case 35 => d == 7 && 23 <= n <= 25
      case 36 => d == 9 && 10 <= n <= 12
      case 37 => d == 8 && 23 <= n <= 25
      case 38 => d == 10 && 11 <= n <= 12
      case 39 => d == 10 && n == 10
      case 40 => d == 9 && 24 <= n <= 25
      case 41 => d == 9 && n == 23
      case 42 => d == 11 && 11 <= n <= 12
      case 43 => d == 11 && n == 10
      case 44 => d == 10 && 24 <= n <= 25
      case _ => false
      }
    else if s < 67 then
      match s {
      case 45 => d == 10 && n == 23
      case 46 => d == 12 && 11 <= n <= 12
      case 47 => d == 12 && n == 10
      case 48 => d == 11 && 24 <= n <= 25
      case 49 => d == 11 && n == 23
      case 50 => d == 13 && 11 <= n <= 12
      case 51 => d == 13 && n == 10
      case 52 => d == 12 && 24 <= n <= 25
      case 53 => d == 12 && n == 23
      case 54 => d == 14 && n == 12
      case 55 => d == 14 && n == 11
      case 56 => d == 14 && n == 10
      case 57 => d == 13 && 24 <= n <= 25
      case 58 => d == 1 && n == 19
      case 59 => (d == 1 && n == 20) || (d == 13 && n == 23)
      case 60 => d == 15 && n == 12
      case 61 => d == 15 && n == 11
      case 62 => d == 15 && n == 10
      case 63 => d == 14 && 24 <= n <= 25
      case 64 => d == 2 && n == 19
      case 65 => d == 2 && n == 20
      case 66 => d == 16 && n == 12
      case _ => false
      }
    else if s < 89 then
      match s {
      case 67 => d == 16 && n == 11
      case 68 => d == 16 && n == 10
      case 69 => d == 15 && n == 24
      case 70 => d == 15 && n == 25
      case 71 => d == 3 && n == 19
      case 72 => d == 3 && n == 20
      case 73 => d == 17 && n == 12
      case 74 => d == 17 && n == 11
      case 75 => d == 17 && n == 10
      case 76 => d == 16 && n == 24
      case 77 => d == 16 && n == 25
      case 78 => d == 4 && n == 19
      case 79 => d == 4 && n == 20
      case 80 => d == 18 && n == 12
      case 81 => d == 18 && n == 11
      case 82 => d == 18 && n == 10
      case 83 => d == 1 && n == 21
      case 84 => (d == 1 && n == 22) || (d == 17 && n == 24)
      case 85 => d == 17 && n == 25
      case 86 => d == 5 && n == 19
      case 87 => d == 5 && n == 20
      case 88 => d == 19 && n == 12
      case _ => false
      }
    else
      match s {
      case 89 => d == 19 && n == 11
      case 90 => d == 2 && n == 21
      case 91 => d == 2 && n == 22
      case 92 => d == 18 && n == 25
      case 93 => d == 6 && n == 20
      case 94 => d == 20 && n == 12
      case 95 => d == 3 && n == 22
      case 96 => d == 19 && n == 25
      case 97 => d == 21 && n == 12
      case 98 => d == 20 && n == 25
      case 99 => d == 22 && n == 12
      case 100 => d == 21 && n == 25
      case 101 => d == 23 && n == 12
      case 102 => d == 22 && n == 25
      case 103 => d == 24 && n == 12
      case 104 => d == 23 && n == 25
      case 105 => d == 25 && n == 12
      case 106 => d == 24 && n == 25
      case 107 => d == 26 && n == 12
      case 108 => (d == 1 && n == 22) || (d == 25 && n == 25)
      case 109 => d == 27 && n == 12
      case _ => false
      }
  }

  /** The state after the first `d` symbols of rule `n`, begun in state `o`. */
  function At(n: int, d: int, o: int): int {
    if d == 0 then o
    else match n
      case 1 => At1(d)
      case 2 => At2(d)
      case 3 => At3(d)
      case 4 => At4(d)
      case 5 => At5(d)
      case 6 => At6(d)
      case 7 => At7(d)
      case 8 => At8(d)
      case 9 => At9(d)
      case 10 => At10(d)
      case 11 => At11(d)
      case 12 => At12(d)
      case 13 => At13(d)
      case 15 => At15(d)
      case 16 => At16(d)
      case 17 => At17(d)
      case 18 => At18(d)
      case 19 => At19(d)
      case 20 => At20(d)
      case 21 => At21(d)
      case 22 => if d == 1 then (if o == 106 then 108 else 84) else if d == 2 then 91 else if d == 3 then 95 else -1
      case 23 => At23(d)
      case 24 => At24(d)
      case 25 => At25(d)
      case _ => -1
  }
  function At1(i: int): int {
    match i
    case 1 => 2 case 2 => 6
    case _ => -1
  }

  function At2(i: int): int {
    match i
    case 1 => 3
    case _ => -1
  }

  function At3(i: int): int {
    match i
    case 1 => 4 case 2 => 15
    case _ => -1
  }

  function At4(i: int): int {
    match i
    case 1 => 3 case 2 => 9 case 3 => 17
    case _ => -1
  }

  function At5(i: int): int {
    match i
    case 1 => 3 case 2 => 13 case 3 => 18
    case _ => -1
  }

  function At6(i: int): int {
    match i
    case 1 => 3 case 2 => 7
    case _ => -1
  }

  function At7(i: int): int {
    match i
    case 1 => 12
    case _ => -1
  }

  function At8(i: int): int {
    match i
    case 1 => 11
    case _ => -1
  }

  function At9(i: int): int {
    match i
    case 1 => 10
    case _ => -1
  }

  function At10(i: int): int {
    match i
    case 1 => 8 case 2 => 16 case 3 => 24 case 4 => 26 case 5 => 28 case 6 => 30 case 7 => 32 case 8 => 34
    case 9 => 36 case 10 => 39 case 11 => 43 case 12 => 47 case 13 => 51 case 14 => 56 case 15 => 62
    case 16 => 68 case 17 => 75 case 18 => 82
    case _ => -1
  }

  function At11(i: int): int {
    match i
    case 1 => 8 case 2 => 16 case 3 => 24 case 4 => 26 case 5 => 28 case 6 => 30 case 7 => 32 case 8 => 34
    case 9 => 36 case 10 => 38 case 11 => 42 case 12 => 46 case 13 => 50 case 14 => 55 case 15 => 61
    case 16 => 67 case 17 => 74 case 18 => 81 case 19 => 89
    case _ => -1
  }

  function At12(i: int): int {
    if i < 23 then
      match i {
      case 1 => 8 case 2 => 16 case 3 => 24 case 4 => 26 case 5 => 28 case 6 => 30 case 7 => 32 case 8 => 34
      case 9 => 36 case 10 => 38 case 11 => 42 case 12 => 46 case 13 => 50 case 14 => 54 case 15 => 60
      case 16 => 66 case 17 => 73 case 18 => 80 case 19 => 88 case 20 => 94 case 21 => 97 case 22 => 99
      case _ => -1
      }
    else
      match i {
      case 23 => 101 case 24 => 103 case 25 => 105 case 26 => 107 case 27 => 109
      case _ => -1
      }
  }

  function At13(i: int): int {
    match i
    case 1 => 1 case 2 => 5
    case _ => -1
  }

  function At15(i: int): int {
    match i
    case 1 => 14 case 2 => 20
    case _ => -1
  }

  function At16(i: int): int {
    match i
    case 1 => 23
    case _ => -1
  }

  function At17(i: int): int {
    match i
    case 1 => 22
    case _ => -1
  }

  function At18(i: int): int {
    match i
    case 1 => 21
    case _ => -1
  }

  function At19(i: int): int {
    match i
    case 1 => 58 case 2 => 64 case 3 => 71 case 4 => 78 case 5 => 86
    case _ => -1
  }

  function At20(i: int): int {
    match i
    case 1 => 59 case 2 => 65 case 3 => 72 case 4 => 79 case 5 => 87 case 6 => 93
    case _ => -1
  }

  function At21(i: int): int {
    match i
    case 1 => 83 case 2 => 90
    case _ => -1
  }

  function At23(i: int): int {
    match i
    case 1 => 19 case 2 => 25 case 3 => 27 case 4 => 29 case 5 => 31 case 6 => 33 case 7 => 35 case 8 => 37
    case 9 => 41 case 10 => 45 case 11 => 49 case 12 => 53 case 13 => 59
    case _ => -1
  }

  function At24(i: int): int {
    match i
    case 1 => 19 case 2 => 25 case 3 => 27 case 4 => 29 case 5 => 31 case 6 => 33 case 7 => 35 case 8 => 37
    case 9 => 40 case 10 => 44 case 11 => 48 case 12 => 52 case 13 => 57 case 14 => 63 case 15 => 69
    case 16 => 76 case 17 => 84
    case _ => -1
  }

  function At25(i: int): int {
    if i < 23 then
      match i {
      case 1 => 19 case 2 => 25 case 3 => 27 case 4 => 29 case 5 => 31 case 6 => 33 case 7 => 35 case 8 => 37
      case 9 => 40 case 10 => 44 case 11 => 48 case 12 => 52 case 13 => 57 case 14 => 63 case 15 => 70
      case 16 => 77 case 17 => 85 case 18 => 92 case 19 => 96 case 20 => 98 case 21 => 100 case 22 => 102
      case _ => -1
      }
    else
      match i {
      case 23 => 104 case 24 => 106 case 25 => 108
      case _ => -1
      }
  }

  /** The length of the longest path to a state. */
  function Depth(i: int): int {
    if i < 33 then
      match i {
      case 0 => 0 case 1 => 1 case 2 => 1 case 3 => 1 case 4 => 1 case 16 => 3 case 17 => 3 case 18 => 3
      case 19 => 3 case 20 => 3 case 21 => 3 case 22 => 3 case 23 => 3 case 24 => 4 case 25 => 4 case 26 => 5
      case 27 => 5 case 28 => 6 case 29 => 6 case 30 => 7 case 31 => 7 case 32 => 8
      case _ => 2
      }
    else if i < 55 then
      match i {
      case 33 => 8 case 34 => 9 case 35 => 9 case 36 => 10 case 37 => 10 case 38 => 11 case 39 => 11 case 40 => 11
      case 41 => 11 case 42 => 12 case 43 => 12 case 44 => 12 case 45 => 12 case 46 => 13 case 47 => 13
      case 48 => 13 case 49 => 13 case 50 => 14 case 51 => 14 case 52 => 14 case 53 => 14 case 54 => 15
      case _ => 2
      }
    else if i < 77 then
      match i {
      case 55 => 15 case 56 => 15 case 57 => 15 case 58 => 15 case 59 => 15 case 60 => 16 case 61 => 16
      case 62 => 16 case 63 => 16 case 64 => 16 case 65 => 16 case 66 => 17 case 67 => 17 case 68 => 17
      case 69 => 17 case 70 => 17 case 71 => 17 case 72 => 17 case 73 => 18 case 74 => 18 case 75 => 18
      case 76 => 18
      case _ => 2
      }
    else if i < 99 then
      match i {
      case 77 => 18 case 78 => 18 case 79 => 18 case 80 => 19 case 81 => 19 case 82 => 19 case 83 => 27
      case 84 => 19 case 85 => 19 case 86 => 19 case 87 => 19 case 88 => 20 case 89 => 20 case 90 => 28
      case 91 => 28 case 92 => 20 case 93 => 20 case 94 => 21 case 95 => 29 case 96 => 21 case 97 => 22
      case 98 => 22
      case _ => 2
      }
    else
      match i {
      case 99 => 23 case 100 => 23 case 101 => 24 case 102 => 24 case 103 => 25 case 104 => 25 case 105 => 26
      case 106 => 26 case 107 => 27 case 108 => 27 case 109 => 28
      case _ => 2
      }
  }

  /** The length of the longest chain of reductions that can follow in a state. */
  function Rank(i: int): nat {
    if i < 109 then
      match i {
      case 3 => 1 case 5 => 1 case 7 => 2 case 10 => 1 case 11 => 1 case 12 => 1 case 15 => 2 case 17 => 2
      case 18 => 2 case 20 => 1 case 21 => 2 case 22 => 2 case 23 => 2 case 59 => 3 case 82 => 2 case 84 => 3
      case 86 => 4 case 89 => 2 case 90 => 4 case 93 => 4 case 95 => 4 case 108 => 3
      case _ => 0
      }
    else
      match i {
      case 109 => 2
      case _ => 0
      }
  }

  /** `s` may stand on top of `p` on the stack. */
  ghost predicate Edge(p: int, s: int) {
    && 0 <= p < 110 && 1 <= s < 110 && s != 6
    && Depth(p) < Depth(s)
    && forall n, d | 1 <= d && HasItem(s, n, d) :: HasItem(p, n, d - 1)
  }

  /** The states whose row of the table starts at `c`. */
  predicate Owns(s: int, c: int) {
    if c < 14 then
      match c {
      case -20 => s == 37 case -17 => s == 63 case -13 => s == 1 case -12 => s == 0 case -9 => s == 14
      case -7 => s == 36 case -6 => s == 44 case -5 => s == 50 case -3 => s == 3 case 0 => s == 16
      case 1 => s == 19 case 2 => s == 25 case 3 => s == 26 case 5 => s == 27 case 6 => s == 29 case 7 => s == 30
      case 8 => s == 33 case 9 => s == 4 case 10 => s == 8 case 11 => s == 2 case 12 => s == 9 case 13 => s == 13
      case _ => false
      }
    else if c < 36 then
      match c {
      case 14 => s == 31 case 15 => s == 34 case 16 => s == 35 case 17 => s == 24 case 18 => s == 38
      case 19 => s == 39 case 20 => s == 28 case 21 => s == 40 case 22 => s == 32 case 23 => s == 41
      case 24 => s == 45 case 25 => s == 46 case 26 => s == 42 case 27 => s == 43 case 28 => s == 47
      case 29 => s == 48 case 30 => s == 49 case 31 => s == 51 case 32 => s == 52 case 33 => s == 54
      case 34 => s == 53 case 35 => s == 74
      case _ => false
      }
    else if c < 60 then
      match c {
      case 36 => s == 56 case 37 => s == 55 case 38 => s == 57 case 39 => s == 59 case 40 => s == 64
      case 41 => s == 58 case 42 => s == 60 case 44 => s == 66 case 45 => s == 61 case 46 => s == 62
      case 47 => s == 65 case 48 => s == 67 case 50 => s == 68 case 51 => s == 69 case 52 => s == 70
      case 53 => s == 72 case 54 => s == 71 case 55 => s == 73 case 56 => s == 75 case 57 => s == 76 || s == 106
      case 58 => s == 77 case 59 => s == 79
      case _ => false
      }
    else
      match c {
      case 60 => s == 78 case 61 => s == 97 case 62 => s == 80 case 63 => s == 81 case 64 => s == 83
      case 65 => s == 84 || s == 108 case 66 => s == 85 case 67 => s == 98 case 68 => s == 87 case 69 => s == 91
      case 70 => s == 92 case 71 => s == 94 case 73 => s == 88 case 74 => s == 96 case 75 => s == 99
      case 76 => s == 100 case 77 => s == 102 case 78 => s == 101 case 80 => s == 103 case 81 => s == 104
      case 82 => s == 105 case 83 => s == 107
      case _ => false
      }
  }

  lemma RowOwner0(s: int)
    requires 0 <= s < 55 && Pact(s) != -76
    ensures Owns(s, Pact(s))
  {
  }

  lemma RowOwner1(s: int)
    requires 55 <= s < 110 && Pact(s) != -76
    ensures Owns(s, Pact(s))
  {
  }

  lemma RowEntry0(k: int, s: int)
    requires 0 <= k < 13 && 0 <= Check(k) && Owns(s, k - Check(k))
    ensures Plain(s, Check(k)) == Decode(Table(k))
  {
    if {
      case k == 0 => case k == 1 => case k == 2 => case k == 3 => case k == 4 => case k == 5 => case k == 6 =>
      case k == 7 => case k == 8 => case k == 9 => case k == 10 => case k == 11 => case k == 12 =>
    }
  }

  lemma RowEntry1(k: int, s: int)
    requires 13 <= k < 26 && 0 <= Check(k) && Owns(s, k - Check(k))
    ensures Plain(s, Check(k)) == Decode(Table(k))
  {
    if {
      case k == 13 => case k == 14 => case k == 15 => case k == 16 => case k == 17 => case k == 18 =>
      case k == 19 => case k == 20 => case k == 21 => case k == 22 => case k == 23 => case k == 24 =>
      case k == 25 =>
    }
  }

  lemma RowEntry2(k: int, s: int)
    requires 26 <= k < 39 && 0 <= Check(k) && Owns(s, k - Check(k))
    ensures Plain(s, Check(k)) == Decode(Table(k))
  {
    if {
      case k == 26 => case k == 27 => case k == 28 => case k == 29 => case k == 30 => case k == 31 =>
      case k == 32 => case k == 33 => case k == 34 => case k == 35 => case k == 36 => case k == 37 =>
      case k == 38 =>
    }
  }

  lemma RowEntry3(k: int, s: int)
    requires 39 <= k < 52 && 0 <= Check(k) && Owns(s, k - Check(k))
    ensures Plain(s, Check(k)) == Decode(Table(k))
  {
    if {
      case k == 39 => case k == 40 => case k == 41 => case k == 42 => case k == 43 => case k == 44 =>
      case k == 45 => case k == 46 => case k == 47 => case k == 48 => case k == 49 => case k == 50 =>
      case k == 51 =>
    }
  }

  lemma RowEntry4(k: int, s: int)
    requires 52 <= k < 65 && 0 <= Check(k) && Owns(s, k - Check(k))
    ensures Plain(s, Check(k)) == Decode(Table(k))
  {
    if {
      case k == 52 => case k == 53 => case k == 54 => case k == 55 => case k == 56 => case k == 57 =>
      case k == 58 => case k == 59 => case k == 60 => case k == 61 => case k == 62 => case k == 63 =>
      case k == 64 =>
    }
  }

  lemma RowEntry5(k: int, s: int)
    requires 65 <= k < 78 && 0 <= Check(k) && Owns(s, k - Check(k))
    ensures Plain(s, Check(k)) == Decode(Table(k))
  {
    if {
      case k == 65 => case k == 66 => case k == 67 => case k == 68 => case k == 69 => case k == 70 =>
      case k == 71 => case k == 72 => case k == 73 => case k == 74 => case k == 75 => case k == 76 =>
      case k == 77 =>
    }
  }

  lemma RowEntry6(k: int, s: int)
    requires 78 <= k < 91 && 0 <= Check(k) && Owns(s, k - Check(k))
    ensures Plain(s, Check(k)) == Decode(Table(k))
  {
    if {
      case k == 78 => case k == 79 => case k == 80 => case k == 81 => case k == 82 => case k == 83 =>
      case k == 84 => case k == 85 => case k == 86 => case k == 87 => case k == 88 => case k == 89 =>
      case k == 90 =>
    }
  }

  lemma RowEntry7(k: int, s: int)
    requires 91 <= k < 104 && 0 <= Check(k) && Owns(s, k - Check(k))
    ensures Plain(s, Check(k)) == Decode(Table(k))
  {
    if {
      case k == 91 => case k == 92 => case k == 93 => case k == 94 => case k == 95 => case k == 96 =>
      case k == 97 => case k == 98 => case k == 99 => case k == 100 => case k == 101 => case k == 102 =>
      case k == 103 =>
    }
  }

  lemma NoEntry0(s: int, a: int)
    requires 0 <= s < 55 && 0 <= a < 24 && Plain(s, a) != Default(s)
    ensures Pact(s) != -76 && 0 <= Pact(s) + a <= 103 && Check(Pact(s) + a) == a
  {
    if {
      case s == 0 => case s == 1 => case s == 2 => case s == 3 => case s == 4 => case s == 5 => case s == 6 =>
      case s == 7 => case s == 8 => case s == 9 => case s == 10 => case s == 11 => case s == 12 =>
      case s == 13 => case s == 14 => case s == 15 => case s == 16 => case s == 17 => case s == 18 =>
      case s == 19 => case s == 20 => case s == 21 => case s == 22 => case s == 23 => case s == 24 =>
      case s == 25 => case s == 26 => case s == 27 => case s == 28 => case s == 29 => case s == 30 =>
      case s == 31 => case s == 32 => case s == 33 => case s == 34 => case s == 35 => case s == 36 =>
      case s == 37 => case s == 38 => case s == 39 => case s == 40 => case s == 41 => case s == 42 =>
      case s == 43 => case s == 44 => case s == 45 => case s == 46 => case s == 47 => case s == 48 =>
      case s == 49 => case s == 50 => case s == 51 => case s == 52 => case s == 53 => case s == 54 =>
    }
  }

  lemma NoEntry1(s: int, a: int)
    requires 55 <= s < 110 && 0 <= a < 24 && Plain(s, a) != Default(s)
    ensures Pact(s) != -76 && 0 <= Pact(s) + a <= 103 && Check(Pact(s) + a) == a
  {
    if {
      case s == 55 => case s == 56 => case s == 57 => case s == 58 => case s == 59 => case s == 60 =>
      case s == 61 => case s == 62 => case s == 63 => case s == 64 => case s == 65 => case s == 66 =>
      case s == 67 => case s == 68 => case s == 69 => case s == 70 => case s == 71 => case s == 72 =>
      case s == 73 => case s == 74 => case s == 75 => case s == 76 => case s == 77 => case s == 78 =>
      case s == 79 => case s == 80 => case s == 81 => case s == 82 => case s == 83 => case s == 84 =>
      case s == 85 => case s == 86 => case s == 87 => case s == 88 => case s == 89 => case s == 90 =>
      case s == 91 => case s == 92 => case s == 93 => case s == 94 => case s == 95 => case s == 96 =>
      case s == 97 => case s == 98 => case s == 99 => case s == 100 => case s == 101 => case s == 102 =>
      case s == 103 => case s == 104 => case s == 105 => case s == 106 => case s == 107 => case s == 108 =>
      case s == 109 =>
    }
  }

  lemma RowEntry(k: int, s: int)
    requires 0 <= k < 104 && 0 <= Check(k) && Owns(s, k - Check(k))
    ensures Plain(s, Check(k)) == Decode(Table(k))
  {
    if k < 13 {
      RowEntry0(k, s);
    } else if k < 26 {
      RowEntry1(k, s);
    } else if k < 39 {
      RowEntry2(k, s);
    } else if k < 52 {
      RowEntry3(k, s);
    } else if k < 65 {
      RowEntry4(k, s);
    } else if k < 78 {
      RowEntry5(k, s);
    } else if k < 91 {
      RowEntry6(k, s);
    } else {
      RowEntry7(k, s);
    }
  }

  lemma NoEntry(s: int, a: int)
    requires 0 <= s < 110 && 0 <= a < 24 && Plain(s, a) != Default(s)
    ensures Pact(s) != -76 && 0 <= Pact(s) + a <= 103 && Check(Pact(s) + a) == a
  {
    if s < 55 {
      NoEntry0(s, a);
    } else {
      NoEntry1(s, a);
    }
  }

  /** The compressed tables say what the uncompressed automaton says. */
  lemma Decompressed(s: int, a: int)
    requires 0 <= s < 110 && 0 <= a < 24
    ensures Lookup(s, a) == Plain(s, a)
  {
    hide Plain, Pact, Check, Table, Defact, Owns;
    var k := Pact(s) + a;
    if Pact(s) != -76 && 0 <= k <= 103 && Check(k) == a {
      if s < 55 {
        RowOwner0(s);
      } else {
        RowOwner1(s);
      }
      RowEntry(k, s);
    } else if Plain(s, a) != Default(s) {
      NoEntry(s, a);
    }
  }

  lemma ItemSymbol0(s: int, n: int, d: int)
    requires 0 <= s < 28 && 1 <= d && HasItem(s, n, d)
    ensures Stos(s) == RhsAt(n, d - 1)
  {
  }

  lemma ItemSymbol1(s: int, n: int, d: int)
    requires 28 <= s < 56 && 1 <= d && HasItem(s, n, d)
    ensures Stos(s) == RhsAt(n, d - 1)
  {
    if {
      case s == 28 => case s == 29 => case s == 30 => case s == 31 => case s == 32 => case s == 33 =>
      case s == 34 => case s == 35 => case s == 36 => case s == 37 => case s == 38 => case s == 39 =>
      case s == 40 => case s == 41 => case s == 42 => case s == 43 => case s == 44 => case s == 45 =>
      case s == 46 => case s == 47 => case s == 48 => case s == 49 => case s == 50 => case s == 51 =>
      case s == 52 => case s == 53 => case s == 54 => case s == 55 =>
    }
  }

  lemma ItemSymbol2(s: int, n: int, d: int)
    requires 56 <= s < 84 && 1 <= d && HasItem(s, n, d)
    ensures Stos(s) == RhsAt(n, d - 1)
  {
  }

  lemma ItemSymbol3(s: int, n: int, d: int)
    requires 84 <= s < 110 && 1 <= d && HasItem(s, n, d)
    ensures Stos(s) == RhsAt(n, d - 1)
  {
  }

  /** The symbol that leads into a state is the last one of each of its items. */
  lemma ItemSymbol(s: int, n: int, d: int)
    requires 0 <= s < 110 && 1 <= d && HasItem(s, n, d)
    ensures Stos(s) == RhsAt(n, d - 1)
  {
    if s < 28 {
      ItemSymbol0(s, n, d);
    } else if s < 56 {
      ItemSymbol1(s, n, d);
    } else if s < 84 {
      ItemSymbol2(s, n, d);
    } else {
      ItemSymbol3(s, n, d);
    }
  }

  /** The states from which state `t` is entered by a shift. */
  predicate ShiftsInto(t: int, s: int) {
    if t < 37 then
      match t {
      case 1 => s == 0 case 5 => s == 1 case 7 => s == 3 case 8 => s == 3 case 15 => s == 4 case 16 => s == 8
      case 17 => s == 9 case 18 => s == 13 case 19 => s == 14 case 24 => s == 16 case 25 => s == 19
      case 26 => s == 24 case 27 => s == 25 case 28 => s == 26 case 29 => s == 27 case 30 => s == 28
      case 31 => s == 29 case 32 => s == 30 case 33 => s == 31 case 34 => s == 32 case 35 => s == 33
      case 36 => s == 34
      case _ => false
      }
    else if t < 59 then
      match t {
      case 37 => s == 35 case 38 => s == 36 case 39 => s == 36 case 40 => s == 37 case 41 => s == 37
      case 42 => s == 38 case 43 => s == 39 case 44 => s == 40 case 45 => s == 41 case 46 => s == 42
      case 47 => s == 43 case 48 => s == 44 case 49 => s == 45 case 50 => s == 46 case 51 => s == 47
      case 52 => s == 48 case 53 => s == 49 case 54 => s == 50 case 55 => s == 50 case 56 => s == 51
      case 57 => s == 52 case 58 => s == 53
      case _ => false
      }
    else if t < 82 then
      match t {
      case 60 => s == 54 case 61 => s == 55 case 62 => s == 56 case 63 => s == 57 case 64 => s == 58
      case 65 => s == 59 case 66 => s == 60 case 67 => s == 61 case 68 => s == 62 case 69 => s == 63
      case 70 => s == 63 case 71 => s == 64 case 72 => s == 65 case 73 => s == 66 case 74 => s == 67
      case 75 => s == 68 case 76 => s == 69 case 77 => s == 70 case 78 => s == 71 case 79 => s == 72
      case 80 => s == 73 case 81 => s == 74
      case _ => false
      }
    else if t < 105 then
      match t {
      case 82 => s == 75 case 83 => s == 76 || s == 106 case 85 => s == 77 case 86 => s == 78 case 87 => s == 79
      case 88 => s == 80 case 89 => s == 81 case 90 => s == 83 case 91 => s == 84 || s == 108 case 92 => s == 85
      case 93 => s == 87 case 94 => s == 88 case 95 => s == 91 case 96 => s == 92 case 97 => s == 94
      case 98 => s == 96 case 99 => s == 97 case 100 => s == 98 case 101 => s == 99 case 102 => s == 100
      case 103 => s == 101 case 104 => s == 102
      case _ => false
      }
    else
      match t {
      case 105 => s == 103 case 106 => s == 104 case 107 => s == 105 case 109 => s == 107
      case _ => false
      }
  }

  lemma ShiftTarget0(s: int, a: int)
    requires 0 <= s < 37 && 0 <= a < 24 && Plain(s, a).Shift?
    ensures var t := Plain(s, a).state;
      a != 0 && Stos(t) == a && 1 <= t < 110 && t != 6 && ShiftsInto(t, s) && Depth(s) < Depth(t)
  {
  }

  lemma ShiftTarget1(s: int, a: int)
    requires 37 <= s < 74 && 0 <= a < 24 && Plain(s, a).Shift?
    ensures var t := Plain(s, a).state;
      a != 0 && Stos(t) == a && 1 <= t < 110 && t != 6 && ShiftsInto(t, s) && Depth(s) < Depth(t)
  {
  }

  lemma ShiftTarget2(s: int, a: int)
    requires 74 <= s < 110 && 0 <= a < 24 && Plain(s, a).Shift?
    ensures var t := Plain(s, a).state;
      a != 0 && Stos(t) == a && 1 <= t < 110 && t != 6 && ShiftsInto(t, s) && Depth(s) < Depth(t)
  {
  }

  lemma ItemBack0(t: int, s: int, n: int, d: int)
    requires 0 <= t < 28 && 1 <= d && ShiftsInto(t, s) && HasItem(t, n, d)
    ensures HasItem(s, n, d - 1)
  {
  }

  lemma ItemBack1(t: int, s: int, n: int, d: int)
    requires 28 <= t < 56 && 1 <= d && ShiftsInto(t, s) && HasItem(t, n, d)
    ensures HasItem(s, n, d - 1)
  {
  }

  lemma ItemBack2(t: int, s: int, n: int, d: int)
    requires 56 <= t < 84 && 1 <= d && ShiftsInto(t, s) && HasItem(t, n, d)
    ensures HasItem(s, n, d - 1)
  {
  }

  lemma ItemBack3(t: int, s: int, n: int, d: int)
    requires 84 <= t < 110 && 1 <= d && ShiftsInto(t, s) && HasItem(t, n, d)
    ensures HasItem(s, n, d - 1)
  {
  }

  lemma ShiftItem(s: int, a: int, n: int, d: int)
    requires 0 <= s < 110 && 0 <= a < 24 && Plain(s, a).Shift?
    ensures var t := Plain(s, a).state;
      && a != 0 && Stos(t) == a && 1 <= t < 110 && t != 6 && Depth(s) < Depth(t)
      && (1 <= d && HasItem(t, n, d) ==> HasItem(s, n, d - 1))
  {
    hide Plain, HasItem, ShiftsInto, Depth, Stos;
    if s < 37 {
      ShiftTarget0(s, a);
    } else if s < 74 {
      ShiftTarget1(s, a);
    } else {
      ShiftTarget2(s, a);
    }
    var t := Plain(s, a).state;
    if 1 <= d && HasItem(t, n, d) {
      if t < 28 {
        ItemBack0(t, s, n, d);
      } else if t < 56 {
        ItemBack1(t, s, n, d);
      } else if t < 84 {
        ItemBack2(t, s, n, d);
      } else {
        ItemBack3(t, s, n, d);
      }
    }
  }

  /** What is shifted is the symbol of the new state, and every item of that state comes from
      the state below. */
  lemma ShiftEdge(s: int, a: int)
    requires 0 <= s < 110 && 0 <= a < 24 && Plain(s, a).Shift?
    ensures a != 0 && Edge(s, Plain(s, a).state) && Stos(Plain(s, a).state) == a
  {
    forall n, d
      ensures 1 <= d && HasItem(Plain(s, a).state, n, d) ==> HasItem(s, n, d - 1)
    {
      ShiftItem(s, a, n, d);
    }
    ShiftItem(s, a, 1, 1);
  }

  lemma GotoLines(p: int, x: int, n: int, d: int)
    requires 25 <= x < 32 && IsSource(x, p)
    ensures var t := Goto(p, x);
      && 0 <= p < 110 && 1 <= t < 110 && t != 6 && Depth(p) < Depth(t) && Stos(t) == x
      && (1 <= d && HasItem(t, n, d) ==> HasItem(p, n, d - 1))
  {
  }

  lemma GotoBodies(p: int, x: int, n: int, d: int)
    requires 32 <= x < 40 && IsSource(x, p)
    ensures var t := Goto(p, x);
      && 0 <= p < 110 && 1 <= t < 110 && t != 6 && Depth(p) < Depth(t) && Stos(t) == x
      && (1 <= d && HasItem(t, n, d) ==> HasItem(p, n, d - 1))
  {
    if {
      case x == 32 => case x == 33 => case x == 34 => case x == 35 => case x == 36 => case x == 37 =>
      case x == 38 => case x == 39 =>
    }
  }

  /** Likewise for the symbol of a reduction. */
  lemma GotoEdge(p: int, x: int)
    requires 25 <= x < 40 && IsSource(x, p)
    ensures Edge(p, Goto(p, x)) && Stos(Goto(p, x)) == x
  {
    hide Goto, HasItem, Depth, Stos, IsSource;
    forall n, d
      ensures 1 <= d && HasItem(Goto(p, x), n, d) ==> HasItem(p, n, d - 1)
    {
      if x < 32 {
        GotoLines(p, x, n, d);
      } else {
        GotoBodies(p, x, n, d);
      }
    }
    if x < 32 {
      GotoLines(p, x, 0, 0);
    } else {
      GotoBodies(p, x, 0, 0);
    }
  }

  lemma ReduceItem0(s: int, a: int, p: int)
    requires 0 <= s < 55 && s != 6 && 0 <= a < 24 && Plain(s, a).Reduce?
    ensures var n := Plain(s, a).rule;
      && 2 <= n <= 25 && HasItem(s, n, R2(n)) && 25 <= R1(n) < 40
      && (IsSource(R1(n), p) ==> Rank(Goto(p, R1(n))) < Rank(s))
  {
  }

  lemma ReduceItem1(s: int, a: int, p: int)
    requires 55 <= s < 110 && s != 6 && 0 <= a < 24 && Plain(s, a).Reduce?
    ensures var n := Plain(s, a).rule;
      && 2 <= n <= 25 && HasItem(s, n, R2(n)) && 25 <= R1(n) < 40
      && (IsSource(R1(n), p) ==> Rank(Goto(p, R1(n))) < Rank(s))
  {
  }

  /** A reduction finds its whole right-hand side, and uncovers a state whose successor ranks
      lower. */
  lemma ReduceItem(s: int, a: int, p: int)
    requires 0 <= s < 110 && s != 6 && 0 <= a < 24 && Plain(s, a).Reduce?
    ensures var n := Plain(s, a).rule;
      && 2 <= n <= 25 && HasItem(s, n, R2(n)) && 25 <= R1(n) < 40
      && (IsSource(R1(n), p) ==> Rank(Goto(p, R1(n))) < Rank(s))
  {
    if s < 55 {
      ReduceItem0(s, a, p);
    } else {
      ReduceItem1(s, a, p);
    }
  }

  lemma AcceptsInFinal(s: int, a: int)
    requires 0 <= s < 110 && Plain(s, a).Accept?
    ensures s == 2 && a == 0
  {
  }

  /** When the symbol after a derivation of `x` lets the parser complete it. */
  predicate OkNext(x: int, a: int) {
    match x
    case 25 => a == 0
    case 32 => a != 22
    case 33 => a == 22
    case 34 => a != 22
    case 37 => a != 22
    case 38 => a != 22
    case 39 => a != 22
    case _ => true
  }

  lemma AtNext10(n: int, d: int, o: int)
    requires n == 10 && 0 <= d < R2(n) && IsSource(R1(n), o)
    ensures RhsAt(n, d) < 24 ==> 0 < RhsAt(n, d) && Plain(At(n, d, o), RhsAt(n, d)) == Shift(At(n, d + 1, o))
    ensures RhsAt(n, d) >= 24 ==>
      25 < RhsAt(n, d) < 40 && IsSource(RhsAt(n, d), At(n, d, o)) && Goto(At(n, d, o), RhsAt(n, d)) == At(n, d + 1, o)
  {
  }

  lemma AtNext11(n: int, d: int, o: int)
    requires n == 11 && 0 <= d < R2(n) && IsSource(R1(n), o)
    ensures RhsAt(n, d) < 24 ==> 0 < RhsAt(n, d) && Plain(At(n, d, o), RhsAt(n, d)) == Shift(At(n, d + 1, o))
    ensures RhsAt(n, d) >= 24 ==>
      25 < RhsAt(n, d) < 40 && IsSource(RhsAt(n, d), At(n, d, o)) && Goto(At(n, d, o), RhsAt(n, d)) == At(n, d + 1, o)
  {
  }

  lemma AtNext12(n: int, d: int, o: int)
    requires n == 12 && 0 <= d < R2(n) && IsSource(R1(n), o)
    ensures RhsAt(n, d) < 24 ==> 0 < RhsAt(n, d) && Plain(At(n, d, o), RhsAt(n, d)) == Shift(At(n, d + 1, o))
    ensures RhsAt(n, d) >= 24 ==>
      25 < RhsAt(n, d) < 40 && IsSource(RhsAt(n, d), At(n, d, o)) && Goto(At(n, d, o), RhsAt(n, d)) == At(n, d + 1, o)
  {
    if {
      case d == 0 => case d == 1 => case d == 2 => case d == 3 => case d == 4 => case d == 5 => case d == 6 =>
      case d == 7 => case d == 8 => case d == 9 => case d == 10 => case d == 11 => case d == 12 =>
      case d == 13 => case d == 14 => case d == 15 => case d == 16 => case d == 17 => case d == 18 =>
      case d == 19 => case d == 20 => case d == 21 => case d == 22 => case d == 23 => case d == 24 =>
      case d == 25 => case d == 26 =>
    }
  }

  lemma AtNext19(n: int, d: int, o: int)
    requires n == 19 && 0 <= d < R2(n) && IsSource(R1(n), o)
    ensures RhsAt(n, d) < 24 ==> 0 < RhsAt(n, d) && Plain(At(n, d, o), RhsAt(n, d)) == Shift(At(n, d + 1, o))
    ensures RhsAt(n, d) >= 24 ==>
      25 < RhsAt(n, d) < 40 && IsSource(RhsAt(n, d), At(n, d, o)) && Goto(At(n, d, o), RhsAt(n, d)) == At(n, d + 1, o)
  {
  }

  lemma AtNext20(n: int, d: int, o: int)
    requires n == 20 && 0 <= d < R2(n) && IsSource(R1(n), o)
    ensures RhsAt(n, d) < 24 ==> 0 < RhsAt(n, d) && Plain(At(n, d, o), RhsAt(n, d)) == Shift(At(n, d + 1, o))
    ensures RhsAt(n, d) >= 24 ==>
      25 < RhsAt(n, d) < 40 && IsSource(RhsAt(n, d), At(n, d, o)) && Goto(At(n, d, o), RhsAt(n, d)) == At(n, d + 1, o)
  {
    if {
      case d == 0 => case d == 1 => case d == 2 => case d == 3 => case d == 4 => case d == 5 =>
    }
  }

  lemma AtNext21(n: int, d: int, o: int)
    requires n == 21 && 0 <= d < R2(n) && IsSource(R1(n), o)
    ensures RhsAt(n, d) < 24 ==> 0 < RhsAt(n, d) && Plain(At(n, d, o), RhsAt(n, d)) == Shift(At(n, d + 1, o))
    ensures RhsAt(n, d) >= 24 ==>
      25 < RhsAt(n, d) < 40 && IsSource(RhsAt(n, d), At(n, d, o)) && Goto(At(n, d, o), RhsAt(n, d)) == At(n, d + 1, o)
  {
  }

  lemma AtNext22(n: int, d: int, o: int)
    requires n == 22 && 0 <= d < R2(n) && IsSource(R1(n), o)
    ensures RhsAt(n, d) < 24 ==> 0 < RhsAt(n, d) && Plain(At(n, d, o), RhsAt(n, d)) == Shift(At(n, d + 1, o))
    ensures RhsAt(n, d) >= 24 ==>
      25 < RhsAt(n, d) < 40 && IsSource(RhsAt(n, d), At(n, d, o)) && Goto(At(n, d, o), RhsAt(n, d)) == At(n, d + 1, o)
  {
  }

  lemma AtNext23(n: int, d: int, o: int)
    requires n == 23 && 0 <= d < R2(n) && IsSource(R1(n), o)
    ensures RhsAt(n, d) < 24 ==> 0 < RhsAt(n, d) && Plain(At(n, d, o), RhsAt(n, d)) == Shift(At(n, d + 1, o))
    ensures RhsAt(n, d) >= 24 ==>
      25 < RhsAt(n, d) < 40 && IsSource(RhsAt(n, d), At(n, d, o)) && Goto(At(n, d, o), RhsAt(n, d)) == At(n, d + 1, o)
  {
  }

  lemma AtNext24(n: int, d: int, o: int)
    requires n == 24 && 0 <= d < R2(n) && IsSource(R1(n), o)
    ensures RhsAt(n, d) < 24 ==> 0 < RhsAt(n, d) && Plain(At(n, d, o), RhsAt(n, d)) == Shift(At(n, d + 1, o))
    ensures RhsAt(n, d) >= 24 ==>
      25 < RhsAt(n, d) < 40 && IsSource(RhsAt(n, d), At(n, d, o)) && Goto(At(n, d, o), RhsAt(n, d)) == At(n, d + 1, o)
  {
    if {
      case d == 0 => case d == 1 => case d == 2 => case d == 3 => case d == 4 => case d == 5 => case d == 6 =>
      case d == 7 => case d == 8 => case d == 9 => case d == 10 => case d == 11 => case d == 12 =>
      case d == 13 => case d == 14 => case d == 15 => case d == 16 =>
    }
  }

  lemma AtNext25(n: int, d: int, o: int)
    requires n == 25 && 0 <= d < R2(n) && IsSource(R1(n), o)
    ensures RhsAt(n, d) < 24 ==> 0 < RhsAt(n, d) && Plain(At(n, d, o), RhsAt(n, d)) == Shift(At(n, d + 1, o))
    ensures RhsAt(n, d) >= 24 ==>
      25 < RhsAt(n, d) < 40 && IsSource(RhsAt(n, d), At(n, d, o)) && Goto(At(n, d, o), RhsAt(n, d)) == At(n, d + 1, o)
  {
    if {
      case d == 0 => case d == 1 => case d == 2 => case d == 3 => case d == 4 => case d == 5 => case d == 6 =>
      case d == 7 => case d == 8 => case d == 9 => case d == 10 => case d == 11 => case d == 12 =>
      case d == 13 => case d == 14 => case d == 15 => case d == 16 => case d == 17 => case d == 18 =>
      case d == 19 => case d == 20 => case d == 21 => case d == 22 => case d == 23 => case d == 24 =>
    }
  }

  lemma AtNextLines(n: int, d: int, o: int)
    requires 2 <= n <= 9 && 0 <= d < R2(n) && IsSource(R1(n), o)
    ensures RhsAt(n, d) < 24 ==> 0 < RhsAt(n, d) && Plain(At(n, d, o), RhsAt(n, d)) == Shift(At(n, d + 1, o))
    ensures RhsAt(n, d) >= 24 ==>
      25 < RhsAt(n, d) < 40 && IsSource(RhsAt(n, d), At(n, d, o)) && Goto(At(n, d, o), RhsAt(n, d)) == At(n, d + 1, o)
  {
    if {
      case n == 2 => case n == 3 => case n == 4 => case n == 5 => case n == 6 => case n == 7 => case n == 8 =>
      case n == 9 =>
    }
  }

  lemma AtNextBodies(n: int, d: int, o: int)
    requires 13 <= n <= 18 && 0 <= d < R2(n) && IsSource(R1(n), o)
    ensures RhsAt(n, d) < 24 ==> 0 < RhsAt(n, d) && Plain(At(n, d, o), RhsAt(n, d)) == Shift(At(n, d + 1, o))
    ensures RhsAt(n, d) >= 24 ==>
      25 < RhsAt(n, d) < 40 && IsSource(RhsAt(n, d), At(n, d, o)) && Goto(At(n, d, o), RhsAt(n, d)) == At(n, d + 1, o)
  {
  }

  /** Inside a rule the automaton moves on symbol by symbol. */
  lemma AtNext(n: int, d: int, o: int)
    requires 2 <= n <= 25 && 0 <= d < R2(n) && IsSource(R1(n), o)
    ensures RhsAt(n, d) < 24 ==> 0 < RhsAt(n, d) && Plain(At(n, d, o), RhsAt(n, d)) == Shift(At(n, d + 1, o))
    ensures RhsAt(n, d) >= 24 ==>
      25 < RhsAt(n, d) < 40 && IsSource(RhsAt(n, d), At(n, d, o)) && Goto(At(n, d, o), RhsAt(n, d)) == At(n, d + 1, o)
  {
    match n {
      case 10 => AtNext10(n, d, o);
      case 11 => AtNext11(n, d, o);
      case 12 => AtNext12(n, d, o);
      case 19 => AtNext19(n, d, o);
      case 20 => AtNext20(n, d, o);
      case 21 => AtNext21(n, d, o);
      case 22 => AtNext22(n, d, o);
      case 23 => AtNext23(n, d, o);
      case 24 => AtNext24(n, d, o);
      case 25 => AtNext25(n, d, o);
      case _ =>
        if n <= 9 {
          AtNextLines(n, d, o);
        } else {
          AtNextBodies(n, d, o);
        }
    }
  }

  /** At the end of a rule it reduces, if the next symbol allows it. */
  lemma AtEnd(n: int, o: int, a: int)
    requires 2 <= n <= 25 && IsSource(R1(n), o) && OkNext(R1(n), a)
    ensures Plain(At(n, R2(n), o), a) == Reduce(n)
  {
  }
}
