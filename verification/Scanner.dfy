/** `yylex` and its refilling buffer. However the file's characters arrive, each call returns the
    next token of the text as a whole. */
module Scanner {
  import opened Grammar
  import opened ScannerTables
  import opened ScannerRules
  import opened Scanning

  datatype BufferStatus = New | Normal | EofPending

  /** Where `yylex` goes on: `yy_match`, `yy_find_action`, or nowhere at the end of the file. */
  datatype Goto = Match | Choose | Stop

  datatype EobAction = EndOfFile | ContinueScan | LastOne

  const YY_READ_BUF_SIZE := 8192
  const END_OF_BUFFER := 25

  /** The search for one transition. */
  method Transit(state: int, class_: int) returns (next: int)
    requires (state == 1 || 3 <= state <= JAM) && 0 <= class_ <= 31
    ensures next == Plain(state, class_)
  {
    hide Plain;
    var s, c := state, class_;
    CompressedIsPlain(s, c);
    DefLevel(s, c);
    while Chk(Base(s) + c) != s
      invariant 1 <= s <= 86 && 0 <= c <= 31 && 0 <= Base(s) + c < 134
      invariant Fallback(s, c) == Plain(state, class_)
      decreases Level(s)
    {
      DefLevel(s, c);
      s := Def(s);
      if s >= 86 {
        c := Meta(c);
      }
      DefLevel(s, c);
    }
    next := Nxt(Base(s) + c);
  }

  /** What the scanner remembers after `k` characters: the last prefix before them that some rule
      matches. */
  ghost predicate Remembers(t: string, k: nat, state: int, m: int) {
    k <= |t| && (k > 0 ==> m == LastMatch(t, k - 1) && state == Run(t[..m]))
  }

  lemma {:induction false} RemembersNext(t: string, k: nat, state: int, m: int)
    requires k < |t| && Remembers(t, k, state, m)
    ensures AcceptOf(Run(t[..k])) != 0 ==> Remembers(t, k + 1, Run(t[..k]), k)
    ensures AcceptOf(Run(t[..k])) == 0 ==> Remembers(t, k + 1, state, m)
  {
    hide Run, AcceptOf, Earliest;
    AcceptsEarliest(t[..k]);
    if k == 0 {
      AcceptsEmpty();
      EmptyMatches();
    }
  }

  lemma {:induction false} RemembersNothing(t: string, state: int, m: int)
    ensures Remembers(t, 0, state, m)
  {
  }

  lemma {:induction false} EmptyMatches()
    ensures AcceptOf(Run("")) == 21
  {
  }

  lemma {:induction false} RunNext(t: string, k: nat)
    requires k < |t|
    ensures Run(t[..k + 1]) == Plain(Run(t[..k]), Class(t[k]))
  {
    assert t[..k + 1][..k] == t[..k];
  }

  lemma {:induction false} RunNeverNul(w: string)
    ensures Run(w) == 1 || 3 < Run(w) <= JAM
    ensures Plain(Run(w), 0) == 3
  {
    RunRange(w);
  }

  lemma {:induction false} AfterNul(c: int)
    requires 0 <= c <= 31
    ensures Plain(3, c) == JAM && Base(3) != 102 && AcceptOf(3) == END_OF_BUFFER && Base(JAM) == 102
  {
  }

  class Scanner {
    var chBuf: array<char>
    var bufSize: nat
    var bufChars: nat
    var status: BufferStatus
    var nChars: nat
    var cBufP: nat
    var textPtr: nat
    var hold: char
    var lastState: int
    var lastCpos: nat

    /** The characters of the file that have not been read. */
    var file: string

    /** The buffer ends in its two end-of-buffer characters, inside its `yy_buf_size + 2`. */
    ghost predicate Intact()
      reads `chBuf, `bufSize, `nChars, `status, `file, `bufChars, chBuf
    {
      && chBuf.Length == bufSize + 2 && 0 < bufSize && nChars <= bufSize
      && chBuf[nChars] == '\0' && chBuf[nChars + 1] == '\0'
      && (status == EofPending ==> file == "")
      && (status == New ==> nChars == 0 && bufChars == 0)
    }

    /** The text from position `p` of the buffer to the end of the file. */
    ghost function From(p: nat): (t: string)
      requires p <= nChars <= chBuf.Length
      reads `chBuf, `nChars, `file, chBuf
      ensures |t| >= nChars - p
    {
      chBuf[p..nChars] + file
    }

    /** Between calls one character of the buffer is held back. */
    ghost predicate Valid()
      reads this, chBuf
    {
      Intact() && cBufP <= nChars && (cBufP == nChars ==> hold == '\0')
    }

    static ghost function Behind(ch: char, rest: string, file: string): string {
      [ch] + rest + file
    }

    /** The text still to be scanned. */
    ghost function Pending(): string
      requires Valid()
      reads this, chBuf
    {
      if cBufP < nChars then Behind(hold, chBuf[cBufP + 1..nChars], file) else file
    }

    /** `yy_create_buffer` for a file, with a buffer of any size. */
    constructor (text: string, size: nat)
      requires 0 < size
      ensures Valid() && Pending() == text && fresh(chBuf)
    {
      chBuf := new char[size + 2](_ => '\0');
      bufSize, bufChars, nChars, cBufP, textPtr := size, 0, 0, 0, 0;
      status := New;
      hold := '\0';
      lastState, lastCpos := 0, 0;
      file := text;
    }

    /** `yy_match`: runs the automaton until it can go no further. A NUL leads it into the
        end-of-buffer state, one character before it jams. */
    method MatchLoop(bp: nat, cp0: nat, state0: int, ghost t: string)
      returns (cp: nat, state: int, ghost nul: bool)
      requires Intact() && bp <= cp0 <= nChars && t == From(bp)
      requires state0 == Run(t[..cp0 - bp]) && Remembers(t, cp0 - bp, lastState, lastCpos - bp)
      modifies this`lastState, this`lastCpos
      ensures Base(state) == 102
      ensures !nul ==> bp < cp <= nChars && state == Run(t[..cp - bp])
      ensures !nul ==> Remembers(t, cp - bp, lastState, lastCpos - bp)
      ensures nul ==> cp0 + 2 <= cp <= nChars + 2 && chBuf[cp - 2] == '\0'
      ensures nul ==> state == JAM && lastState == 3 && lastCpos == cp - 1
    {
      hide Plain, Run, AcceptOf, Base, Remembers, Ec;
      cp, state, nul := cp0, state0, false;
      var go := true;
      while go
        invariant cp0 <= cp && (go || Base(state) == 102)
        invariant !nul ==> cp <= nChars && state == Run(t[..cp - bp]) && Remembers(t, cp - bp, lastState, lastCpos - bp)
        invariant !nul && !go ==> cp0 < cp
        invariant nul && go ==> cp0 < cp <= nChars + 1 && chBuf[cp - 1] == '\0' && state == 3
        invariant nul && !go ==> cp0 + 2 <= cp <= nChars + 2 && chBuf[cp - 2] == '\0'
        invariant nul && !go ==> state == JAM && lastState == 3 && lastCpos == cp - 1
        decreases nChars + 2 - cp, go
      {
        var c := Ec(chBuf[cp] as int);
        ghost var k := cp - bp;
        if !nul {
          RunNeverNul(t[..k]);
          if cp < nChars {
            assert t[k] == chBuf[cp];
            RunNext(t, k);
            RemembersNext(t, k, lastState, lastCpos - bp);
          }
        }
        AfterNul(c);
        if AcceptOf(state) != 0 {
          lastState, lastCpos := state, cp;
        }
        state := Transit(state, c);
        nul := nul || chBuf[cp] == '\0';
        EcClass(chBuf[cp]);
        cp := cp + 1;
        go := Base(state) != 102;
      }
    }

    /** `yy_get_previous_state`: the state before the end-of-buffer character. */
    method GetPreviousState(ghost t: string) returns (state: int)
      requires Intact() && textPtr <= cBufP <= nChars && t == From(textPtr)
      modifies this`lastState, this`lastCpos
      ensures state == Run(t[..cBufP - textPtr])
      ensures Remembers(t, cBufP - textPtr, lastState, lastCpos - textPtr)
    {
      hide Plain, Run, AcceptOf, Ec, Remembers;
      state := 1;
      RunStart("");
      RemembersNothing(t, lastState, lastCpos - textPtr);
      var cp := textPtr;
      while cp < cBufP
        invariant textPtr <= cp <= cBufP
        invariant state == Run(t[..cp - textPtr]) && Remembers(t, cp - textPtr, lastState, lastCpos - textPtr)
      {
        var c := if chBuf[cp] != '\0' then Ec(chBuf[cp] as int) else 1;
        NulClass(chBuf[cp]);
        assert t[cp - textPtr] == chBuf[cp];
        RunNext(t, cp - textPtr);
        RunNeverNul(t[..cp - textPtr]);
        RemembersNext(t, cp - textPtr, lastState, lastCpos - textPtr);
        if AcceptOf(state) != 0 {
          lastState, lastCpos := state, cp;
        }
        state := Transit(state, c);
        cp := cp + 1;
      }
    }

    /** `yy_try_NUL_trans`, on the state reached before a NUL that is part of the text. */
    method TryNulTrans(state: int) returns (next: int)
      requires state == 1 || 3 < state <= JAM
      modifies this`lastState, this`lastCpos
      ensures next == if Plain(state, 1) == JAM then 0 else Plain(state, 1)
      ensures if AcceptOf(state) != 0 then lastState == state && lastCpos == cBufP
        else lastState == old(lastState) && lastCpos == old(lastCpos)
    {
      hide Plain, AcceptOf;
      if AcceptOf(state) != 0 {
        lastState, lastCpos := state, cBufP;
      }
      var s := Transit(state, 1);
      next := if s == JAM then 0 else s;
    }

    /** `YY_INPUT`: the file hands over any number of its next characters, none only at its end. */
    method YyInput(at: nat, most: nat) returns (n: nat)
      requires at + most <= chBuf.Length && 0 < most
      modifies chBuf, this`file
      ensures n <= most && n <= |old(file)| && (n == 0 <==> old(file) == "")
      ensures file == old(file)[n..] && chBuf[at..at + n] == old(file)[..n]
      ensures forall i | 0 <= i < chBuf.Length && !(at <= i < at + n) :: chBuf[i] == old(chBuf[i])
    {
      var limit := if most < |file| then most else |file|;
      n :| n <= limit && (n == 0 <==> limit == 0);
      for i := 0 to n
        invariant file == old(file) && chBuf[at..at + i] == file[..i]
        invariant forall j | 0 <= j < chBuf.Length && !(at <= j < at + i) :: chBuf[j] == old(chBuf[j])
      {
        chBuf[at + i] := file[i];
      }
      file := file[n..];
    }

    /** Moves the unfinished token to the front of the buffer. */
    method MoveDown(source: nat, count: nat)
      requires source + count <= chBuf.Length
      modifies chBuf
      ensures chBuf[..count] == old(chBuf[source..source + count])
    {
      for i := 0 to count
        invariant chBuf[..i] == old(chBuf[source..source + i])
        invariant forall j | i <= j < chBuf.Length :: chBuf[j] == old(chBuf[j])
      {
        chBuf[i] := chBuf[source + i];
      }
    }

    /** Doubles the buffer until there is room behind the unfinished token. */
    method Grow(count: nat)
      requires chBuf.Length == bufSize + 2 && 0 < bufSize && count <= bufSize
      modifies this`chBuf, this`bufSize
      ensures chBuf.Length == bufSize + 2 && count + 1 < bufSize
      ensures chBuf[..count] == old(chBuf[..count])
      ensures chBuf == old(chBuf) || fresh(chBuf)
    {
      while bufSize <= count + 1
        invariant chBuf.Length == bufSize + 2 && 0 < bufSize && count <= bufSize
        invariant chBuf[..count] == old(chBuf[..count])
        invariant chBuf == old(chBuf) || fresh(chBuf)
        decreases count + 2 - bufSize
      {
        var few, size := chBuf, bufSize * 2;
        var more := new char[size + 2](_ => '\0');
        for i := 0 to few.Length
          invariant more[..i] == few[..i] && few[..count] == old(chBuf[..count])
          invariant few == chBuf && bufSize + 2 == few.Length
        {
          more[i] := few[i];
        }
        assert more[..count] == few[..count] by {
          assert more[..few.Length] == few[..few.Length];
          assert more[..few.Length][..count] == few[..few.Length][..count];
        }
        chBuf, bufSize := more, size;
      }
    }

    /** `yyrestart` on the same file. */
    method YyRestart()
      requires 2 <= chBuf.Length
      modifies this`nChars, this`bufChars, this`status, this`cBufP, this`textPtr, this`hold, chBuf
      ensures nChars == bufChars == cBufP == textPtr == 0 && status == New && hold == '\0'
    {
      bufChars := 0;
      chBuf[0] := '\0';
      chBuf[1] := '\0';
      status := New;
      nChars, textPtr, cBufP := 0, 0, 0;
      hold := chBuf[0];
    }

    /** Reads behind the unfinished token, unless the end of the file has been seen. */
    method ReadMore(count: nat)
      requires chBuf.Length == bufSize + 2 && 0 < bufSize && count <= bufSize
      requires status == EofPending ==> file == ""
      modifies this`chBuf, this`bufSize, this`bufChars, this`nChars, this`file, chBuf
      ensures chBuf.Length == bufSize + 2 && 0 < bufSize && count + nChars <= bufSize
      ensures chBuf == old(chBuf) || fresh(chBuf)
      ensures nChars <= |old(file)| && file == old(file)[nChars..] && (nChars == 0 <==> old(file) == "")
      ensures chBuf[..count + nChars] == old(chBuf[..count]) + old(file)[..nChars]
    {
      ghost var had := chBuf[..count];
      if status == EofPending {
        bufChars, nChars := 0, 0;
      } else {
        Grow(count);
        var most := bufSize - count - 1;
        if most > YY_READ_BUF_SIZE {
          most := YY_READ_BUF_SIZE;
        }
        label L:
        nChars := YyInput(count, most);
        bufChars := nChars;
        assert forall i | 0 <= i < count :: chBuf[i] == old@L(chBuf[i]);
        assert chBuf[..count] == had;
        assert chBuf[..count + nChars] == chBuf[..count] + chBuf[count..count + nChars];
      }
    }

    /** Brings the unfinished token to the front, and more of the file behind it. */
    method Gather(ghost t: string) returns (count: nat)
      requires Intact() && textPtr <= nChars && cBufP == nChars + 1 && t == From(textPtr)
      modifies this`chBuf, this`bufSize, this`bufChars, this`nChars, this`file, chBuf
      ensures chBuf.Length == bufSize + 2 && 0 < bufSize && count + nChars <= bufSize
      ensures count == old(nChars) - textPtr && t == chBuf[..count + nChars] + file
      ensures if nChars == 0 then file == "" else |file| < |old(file)| && status != EofPending
      ensures chBuf == old(chBuf) || fresh(chBuf)
    {
      count := cBufP - textPtr - 1;
      MoveDown(textPtr, count);
      ReadMore(count);
    }

    /** Puts the two end-of-buffer characters behind what the buffer now holds. */
    method CloseBuffer(count: nat)
      requires chBuf.Length == bufSize + 2 && count + nChars <= bufSize
      modifies this`nChars, this`textPtr, chBuf
      ensures nChars == old(nChars) + count && textPtr == 0 && chBuf[..nChars] == old(chBuf[..count + nChars])
      ensures chBuf[nChars] == '\0' && chBuf[nChars + 1] == '\0'
    {
      nChars := nChars + count;
      chBuf[nChars] := '\0';
      chBuf[nChars + 1] := '\0';
      textPtr := 0;
    }

    /** `yy_get_next_buffer`. The text from the token's start on is the same afterwards. */
    method GetNextBuffer(ghost t: string) returns (act: EobAction)
      requires Intact() && textPtr <= nChars && cBufP == nChars + 1 && status != New && t == From(textPtr)
      modifies this`chBuf, this`bufSize, this`bufChars, this`status, this`nChars, this`textPtr, this`cBufP,
        this`hold, this`file, chBuf
      ensures Intact() && textPtr == 0 && t == From(0) && (chBuf == old(chBuf) || fresh(chBuf))
      ensures act == EndOfFile ==> t == "" && cBufP == 0 && hold == '\0'
      ensures act == ContinueScan ==> |file| < |old(file)| && old(nChars - textPtr) <= nChars && status == Normal
      ensures act == LastOne ==> t != "" && file == "" && nChars == old(nChars - textPtr) && status == EofPending
    {
      var count := Gather(t);
      if nChars == 0 {
        if count == 0 {
          act := EndOfFile;
          YyRestart();
        } else {
          act := LastOne;
          status := EofPending;
        }
      } else {
        act := ContinueScan;
      }
      CloseBuffer(count);
      assert t == chBuf[..nChars] + file && chBuf[0..nChars] == chBuf[..nChars];
    }

    /** `YY_DO_BEFORE_ACTION`. */
    method BeforeAction(bp: nat, cp: nat)
      requires cp < chBuf.Length
      modifies this`textPtr, this`hold, this`cBufP, chBuf
      ensures textPtr == bp && hold == old(chBuf[cp]) && cBufP == cp && chBuf[cp] == '\0'
      ensures forall i | 0 <= i < chBuf.Length && i != cp :: chBuf[i] == old(chBuf[i])
    {
      textPtr := bp;
      hold := chBuf[cp];
      chBuf[cp] := '\0';
      cBufP := cp;
    }

    /** `yy_find_action`: backs up if the state accepts nothing. */
    method FindAction(bp: nat, cp0: nat, state0: int, ghost nul: bool, ghost t: string) returns (act: int, cp: nat)
      requires !nul ==> bp <= cp0 && Decided(t, cp0 - bp, lastState, lastCpos - bp) && state0 == Run(t[..cp0 - bp])
      requires nul ==> state0 == JAM && lastState == 3 && lastCpos == cp0 - 1
      ensures nul ==> act == END_OF_BUFFER && cp == cp0 - 1
      ensures !nul ==> t != "" && Longest(t) <= |t| && cp <= cp0
      ensures !nul ==> cp == bp + Longest(t) && 1 <= act <= 23 && act == Earliest(t[..Longest(t)])
    {
      hide Plain, Run, AcceptOf, Base, Remembers, Earliest, Longest, Decided;
      if nul {
        AfterNul(0);
        JamRejects();
      } else {
        Chooses(t, cp0 - bp, lastState, lastCpos - bp);
      }
      cp := cp0;
      act := AcceptOf(state0);
      if act == 0 {
        cp := lastCpos;
        act := AcceptOf(lastState);
      }
    }

    /** The action of a rule: the token's text, with the character behind it held back. */
    method Deliver(bp: nat, cp: nat, ghost t: string) returns (text: string)
      requires Intact() && bp <= cp <= nChars && t == From(bp)
      modifies this`textPtr, this`hold, this`cBufP, chBuf
      ensures Valid() && text == t[..cp - bp] && Pending() == t[cp - bp..]
    {
      hide Behind;
      ghost var was := chBuf[..];
      SplitText(was, bp, cp, nChars, file);
      assert t == was[bp..nChars] + file;
      BeforeAction(bp, cp);
      ghost var now := chBuf[..];
      assert now == was[cp := '\0'];
      HeldBack(was, now, bp, cp, nChars);
      text := chBuf[textPtr..cBufP];
      assert text == now[bp..cp];
      assert cp < nChars ==> chBuf[cp + 1..nChars] == now[cp + 1..nChars];
    }

    /** What holds at each place where `yylex` goes on. */
    ghost predicate Poised(goto: Goto, bp: nat, cp: nat, state: int, t: string)
      reads this, chBuf
      ensures Poised(goto, bp, cp, state, t) ==>
        if goto == Stop then t == file == "" && Valid() && Pending() == "" else bp <= cp && cp - bp <= |t|
    {
      if goto == Stop then t == "" && Valid() && Pending() == ""
      else
        && Intact() && bp <= cp <= nChars && t == From(bp) && state == Run(t[..cp - bp])
        && (goto == Match ==> Remembers(t, cp - bp, lastState, lastCpos - bp))
        && (goto == Choose ==> Decided(t, cp - bp, lastState, lastCpos - bp))
    }

    /** The end-of-buffer action: the automaton met a NUL. It goes on behind a NUL that belongs to
        the text, refills the buffer at its end, or stops at the end of the file. */
    method EndOfBuffer(bp: nat, cp: nat, ghost t: string) returns (goto: Goto, cp': nat, state: int)
      requires Intact() && bp < cp <= nChars + 1 && chBuf[cp - 1] == '\0' && t == From(bp)
      modifies this, chBuf
      ensures (chBuf == old(chBuf) || fresh(chBuf)) && Poised(goto, textPtr, cp', state, t)
      ensures goto == Stop || |file| < |old(file)|
        || (|file| == |old(file)| && cp' - textPtr == if goto == Match then cp - bp else cp - 1 - bp)
    {
      hide Plain, Run, AcceptOf, Base, Remembers, Earliest, Longest, Decided, Poised;
      var matched := Undo(bp, cp);
      assert bp + matched < nChars || cBufP == nChars + 1;
      if cBufP <= nChars {
        goto, cp', state := RealNul(matched, t);
      } else {
        goto, cp', state := Refill(matched, t);
      }
    }

    /** Undoes `YY_DO_BEFORE_ACTION`, and brings the scanner up to a buffer that is new. */
    method Undo(bp: nat, cp: nat) returns (matched: nat)
      requires Intact() && bp < cp <= nChars + 1
      modifies this`textPtr, this`hold, this`cBufP, this`nChars, this`status, chBuf
      ensures Intact() && matched == cp - 1 - bp && textPtr == bp && cBufP == cp && status != New
      ensures nChars == old(nChars) && chBuf[..] == old(chBuf[..])
    {
      BeforeAction(bp, cp);
      matched := cp - textPtr - 1;
      chBuf[cp] := hold;
      assert chBuf[..] == old(chBuf[..]);
      if status == New {
        nChars := bufChars;
        status := Normal;
      }
    }

    /** The end of the buffer. */
    method Refill(matched: nat, ghost t: string) returns (goto: Goto, cp: nat, state: int)
      requires Intact() && textPtr + matched == nChars && cBufP == nChars + 1 && status != New && t == From(textPtr)
      modifies this, chBuf
      ensures (chBuf == old(chBuf) || fresh(chBuf)) && Poised(goto, textPtr, cp, state, t)
      ensures goto == Stop || |file| < |old(file)|
        || (|file| == |old(file)| && goto == Choose && cp - textPtr == matched)
    {
      hide Plain, Run, AcceptOf, Base, Remembers, Earliest, Longest, Decided;
      var more := GetNextBuffer(t);
      match more {
        case EndOfFile =>
          cBufP := textPtr;
          goto, cp, state := Stop, cBufP, 0;
        case ContinueScan =>
          cBufP := textPtr + matched;
          state := GetPreviousState(t);
          goto, cp := Match, cBufP;
        case LastOne =>
          cBufP := nChars;
          state := GetPreviousState(t);
          goto, cp := Choose, cBufP;
          EndDecides(t, lastState, lastCpos - textPtr);
      }
    }

    /** A NUL that is part of the text. */
    method RealNul(matched: nat, ghost t: string) returns (goto: Goto, cp: nat, state: int)
      requires Intact() && textPtr + matched < nChars && chBuf[textPtr + matched] == '\0' && t == From(textPtr)
      modifies this`cBufP, this`lastState, this`lastCpos
      ensures goto != Stop && cp == textPtr + matched + (if goto == Match then 1 else 0)
      ensures Poised(goto, textPtr, cp, state, t)
    {
      hide Plain, Run, AcceptOf, Base, Remembers, Earliest, Longest, Decided;
      cBufP := textPtr + matched;
      state := GetPreviousState(t);
      NulInside(t, matched, lastState, lastCpos - textPtr);
      var next := TryNulTrans(state);
      if next != 0 {
        cBufP := cBufP + 1;
        state := next;
        goto := Match;
      } else {
        goto := Choose;
      }
      cp := cBufP;
    }

    /** From `yy_match` or `yy_find_action` to the choice of an action. */
    method Phase(goto: Goto, bp: nat, cp0: nat, state0: int, ghost t: string)
      returns (act: int, cp: nat, ghost nul: bool)
      requires goto != Stop && Poised(goto, bp, cp0, state0, t)
      modifies this`lastState, this`lastCpos
      ensures Intact() && t == From(bp)
      ensures act == END_OF_BUFFER <==> nul
      ensures nul ==> goto == Match && bp < cp <= nChars + 1 && cp0 < cp && chBuf[cp - 1] == '\0'
      ensures !nul ==> t != "" && bp <= cp <= nChars && cp == bp + Longest(t)
      ensures !nul ==> Longest(t) <= |t| && 1 <= act <= 23 && act == Earliest(t[..Longest(t)])
    {
      hide Plain, Run, AcceptOf, Base, Remembers, Earliest, Longest, LastMatch, Decided, From, Intact;
      var state := state0;
      cp, nul := cp0, false;
      if goto == Match {
        cp, state, nul := MatchLoop(bp, cp, state, t);
        if !nul {
          StopDecides(t, cp - bp, lastState, lastCpos - bp);
        }
      }
      act, cp := FindAction(bp, cp, state, nul, t);
    }

    /** Puts the character back that was held. */
    method Resume()
      requires Valid()
      modifies chBuf
      ensures Poised(Match, cBufP, cBufP, 1, old(Pending()))
    {
      hide Plain, Run, AcceptOf, Base, Remembers, Earliest, Decided;
      ghost var t := Pending();
      chBuf[cBufP] := hold;
      assert t == From(cBufP);
      ScanStarts(t, lastState, lastCpos - cBufP);
    }

    /** The scanner's work between two actions: the longest match of all that is left of the
        text, by its earliest rule; or 0 at the end of the file. */
    method NextMatch() returns (act: int, text: string)
      requires Valid()
      modifies this, chBuf
      ensures Valid() && (chBuf == old(chBuf) || fresh(chBuf))
      ensures old(Pending()) == "" ==> act == 0 && text == "" && Pending() == ""
      ensures old(Pending()) != "" ==> Longest(old(Pending())) <= |old(Pending())|
      ensures old(Pending()) != "" ==> text == old(Pending())[..Longest(old(Pending()))] && act == Earliest(text)
      ensures old(Pending()) != "" ==> 1 <= act <= 23 && Pending() == old(Pending())[Longest(old(Pending()))..]
    {
      hide Plain, Run, AcceptOf, Base, Remembers, Ec, Earliest, Longest, LastMatch, Decided;
      hide Behind, From, Intact, Pending, Poised;
      ghost var t := Pending();
      Resume();
      var cp: nat, bp: nat, state, goto := cBufP, cBufP, 1, Match;
      while goto != Stop
        invariant (chBuf == old(chBuf) || fresh(chBuf)) && Poised(goto, bp, cp, state, t)
        decreases |file|, if goto == Stop then 0 else |t| - (cp - bp), goto == Match
      {
        ghost var nul;
        act, cp, nul := Phase(goto, bp, cp, state, t);
        if act != END_OF_BUFFER {
          text := Deliver(bp, cp, t);
          return;
        }
        goto, cp, state := EndOfBuffer(bp, cp, t);
        bp := textPtr;
      }
      act, text := 0, "";
    }

    /** `yylex`: the next token of the text, whatever the file handed over when. */
    method Yylex() returns (code: int, text: string)
      requires Valid()
      modifies this, chBuf
      ensures Valid() && (chBuf == old(chBuf) || fresh(chBuf))
      ensures Lexed(Token(code, text), Pending()) == Lex(old(Pending()))
    {
      hide Earliest, Longest;
      ghost var t := Pending();
      while true
        invariant Valid() && (chBuf == old(chBuf) || fresh(chBuf)) && Lex(Pending()) == Lex(t)
        decreases |Pending()|
      {
        if Pending() != "" {
          TakesOne(Pending());
        }
        var act, matched := NextMatch();
        if act != 1 {
          code := Code(act);
          text := if act == 21 || act == 22 then matched else "";
          return;
        }
      }
    }
  }

  lemma {:induction false} NulClass(ch: char)
    ensures (if ch != '\0' then Ec(ch as int) else 1) == Class(ch)
  {
  }

  lemma {:induction false} SplitText(was: string, bp: nat, cp: nat, n: nat, file: string)
    requires bp <= cp <= n <= |was|
    ensures (was[bp..n] + file)[..cp - bp] == was[bp..cp]
    ensures cp < n ==> (was[bp..n] + file)[cp - bp..] == Scanner.Behind(was[cp], was[cp + 1..n], file)
    ensures cp == n ==> (was[bp..n] + file)[cp - bp..] == file
  {
  }

  lemma {:induction false} HeldBack(was: string, now: string, bp: nat, cp: nat, n: nat)
    requires bp <= cp <= n < |was| && now == was[cp := '\0']
    ensures now[bp..cp] == was[bp..cp] && (cp < n ==> now[cp + 1..n] == was[cp + 1..n])
  {
  }

  lemma {:induction false} EcClass(ch: char)
    ensures ch != '\0' ==> Ec(ch as int) == Class(ch)
    ensures ch == '\0' ==> Ec(ch as int) == 0
  {
  }

  lemma {:induction false} ScanStarts(t: string, state: int, m: int)
    ensures Run(t[..0]) == 1 && Remembers(t, 0, state, m)
  {
  }

  /** All that can match has been read, and the longest match is known. */
  ghost predicate Decided(t: string, k: nat, state: int, m: int) {
    && 0 < k <= |t| && Longest(t) == LastMatch(t, k)
    && (AcceptOf(Run(t[..k])) != 0 || Remembers(t, k, state, m))
  }

  lemma {:induction false} StopDecides(t: string, k: nat, state: int, m: int)
    requires 0 < k <= |t| && Base(Run(t[..k])) == 102 && Remembers(t, k, state, m)
    ensures Decided(t, k, state, m)
  {
    StopsAtLongest(t, k);
  }

  lemma {:induction false} EndDecides(t: string, state: int, m: int)
    requires t != "" && Remembers(t, |t|, state, m)
    ensures Decided(t, |t|, state, m)
  {
  }

  /** What is chosen then is the longest match and its earliest rule. */
  lemma {:induction false} Chooses(t: string, k: nat, state: int, m: int)
    requires Decided(t, k, state, m)
    ensures t != "" && Longest(t) <= k <= |t| && 1 <= Earliest(t[..Longest(t)]) <= 23
    ensures var s := Run(t[..k]);
      if AcceptOf(s) != 0 then Longest(t) == k && AcceptOf(s) == Earliest(t[..k])
      else Longest(t) == m && AcceptOf(state) == Earliest(t[..m])
  {
    hide Run, AcceptOf, Earliest;
    AcceptsEarliest(t[..k]);
    TakesOne(t);
    AcceptsEarliest(t[..Longest(t)]);
  }

  /** At a NUL inside the text the automaton goes on as at any odd character; if that jams, the
      match is decided. */
  lemma {:induction false} NulInside(t: string, k: nat, state: int, m: int)
    requires k < |t| && t[k] == '\0' && Remembers(t, k, state, m)
    ensures var s := Run(t[..k]);
      && (s == 1 || 3 < s <= JAM) && Run(t[..k + 1]) == Plain(s, 1) && Plain(s, 1) != 0
      && (Plain(s, 1) == JAM ==> if AcceptOf(s) == 0 then Decided(t, k, state, m) else Decided(t, k, s, k))
      && (AcceptOf(s) != 0 ==> Remembers(t, k + 1, s, k))
      && (AcceptOf(s) == 0 ==> Remembers(t, k + 1, state, m))
  {
    hide Run, AcceptOf, Earliest, Plain, Base, Longest;
    RunNext(t, k);
    RunNeverNul(t[..k]);
    RemembersNext(t, k, state, m);
    RunRange(t[..k + 1]);
    if Run(t[..k + 1]) == JAM {
      AfterNul(0);
      StopsAtLongest(t, k + 1);
      AcceptsEarliest(t[..k + 1]);
      JamRejects();
      if k == 0 {
        StartsOdd();
      }
      AcceptsEarliest(t[..k]);
    }
  }

  lemma {:induction false} StartsOdd()
    ensures Plain(Run(""), 1) == 4
  {
  }
}
