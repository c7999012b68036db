/** Every run of the payload event queue under the SystemC scheduler: what is called, when, in
    which order, and that the one event is always armed early enough. */
module PeqRuns {
  import opened Kernel
  import opened StableQueue
  import opened PeqModel

  datatype Kind = KTimed | KDelta | KImmediate

  function KindOf<P>(c: Call<P>): Kind {
    match c
    case Timed(_, _, _) => KTimed
    case Delta(_, _, _) => KDelta
    case Immediate(_, _, _) => KImmediate
  }

  /** The calls of one kind, in order. */
  function Only<P>(cs: seq<Call<P>>, kind: Kind): seq<Call<P>> {
    if cs == [] then []
    else Only(cs[..|cs| - 1], kind) + (if KindOf(cs[|cs| - 1]) == kind then [cs[|cs| - 1]] else [])
  }

  lemma {:induction false} OnlyAppend<P>(cs: seq<Call<P>>, c: Call<P>, kind: Kind)
    ensures Only(cs + [c], kind) == Only(cs, kind) + (if KindOf(c) == kind then [c] else [])
  {
  }

  lemma {:induction false} OnlyMultiset<P>(cs: seq<Call<P>>, x: Call<P>)
    ensures multiset(Only(cs, KindOf(x)))[x] == multiset(cs)[x]
  {
    if cs != [] {
      var front := cs[..|cs| - 1];
      OnlyMultiset(front, x);
      assert cs == front + [cs[|cs| - 1]];
    }
  }

  /** The timed calls as queue entries. */
  function Entries<P>(cs: seq<Call<P>>): seq<Entry<P>> {
    if cs == [] then []
    else
      var c := cs[|cs| - 1];
      Entries(cs[..|cs| - 1]) + (if c.Timed? then [Entry(c.p, c.t, c.d)] else [])
  }

  /** The timed calls asked for, in the order in which they fall due: by time, and in
      notification order among equal times. */
  function Agenda<P>(cs: seq<Call<P>>): seq<Entry<P>> {
    if cs == [] then []
    else
      var c := cs[|cs| - 1];
      var q := Agenda(cs[..|cs| - 1]);
      if c.Timed? then Insert(q, Entry(c.p, c.t, c.d)) else q
  }

  lemma {:induction false} AgendaAppend<P>(cs: seq<Call<P>>, c: Call<P>)
    ensures Agenda(cs + [c]) == if c.Timed? then Insert(Agenda(cs), Entry(c.p, c.t, c.d)) else Agenda(cs)
  {
  }

  /** The agenda is sorted, and at each time it lists the notifications in the order in which
      they were made: the two facts that fix it. */
  lemma {:induction false} AgendaIsStableSort<P>(cs: seq<Call<P>>, t: nat)
    ensures Sorted(Agenda(cs))
    ensures At(Agenda(cs), t) == At(Entries(cs), t)
  {
    if cs != [] {
      var front, c := cs[..|cs| - 1], cs[|cs| - 1];
      AgendaIsStableSort(front, t);
      if c.Timed? {
        var e := Entry(c.p, c.t, c.d);
        InsertSorted(Agenda(front), e);
        InsertAt(Agenda(front), e, t);
        AtConcat(Entries(front), [e], t);
      } else {
        assert Entries(cs) == Entries(front);
      }
    }
  }

  lemma {:induction false} AgendaMultiset<P>(cs: seq<Call<P>>, x: Call<P>)
    requires x.Timed?
    ensures multiset(Agenda(cs))[Entry(x.p, x.t, x.d)] == multiset(cs)[x]
  {
    hide Insert;
    if cs != [] {
      var front, c := cs[..|cs| - 1], cs[|cs| - 1];
      AgendaMultiset(front, x);
      assert multiset(cs) == multiset(front) + multiset{c} by { assert cs == front + [c]; }
      if c.Timed? {
        InsertMultiset(Agenda(front), Entry(c.p, c.t, c.d));
      }
    }
  }

  lemma {:induction false} EntriesMultiset<P>(cs: seq<Call<P>>, x: Call<P>)
    requires x.Timed?
    ensures multiset(Entries(cs))[Entry(x.p, x.t, x.d)] == multiset(cs)[x]
  {
    if cs != [] {
      var front, c := cs[..|cs| - 1], cs[|cs| - 1];
      EntriesMultiset(front, x);
      assert multiset(cs) == multiset(front) + multiset{c} by { assert cs == front + [c]; }
    }
  }

  function Tag<P>(ps: seq<P>, t: nat, c: nat): seq<Call<P>> {
    if ps == [] then [] else [Delta(ps[0], t, c)] + Tag(ps[1..], t, c)
  }

  function TagImmediate<P>(ps: seq<P>, t: nat, c: nat): seq<Call<P>> {
    if ps == [] then [] else [Immediate(ps[0], t, c)] + TagImmediate(ps[1..], t, c)
  }

  lemma {:induction false} TagAppend<P>(ps: seq<P>, p: P, t: nat, c: nat)
    ensures Tag(ps + [p], t, c) == Tag(ps, t, c) + [Delta(p, t, c)]
    ensures TagImmediate(ps + [p], t, c) == TagImmediate(ps, t, c) + [Immediate(p, t, c)]
  {
    if ps != [] {
      assert (ps + [p])[1..] == ps[1..] + [p];
      TagAppend(ps[1..], p, t, c);
    }
  }

  lemma {:induction false} TagCycle<P>(ps: seq<P>, t: nat, c: nat, x: Call<P>)
    requires x in Tag(ps, t, c)
    ensures x.Delta? && x.c == c
  {
    if x != Delta(ps[0], t, c) {
      TagCycle(ps[1..], t, c, x);
    }
  }

  ghost predicate Happened<P>(c: Call<P>, k: Kernel) {
    c.t <= k.now && (c.Delta? ==> c.c <= k.delta)
  }

  ghost predicate AllHappened<P>(cs: seq<Call<P>>, k: Kernel) {
    forall c | c in cs :: Happened(c, k)
  }

  /** Conservation, kind by kind: the calls asked for are the calls made followed by the calls
      still queued, in that order and with those times and delta cycles. */

  ghost predicate TimedBalance<P>(ppq: seq<Entry<P>>, log: seq<Call<P>>, asked: seq<Call<P>>) {
    Sorted(ppq) && Agenda(asked) == Entries(log) + ppq
  }

  ghost predicate DeltaBalance<P>(current: seq<P>, next: seq<P>, now: nat, delta: nat,
                                  log: seq<Call<P>>, asked: seq<Call<P>>)
  {
    Only(asked, KDelta) == Only(log, KDelta) + Tag(current, now, delta) + Tag(next, now, delta + 1)
  }

  ghost predicate ImmediateBalance<P>(imm: seq<P>, now: nat, delta: nat, log: seq<Call<P>>, asked: seq<Call<P>>) {
    Only(asked, KImmediate) == Only(log, KImmediate) + TagImmediate(imm, now, delta)
  }

  ghost predicate Balanced<P>(s: Peq<P>) {
    && NoneOverdue(s) && AllHappened(s.log, s.k)
    && TimedBalance(s.ppq, s.log, s.asked)
    && DeltaBalance(s.current, s.next, s.k.now, s.k.delta, s.log, s.asked)
    && ImmediateBalance(s.imm, s.k.now, s.k.delta, s.log, s.asked)
  }

  /** The event is armed early enough for everything queued. */
  ghost predicate Armed<P>(s: Peq<P>) {
    && !s.k.running
    && (s.k.notice.TimedNotice? ==> s.k.now < s.k.notice.at)
    && (s.imm != [] ==> s.k.ready)
    && (s.current != [] ==> s.k.ready)
    && (s.next != [] ==> s.k.ready || s.k.notice.DeltaNotice?)
    && (s.ppq != [] ==>
        || s.k.ready
        || (s.k.now < s.ppq[0].t && s.k.notice.DeltaNotice?)
        || (s.k.now < s.ppq[0].t && s.k.notice.TimedNotice? && s.k.notice.at <= s.ppq[0].t))
  }

  // ------------------------------------------------------------------ conservation

  lemma {:induction false} EntriesIn<P>(cs: seq<Call<P>>, e: Entry<P>)
    requires e in Entries(cs)
    ensures Timed(e.p, e.t, e.d) in cs
  {
    var front, c := cs[..|cs| - 1], cs[|cs| - 1];
    if e in Entries(front) {
      EntriesIn(front, e);
    }
  }

  lemma {:induction false} AskTimed<P>(ppq: seq<Entry<P>>, log: seq<Call<P>>, asked: seq<Call<P>>, k: Kernel,
      c: Call<P>)
    requires TimedBalance(ppq, log, asked) && AllHappened(log, k) && c.Timed? && k.now < c.t
    ensures TimedBalance(Insert(ppq, Entry(c.p, c.t, c.d)), log, asked + [c])
  {
    var e := Entry(c.p, c.t, c.d);
    AgendaAppend(asked, c);
    InsertSorted(ppq, e);
    forall x | x in Entries(log) ensures x.t <= e.t {
      EntriesIn(log, x);
    }
    InsertBehind(Entries(log), ppq, e);
  }

  lemma CallTimed<P>(ppq: seq<Entry<P>>, log: seq<Call<P>>, asked: seq<Call<P>>)
    requires TimedBalance(ppq, log, asked) && ppq != []
    ensures TimedBalance(ppq[1..], log + [Timed(ppq[0].p, ppq[0].t, ppq[0].d)], asked)
  {
  }

  lemma OtherTimed<P>(ppq: seq<Entry<P>>, log: seq<Call<P>>, asked: seq<Call<P>>, c: Call<P>)
    requires TimedBalance(ppq, log, asked) && !c.Timed?
    ensures TimedBalance(ppq, log + [c], asked) && TimedBalance(ppq, log, asked + [c])
  {
  }

  lemma AskDelta<P>(current: seq<P>, next: seq<P>, now: nat, delta: nat, log: seq<Call<P>>, asked: seq<Call<P>>, p: P)
    requires DeltaBalance(current, next, now, delta, log, asked)
    ensures DeltaBalance(current, next + [p], now, delta, log, asked + [Delta(p, now, delta + 1)])
  {
    var c := Delta(p, now, delta + 1);
    OnlyAppend(asked, c, KDelta);
    TagAppend(next, p, now, delta + 1);
  }

  lemma CallDelta<P>(current: seq<P>, next: seq<P>, now: nat, delta: nat, log: seq<Call<P>>, asked: seq<Call<P>>)
    requires DeltaBalance(current, next, now, delta, log, asked) && current != []
    ensures DeltaBalance(current[1..], next, now, delta, log + [Delta(current[0], now, delta)], asked)
  {
  }

  lemma OtherDelta<P>(current: seq<P>, next: seq<P>, now: nat, delta: nat, log: seq<Call<P>>, asked: seq<Call<P>>,
                      c: Call<P>)
    requires DeltaBalance(current, next, now, delta, log, asked) && !c.Delta?
    ensures DeltaBalance(current, next, now, delta, log + [c], asked)
    ensures DeltaBalance(current, next, now, delta, log, asked + [c])
  {
  }

  lemma AskImmediate<P>(imm: seq<P>, now: nat, delta: nat, log: seq<Call<P>>, asked: seq<Call<P>>, p: P)
    requires ImmediateBalance(imm, now, delta, log, asked)
    ensures ImmediateBalance(imm + [p], now, delta, log, asked + [Immediate(p, now, delta)])
  {
    var c := Immediate(p, now, delta);
    OnlyAppend(asked, c, KImmediate);
    TagAppend(imm, p, now, delta);
  }

  lemma CallImmediate<P>(imm: seq<P>, now: nat, delta: nat, log: seq<Call<P>>, asked: seq<Call<P>>)
    requires ImmediateBalance(imm, now, delta, log, asked) && imm != []
    ensures ImmediateBalance(imm[1..], now, delta, log + [Immediate(imm[0], now, delta)], asked)
  {
  }

  lemma OtherImmediate<P>(imm: seq<P>, now: nat, delta: nat, log: seq<Call<P>>, asked: seq<Call<P>>, c: Call<P>)
    requires ImmediateBalance(imm, now, delta, log, asked) && !c.Immediate?
    ensures ImmediateBalance(imm, now, delta, log + [c], asked)
    ensures ImmediateBalance(imm, now, delta, log, asked + [c])
  {
  }

  lemma NotifyBalanced<P>(s: Peq<P>, p: P, w: nat)
    requires Balanced(s)
    ensures Balanced(Notify(s, p, w))
  {
    hide TimedBalance, DeltaBalance, ImmediateBalance, Insert;
    NotifySameBut(s, p, w);
    if w == 0 {
      var c := Delta(p, s.k.now, s.k.delta + 1);
      OtherTimed(s.ppq, s.log, s.asked, c);
      OtherImmediate(s.imm, s.k.now, s.k.delta, s.log, s.asked, c);
      AskDelta(s.current, s.next, s.k.now, s.k.delta, s.log, s.asked, p);
    } else {
      var c := Timed(p, w + s.k.now, s.k.delta);
      AskTimed(s.ppq, s.log, s.asked, s.k, c);
      OtherImmediate(s.imm, s.k.now, s.k.delta, s.log, s.asked, c);
      OtherDelta(s.current, s.next, s.k.now, s.k.delta, s.log, s.asked, c);
    }
  }

  lemma NotifyNowBalanced<P>(s: Peq<P>, p: P)
    requires Balanced(s)
    ensures Balanced(NotifyNow(s, p))
  {
    hide TimedBalance, DeltaBalance, ImmediateBalance;
    var c := Immediate(p, s.k.now, s.k.delta);
    OtherTimed(s.ppq, s.log, s.asked, c);
    OtherDelta(s.current, s.next, s.k.now, s.k.delta, s.log, s.asked, c);
    AskImmediate(s.imm, s.k.now, s.k.delta, s.log, s.asked, p);
  }

  lemma {:induction false} NotifyEachBalanced<P>(s: Peq<P>, rs: seq<Request<P>>)
    requires Balanced(s)
    ensures Balanced(NotifyEach(s, rs))
    decreases |rs|
  {
    if rs != [] {
      NotifyBalanced(s, rs[0].p, rs[0].w);
      NotifyEachBalanced(Notify(s, rs[0].p, rs[0].w), rs[1..]);
    }
  }

  /** Taking a payload off its queue and making its call. */

  lemma TakeImmediate<P>(s: Peq<P>)
    requires Balanced(s) && s.imm != []
    ensures Balanced(s.(imm := s.imm[1..], log := s.log + [Immediate(s.imm[0], s.k.now, s.k.delta)]))
  {
    hide TimedBalance, DeltaBalance, ImmediateBalance;
    var c := Immediate(s.imm[0], s.k.now, s.k.delta);
    CallImmediate(s.imm, s.k.now, s.k.delta, s.log, s.asked);
    OtherTimed(s.ppq, s.log, s.asked, c);
    OtherDelta(s.current, s.next, s.k.now, s.k.delta, s.log, s.asked, c);
  }

  lemma TakeDelta<P>(s: Peq<P>)
    requires Balanced(s) && s.current != []
    ensures Balanced(s.(current := s.current[1..], log := s.log + [Delta(s.current[0], s.k.now, s.k.delta)]))
  {
    hide TimedBalance, DeltaBalance, ImmediateBalance;
    var c := Delta(s.current[0], s.k.now, s.k.delta);
    CallDelta(s.current, s.next, s.k.now, s.k.delta, s.log, s.asked);
    OtherTimed(s.ppq, s.log, s.asked, c);
    OtherImmediate(s.imm, s.k.now, s.k.delta, s.log, s.asked, c);
  }

  lemma TakeTimed<P>(s: Peq<P>)
    requires Balanced(s) && s.ppq != [] && s.ppq[0].t == s.k.now
    ensures Balanced(s.(ppq := s.ppq[1..], log := s.log + [Timed(s.ppq[0].p, s.k.now, s.ppq[0].d)]))
  {
    hide TimedBalance, DeltaBalance, ImmediateBalance;
    var c := Timed(s.ppq[0].p, s.k.now, s.ppq[0].d);
    CallTimed(s.ppq, s.log, s.asked);
    OtherDelta(s.current, s.next, s.k.now, s.k.delta, s.log, s.asked, c);
    OtherImmediate(s.imm, s.k.now, s.k.delta, s.log, s.asked, c);
  }

  lemma SameBalance<P>(s: Peq<P>, k: Kernel)
    requires Balanced(s) && k.now == s.k.now && k.delta == s.k.delta
    ensures Balanced(s.(k := k))
  {
  }

  lemma PopImmediateBalanced<P>(s: Peq<P>, reply: Replies<P>)
    requires Balanced(s) && s.imm != []
    ensures Balanced(Serve(s.(imm := s.imm[1..]), Immediate(s.imm[0], s.k.now, s.k.delta), reply))
  {
    hide Balanced, NotifyEach;
    TakeImmediate(s);
    var c := Immediate(s.imm[0], s.k.now, s.k.delta);
    NotifyEachBalanced(s.(imm := s.imm[1..], log := s.log + [c]), reply(s.Calls()));
  }

  lemma {:induction false} DrainImmediateBalanced<P>(s: Peq<P>, reply: Replies<P>)
    requires Balanced(s)
    ensures Balanced(DrainImmediate(s, reply))
    decreases |s.imm|
  {
    if s.imm != [] {
      PopImmediateBalanced(s, reply);
      ServeSameBut(s.(imm := s.imm[1..]), Immediate(s.imm[0], s.k.now, s.k.delta), reply);
      DrainImmediateBalanced(Serve(s.(imm := s.imm[1..]), Immediate(s.imm[0], s.k.now, s.k.delta), reply), reply);
    }
  }

  lemma PopDeltaBalanced<P>(s: Peq<P>, reply: Replies<P>)
    requires Balanced(s) && s.current != []
    ensures Balanced(Serve(s.(current := s.current[1..]), Delta(s.current[0], s.k.now, s.k.delta), reply))
  {
    hide Balanced, NotifyEach;
    TakeDelta(s);
    NotifyEachBalanced(s.(current := s.current[1..], log := s.log + [Delta(s.current[0], s.k.now, s.k.delta)]),
                       reply(s.Calls()));
  }

  lemma {:induction false} DrainDeltaBalanced<P>(s: Peq<P>, reply: Replies<P>)
    requires Balanced(s)
    ensures Balanced(DrainDelta(s, reply))
    decreases |s.current|
  {
    if s.current != [] {
      PopDeltaBalanced(s, reply);
      ServeSameBut(s.(current := s.current[1..]), Delta(s.current[0], s.k.now, s.k.delta), reply);
      DrainDeltaBalanced(Serve(s.(current := s.current[1..]), Delta(s.current[0], s.k.now, s.k.delta), reply), reply);
    }
  }

  /** Moving the head into the log before or after the callback makes no difference, because
      the callback only inserts behind the head. */
  lemma {:induction false} NotifyEachBehindHead<P>(s: Peq<P>, rs: seq<Request<P>>)
    requires s.ppq != [] && s.ppq[0].t <= s.k.now
    ensures var r := NotifyEach(s, rs);
      && r.ppq != []
      && r.(ppq := r.ppq[1..]) == NotifyEach(s.(ppq := s.ppq[1..]), rs)
    decreases |rs|
  {
    if rs != [] {
      var p, w := rs[0].p, rs[0].w;
      if w != 0 {
        var e := Entry(p, w + s.k.now, s.k.delta);
        assert s.ppq == [s.ppq[0]] + s.ppq[1..];
        InsertBehind([s.ppq[0]], s.ppq[1..], e);
      }
      NotifySameBut(s, p, w);
      NotifyEachBehindHead(Notify(s, p, w), rs[1..]);
    }
  }

  lemma PopTimedBalanced<P>(s: Peq<P>, reply: Replies<P>)
    requires Balanced(s) && s.ppq != [] && s.ppq[0].t == s.k.now
    ensures var s1 := Serve(s, Timed(s.ppq[0].p, s.k.now, s.ppq[0].d), reply);
      s1.ppq != [] && Balanced(s1.(ppq := s1.ppq[1..]))
  {
    var c := Timed(s.ppq[0].p, s.k.now, s.ppq[0].d);
    TakeTimed(s);
    NotifyEachBalanced(s.(ppq := s.ppq[1..], log := s.log + [c]), reply(s.Calls()));
    NotifyEachBehindHead(s.(log := s.log + [c]), reply(s.Calls()));
  }

  lemma {:induction false} DrainTimedBalanced<P>(s: Peq<P>, reply: Replies<P>)
    requires Balanced(s)
    ensures Balanced(DrainTimed(s, reply))
    decreases |At(s.ppq, s.k.now)|
  {
    if s.ppq != [] && s.ppq[0].t == s.k.now {
      PopTimedBalanced(s, reply);
      ServeSameBut(s, Timed(s.ppq[0].p, s.k.now, s.ppq[0].d), reply);
      var s1 := Serve(s, Timed(s.ppq[0].p, s.k.now, s.ppq[0].d), reply);
      DrainTimedBalanced(s1.(ppq := s1.ppq[1..]), reply);
    }
  }

  lemma FecUntimedBalanced<P>(s: Peq<P>, reply: Replies<P>)
    requires Balanced(s)
    ensures Balanced(FecUntimed(s, reply))
  {
    SameBalance(s, Dispatched(s.k));
    var s0 := s.(k := Dispatched(s.k));
    DrainImmediateBalanced(s0, reply);
    var s1 := DrainDelta(DrainImmediate(s0, reply), reply);
    DrainDeltaBalanced(DrainImmediate(s0, reply), reply);
    SameBalance(s1, NotifyAfter(s1.k, 0));
  }

  lemma RearmTimedBalanced<P>(s: Peq<P>)
    requires Balanced(s)
    ensures Balanced(RearmTimed(s).(k := Returned(RearmTimed(s).k)))
  {
    hide TimedBalance, DeltaBalance, ImmediateBalance, AllHappened;
    SameBalance(s, Returned(RearmTimed(s).k));
  }

  lemma FecBalanced<P>(s: Peq<P>, reply: Replies<P>)
    requires Balanced(s)
    ensures Balanced(Fec(s, reply))
  {
    FecUntimedKeeps(s, reply);
    FecUntimedBalanced(s, reply);
    var s2 := FecUntimed(s, reply);
    if s2.ppq == [] {
      SameBalance(s2, Returned(s2.k));
    } else {
      DrainTimedBalanced(s2, reply);
      RearmTimedBalanced(DrainTimed(s2, reply));
    }
  }

  // ------------------------------------------------------------------ arming

  ghost predicate NoticeAhead<P>(s: Peq<P>) {
    s.k.notice.TimedNotice? ==> s.k.now < s.k.notice.at
  }

  ghost predicate NextArmed<P>(s: Peq<P>) {
    s.next != [] ==> s.k.notice.DeltaNotice?
  }

  lemma {:induction false} NotifyEachArms<P>(s: Peq<P>, rs: seq<Request<P>>)
    ensures NoticeAhead(s) ==> NoticeAhead(NotifyEach(s, rs))
    ensures NextArmed(s) ==> NextArmed(NotifyEach(s, rs))
    decreases |rs|
  {
    if rs != [] {
      NotifyEachArms(Notify(s, rs[0].p, rs[0].w), rs[1..]);
    }
  }

  lemma {:induction false} DrainImmediateArms<P>(s: Peq<P>, reply: Replies<P>)
    requires NoticeAhead(s)
    ensures NoticeAhead(DrainImmediate(s, reply))
    decreases |s.imm|
  {
    if s.imm != [] {
      var s1 := s.(imm := s.imm[1..]);
      var c := Immediate(s.imm[0], s.k.now, s.k.delta);
      NotifyEachArms(s1.(log := s.log + [c]), reply(s.Calls()));
      ServeSameBut(s1, c, reply);
      DrainImmediateArms(Serve(s1, c, reply), reply);
    }
  }

  lemma {:induction false} DrainDeltaArms<P>(s: Peq<P>, reply: Replies<P>)
    requires NoticeAhead(s)
    ensures NoticeAhead(DrainDelta(s, reply))
    decreases |s.current|
  {
    if s.current != [] {
      var c := Delta(s.current[0], s.k.now, s.k.delta);
      NotifyEachArms(s.(current := s.current[1..], log := s.log + [c]), reply(s.Calls()));
      ServeSameBut(s.(current := s.current[1..]), c, reply);
      DrainDeltaArms(Serve(s.(current := s.current[1..]), c, reply), reply);
    }
  }

  lemma {:induction false} DrainTimedArms<P>(s: Peq<P>, reply: Replies<P>)
    requires NoticeAhead(s) && NextArmed(s)
    ensures NoticeAhead(DrainTimed(s, reply)) && NextArmed(DrainTimed(s, reply))
    decreases |At(s.ppq, s.k.now)|
  {
    if s.ppq != [] && s.ppq[0].t == s.k.now {
      var c := Timed(s.ppq[0].p, s.k.now, s.ppq[0].d);
      NotifyEachArms(s.(log := s.log + [c]), reply(s.Calls()));
      ServeSameBut(s, c, reply);
      var s1 := Serve(s, c, reply);
      DrainTimedArms(s1.(ppq := s1.ppq[1..]), reply);
    }
  }

  lemma FecUntimedArms<P>(s: Peq<P>, reply: Replies<P>)
    requires NoticeAhead(s)
    ensures NoticeAhead(FecUntimed(s, reply)) && NextArmed(FecUntimed(s, reply))
  {
    var s0 := s.(k := Dispatched(s.k));
    DrainImmediateArms(s0, reply);
    DrainDeltaArms(DrainImmediate(s0, reply), reply);
  }

  /** Whatever was pending when `fec` was dispatched, it returns with everything due called and
      with the event armed for everything left. */
  lemma FecArms<P>(s: Peq<P>, reply: Replies<P>)
    requires NoneOverdue(s) && NoticeAhead(s)
    ensures var r := Fec(s, reply);
      && Armed(r) && !r.k.ready
      && r.k.now == s.k.now && r.k.delta == s.k.delta
  {
    FecUntimedKeeps(s, reply);
    FecUntimedArms(s, reply);
    var s2 := FecUntimed(s, reply);
    if s2.ppq != [] {
      DrainTimedKeeps(s2, reply);
      DrainTimedArms(s2, reply);
    }
  }

  // ------------------------------------------------------------------ what one fec calls

  /** The leading entries due now. */
  function DueNow<P>(q: seq<Entry<P>>, now: nat): seq<Call<P>> {
    if q == [] || q[0].t != now then [] else [Timed(q[0].p, now, q[0].d)] + DueNow(q[1..], now)
  }

  lemma {:induction false} DueNowInsert<P>(q: seq<Entry<P>>, e: Entry<P>, now: nat)
    requires now < e.t
    ensures DueNow(Insert(q, e), now) == DueNow(q, now)
  {
    if q == [] || e.t < q[0].t {
    } else {
      DueNowInsert(q[1..], e, now);
    }
  }

  lemma {:induction false} NotifyEachDueNow<P>(s: Peq<P>, rs: seq<Request<P>>)
    ensures DueNow(NotifyEach(s, rs).ppq, s.k.now) == DueNow(s.ppq, s.k.now)
    decreases |rs|
  {
    if rs != [] {
      var p, w := rs[0].p, rs[0].w;
      NotifySameBut(s, p, w);
      if w != 0 {
        DueNowInsert(s.ppq, Entry(p, w + s.k.now, s.k.delta), s.k.now);
      }
      NotifyEachDueNow(Notify(s, p, w), rs[1..]);
    }
  }

  lemma {:induction false} DrainImmediateCalls<P>(s: Peq<P>, reply: Replies<P>)
    ensures var r := DrainImmediate(s, reply);
      && r.log == s.log + TagImmediate(s.imm, s.k.now, s.k.delta)
      && DueNow(r.ppq, s.k.now) == DueNow(s.ppq, s.k.now)
    decreases |s.imm|
  {
    if s.imm != [] {
      var s1 := s.(imm := s.imm[1..]);
      var c := Immediate(s.imm[0], s.k.now, s.k.delta);
      ServeSameBut(s1, c, reply);
      NotifyEachDueNow(s1.(log := s.log + [c]), reply(s.Calls()));
      DrainImmediateCalls(Serve(s1, c, reply), reply);
    }
  }

  lemma PopDeltaCalls<P>(s: Peq<P>, reply: Replies<P>)
    requires s.current != []
    ensures var r := Serve(s.(current := s.current[1..]), Delta(s.current[0], s.k.now, s.k.delta), reply);
      && r.k.now == s.k.now && r.k.delta == s.k.delta && r.current == s.current[1..]
      && r.log == s.log + [Delta(s.current[0], s.k.now, s.k.delta)]
      && DueNow(r.ppq, s.k.now) == DueNow(s.ppq, s.k.now)
  {
    var c := Delta(s.current[0], s.k.now, s.k.delta);
    ServeSameBut(s.(current := s.current[1..]), c, reply);
    NotifyEachDueNow(s.(current := s.current[1..], log := s.log + [c]), reply(s.Calls()));
  }

  lemma {:induction false} DrainDeltaCalls<P>(s: Peq<P>, reply: Replies<P>)
    ensures var r := DrainDelta(s, reply);
      && r.log == s.log + Tag(s.current, s.k.now, s.k.delta)
      && DueNow(r.ppq, s.k.now) == DueNow(s.ppq, s.k.now)
    decreases |s.current|
  {
    var cur := s.current;
    if cur != [] {
      PopDeltaCalls(s, reply);
      DrainDeltaCalls(Serve(s.(current := s.current[1..]), Delta(cur[0], s.k.now, s.k.delta), reply), reply);
    }
  }

  lemma FecUntimedCalls<P>(s: Peq<P>, reply: Replies<P>)
    ensures var r := FecUntimed(s, reply);
      && r.log == s.log + TagImmediate(s.imm, s.k.now, s.k.delta) + Tag(s.current, s.k.now, s.k.delta)
      && DueNow(r.ppq, s.k.now) == DueNow(s.ppq, s.k.now)
  {
    var s0 := s.(k := Dispatched(s.k));
    DrainImmediateCalls(s0, reply);
    DrainImmediateKeeps(s0, reply);
    DrainDeltaCalls(DrainImmediate(s0, reply), reply);
  }

  lemma {:induction false} DrainTimedCalls<P>(s: Peq<P>, reply: Replies<P>)
    ensures DrainTimed(s, reply).log == s.log + DueNow(s.ppq, s.k.now)
    decreases |At(s.ppq, s.k.now)|
  {
    if s.ppq != [] && s.ppq[0].t == s.k.now {
      var c := Timed(s.ppq[0].p, s.k.now, s.ppq[0].d);
      ServeSameBut(s, c, reply);
      NotifyEachDueNow(s.(log := s.log + [c]), reply(s.Calls()));
      var s1 := Serve(s, c, reply);
      DrainTimedCalls(s1.(ppq := s1.ppq[1..]), reply);
    }
  }

  /** What is not due now is still queued: the next cycle's bucket grew at its end, and no later
      entry of the timed list has gone. */
  ghost predicate Kept<P>(s: Peq<P>, r: Peq<P>) {
    && r.k.now == s.k.now && s.next <= r.next
    && forall e | e in s.ppq && s.k.now < e.t :: multiset(s.ppq)[e] <= multiset(r.ppq)[e]
  }

  lemma KeptOn<P>(s: Peq<P>, r: Peq<P>, q: Peq<P>)
    requires Kept(s, r) && Kept(r, q)
    ensures Kept(s, q)
  {
    forall e | e in s.ppq && s.k.now < e.t ensures multiset(s.ppq)[e] <= multiset(q.ppq)[e] {
      assert e in multiset(s.ppq) && e in multiset(r.ppq);
    }
  }

  lemma NotifyKept<P>(s: Peq<P>, p: P, w: nat)
    ensures Kept(s, Notify(s, p, w))
  {
    if w != 0 {
      InsertMultiset(s.ppq, Entry(p, w + s.k.now, s.k.delta));
    }
  }

  lemma {:induction false} NotifyEachKept<P>(s: Peq<P>, rs: seq<Request<P>>)
    ensures Kept(s, NotifyEach(s, rs))
    decreases |rs|
  {
    if rs != [] {
      var s1 := Notify(s, rs[0].p, rs[0].w);
      NotifyKept(s, rs[0].p, rs[0].w);
      NotifyEachKept(s1, rs[1..]);
      KeptOn(s, s1, NotifyEach(s1, rs[1..]));
    }
  }

  lemma {:induction false} DrainImmediateKept<P>(s: Peq<P>, reply: Replies<P>)
    ensures Kept(s, DrainImmediate(s, reply))
    decreases |s.imm|
  {
    if s.imm != [] {
      var s1, c := s.(imm := s.imm[1..]), Immediate(s.imm[0], s.k.now, s.k.delta);
      ServeSameBut(s1, c, reply);
      NotifyEachKept(s1.(log := s1.log + [c]), reply(s1.Calls()));
      DrainImmediateKept(Serve(s1, c, reply), reply);
      KeptOn(s, Serve(s1, c, reply), DrainImmediate(s, reply));
    }
  }

  lemma {:induction false} DrainDeltaKept<P>(s: Peq<P>, reply: Replies<P>)
    ensures Kept(s, DrainDelta(s, reply))
    decreases |s.current|
  {
    if s.current != [] {
      var s1, c := s.(current := s.current[1..]), Delta(s.current[0], s.k.now, s.k.delta);
      ServeSameBut(s1, c, reply);
      NotifyEachKept(s1.(log := s1.log + [c]), reply(s1.Calls()));
      DrainDeltaKept(Serve(s1, c, reply), reply);
      KeptOn(s, Serve(s1, c, reply), DrainDelta(s, reply));
    }
  }

  lemma PopKept<P>(s: Peq<P>)
    requires s.ppq != [] && s.ppq[0].t == s.k.now
    ensures Kept(s, s.(ppq := s.ppq[1..]))
  {
    assert s.ppq == [s.ppq[0]] + s.ppq[1..];
  }

  lemma {:induction false} DrainTimedKept<P>(s: Peq<P>, reply: Replies<P>)
    ensures Kept(s, DrainTimed(s, reply))
    decreases |At(s.ppq, s.k.now)|
  {
    if s.ppq != [] && s.ppq[0].t == s.k.now {
      var c := Timed(s.ppq[0].p, s.k.now, s.ppq[0].d);
      ServeSameBut(s, c, reply);
      NotifyEachKept(s.(log := s.log + [c]), reply(s.Calls()));
      var s1 := Serve(s, c, reply);
      var s2 := s1.(ppq := s1.ppq[1..]);
      PopKept(s1);
      KeptOn(s, s1, s2);
      DrainTimedKept(s2, reply);
      KeptOn(s, s2, DrainTimed(s, reply));
    }
  }

  lemma FecKept<P>(s: Peq<P>, reply: Replies<P>)
    requires NoneOverdue(s)
    ensures Kept(s, Fec(s, reply))
  {
    var s0 := s.(k := Dispatched(s.k));
    var s1 := DrainImmediate(s0, reply);
    DrainImmediateKept(s0, reply);
    DrainDeltaKept(s1, reply);
    KeptOn(s0, s1, DrainDelta(s1, reply));
    FecUntimedKeeps(s, reply);
    var s2 := FecUntimed(s, reply);
    if s2.ppq != [] {
      DrainTimedKeeps(s2, reply);
      DrainTimedKept(s2, reply);
      KeptOn(s0, s2, DrainTimed(s2, reply));
    }
  }

  /** Whatever the callbacks notify, one `fec` calls exactly what was queued and due when it
      started: the immediate yields, then this cycle's bucket, then the due head of the timed
      list, each in order; and it removes just those. */
  lemma FecCallsExactly<P>(s: Peq<P>, reply: Replies<P>)
    requires NoneOverdue(s)
    ensures var r := Fec(s, reply);
      && r.log == s.log + TagImmediate(s.imm, s.k.now, s.k.delta) + Tag(s.current, s.k.now, s.k.delta)
                  + DueNow(s.ppq, s.k.now)
      && r.imm == [] && r.current == []
      && (r.ppq != [] ==> s.k.now < r.ppq[0].t)
      && Kept(s, r)
  {
    hide Kept;
    FecKept(s, reply);
    FecUntimedKeeps(s, reply);
    FecUntimedCalls(s, reply);
    var s2 := FecUntimed(s, reply);
    if s2.ppq != [] {
      DrainTimedKeeps(s2, reply);
      DrainTimedCalls(s2, reply);
    }
  }

  // ------------------------------------------------------------------ runs

  /** What can happen between two returns of `fec`: some process of the design calls the queue,
      the scheduler dispatches `fec`, or the scheduler starts the next evaluation phase. */
  datatype Step<P> =
    | DoNotify(p: P, w: nat)
    | DoNotifyNow(p: P)
    | DoCancelAll
    | DoFec
    | DoDelta
    | DoAdvance(t: nat)

  ghost predicate Enabled<P>(s: Peq<P>, step: Step<P>) {
    match step
    case DoNotify(_, _) => true
    case DoNotifyNow(_) => true
    case DoCancelAll => true
    case DoFec => s.k.ready && !s.k.running && NoneOverdue(s)
    case DoDelta => CanStartDelta(s.k)
    case DoAdvance(t) => CanAdvance(s.k, t)
  }

  ghost function Apply<P>(s: Peq<P>, step: Step<P>, reply: Replies<P>): Peq<P>
    requires Enabled(s, step)
  {
    match step
    case DoNotify(p, w) => Notify(s, p, w)
    case DoNotifyNow(p) => NotifyNow(s, p)
    case DoCancelAll => CancelAll(s)
    case DoFec => Fec(s, reply)
    case DoDelta => Tick(s, DeltaStarted(s.k))
    case DoAdvance(t) => Tick(s, Advanced(s.k, t))
  }

  /** `ss` are the states of a run that takes `steps` from a new queue in an idle scheduler. */
  ghost predicate IsRun<P>(ss: seq<Peq<P>>, steps: seq<Step<P>>, reply: Replies<P>) {
    && |ss| == |steps| + 1
    && ss[0] == Start(Kernel(ss[0].k.now, ss[0].k.delta, NoNotice, false, false))
    && forall i | 0 <= i < |steps| :: Enabled(ss[i], steps[i]) && ss[i + 1] == Apply(ss[i], steps[i], reply)
  }

  lemma NotifyArms<P>(s: Peq<P>, p: P, w: nat)
    requires Armed(s)
    ensures Armed(Notify(s, p, w))
  {
  }

  lemma StartDeltaKeeps<P>(s: Peq<P>)
    requires Balanced(s) && Armed(s) && CanStartDelta(s.k)
    ensures Balanced(Tick(s, DeltaStarted(s.k))) && Armed(Tick(s, DeltaStarted(s.k)))
  {
    hide TimedBalance, Only;
  }

  lemma AdvanceKeeps<P>(s: Peq<P>, t: nat)
    requires Balanced(s) && Armed(s) && CanAdvance(s.k, t)
    ensures Balanced(Tick(s, Advanced(s.k, t))) && Armed(Tick(s, Advanced(s.k, t)))
  {
    hide Agenda, Entries, Only;
  }

  lemma StepKeeps<P>(s: Peq<P>, step: Step<P>, reply: Replies<P>)
    requires Enabled(s, step) && Balanced(s) && Armed(s)
    ensures Balanced(Apply(s, step, reply)) && Armed(Apply(s, step, reply))
  {
    match step {
      case DoNotify(p, w) =>
        NotifyBalanced(s, p, w);
        NotifyArms(s, p, w);
      case DoNotifyNow(p) =>
        NotifyNowBalanced(s, p);
      case DoCancelAll =>
      case DoFec =>
        FecBalanced(s, reply);
        FecArms(s, reply);
      case DoDelta =>
        StartDeltaKeeps(s);
      case DoAdvance(t) =>
        AdvanceKeeps(s, t);
    }
  }

  lemma {:induction false} RunKeeps<P>(ss: seq<Peq<P>>, steps: seq<Step<P>>, reply: Replies<P>, i: nat)
    requires IsRun(ss, steps, reply) && i < |ss|
    ensures Balanced(ss[i]) && Armed(ss[i])
  {
    if i != 0 {
      RunKeeps(ss, steps, reply, i - 1);
      StepKeeps(ss[i - 1], steps[i - 1], reply);
    }
  }

  /** Whether a call asked for must have been made by now, once `fec` is not about to run. */
  predicate Due<P>(c: Call<P>, k: Kernel) {
    match c
    case Timed(_, t, _) => t <= k.now
    case Delta(_, _, c) => c <= k.delta
    case Immediate(_, _, _) => true
  }

  lemma TimedOnce<P>(s: Peq<P>, x: Call<P>)
    requires Balanced(s) && Armed(s) && !s.k.ready && x.Timed?
    ensures multiset(s.log)[x] == if x.t <= s.k.now then multiset(s.asked)[x] else 0
  {
    var e := Entry(x.p, x.t, x.d);
    AgendaMultiset(s.asked, x);
    EntriesMultiset(s.log, x);
    assert multiset(s.asked)[x] == multiset(Entries(s.log))[e] + multiset(s.ppq)[e];
    if e in s.ppq {
      assert s.ppq[0].t <= e.t;
    }
    if e in Entries(s.log) {
      EntriesIn(s.log, e);
    }
  }

  lemma {:induction false} DeltaCount<P>(next: seq<P>, now: nat, delta: nat, log: seq<Call<P>>, asked: seq<Call<P>>,
      x: Call<P>)
    requires DeltaBalance([], next, now, delta, log, asked) && x.Delta?
    ensures multiset(asked)[x] == multiset(log)[x] + multiset(Tag(next, now, delta + 1))[x]
  {
    OnlyMultiset(log, x);
    OnlyMultiset(asked, x);
  }

  lemma DeltaOnce<P>(s: Peq<P>, x: Call<P>)
    requires Balanced(s) && Armed(s) && !s.k.ready && x.Delta?
    ensures multiset(s.log)[x] == if x.c <= s.k.delta then multiset(s.asked)[x] else 0
  {
    DeltaCount(s.next, s.k.now, s.k.delta, s.log, s.asked, x);
    if x in Tag(s.next, s.k.now, s.k.delta + 1) {
      TagCycle(s.next, s.k.now, s.k.delta + 1, x);
    }
    if x in s.log {
      assert Happened(x, s.k);
    }
  }

  lemma ImmediateOnce<P>(s: Peq<P>, x: Call<P>)
    requires Balanced(s) && Armed(s) && !s.k.ready && x.Immediate?
    ensures multiset(s.log)[x] == multiset(s.asked)[x]
  {
    OnlyMultiset(s.log, x);
    OnlyMultiset(s.asked, x);
    assert s.imm == [];
    assert Only(s.asked, KImmediate) == Only(s.log, KImmediate);
  }

  // ------------------------------------------------------------------ what a run asks for

  /** The call that a delayed notification asks for. */
  function Ask<P>(p: P, w: nat, now: nat, delta: nat): Call<P> {
    if w == 0 then Delta(p, now, delta + 1) else Timed(p, now + w, delta)
  }

  function Asks<P>(rs: seq<Request<P>>, now: nat, delta: nat): seq<Call<P>> {
    if rs == [] then [] else [Ask(rs[0].p, rs[0].w, now, delta)] + Asks(rs[1..], now, delta)
  }

  /** What the owner asks for inside its callbacks number `a` to `b - 1`. */
  function AsksInside<P>(reply: Replies<P>, a: nat, b: nat, now: nat, delta: nat): seq<Call<P>>
    decreases b - a
  {
    if a >= b then [] else Asks(reply(a), now, delta) + AsksInside(reply, a + 1, b, now, delta)
  }

  /** What the steps of a run, up to the `i`-th, have asked for since the last cancel_all, be it
      from outside or, in the dispatches of `fec`, from inside the callbacks. */
  function Wanted<P>(ss: seq<Peq<P>>, steps: seq<Step<P>>, reply: Replies<P>, i: nat): seq<Call<P>>
    requires i < |ss| && |ss| == |steps| + 1
  {
    if i == 0 then []
    else
      var was, k := Wanted(ss, steps, reply, i - 1), ss[i - 1].k;
      match steps[i - 1]
      case DoNotify(p, w) => was + [Ask(p, w, k.now, k.delta)]
      case DoNotifyNow(p) => was + [Immediate(p, k.now, k.delta)]
      case DoCancelAll => []
      case DoFec => was + AsksInside(reply, ss[i - 1].Calls(), ss[i].Calls(), k.now, k.delta)
      case _ => was
  }

  lemma {:induction false} AsksInsideOn<P>(reply: Replies<P>, a: nat, b: nat, c: nat, now: nat, delta: nat)
    requires a <= b <= c
    ensures AsksInside(reply, a, c, now, delta)
      == AsksInside(reply, a, b, now, delta) + AsksInside(reply, b, c, now, delta)
    decreases b - a
  {
    if a < b {
      AsksInsideOn(reply, a + 1, b, c, now, delta);
    }
  }

  lemma NotifyAsks<P>(s: Peq<P>, p: P, w: nat)
    ensures var r := Notify(s, p, w);
      r.asked == s.asked + [Ask(p, w, s.k.now, s.k.delta)] && r.k.now == s.k.now && r.k.delta == s.k.delta
  {
  }

  lemma {:induction false} NotifyEachAsks<P>(s: Peq<P>, rs: seq<Request<P>>)
    ensures NotifyEach(s, rs).asked == s.asked + Asks(rs, s.k.now, s.k.delta)
    decreases |rs|
  {
    hide Notify, Ask;
    if rs != [] {
      var s1, c := Notify(s, rs[0].p, rs[0].w), Ask(rs[0].p, rs[0].w, s.k.now, s.k.delta);
      NotifyAsks(s, rs[0].p, rs[0].w);
      NotifyEachAsks(s1, rs[1..]);
      assert s.asked + ([c] + Asks(rs[1..], s.k.now, s.k.delta)) == s.asked + [c] + Asks(rs[1..], s.k.now, s.k.delta);
    }
  }

  /** From `s` to `r`, inside one dispatch, exactly what the callbacks asked for was added. */
  ghost predicate AsksBetween<P>(s: Peq<P>, r: Peq<P>, reply: Replies<P>) {
    && s.Calls() <= r.Calls() && r.k.now == s.k.now && r.k.delta == s.k.delta
    && r.asked == s.asked + AsksInside(reply, s.Calls(), r.Calls(), s.k.now, s.k.delta)
  }

  lemma AsksOn<P>(s: Peq<P>, r: Peq<P>, q: Peq<P>, reply: Replies<P>)
    requires AsksBetween(s, r, reply) && AsksBetween(r, q, reply)
    ensures AsksBetween(s, q, reply)
  {
    hide AsksInside;
    var now, delta := s.k.now, s.k.delta;
    var a := AsksInside(reply, s.Calls(), r.Calls(), now, delta);
    var b := AsksInside(reply, r.Calls(), q.Calls(), now, delta);
    assert s.asked + a + b == s.asked + (a + b);
    AsksInsideOn(reply, s.Calls(), r.Calls(), q.Calls(), s.k.now, s.k.delta);
  }

  lemma ServeAsks<P>(s: Peq<P>, c: Call<P>, reply: Replies<P>)
    ensures AsksBetween(s, Serve(s, c, reply), reply) && Serve(s, c, reply).Calls() == s.Calls() + 1
  {
    hide Asks;
    ServeSameBut(s, c, reply);
    NotifyEachAsks(s.(log := s.log + [c]), reply(s.Calls()));
    assert AsksInside(reply, s.Calls() + 1, s.Calls() + 1, s.k.now, s.k.delta) == [];
  }

  lemma {:induction false} DrainImmediateAsks<P>(s: Peq<P>, reply: Replies<P>)
    ensures AsksBetween(s, DrainImmediate(s, reply), reply)
    decreases |s.imm|
  {
    if s.imm != [] {
      var s1, c := s.(imm := s.imm[1..]), Immediate(s.imm[0], s.k.now, s.k.delta);
      ServeSameBut(s1, c, reply);
      ServeAsks(s1, c, reply);
      DrainImmediateAsks(Serve(s1, c, reply), reply);
      AsksOn(s1, Serve(s1, c, reply), DrainImmediate(s, reply), reply);
    }
  }

  lemma {:induction false} DrainDeltaAsks<P>(s: Peq<P>, reply: Replies<P>)
    ensures AsksBetween(s, DrainDelta(s, reply), reply)
    decreases |s.current|
  {
    if s.current != [] {
      var s1, c := s.(current := s.current[1..]), Delta(s.current[0], s.k.now, s.k.delta);
      ServeSameBut(s1, c, reply);
      ServeAsks(s1, c, reply);
      DrainDeltaAsks(Serve(s1, c, reply), reply);
      AsksOn(s1, Serve(s1, c, reply), DrainDelta(s, reply), reply);
    }
  }

  lemma {:induction false} DrainTimedAsks<P>(s: Peq<P>, reply: Replies<P>)
    ensures AsksBetween(s, DrainTimed(s, reply), reply)
    decreases |At(s.ppq, s.k.now)|
  {
    if s.ppq != [] && s.ppq[0].t == s.k.now {
      var c := Timed(s.ppq[0].p, s.k.now, s.ppq[0].d);
      ServeSameBut(s, c, reply);
      ServeAsks(s, c, reply);
      var s1 := Serve(s, c, reply);
      DrainTimedAsks(s1.(ppq := s1.ppq[1..]), reply);
      AsksOn(s, s1.(ppq := s1.ppq[1..]), DrainTimed(s, reply), reply);
    }
  }

  lemma FecAsks<P>(s: Peq<P>, reply: Replies<P>)
    requires NoneOverdue(s)
    ensures AsksBetween(s, Fec(s, reply), reply)
  {
    hide AsksInside, DrainImmediate, DrainDelta, DrainTimed;
    var s0 := s.(k := Dispatched(s.k));
    var s1 := DrainImmediate(s0, reply);
    DrainImmediateAsks(s0, reply);
    DrainDeltaAsks(s1, reply);
    AsksOn(s0, s1, DrainDelta(s1, reply), reply);
    FecUntimedKeeps(s, reply);
    var s2 := FecUntimed(s, reply);
    assert AsksBetween(s, s2, reply);
    if s2.ppq != [] {
      DrainTimedKeeps(s2, reply);
      DrainTimedAsks(s2, reply);
      AsksOn(s, s2, DrainTimed(s2, reply), reply);
    }
  }

  lemma {:induction false} AskedIsWanted<P>(ss: seq<Peq<P>>, steps: seq<Step<P>>, reply: Replies<P>, i: nat)
    requires IsRun(ss, steps, reply) && i < |ss|
    ensures ss[i].asked == Wanted(ss, steps, reply, i)
  {
    hide Insert, Fec, AsksInside;
    if i != 0 {
      AskedIsWanted(ss, steps, reply, i - 1);
      assert Enabled(ss[i - 1], steps[i - 1]) && ss[i - 1 + 1] == Apply(ss[i - 1], steps[i - 1], reply);
      if steps[i - 1].DoFec? {
        FecAsks(ss[i - 1], reply);
      }
    }
  }

  // ------------------------------------------------------------------ what a run calls

  /** At the end of every evaluation phase of every run, each call has been made exactly as
      often as it was asked for since the last cancel_all if it is due, and not at all if it is
      not. A call made carries the time and the delta cycle in which it was made, so this also
      says when. */
  lemma {:induction false} CalledExactlyOnce<P>(ss: seq<Peq<P>>, steps: seq<Step<P>>, reply: Replies<P>, i: nat,
      x: Call<P>)
    requires IsRun(ss, steps, reply) && i < |ss| && !ss[i].k.ready
    ensures multiset(ss[i].log)[x] == if Due(x, ss[i].k) then multiset(Wanted(ss, steps, reply, i))[x] else 0
  {
    hide Wanted;
    RunKeeps(ss, steps, reply, i);
    AskedIsWanted(ss, steps, reply, i);
    match x {
      case Timed(_, _, _) => TimedOnce(ss[i], x);
      case Delta(_, _, _) => DeltaOnce(ss[i], x);
      case Immediate(_, _, _) => ImmediateOnce(ss[i], x);
    }
  }

  /** In every state of every run the timed calls made are the first ones of the agenda, which
      is the stable sort by time of the notifications, and the delta and immediate calls made
      are the first ones notified. */
  lemma {:induction false} CalledInOrder<P>(ss: seq<Peq<P>>, steps: seq<Step<P>>, reply: Replies<P>, i: nat)
    requires IsRun(ss, steps, reply) && i < |ss|
    ensures Entries(ss[i].log) <= Agenda(Wanted(ss, steps, reply, i))
    ensures Only(ss[i].log, KDelta) <= Only(Wanted(ss, steps, reply, i), KDelta)
    ensures Only(ss[i].log, KImmediate) <= Only(Wanted(ss, steps, reply, i), KImmediate)
  {
    hide Wanted;
    RunKeeps(ss, steps, reply, i);
    AskedIsWanted(ss, steps, reply, i);
  }

  // ------------------------------------------------------------------ one notification

  lemma {:induction false} WantedStays<P>(ss: seq<Peq<P>>, steps: seq<Step<P>>, reply: Replies<P>, i: nat, j: nat)
    requires |ss| == |steps| + 1 && i <= j < |ss|
    requires forall h | i <= h < j :: !steps[h].DoCancelAll?
    ensures Wanted(ss, steps, reply, i) <= Wanted(ss, steps, reply, j)
  {
    if i < j {
      WantedStays(ss, steps, reply, i, j - 1);
    }
  }

  /** A payload notified and not cancelled has been called back, for that notification: with a
      positive delay, at its time, by the end of the first evaluation phase that finds the time
      reached; with zero delay, in the next delta cycle; and without a delay, at once. */
  lemma NotifiedIsCalled<P>(ss: seq<Peq<P>>, steps: seq<Step<P>>, reply: Replies<P>, i: nat, j: nat, p: P, w: nat)
    requires IsRun(ss, steps, reply) && i < j < |ss|
    requires steps[i] == DoNotify(p, w) || steps[i] == DoNotifyNow(p)
    requires forall h | i < h < j :: !steps[h].DoCancelAll?
    requires !ss[j].k.ready
    ensures var k := ss[i].k;
      if steps[i] == DoNotifyNow(p) then Immediate(p, k.now, k.delta) in ss[j].log
      else if w > 0 then k.now + w <= ss[j].k.now ==> Timed(p, k.now + w, k.delta) in ss[j].log
      else k.delta < ss[j].k.delta ==> Delta(p, k.now, k.delta + 1) in ss[j].log
  {
    hide Apply, Enabled;
    var k := ss[i].k;
    var x := if steps[i] == DoNotifyNow(p) then Immediate(p, k.now, k.delta) else Ask(p, w, k.now, k.delta);
    assert x == Wanted(ss, steps, reply, i + 1)[|Wanted(ss, steps, reply, i)|];
    WantedStays(ss, steps, reply, i + 1, j);
    assert x in Wanted(ss, steps, reply, j);
    CalledExactlyOnce(ss, steps, reply, j, x);
  }
}
