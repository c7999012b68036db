/** The payload event queue without callbacks: transactions are scheduled with `notify` and
    fetched with `get_next_transaction` by a consumer that waits for the queue's event. */
module PeqWithGet {
  import opened Kernel
  import opened Options
  import opened StableQueue

  /** One entry handed out at time `at`. */
  datatype Fetch<P> = Fetch(e: Entry<P>, at: nat)

  /** What was handed out and the notifications, both oldest first. */
  datatype History<P> = History(fetched: seq<Fetch<P>>, asked: seq<Entry<P>>)

  /** `events` is the multimap, an ordered sequence; `fetched` and `asked` are the history since the
      last cancel_all, and `past` the history before it. */
  datatype Queue<P> = Queue(
    k: Kernel,
    events: seq<Entry<P>>,
    fetched: seq<Fetch<P>>,
    asked: seq<Entry<P>>,
    past: History<P>)

  function Idle<P>(k: Kernel): Queue<P> {
    Queue(k, [], [], [], History([], []))
  }

  function Schedule<P>(s: Queue<P>, p: P, w: nat): Queue<P> {
    var e := Entry(p, w + s.k.now, 0);
    s.(events := Insert(s.events, e), asked := s.asked + [e])
  }

  function Notify<P>(s: Queue<P>, p: P, w: nat): Queue<P> {
    Schedule(s, p, w).(k := NotifyAfter(s.k, w))
  }

  function NotifyNow<P>(s: Queue<P>, p: P): Queue<P> {
    Schedule(s, p, 0).(k := NotifyImmediate(s.k))
  }

  function CancelAll<P>(s: Queue<P>): Queue<P> {
    Queue(CancelNotice(s.k), [], [], [], History(s.past.fetched + s.fetched, s.past.asked + s.asked))
  }

  predicate Fetches<P>(s: Queue<P>) {
    s.events != [] && s.events[0].t <= s.k.now
  }

  /** The state after one call of `get_next_transaction`. */
  function GetNext<P>(s: Queue<P>): Queue<P> {
    if Fetches(s) then
      s.(events := s.events[1..], fetched := s.fetched + [Fetch(s.events[0], s.k.now)])
    else if s.events == [] then s
    else s.(k := NotifyAfter(s.k, s.events[0].t - s.k.now))
  }

  /** The consumer calls until nothing is returned. */
  function Drain<P>(s: Queue<P>): Queue<P>
    decreases |s.events|
  {
    if Fetches(s) then Drain(GetNext(s)) else GetNext(s)
  }

  class PeqWithGet<P> {
    const sim: Simulator
    var m_scheduled_events: seq<Entry<P>>
    ghost var fetched: seq<Fetch<P>>
    ghost var asked: seq<Entry<P>>
    ghost var past: History<P>

    ghost function State(): Queue<P>
      reads this, sim
    {
      Queue(sim.k, m_scheduled_events, fetched, asked, past)
    }

    constructor (sim: Simulator)
      ensures this.sim == sim && State() == Idle(sim.k)
    {
      this.sim := sim;
      m_scheduled_events, fetched, asked, past := [], [], [], History([], []);
    }

    /** `multimap::insert`: behind all entries with an equal or smaller key. */
    method Place(e: Entry<P>)
      modifies this
      ensures State() == old(State()).(events := Insert(old(m_scheduled_events), e), asked := old(asked) + [e])
    {
      var i := 0;
      while i < |m_scheduled_events| && m_scheduled_events[i].t <= e.t
        invariant 0 <= i <= |m_scheduled_events|
        invariant forall j | 0 <= j < i :: m_scheduled_events[j].t <= e.t
      {
        i := i + 1;
      }
      InsertAtSplit(m_scheduled_events, e, i);
      m_scheduled_events := m_scheduled_events[..i] + [e] + m_scheduled_events[i..];
      asked := asked + [e];
    }

    /** The transaction is due `w` from now. */
    method NotifyIn(p: P, w: nat)
      modifies this, sim
      ensures State() == Notify(old(State()), p, w)
      ensures multiset(m_scheduled_events) ==
        multiset(old(m_scheduled_events)) + multiset{Entry(p, old(sim.k.now) + w, 0)}
    {
      InsertMultiset(m_scheduled_events, Entry(p, w + sim.k.now, 0));
      Place(Entry(p, w + sim.k.now, 0));
      sim.NotifyIn(w);
    }

    method NotifyImmediately(p: P)
      modifies this, sim
      ensures State() == NotifyNow(old(State()), p)
      ensures multiset(m_scheduled_events) == multiset(old(m_scheduled_events)) + multiset{Entry(p, old(sim.k.now), 0)}
    {
      InsertMultiset(m_scheduled_events, Entry(p, sim.k.now, 0));
      Place(Entry(p, sim.k.now, 0));
      sim.Notify();
    }

    method GetNextTransaction() returns (p: Option<P>)
      modifies this, sim
      ensures State() == GetNext(old(State()))
      ensures var q, now := old(m_scheduled_events), old(sim.k.now);
        if q != [] && q[0].t <= now then
          p == Some(q[0].p) && m_scheduled_events == q[1..] && fetched == old(fetched) + [Fetch(q[0], now)]
        else
          p == None && m_scheduled_events == q && fetched == old(fetched)
    {
      if m_scheduled_events == [] {
        return None;
      }
      var head := m_scheduled_events[0];
      if head.t <= sim.k.now {
        m_scheduled_events := m_scheduled_events[1..];
        fetched := fetched + [Fetch(head, sim.k.now)];
        return Some(head.p);
      }
      sim.NotifyIn(head.t - sim.k.now);
      return None;
    }

    method CancelEverything()
      modifies this, sim
      ensures State() == CancelAll(old(State()))
      ensures m_scheduled_events == [] && sim.k.notice == NoNotice
    {
      m_scheduled_events := [];
      sim.Cancel();
      past := History(past.fetched + fetched, past.asked + asked);
      fetched, asked := [], [];
    }
  }

  // ------------------------------------------------------------------ runs

  /** Any process may notify, cancel or fetch; the consumer, once woken, drains the queue. */
  datatype Step<P> =
    | DoNotify(p: P, w: nat)
    | DoNotifyNow(p: P)
    | DoCancelAll
    | DoGet
    | DoWake
    | DoDelta
    | DoAdvance(t: nat)

  predicate Enabled<P>(s: Queue<P>, step: Step<P>) {
    match step
    case DoWake => s.k.ready
    case DoDelta => CanStartDelta(s.k)
    case DoAdvance(t) => CanAdvance(s.k, t)
    case _ => true
  }

  function Apply<P>(s: Queue<P>, step: Step<P>): Queue<P>
    requires Enabled(s, step)
  {
    match step
    case DoNotify(p, w) => Notify(s, p, w)
    case DoNotifyNow(p) => NotifyNow(s, p)
    case DoCancelAll => CancelAll(s)
    case DoGet => GetNext(s)
    case DoWake => var r := Drain(s.(k := Dispatched(s.k))); r.(k := Returned(r.k))
    case DoDelta => s.(k := DeltaStarted(s.k))
    case DoAdvance(t) => s.(k := Advanced(s.k, t))
  }

  ghost predicate IsRun<P>(ss: seq<Queue<P>>, steps: seq<Step<P>>) {
    && |ss| == |steps| + 1
    && ss[0] == Idle(Kernel(ss[0].k.now, ss[0].k.delta, NoNotice, false, false))
    && forall i | 0 <= i < |steps| :: Enabled(ss[i], steps[i]) && ss[i + 1] == Apply(ss[i], steps[i])
  }

  function Sort<P>(es: seq<Entry<P>>): seq<Entry<P>> {
    if es == [] then [] else Insert(Sort(es[..|es| - 1]), es[|es| - 1])
  }

  function Dues<P>(fs: seq<Fetch<P>>): seq<Entry<P>> {
    if fs == [] then [] else Dues(fs[..|fs| - 1]) + [fs[|fs| - 1].e]
  }

  lemma {:induction false} DuesAt<P>(fs: seq<Fetch<P>>, i: nat)
    requires i < |fs|
    ensures |Dues(fs)| == |fs| && Dues(fs)[i] == fs[i].e
  {
    if i < |fs| - 1 {
      DuesAt(fs[..|fs| - 1], i);
    } else if |fs| > 1 {
      DuesAt(fs[..|fs| - 1], 0);
    }
  }

  lemma {:induction false} SortAppend<P>(es: seq<Entry<P>>, e: Entry<P>)
    ensures Sort(es + [e]) == Insert(Sort(es), e)
  {
  }

  lemma {:induction false} DuesPast<P>(fs: seq<Fetch<P>>, now: nat, x: Entry<P>)
    requires forall f | f in fs :: f.e.t <= f.at <= now
    requires x in Dues(fs)
    ensures x.t <= now
  {
    if fs != [] { DuesAt(fs, 0); }
    var i :| 0 <= i < |Dues(fs)| && Dues(fs)[i] == x;
    DuesAt(fs, i);
    assert fs[i] in fs;
  }

  lemma {:induction false} DuesConcat<P>(fs: seq<Fetch<P>>, gs: seq<Fetch<P>>)
    ensures Dues(fs + gs) == Dues(fs) + Dues(gs)
  {
    if gs == [] {
      assert fs + gs == fs;
    } else {
      assert (fs + gs)[..|fs + gs| - 1] == fs + gs[..|gs| - 1];
      DuesConcat(fs, gs[..|gs| - 1]);
    }
  }

  ghost predicate Early<P>(fs: seq<Fetch<P>>, now: nat) {
    forall f | f in fs :: f.e.t <= f.at <= now
  }

  /** Everything asked for is either fetched already or still queued, in order of due time and,
      among equal times, of notification; and nothing was fetched early. */
  ghost predicate Balanced<P>(s: Queue<P>) {
    Sort(s.asked) == Dues(s.fetched) + s.events && Early(s.fetched, s.k.now)
  }

  /** The same for the past, where what was cancelled is missing; and all of it was due before
      anything that was asked for since. */
  ghost predicate Settled<P>(s: Queue<P>) {
    && Early(s.past.fetched, s.k.now)
    && multiset(Dues(s.past.fetched)) <= multiset(s.past.asked)
    && Sorted(Dues(s.past.fetched))
    && (forall e | e in Dues(s.past.fetched) :: Before(e, s.asked))
  }

  ghost predicate Before<P>(e: Entry<P>, es: seq<Entry<P>>) {
    forall x | x in es :: e.t <= x.t
  }

  ghost predicate Armed<P>(s: Queue<P>) {
    && !s.k.running
    && (s.k.notice.TimedNotice? ==> s.k.now < s.k.notice.at)
    && (s.events != [] ==>
        || s.k.ready || s.k.notice.DeltaNotice?
        || (s.k.now < s.events[0].t && s.k.notice.TimedNotice? && s.k.notice.at <= s.events[0].t))
  }

  ghost predicate Sound<P>(s: Queue<P>) {
    Balanced(s) && Settled(s) && Armed(s)
  }

  lemma ScheduleKeeps<P>(s: Queue<P>, p: P, w: nat)
    requires Balanced(s) && Settled(s)
    ensures Balanced(Schedule(s, p, w)) && Settled(Schedule(s, p, w))
  {
    hide Insert, Sort, Dues;
    var e := Entry(p, w + s.k.now, 0);
    SortAppend(s.asked, e);
    forall x | x in Dues(s.fetched) ensures x.t <= e.t {
      DuesPast(s.fetched, s.k.now, x);
    }
    InsertBehind(Dues(s.fetched), s.events, e);
    forall x | x in Dues(s.past.fetched) ensures Before(x, s.asked + [e]) {
      DuesPast(s.past.fetched, s.k.now, x);
    }
  }

  lemma NotifyKeeps<P>(s: Queue<P>, p: P, w: nat)
    requires Sound(s)
    ensures Sound(Notify(s, p, w))
  {
    hide Sort, Dues, Insert;
    ScheduleKeeps(s, p, w);
    var i := InsertSplits(s.events, Entry(p, w + s.k.now, 0));
  }

  lemma NotifyNowKeeps<P>(s: Queue<P>, p: P)
    requires Sound(s)
    ensures Sound(NotifyNow(s, p))
  {
    hide Sort, Dues, Insert;
    ScheduleKeeps(s, p, 0);
  }

  lemma CancelKeeps<P>(s: Queue<P>)
    requires Sound(s)
    ensures Sound(CancelAll(s))
  {
    hide Sort, Dues, Insert;
    var earlier, later := Dues(s.past.fetched), Dues(s.fetched);
    NothingYet<P>();
    DuesConcat(s.past.fetched, s.fetched);
    SortSorts(s.asked);
    SortMultiset(s.asked);
    SortedPrefix(later, s.events);
    MultisetPrefix(later, s.events);
    FromAsked(later, s.asked);
    SortedConcat(earlier, later);
  }

  lemma NothingYet<P>()
    ensures Sort<P>([]) == [] && Dues<P>([]) == []
  {
  }

  lemma SortedPrefix<P>(a: seq<Entry<P>>, b: seq<Entry<P>>)
    requires Sorted(a + b)
    ensures Sorted(a)
  {
    assert a == (a + b)[..|a|];
  }

  lemma FromAsked<P>(es: seq<Entry<P>>, asked: seq<Entry<P>>)
    requires multiset(es) <= multiset(asked)
    ensures forall e | e in es :: e in asked
  {
    assert forall e | e in es :: e in multiset(es);
  }

  lemma MultisetPrefix<P>(a: seq<Entry<P>>, b: seq<Entry<P>>)
    ensures multiset(a) <= multiset(a + b)
  {
  }

  lemma SortedConcat<P>(a: seq<Entry<P>>, b: seq<Entry<P>>)
    requires Sorted(a) && Sorted(b) && forall e | e in a :: Before(e, b)
    ensures Sorted(a + b)
  {
    forall i, j | 0 <= i < |a| && 0 <= j < |b| ensures a[i].t <= b[j].t {
      assert Before(a[i], b);
    }
  }

  lemma {:induction false} DuesAppend<P>(fs: seq<Fetch<P>>, f: Fetch<P>)
    ensures Dues(fs + [f]) == Dues(fs) + [f.e]
  {
    assert (fs + [f])[..|fs|] == fs;
  }

  lemma FetchBalanced<P>(s: Queue<P>)
    requires Balanced(s) && Fetches(s)
    ensures Balanced(GetNext(s))
  {
    hide Sort, Dues;
    DuesAppend(s.fetched, Fetch(s.events[0], s.k.now));
    assert s.events == [s.events[0]] + s.events[1..];
  }

  lemma GetNextKeeps<P>(s: Queue<P>)
    requires Balanced(s) && Settled(s)
    ensures Balanced(GetNext(s)) && Settled(GetNext(s))
  {
    hide Sort, Dues, Sorted, Before;
    if Fetches(s) {
      FetchBalanced(s);
    }
  }

  /** The notification of the event only ever moves forward to a time to come. */
  ghost predicate Ahead(k: Kernel) {
    k.notice.TimedNotice? ==> k.now < k.notice.at
  }

  lemma {:induction false} DrainKeeps<P>(s: Queue<P>)
    requires Balanced(s) && Settled(s) && Ahead(s.k)
    ensures var r := Drain(s);
      && Balanced(r) && Settled(r) && !Fetches(r)
      && r.k.now == s.k.now && r.k.ready == s.k.ready && r.k.running == s.k.running && Ahead(r.k)
      && (r.events != [] ==> r.k.notice.DeltaNotice? || (r.k.notice.TimedNotice? && r.k.notice.at <= r.events[0].t))
    decreases |s.events|
  {
    hide Balanced, Settled;
    GetNextKeeps(s);
    if Fetches(s) {
      DrainKeeps(GetNext(s));
    }
  }

  lemma WakeKeeps<P>(s: Queue<P>)
    requires Sound(s) && s.k.ready
    ensures Sound(Apply(s, DoWake))
  {
    hide Sort, Dues, Sorted, Before, Early, Drain;
    DrainKeeps(s.(k := Dispatched(s.k)));
  }

  lemma StepKeeps<P>(s: Queue<P>, step: Step<P>)
    requires Enabled(s, step) && Sound(s)
    ensures Sound(Apply(s, step))
  {
    hide Sort, Dues, Sorted, Before, Insert, Drain;
    match step {
      case DoNotify(p, w) => NotifyKeeps(s, p, w);
      case DoNotifyNow(p) => NotifyNowKeeps(s, p);
      case DoCancelAll => CancelKeeps(s);
      case DoGet => GetNextKeeps(s);
      case DoWake => WakeKeeps(s);
      case _ =>
    }
  }

  lemma {:induction false} RunKeeps<P>(ss: seq<Queue<P>>, steps: seq<Step<P>>, i: nat)
    requires IsRun(ss, steps) && i < |ss|
    ensures Sound(ss[i])
  {
    if i != 0 {
      hide Sound, Apply, Enabled;
      RunKeeps(ss, steps, i - 1);
      StepKeeps(ss[i - 1], steps[i - 1]);
    }
  }

  lemma {:induction false} SortSorts<P>(es: seq<Entry<P>>)
    ensures Sorted(Sort(es))
  {
    hide Insert;
    if es != [] {
      SortSorts(es[..|es| - 1]);
      InsertSorted(Sort(es[..|es| - 1]), es[|es| - 1]);
    }
  }

  lemma {:induction false} SortMultiset<P>(es: seq<Entry<P>>)
    ensures multiset(Sort(es)) == multiset(es)
  {
    hide Insert;
    if es != [] {
      var front, e := es[..|es| - 1], es[|es| - 1];
      SortMultiset(front);
      InsertMultiset(Sort(front), e);
      assert es == front + [e];
    }
  }

  /** What the steps of a run, up to the `i`-th, have notified since the last cancellation: each
      transaction with the time it is due, which is its delay after the time of the call. */
  function Notified<P>(ss: seq<Queue<P>>, steps: seq<Step<P>>, i: nat): seq<Entry<P>>
    requires i < |ss| && |ss| == |steps| + 1
  {
    if i == 0 then []
    else match steps[i - 1]
      case DoNotify(p, w) => Notified(ss, steps, i - 1) + [Entry(p, ss[i - 1].k.now + w, 0)]
      case DoNotifyNow(p) => Notified(ss, steps, i - 1) + [Entry(p, ss[i - 1].k.now, 0)]
      case DoCancelAll => []
      case _ => Notified(ss, steps, i - 1)
  }

  /** The same without forgetting what was cancelled. */
  function EverNotified<P>(ss: seq<Queue<P>>, steps: seq<Step<P>>, i: nat): seq<Entry<P>>
    requires i < |ss| && |ss| == |steps| + 1
  {
    if i == 0 then []
    else match steps[i - 1]
      case DoNotify(p, w) => EverNotified(ss, steps, i - 1) + [Entry(p, ss[i - 1].k.now + w, 0)]
      case DoNotifyNow(p) => EverNotified(ss, steps, i - 1) + [Entry(p, ss[i - 1].k.now, 0)]
      case _ => EverNotified(ss, steps, i - 1)
  }

  function Each<P>(es: seq<Entry<P>>, now: nat): seq<Fetch<P>> {
    if es == [] then [] else [Fetch(es[0], now)] + Each(es[1..], now)
  }

  /** What a step took off the front of the queue. */
  function Taken<P>(q: seq<Entry<P>>, r: seq<Entry<P>>, now: nat): seq<Fetch<P>> {
    if |r| <= |q| then Each(q[..|q| - |r|], now) else []
  }

  /** What the consumer's calls have handed out in the steps of a run, up to the `i`-th. */
  function HandedOut<P>(ss: seq<Queue<P>>, steps: seq<Step<P>>, i: nat): seq<Fetch<P>>
    requires i < |ss| && |ss| == |steps| + 1
  {
    if i == 0 then []
    else
      HandedOut(ss, steps, i - 1) +
      (if steps[i - 1].DoGet? || steps[i - 1].DoWake? then Taken(ss[i - 1].events, ss[i].events, ss[i - 1].k.now)
       else [])
  }

  lemma {:induction false} GetNextHands<P>(s: Queue<P>)
    ensures |GetNext(s).events| <= |s.events|
    ensures GetNext(s).fetched == s.fetched + Taken(s.events, GetNext(s).events, s.k.now)
    ensures GetNext(s).past == s.past && GetNext(s).k.now == s.k.now
  {
    if Fetches(s) {
      assert s.events[..1] == [s.events[0]];
      assert Each(s.events[..1], s.k.now) == [Fetch(s.events[0], s.k.now)];
    }
  }

  lemma {:induction false} DrainHands<P>(s: Queue<P>)
    ensures |Drain(s).events| <= |s.events|
    ensures Drain(s).fetched == s.fetched + Taken(s.events, Drain(s).events, s.k.now)
    decreases |s.events|
  {
    hide Each;
    GetNextHands(s);
    if Fetches(s) {
      var r := Drain(s);
      DrainHands(GetNext(s));
      EachFirst(s.events, |s.events| - |r.events|, s.k.now);
    }
  }

  lemma {:induction false} EachFirst<P>(q: seq<Entry<P>>, n: nat, now: nat)
    requires 0 < n <= |q|
    ensures Each(q[..n], now) == [Fetch(q[0], now)] + Each(q[1..][..n - 1], now)
    ensures Each(q[..1], now) == [Fetch(q[0], now)]
  {
    assert q[..n][1..] == q[1..][..n - 1];
    assert q[..1] == [q[0]];
    assert Each<P>([], now) == [];
  }

  lemma {:induction false} HistoryIs<P>(ss: seq<Queue<P>>, steps: seq<Step<P>>, i: nat)
    requires IsRun(ss, steps) && i < |ss|
    ensures ss[i].past.asked + ss[i].asked == EverNotified(ss, steps, i)
    ensures ss[i].past.fetched + ss[i].fetched == HandedOut(ss, steps, i)
  {
    hide Insert, Drain, GetNext, Taken;
    if i != 0 {
      HistoryIs(ss, steps, i - 1);
      assert Enabled(ss[i - 1], steps[i - 1]) && ss[i - 1 + 1] == Apply(ss[i - 1], steps[i - 1]);
      GetNextHands(ss[i - 1]);
      GetNextAsks(ss[i - 1]);
      DrainHands(ss[i - 1].(k := Dispatched(ss[i - 1].k)));
      DrainAsks(ss[i - 1].(k := Dispatched(ss[i - 1].k)));
    }
  }

  lemma GetNextAsks<P>(s: Queue<P>)
    ensures GetNext(s).asked == s.asked
  {
  }

  lemma {:induction false} DrainAsks<P>(s: Queue<P>)
    ensures Drain(s).asked == s.asked && Drain(s).past == s.past
    decreases |s.events|
  {
    if Fetches(s) {
      DrainAsks(GetNext(s));
    }
  }

  lemma {:induction false} AskedIsNotified<P>(ss: seq<Queue<P>>, steps: seq<Step<P>>, i: nat)
    requires IsRun(ss, steps) && i < |ss|
    ensures ss[i].asked == Notified(ss, steps, i)
  {
    hide Insert, Drain;
    if i != 0 {
      AskedIsNotified(ss, steps, i - 1);
      assert Enabled(ss[i - 1], steps[i - 1]) && ss[i - 1 + 1] == Apply(ss[i - 1], steps[i - 1]);
      DrainAsks(ss[i - 1].(k := Dispatched(ss[i - 1].k)));
    }
  }

  /** Whenever the consumer has drained the queue, each transaction that is due has been fetched
      exactly as often as it was notified, and none that is not due. */
  lemma DrainedIsFetched<P>(ss: seq<Queue<P>>, steps: seq<Step<P>>, j: nat, e: Entry<P>)
    requires IsRun(ss, steps) && j < |steps| && steps[j] == DoWake
    ensures multiset(Dues(ss[j + 1].fetched))[e]
      == if e.t <= ss[j].k.now then multiset(Notified(ss, steps, j))[e] else 0
  {
    hide Insert, Sort, Dues, Notified, Drain, Sorted, Before;
    var s := ss[j + 1];
    RunKeeps(ss, steps, j);
    RunKeeps(ss, steps, j + 1);
    AskedIsNotified(ss, steps, j);
    assert Enabled(ss[j], steps[j]) && s == Apply(ss[j], steps[j]);
    DrainKeeps(ss[j].(k := Dispatched(ss[j].k)));
    DrainAsks(ss[j].(k := Dispatched(ss[j].k)));
    SortSorts(s.asked);
    SortMultiset(s.asked);
    SplitAt(Dues(s.fetched), s.events, s.k.now, e);
    if e in Dues(s.fetched) {
      DuesPast(s.fetched, s.k.now, e);
    }
  }

  lemma SplitAt<P>(front: seq<Entry<P>>, back: seq<Entry<P>>, now: nat, e: Entry<P>)
    requires Sorted(front + back) && (back != [] ==> now < back[0].t)
    ensures e.t <= now ==> multiset(front)[e] == multiset(front + back)[e]
  {
    if e in back {
      var i :| 0 <= i < |back| && back[i] == e;
      assert (front + back)[|front|] == back[0] && (front + back)[|front| + i] == e;
    }
  }

  lemma {:induction false} NotifiedStays<P>(ss: seq<Queue<P>>, steps: seq<Step<P>>, i: nat, j: nat, e: Entry<P>)
    requires |ss| == |steps| + 1 && i <= j < |ss| && forall h | i <= h < j :: steps[h] != DoCancelAll
    requires e in Notified(ss, steps, i)
    ensures e in Notified(ss, steps, j)
  {
    if i < j {
      NotifiedStays(ss, steps, i, j - 1, e);
    }
  }

  /** So a transaction that was notified, at once or with a delay, and not cancelled has been
      fetched once the consumer has been woken at its due time or later. */
  lemma NotifiedIsFetched<P>(ss: seq<Queue<P>>, steps: seq<Step<P>>, i: nat, j: nat, p: P, w: nat)
    requires IsRun(ss, steps) && i < j < |steps| && steps[j] == DoWake
    requires steps[i] == DoNotify(p, w) || (steps[i] == DoNotifyNow(p) && w == 0)
    requires forall h | i < h < j :: steps[h] != DoCancelAll
    requires ss[i].k.now + w <= ss[j].k.now
    ensures Entry(p, ss[i].k.now + w, 0) in Dues(ss[j + 1].fetched)
  {
    hide Dues, Apply, Enabled;
    var e := Entry(p, ss[i].k.now + w, 0);
    assert e == Notified(ss, steps, i + 1)[|Notified(ss, steps, i + 1)| - 1];
    NotifiedStays(ss, steps, i + 1, j, e);
    DrainedIsFetched(ss, steps, j, e);
  }

  /** Over a whole run, across any cancellations, no transaction is handed out more often than it
      was notified, none before its due time, and due times never decrease; and since the last
      cancellation nothing was lost. */
  lemma {:induction false} FetchedOnceInOrder<P>(ss: seq<Queue<P>>, steps: seq<Step<P>>, i: nat)
    requires IsRun(ss, steps) && i < |ss|
    ensures var all := HandedOut(ss, steps, i);
      && multiset(Dues(all)) <= multiset(EverNotified(ss, steps, i))
      && (forall f | f in all :: f.e.t <= f.at <= ss[i].k.now)
      && (forall a, b | 0 <= a < b < |all| :: all[a].e.t <= all[b].e.t)
    ensures multiset(Dues(ss[i].fetched)) + multiset(ss[i].events) == multiset(Notified(ss, steps, i))
  {
    hide Sort, Dues, HandedOut, EverNotified, Notified, Apply, Enabled;
    var s := ss[i];
    HistoryIs(ss, steps, i);
    AskedIsNotified(ss, steps, i);
    var all := s.past.fetched + s.fetched;
    RunKeeps(ss, steps, i);
    SortMultiset(s.asked);
    CancelKeeps(s);
    assert Settled(CancelAll(s));
    forall a, b | 0 <= a < b < |all| ensures all[a].e.t <= all[b].e.t {
      DuesAt(all, a);
      DuesAt(all, b);
    }
  }

  /** While something is queued, the consumer is about to run or the event is armed for the
      head's time at the latest; so when the next phase starts with the head due, it is woken. */
  lemma WakeUpArmed<P>(ss: seq<Queue<P>>, steps: seq<Step<P>>, i: nat)
    requires IsRun(ss, steps) && i < |ss| && ss[i].events != []
    ensures
      || ss[i].k.ready || ss[i].k.notice.DeltaNotice?
      || (ss[i].k.notice.TimedNotice? && ss[i].k.now < ss[i].k.notice.at <= ss[i].events[0].t)
    ensures i < |steps| && steps[i].DoAdvance? ==>
      steps[i].t <= ss[i].events[0].t && (steps[i].t == ss[i].events[0].t ==> ss[i + 1].k.ready)
  {
    RunKeeps(ss, steps, i);
  }
}
