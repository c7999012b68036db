/** The state of one payload event queue with callbacks, and what each of its operations does
    to that state. `Peq` (class) implements these functions; `PeqRuns` proves what every run
    of them keeps. */
module PeqModel {
  import opened Kernel
  import opened StableQueue

  /** One call of the owner's callback: out of the timed list at time `t`, out of a delta
      bucket at time `t` in delta cycle `c`, or as an immediate yield. */
  datatype Call<P> =
    | Timed(p: P, t: nat, d: nat)
    | Delta(p: P, t: nat, c: nat)
    | Immediate(p: P, t: nat, c: nat)

  /** A delayed notify made from inside a callback. */
  datatype Request<P> = Request(p: P, w: nat)

  /** What the owner does inside its n-th callback. Every deterministic or nondeterministic
      owner behaves, along any one run, like some such function. */
  type Replies<!P> = nat -> seq<Request<P>>

  /** `current` is the bucket that this delta cycle puts out and `next` the one it fills: which
      of the two is the even and which the uneven bucket depends on the parity of the delta
      count, and they change places with every new delta cycle.
      `past` holds the calls made before the last cancel_all. `log` holds the calls made since,
      and `asked` the calls that the notifications since then asked for, both oldest first. */
  datatype Peq<P> = Peq(
    k: Kernel,
    ppq: seq<Entry<P>>,
    current: seq<P>,
    next: seq<P>,
    imm: seq<P>,
    past: seq<Call<P>>,
    log: seq<Call<P>>,
    asked: seq<Call<P>>)
  {
    function Calls(): nat { |past| + |log| }
  }

  function Start<P>(k: Kernel): Peq<P> {
    Peq(k, [], [], [], [], [], [], [])
  }

  function Notify<P>(s: Peq<P>, p: P, w: nat): Peq<P> {
    if w == 0 then
      s.(next := s.next + [p], k := NotifyAfter(s.k, 0), asked := s.asked + [Delta(p, s.k.now, s.k.delta + 1)])
    else
      s.(ppq := Insert(s.ppq, Entry(p, w + s.k.now, s.k.delta)),
         k := NotifyAfter(s.k, w),
         asked := s.asked + [Timed(p, w + s.k.now, s.k.delta)])
  }

  function NotifyNow<P>(s: Peq<P>, p: P): Peq<P> {
    s.(imm := s.imm + [p], k := NotifyImmediate(s.k), asked := s.asked + [Immediate(p, s.k.now, s.k.delta)])
  }

  function CancelAll<P>(s: Peq<P>): Peq<P> {
    Peq(CancelNotice(s.k), [], [], [], [], s.past + s.log, [], [])
  }

  /** The scheduler starts another evaluation phase, with the next delta count. */
  function Tick<P>(s: Peq<P>, k: Kernel): Peq<P> {
    s.(k := k, current := s.next, next := s.current)
  }

  function NotifyEach<P>(s: Peq<P>, rs: seq<Request<P>>): (r: Peq<P>)
    decreases |rs|
  {
    if rs == [] then s else NotifyEach(Notify(s, rs[0].p, rs[0].w), rs[1..])
  }

  function Serve<P>(s: Peq<P>, c: Call<P>, reply: Replies<P>): Peq<P> {
    NotifyEach(s.(log := s.log + [c]), reply(s.Calls()))
  }

  /** What the notifications of a callback leave alone. */
  ghost predicate SameBut<P>(s: Peq<P>, r: Peq<P>) {
    && r.k.now == s.k.now && r.k.delta == s.k.delta
    && r.k.ready == s.k.ready && r.k.running == s.k.running
    && r.imm == s.imm && r.current == s.current
    && r.past == s.past && r.log == s.log
    && At(r.ppq, s.k.now) == At(s.ppq, s.k.now)
    && (s.ppq != [] && s.ppq[0].t <= s.k.now ==> r.ppq != [] && r.ppq[0] == s.ppq[0])
  }

  /** Nothing in the timed list is overdue. */
  ghost predicate NoneOverdue<P>(s: Peq<P>) {
    forall e | e in s.ppq :: s.k.now <= e.t
  }

  lemma {:induction false} InsertElsewhere<P>(q: seq<Entry<P>>, e: Entry<P>, now: nat)
    requires now < e.t
    ensures At(Insert(q, e), now) == At(q, now)
    ensures q != [] && q[0].t <= now ==> Insert(q, e)[0] == q[0]
  {
    if q == [] || e.t < q[0].t {
      assert ([e] + q)[1..] == q;
    } else {
      InsertElsewhere(q[1..], e, now);
    }
  }

  lemma NotifySameBut<P>(s: Peq<P>, p: P, w: nat)
    ensures SameBut(s, Notify(s, p, w))
    ensures NoneOverdue(s) ==> NoneOverdue(Notify(s, p, w))
  {
    if w != 0 {
      var e := Entry(p, w + s.k.now, s.k.delta);
      InsertElsewhere(s.ppq, e, s.k.now);
      var i := InsertSplits(s.ppq, e);
    }
  }

  lemma {:induction false} NotifyEachSameBut<P>(s: Peq<P>, rs: seq<Request<P>>)
    ensures SameBut(s, NotifyEach(s, rs))
    ensures NoneOverdue(s) ==> NoneOverdue(NotifyEach(s, rs))
    decreases |rs|
  {
    if rs != [] {
      NotifySameBut(s, rs[0].p, rs[0].w);
      NotifyEachSameBut(Notify(s, rs[0].p, rs[0].w), rs[1..]);
    }
  }

  lemma ServeSameBut<P>(s: Peq<P>, c: Call<P>, reply: Replies<P>)
    ensures SameBut(s.(log := s.log + [c]), Serve(s, c, reply))
    ensures NoneOverdue(s) ==> NoneOverdue(Serve(s, c, reply))
  {
    NotifyEachSameBut(s.(log := s.log + [c]), reply(s.Calls()));
  }

  /** The three drains of `fec`, in source order. */

  function DrainImmediate<P>(s: Peq<P>, reply: Replies<P>): Peq<P>
    decreases |s.imm|
  {
    if s.imm == [] then s
    else
      var s1 := s.(imm := s.imm[1..]);
      var c := Immediate(s.imm[0], s.k.now, s.k.delta);
      ServeSameBut(s1, c, reply);
      DrainImmediate(Serve(s1, c, reply), reply)
  }

  function DrainDelta<P>(s: Peq<P>, reply: Replies<P>): Peq<P>
    decreases |s.current|
  {
    if s.current == [] then s
    else
      var c := Delta(s.current[0], s.k.now, s.k.delta);
      ServeSameBut(s.(current := s.current[1..]), c, reply);
      DrainDelta(Serve(s.(current := s.current[1..]), c, reply), reply)
  }

  /** The callback comes first and `delete_top` after it, so what is deleted is whatever heads
      the list when the callback has returned. */
  function DrainTimed<P>(s: Peq<P>, reply: Replies<P>): Peq<P>
    decreases |At(s.ppq, s.k.now)|
  {
    if s.ppq == [] || s.ppq[0].t != s.k.now then s
    else
      var c := Timed(s.ppq[0].p, s.k.now, s.ppq[0].d);
      ServeSameBut(s, c, reply);
      var s1 := Serve(s, c, reply);
      DrainTimed(s1.(ppq := s1.ppq[1..]), reply)
  }

  lemma {:induction false} DrainImmediateKeeps<P>(s: Peq<P>, reply: Replies<P>)
    ensures var r := DrainImmediate(s, reply);
      SameBut(s.(imm := [], log := r.log), r) && (NoneOverdue(s) ==> NoneOverdue(r))
    decreases |s.imm|
  {
    if s.imm != [] {
      var s1 := s.(imm := s.imm[1..]);
      var c := Immediate(s.imm[0], s.k.now, s.k.delta);
      ServeSameBut(s1, c, reply);
      DrainImmediateKeeps(Serve(s1, c, reply), reply);
    }
  }

  lemma {:induction false} DrainDeltaKeeps<P>(s: Peq<P>, reply: Replies<P>)
    ensures var r := DrainDelta(s, reply);
      && r.current == [] && r.imm == s.imm && r.past == s.past
      && r.k.now == s.k.now && r.k.delta == s.k.delta && r.k.ready == s.k.ready && r.k.running == s.k.running
      && At(r.ppq, s.k.now) == At(s.ppq, s.k.now)
      && (NoneOverdue(s) ==> NoneOverdue(r))
    decreases |s.current|
  {
    if s.current != [] {
      var c := Delta(s.current[0], s.k.now, s.k.delta);
      ServeSameBut(s.(current := s.current[1..]), c, reply);
      DrainDeltaKeeps(Serve(s.(current := s.current[1..]), c, reply), reply);
    }
  }

  /** `m_e.notify(SC_ZERO_TIME)` when the bucket of the next cycle is not empty. */
  function Rearm<P>(s: Peq<P>): Peq<P> {
    if s.next != [] then s.(k := NotifyAfter(s.k, 0)) else s
  }

  /** `m_e.notify(top - now)` when something is left in the timed list. */
  function RearmTimed<P>(s: Peq<P>): Peq<P>
    requires NoneOverdue(s)
  {
    if s.ppq == [] then s
    else assert s.ppq[0] in s.ppq; s.(k := NotifyAfter(s.k, s.ppq[0].t - s.k.now))
  }

  lemma {:induction false} DrainTimedKeeps<P>(s: Peq<P>, reply: Replies<P>)
    requires NoneOverdue(s)
    ensures var r := DrainTimed(s, reply);
      && NoneOverdue(r) && (r.ppq != [] ==> s.k.now < r.ppq[0].t)
      && r.current == s.current && r.imm == s.imm && r.past == s.past
      && r.k.now == s.k.now && r.k.delta == s.k.delta && r.k.ready == s.k.ready && r.k.running == s.k.running
    decreases |At(s.ppq, s.k.now)|
  {
    if s.ppq == [] {
    } else if s.ppq[0].t != s.k.now {
      assert s.ppq[0] in s.ppq;
    } else {
      var c := Timed(s.ppq[0].p, s.k.now, s.ppq[0].d);
      ServeSameBut(s, c, reply);
      var s1 := Serve(s, c, reply);
      DrainTimedKeeps(s1.(ppq := s1.ppq[1..]), reply);
    }
  }

  /** The part of `fec` before its early return. */
  function FecUntimed<P>(s: Peq<P>, reply: Replies<P>): Peq<P> {
    Rearm(DrainDelta(DrainImmediate(s.(k := Dispatched(s.k)), reply), reply))
  }

  lemma FecUntimedKeeps<P>(s: Peq<P>, reply: Replies<P>)
    requires NoneOverdue(s)
    ensures var r := FecUntimed(s, reply);
      && NoneOverdue(r) && r.current == [] && r.imm == [] && r.past == s.past
      && r.k.now == s.k.now && r.k.delta == s.k.delta && !r.k.ready && r.k.running
  {
    var s0 := s.(k := Dispatched(s.k));
    DrainImmediateKeeps(s0, reply);
    DrainDeltaKeeps(DrainImmediate(s0, reply), reply);
  }

  /** One run of the process `fec`, from dispatch to return. */
  function Fec<P>(s: Peq<P>, reply: Replies<P>): Peq<P>
    requires NoneOverdue(s)
  {
    FecUntimedKeeps(s, reply);
    var s2 := FecUntimed(s, reply);
    if s2.ppq == [] then s2.(k := Returned(s2.k))
    else
      DrainTimedKeeps(s2, reply);
      var s3 := RearmTimed(DrainTimed(s2, reply));
      s3.(k := Returned(s3.k))
  }
}
