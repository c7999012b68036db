/** The payload event queue with callbacks, as an object over its timed list, its two parity
    buckets and its immediate bucket. Every operation is proved to do to `State()` what the
    model says. */
module PeqWithCallback {
  import opened Kernel
  import opened StableQueue
  import opened PeqModel
  import TOL = TimeOrderedList
  import DL = DeltaList

  class PeqWithCallback<P(0)> {
    const sim: Simulator
    const m_ppq: TOL.TimeOrderedList<P>
    const m_uneven: DL.DeltaList<P>
    const m_even: DL.DeltaList<P>
    const m_immediate: DL.DeltaList<P>

    /** The owner: what its n-th callback notifies, and how many callbacks it has had. */
    const reply: Replies<P>
    var calls: nat

    ghost var past: seq<Call<P>>
    ghost var log: seq<Call<P>>
    ghost var asked: seq<Call<P>>
    ghost var Repr: set<object>

    ghost predicate Valid()
      reads this, Repr
      ensures Valid() ==> this in Repr
    {
      && {this, sim, m_ppq, m_uneven, m_even, m_immediate} <= Repr
      && Repr == {this, sim, m_uneven, m_even, m_immediate} + m_ppq.Repr
      && {this, sim, m_uneven, m_even, m_immediate} !! m_ppq.Repr
      && m_uneven != m_even && m_uneven != m_immediate && m_even != m_immediate
      && m_ppq.Valid() && m_uneven.Valid() && m_even.Valid() && m_immediate.Valid()
      && calls == |past| + |log|
    }

    /** No bucket is being read. */
    ghost predicate AtRest()
      reads m_uneven, m_even, m_immediate
    {
      m_uneven.out == 0 && m_even.out == 0 && m_immediate.out == 0
    }

    ghost function State(): Peq<P>
      requires Valid()
      reads this, Repr
    {
      var odd := sim.k.delta % 2 == 1;
      Peq(sim.k, m_ppq.contents,
          if odd then m_uneven.contents else m_even.contents,
          if odd then m_even.contents else m_uneven.contents,
          m_immediate.contents, past, log, asked)
    }

    constructor (sim: Simulator, reply: Replies<P>)
      requires !sim.k.running
      ensures Valid() && AtRest() && fresh(Repr - {sim}) && this.sim == sim
      ensures State() == Start(sim.k)
    {
      this.sim := sim;
      this.reply := reply;
      m_ppq := new TOL.TimeOrderedList();
      m_uneven := new DL.DeltaList();
      m_even := new DL.DeltaList();
      m_immediate := new DL.DeltaList();
      calls := 0;
      past, log, asked := [], [], [];
      new;
      Repr := {this, sim, m_uneven, m_even, m_immediate} + m_ppq.Repr;
    }

    /** Fills the bucket of the other parity, so that the next delta cycle puts it out. */
    method NotifyDelta(p: P)
      requires Valid()
      modifies Repr
      ensures Valid() && fresh(Repr - old(Repr))
      ensures State() == Notify(old(State()), p, 0)
      ensures m_uneven.out == old(m_uneven.out) && m_even.out == old(m_even.out)
      ensures m_immediate.out == old(m_immediate.out)
    {
      hide TOL.TimeOrderedList.Valid;
      if sim.k.delta % 2 == 1 {
        m_even.Insert(p);
      } else {
        m_uneven.Insert(p);
      }
      sim.NotifyIn(0);
      asked := asked + [Delta(p, sim.k.now, sim.k.delta + 1)];
    }

    method NotifyTimed(p: P, w: nat)
      requires Valid() && 0 < w
      modifies Repr
      ensures Valid() && fresh(Repr - old(Repr))
      ensures State() == Notify(old(State()), p, w)
      ensures m_uneven.out == old(m_uneven.out) && m_even.out == old(m_even.out)
      ensures m_immediate.out == old(m_immediate.out)
    {
      hide TOL.TimeOrderedList.Valid, DL.DeltaList.Valid, StableQueue.Insert;
      m_ppq.Insert(p, w + sim.k.now, sim.k.delta);
      Repr := {this, sim, m_uneven, m_even, m_immediate} + m_ppq.Repr;
      sim.NotifyIn(w);
      asked := asked + [Timed(p, w + sim.k.now, sim.k.delta)];
    }

    method NotifyIn(p: P, w: nat)
      requires Valid()
      modifies Repr
      ensures Valid() && fresh(Repr - old(Repr))
      ensures State() == Notify(old(State()), p, w)
      ensures m_uneven.out == old(m_uneven.out) && m_even.out == old(m_even.out)
      ensures m_immediate.out == old(m_immediate.out)
    {
      if w == 0 {
        NotifyDelta(p);
      } else {
        NotifyTimed(p, w);
      }
    }

    method NotifyImmediately(p: P)
      requires Valid() && AtRest()
      modifies Repr
      ensures Valid() && AtRest() && fresh(Repr - old(Repr))
      ensures State() == NotifyNow(old(State()), p)
    {
      m_immediate.Insert(p);
      sim.Notify();
      asked := asked + [Immediate(p, sim.k.now, sim.k.delta)];
    }

    method CancelAll()
      requires Valid()
      modifies Repr
      ensures Valid() && AtRest() && fresh(Repr - old(Repr))
      ensures State() == PeqModel.CancelAll(old(State()))
      ensures var s := State(); s.ppq == [] && s.current == [] && s.next == [] && s.imm == [] && s.k.notice == NoNotice
    {
      hide TOL.TimeOrderedList.Valid;
      m_ppq.Reset();
      m_uneven.Reset();
      m_even.Reset();
      m_immediate.Reset();
      sim.Cancel();
      past, log, asked := past + log, [], [];
    }

    /** The delayed notifications of one callback. */
    method NotifyAll(rs: seq<Request<P>>)
      requires Valid()
      modifies Repr
      ensures Valid() && fresh(Repr - old(Repr))
      ensures State() == NotifyEach(old(State()), rs)
      ensures m_uneven.out == old(m_uneven.out) && m_even.out == old(m_even.out)
      ensures m_immediate.out == old(m_immediate.out)
    {
      hide Valid, State, TOL.TimeOrderedList.Valid, DL.DeltaList.Valid, Notify;
      assert rs[0..] == rs;
      var i := 0;
      while i < |rs|
        invariant 0 <= i <= |rs|
        invariant Valid() && fresh(Repr - old(Repr))
        invariant NotifyEach(State(), rs[i..]) == NotifyEach(old(State()), rs)
        invariant m_uneven.out == old(m_uneven.out) && m_even.out == old(m_even.out)
        invariant m_immediate.out == old(m_immediate.out)
      {
        assert rs[i..][1..] == rs[i + 1..];
        NotifyIn(rs[i].p, rs[i].w);
        i := i + 1;
      }
    }

    /** The owner's callback, with the delayed notifications it makes. */
    method Callback(p: P, ghost c: Call<P>)
      requires Valid() && c.p == p
      modifies Repr
      ensures Valid() && fresh(Repr - old(Repr))
      ensures State() == Serve(old(State()), c, reply)
      ensures m_uneven.out == old(m_uneven.out) && m_even.out == old(m_even.out)
      ensures m_immediate.out == old(m_immediate.out)
    {
      hide TOL.TimeOrderedList.Valid, DL.DeltaList.Valid, NotifyEach;
      var rs := reply(calls);
      calls := calls + 1;
      log := log + [c];
      NotifyAll(rs);
    }

    /** One round of each drain: the payload leaves its queue and is called back. */

    method CallImmediate()
      requires Valid() && m_immediate.contents != []
      modifies Repr
      ensures Valid() && fresh(Repr - old(Repr))
      ensures var s := old(State());
        State() == Serve(s.(imm := s.imm[1..]), Immediate(s.imm[0], s.k.now, s.k.delta), reply)
      ensures m_uneven.out == old(m_uneven.out) && m_even.out == old(m_even.out)
    {
      hide TOL.TimeOrderedList.Valid, NotifyEach;
      ghost var s := State();
      var p := m_immediate.Get();
      assert State() == s.(imm := s.imm[1..]);
      Callback(p, Immediate(p, sim.k.now, sim.k.delta));
    }

    method CallDelta(b: DL.DeltaList<P>)
      requires Valid() && b == (if sim.k.delta % 2 == 1 then m_uneven else m_even) && b.contents != []
      modifies Repr
      ensures Valid() && fresh(Repr - old(Repr))
      ensures var s := old(State());
        State() == Serve(s.(current := s.current[1..]), Delta(s.current[0], s.k.now, s.k.delta), reply)
      ensures m_immediate.out == old(m_immediate.out)
      ensures b == m_uneven ==> m_even.out == old(m_even.out)
      ensures b == m_even ==> m_uneven.out == old(m_uneven.out)
    {
      hide TOL.TimeOrderedList.Valid, NotifyEach;
      ghost var s := State();
      var p := b.Get();
      assert State() == s.(current := s.current[1..]);
      Callback(p, Delta(p, sim.k.now, sim.k.delta));
    }

    /** The callback first, then `delete_top`, which therefore removes whatever heads the list
        after the callback. */
    method CallTimed()
      requires Valid() && m_ppq.contents != []
      modifies Repr
      ensures Valid() && fresh(Repr - old(Repr))
      ensures var s := old(State());
        var s1 := Serve(s, Timed(s.ppq[0].p, s.k.now, s.ppq[0].d), reply);
        State() == s1.(ppq := if s1.ppq == [] then [] else s1.ppq[1..])
      ensures m_uneven.out == old(m_uneven.out) && m_even.out == old(m_even.out)
      ensures m_immediate.out == old(m_immediate.out)
    {
      hide NotifyEach;
      var p := m_ppq.Top();
      Callback(p, Timed(p, sim.k.now, m_ppq.contents[0].d));
      DeleteHead();
    }

    method DeleteHead()
      requires Valid()
      modifies Repr
      ensures Valid() && Repr == old(Repr)
      ensures var s := old(State()); State() == s.(ppq := if s.ppq == [] then [] else s.ppq[1..])
      ensures m_uneven.out == old(m_uneven.out) && m_even.out == old(m_even.out)
      ensures m_immediate.out == old(m_immediate.out)
    {
      hide TOL.TimeOrderedList.Valid;
      m_ppq.DeleteTop();
    }

    /** The immediate yields. */
    method PutOutImmediate()
      requires Valid()
      modifies Repr
      ensures Valid() && fresh(Repr - old(Repr))
      ensures State() == DrainImmediate(old(State()), reply)
      ensures m_uneven.out == old(m_uneven.out) && m_even.out == old(m_even.out) && m_immediate.out == 0
    {
      hide TOL.TimeOrderedList.Valid;
      var more := m_immediate.HasNext();
      while more
        invariant Valid() && fresh(Repr - old(Repr))
        invariant more <==> State().imm != []
        invariant DrainImmediate(State(), reply) == DrainImmediate(old(State()), reply)
        invariant m_uneven.out == old(m_uneven.out) && m_even.out == old(m_even.out)
        decreases |State().imm|
      {
        ghost var s := State();
        ServeSameBut(s.(imm := s.imm[1..]), Immediate(s.imm[0], s.k.now, s.k.delta), reply);
        CallImmediate();
        more := m_immediate.HasNext();
      }
      m_immediate.Reset();
    }

    /** The bucket of this delta cycle's parity. */
    method PutOutBucket(b: DL.DeltaList<P>)
      requires Valid() && b == if sim.k.delta % 2 == 1 then m_uneven else m_even
      modifies Repr
      ensures Valid() && fresh(Repr - old(Repr))
      ensures State() == DrainDelta(old(State()), reply)
      ensures b.out == 0 && m_immediate.out == old(m_immediate.out)
      ensures b == m_uneven ==> m_even.out == old(m_even.out)
      ensures b == m_even ==> m_uneven.out == old(m_uneven.out)
    {
      hide TOL.TimeOrderedList.Valid;
      var more := b.HasNext();
      while more
        invariant Valid() && fresh(Repr - old(Repr))
        invariant sim.k.delta == old(sim.k.delta)
        invariant more <==> State().current != []
        invariant DrainDelta(State(), reply) == DrainDelta(old(State()), reply)
        invariant m_immediate.out == old(m_immediate.out)
        invariant b == m_uneven ==> m_even.out == old(m_even.out)
        invariant b == m_even ==> m_uneven.out == old(m_uneven.out)
        decreases |State().current|
      {
        ghost var s := State();
        ServeSameBut(s.(current := s.current[1..]), Delta(s.current[0], s.k.now, s.k.delta), reply);
        CallDelta(b);
        more := b.HasNext();
      }
      b.Reset();
    }

    /** The timed payloads due now. */
    method PutOutTimed() returns (top: nat)
      requires Valid()
      modifies Repr
      ensures Valid() && fresh(Repr - old(Repr))
      ensures State() == DrainTimed(old(State()), reply)
      ensures m_uneven.out == old(m_uneven.out) && m_even.out == old(m_even.out)
      ensures m_immediate.out == old(m_immediate.out)
      ensures m_ppq.contents != [] ==> top == m_ppq.contents[0].t
    {
      hide TOL.TimeOrderedList.Valid;
      var now := sim.k.now;
      top := m_ppq.TopTime();
      var left := m_ppq.GetSize();
      while left != 0 && top == now
        invariant Valid() && fresh(Repr - old(Repr))
        invariant left == |State().ppq|
        invariant sim.k.now == now
        invariant State().ppq != [] ==> top == State().ppq[0].t
        invariant DrainTimed(State(), reply) == DrainTimed(old(State()), reply)
        invariant m_uneven.out == old(m_uneven.out) && m_even.out == old(m_even.out)
        invariant m_immediate.out == old(m_immediate.out)
        decreases |At(State().ppq, now)|
      {
        ghost var s := State();
        ServeSameBut(s, Timed(s.ppq[0].p, now, s.ppq[0].d), reply);
        CallTimed();
        top := m_ppq.TopTime();
        left := m_ppq.GetSize();
      }
    }

    /** `b` is the bucket that the next delta cycle will put out. */
    method RearmDelta(b: DL.DeltaList<P>)
      requires Valid() && b == (if sim.k.delta % 2 == 1 then m_even else m_uneven) && b.out == 0
      modifies sim
      ensures Valid() && State() == Rearm(old(State()))
    {
      hide TOL.TimeOrderedList.Valid;
      if b.size != 0 {
        sim.NotifyIn(0);
      }
    }

    method RearmTop(top: nat)
      requires Valid() && NoneOverdue(State())
      requires State().ppq != [] ==> top == State().ppq[0].t
      modifies sim
      ensures Valid() && State() == RearmTimed(old(State()))
    {
      hide TOL.TimeOrderedList.Valid;
      var left := m_ppq.GetSize();
      if left != 0 {
        assert State().ppq[0] in State().ppq;
        sim.NotifyIn(top - sim.k.now);
      }
    }

    method Dispatch()
      requires Valid()
      modifies sim
      ensures Valid() && State() == old(State()).(k := Dispatched(old(sim.k)))
    {
      hide TOL.TimeOrderedList.Valid;
      sim.Dispatch();
    }

    method Return()
      requires Valid()
      modifies sim
      ensures Valid() && State() == old(State()).(k := Returned(old(sim.k)))
    {
      hide TOL.TimeOrderedList.Valid;
      sim.Return();
    }

    /** `fec` up to its early return. */
    method FecUntil()
      requires Valid() && AtRest()
      modifies Repr
      ensures Valid() && AtRest() && fresh(Repr - old(Repr))
      ensures State() == FecUntimed(old(State()), reply)
    {
      hide TOL.TimeOrderedList.Valid, DL.DeltaList.Valid, DrainDelta, DrainImmediate;
      Dispatch();
      DrainImmediateKeeps(State(), reply);
      PutOutImmediate();
      DrainDeltaKeeps(State(), reply);
      if sim.k.delta % 2 == 1 {
        PutOutBucket(m_uneven);
        RearmDelta(m_even);
      } else {
        PutOutBucket(m_even);
        RearmDelta(m_uneven);
      }
    }

    /** The process `fec`, from dispatch to return. */
    method Fec()
      requires Valid() && AtRest() && sim.k.ready && NoneOverdue(State())
      modifies Repr
      ensures Valid() && AtRest() && fresh(Repr - old(Repr))
      ensures State() == PeqModel.Fec(old(State()), reply)
    {
      hide TOL.TimeOrderedList.Valid, DL.DeltaList.Valid, DrainTimed, FecUntimed;
      FecUntimedKeeps(State(), reply);
      FecUntil();
      var left := m_ppq.GetSize();
      if left == 0 {
        Return();
        return;
      }
      DrainTimedKeeps(State(), reply);
      var top := PutOutTimed();
      RearmTop(top);
      Return();
    }

    /** The two ways in which the scheduler starts another evaluation phase. The delta count
        changes parity, so the buckets change roles without being touched. */

    method NextDeltaCycle()
      requires Valid() && CanStartDelta(sim.k)
      modifies sim
      ensures Valid() && State() == Tick(old(State()), DeltaStarted(old(sim.k)))
    {
      hide TOL.TimeOrderedList.Valid;
      sim.StartDelta();
    }

    method AdvanceTime(t: nat)
      requires Valid() && CanAdvance(sim.k, t)
      modifies sim
      ensures Valid() && State() == Tick(old(State()), Advanced(old(sim.k), t))
    {
      hide TOL.TimeOrderedList.Valid;
      sim.Advance(t);
    }
  }
}
