/** The abstract queue that both payload event queues refine: entries ordered by time, and in
    order of insertion among equal times. */
module StableQueue {

  /** `t` is the time the entry is due, `d` the delta count of its insertion. */
  datatype Entry<P> = Entry(p: P, t: nat, d: nat)

  ghost predicate Sorted<P>(q: seq<Entry<P>>) {
    forall i, j | 0 <= i < j < |q| :: q[i].t <= q[j].t
  }

  function Insert<P>(q: seq<Entry<P>>, e: Entry<P>): (r: seq<Entry<P>>)
    ensures |r| == |q| + 1
  {
    if q == [] || e.t < q[0].t then [e] + q else [q[0]] + Insert(q[1..], e)
  }

  /** Where the new entry goes: behind everything due no later, before the first later one. */
  lemma {:induction false} InsertSplits<P>(q: seq<Entry<P>>, e: Entry<P>) returns (k: nat)
    ensures k <= |q| && Insert(q, e) == q[..k] + [e] + q[k..]
    ensures forall i | 0 <= i < k :: q[i].t <= e.t
    ensures k < |q| ==> e.t < q[k].t
  {
    if q == [] || e.t < q[0].t {
      k := 0;
    } else {
      var k' := InsertSplits(q[1..], e);
      k := k' + 1;
      assert q[..k] == [q[0]] + q[1..][..k'];
      assert q[k..] == q[1..][k'..];
    }
  }

  /** And only one split has that property. */
  lemma {:induction false} InsertAtSplit<P>(q: seq<Entry<P>>, e: Entry<P>, k: nat)
    requires k <= |q|
    requires forall i | 0 <= i < k :: q[i].t <= e.t
    requires k < |q| ==> e.t < q[k].t
    ensures Insert(q, e) == q[..k] + [e] + q[k..]
  {
    if k > 0 {
      InsertAtSplit(q[1..], e, k - 1);
      assert q[..k] == [q[0]] + q[1..][..k - 1];
      assert q[k..] == q[1..][k - 1..];
    }
  }

  lemma {:induction false} InsertSorted<P>(q: seq<Entry<P>>, e: Entry<P>)
    requires Sorted(q)
    ensures Sorted(Insert(q, e))
  {
    var k := InsertSplits(q, e);
    assert forall i | k <= i < |q| :: e.t < q[i].t;
  }

  lemma {:induction false} InsertMultiset<P>(q: seq<Entry<P>>, e: Entry<P>)
    ensures multiset(Insert(q, e)) == multiset(q) + multiset{e}
  {
    var k := InsertSplits(q, e);
    assert q == q[..k] + q[k..];
  }

  /** An entry due after all of `front` is inserted behind `front`. */
  lemma {:induction false} InsertBehind<P>(front: seq<Entry<P>>, q: seq<Entry<P>>, e: Entry<P>)
    requires forall x | x in front :: x.t <= e.t
    ensures Insert(front + q, e) == front + Insert(q, e)
  {
    if front == [] {
      assert front + q == q;
    } else {
      assert front[0] in front;
      assert (front + q)[1..] == front[1..] + q;
      InsertBehind(front[1..], q, e);
    }
  }

  /** The entries due at time `t`, in queue order. */
  function At<P>(q: seq<Entry<P>>, t: nat): seq<Entry<P>> {
    if q == [] then []
    else if q[0].t == t then [q[0]] + At(q[1..], t)
    else At(q[1..], t)
  }

  lemma {:induction false} AtConcat<P>(q: seq<Entry<P>>, r: seq<Entry<P>>, t: nat)
    ensures At(q + r, t) == At(q, t) + At(r, t)
  {
    if q == [] {
      assert q + r == r;
    } else {
      assert (q + r)[1..] == q[1..] + r;
      AtConcat(q[1..], r, t);
    }
  }

  lemma {:induction false} AtNone<P>(q: seq<Entry<P>>, t: nat)
    requires forall e | e in q :: e.t != t
    ensures At(q, t) == []
  {
    if q != [] {
      assert q[0] in q;
      AtNone(q[1..], t);
    }
  }

  /** Stability: insertion appends to its own time and leaves every other time alone. */
  lemma {:induction false} InsertAt<P>(q: seq<Entry<P>>, e: Entry<P>, t: nat)
    requires Sorted(q)
    ensures At(Insert(q, e), t) == At(q, t) + (if e.t == t then [e] else [])
  {
    var k := InsertSplits(q, e);
    AtConcat(q[..k] + [e], q[k..], t);
    AtConcat(q[..k], [e], t);
    assert q[..k] + q[k..] == q;
    AtConcat(q[..k], q[k..], t);
    if e.t == t {
      forall x | x in q[k..] ensures x.t != t {
        var i :| 0 <= i < |q[k..]| && q[k..][i] == x;
        assert q[k].t <= q[k + i].t;
      }
      AtNone(q[k..], t);
    }
  }
}
