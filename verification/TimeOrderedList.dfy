/** The hand-made list behind the timed notifications: a chain of live elements ending in the
    sentinel `nill`, and a chain of emptied elements kept for reuse. */
module TimeOrderedList {
  import opened StableQueue

  class Element<P(0)> {
    var next: Element?<P>
    var p: P
    var t: nat
    var d: nat

    /** `new element()`: the payload and the delta count start unspecified. */
    constructor ()
      ensures next == null && t == 0
    {
      next := null;
      t := 0;
    }
  }

  class TimeOrderedList<P(0)> {
    var nill: Element<P>
    var empties: Element?<P>
    var list: Element<P>
    var size: nat

    ghost var Repr: set<object>
    ghost var live: seq<Element<P>>
    ghost var free: seq<Element<P>>
    ghost var contents: seq<Entry<P>>
    ghost var peak: nat


    /** The two chains are acyclic and share no element, `size` counts the live ones, and no
        more elements were ever allocated than were live at once. */
    ghost predicate Valid()
      reads this, Repr
      ensures Valid() ==> this in Repr
    {
      && this in Repr && nill in Repr
      && (forall e | e in live :: e in Repr && e !in free)
      && (forall e | e in free :: e in Repr)
      && nill !in free
      && LiveChain()
      && Distinct(free) && Chain(free, null) && empties == Head(free, null)
      && |live| + |free| == peak
    }

    /** The live chain spells `contents`. */
    ghost predicate LiveChain()
      reads `nill, `list, `live, `size, `contents, live
      ensures LiveChain() ==> size == |live|
    {
      && nill !in live && Distinct(live)
      && Chain(live, nill) && list == Head(live, nill)
      && size == |live| && Holds(live, contents) && Sorted(contents)
    }

    static ghost predicate Distinct(es: seq<Element<P>>) {
      forall i, j | 0 <= i < j < |es| :: es[i] != es[j]
    }

    static ghost function Head(es: seq<Element<P>>, end: Element?<P>): Element?<P> {
      if es == [] then end else es[0]
    }

    static ghost function Follower(es: seq<Element<P>>, i: nat, end: Element?<P>): Element?<P> {
      if i + 1 < |es| then es[i + 1] else end
    }

    static ghost predicate Chain(es: seq<Element<P>>, end: Element?<P>)
      reads es`next
    {
      forall i | 0 <= i < |es| :: es[i].next == Follower(es, i, end)
    }

    static ghost predicate Holds(es: seq<Element<P>>, q: seq<Entry<P>>)
      reads es`p, es`t, es`d
      ensures Holds(es, q) ==> |es| == |q|
    {
      |es| == |q| && forall i | 0 <= i < |es| :: q[i] == Entry(es[i].p, es[i].t, es[i].d)
    }

    constructor ()
      ensures Valid() && fresh(Repr) && contents == [] && peak == 0
    {
      nill := new Element();
      empties := null;
      list := nill;
      size := 0;
      live, free, contents, peak := [], [], [], 0;
      Repr := {this, nill};
    }

    /** Allocates an element when there is none to reuse. */
    method Refill()
      requires Valid()
      modifies this
      ensures Valid() && fresh(Repr - old(Repr)) && free != []
      ensures live == old(live) && contents == old(contents) && nill == old(nill)
      ensures peak == if old(free) == [] then old(peak) + 1 else old(peak)
      ensures old(free) != [] ==> free == old(free)
    {
      if empties == null {
        empties := new Element();
        free := [empties];
        Repr := Repr + {empties};
        peak := peak + 1;
      }
    }

    /** Takes the first free element and fills it. */
    method TakeEmpty(p: P, t: nat, delta: nat) returns (e: Element<P>)
      requires Valid() && free != []
      modifies `empties, `free, free[0]
      ensures e == old(free[0]) && free == old(free)[1..]
      ensures e.p == p && e.t == t && e.d == delta
      ensures Chain(free, null) && empties == Head(free, null) && LiveChain()
    {
      hide LiveChain;
      assert free[0] in free;
      e := empties;
      empties := e.next;
      free := free[1..];
      e.p := p;
      e.t := t;
      e.d := delta;
    }

    /** Walks past every element due no later than `t`. */
    method FindPlace(t: nat) returns (ancestor: Element<P>, cursor: Element<P>, ghost k: nat)
      requires nill !in live && Chain(live, nill) && Holds(live, contents) && list == Head(live, nill)
      ensures k <= |live|
      ensures ancestor == if k == 0 then nill else live[k - 1]
      ensures cursor == if k < |live| then live[k] else nill
      ensures forall i | 0 <= i < k :: contents[i].t <= t
      ensures k < |live| ==> t < contents[k].t
    {
      ancestor, cursor, k := nill, list, 0;
      while cursor != nill && cursor.t <= t
        invariant 0 <= k <= |live|
        invariant cursor == if k < |live| then live[k] else nill
        invariant ancestor == if k == 0 then nill else live[k - 1]
        invariant forall i | 0 <= i < k :: contents[i].t <= t
        decreases |live| - k
      {
        ancestor := cursor;
        cursor := cursor.next;
        k := k + 1;
      }
    }

    static lemma ChainSplit(es: seq<Element<P>>, end: Element?<P>, k: nat)
      requires Chain(es, end) && k <= |es|
      ensures Chain(es[..k], Head(es[k..], end)) && Chain(es[k..], end)
    {
    }

    static lemma ChainSplice(front: seq<Element<P>>, e: Element<P>, back: seq<Element<P>>, end: Element?<P>)
      requires Chain(front, e) && Chain(back, end) && e.next == Head(back, end)
      ensures Chain(front + [e] + back, end)
    {
    }

    static lemma DistinctSplice(es: seq<Element<P>>, e: Element<P>, k: nat)
      requires Distinct(es) && e !in es && k <= |es|
      ensures Distinct(es[..k] + [e] + es[k..])
    {
    }

    static lemma HoldsSplice(es: seq<Element<P>>, q: seq<Entry<P>>, e: Element<P>, k: nat)
      requires Holds(es, q) && k <= |es|
      ensures Holds(es[..k] + [e] + es[k..], q[..k] + [Entry(e.p, e.t, e.d)] + q[k..])
    {
    }

    static lemma SpliceMembers(es: seq<Element<P>>, e: Element<P>, k: nat)
      requires k <= |es|
      ensures forall x | x in es[..k] + [e] + es[k..] :: x == e || x in es
    {
    }

    /** Links `e` between `ancestor` and `cursor`. */
    method LinkIn(e: Element<P>, ancestor: Element<P>, cursor: Element<P>, ghost k: nat)
      requires nill !in live && e !in live && e != nill && Chain(live, nill) && list == Head(live, nill)
      requires Distinct(live) && k <= |live|
      requires ancestor == if k == 0 then nill else live[k - 1]
      requires cursor == if k < |live| then live[k] else nill
      modifies this`list, this`live, this`size, e`next, live`next
      ensures live == old(live)[..k] + [e] + old(live)[k..]
      ensures Chain(live, nill) && list == Head(live, nill)
      ensures size == old(size) + 1
    {
      ghost var front, back := live[..k], live[k..];
      ChainSplit(live, nill, k);
      if ancestor == nill {
        e.next := list;
        list := e;
      } else {
        e.next := cursor;
        ancestor.next := e;
      }
      size := size + 1;
      live := front + [e] + back;
      assert Chain(front, e);
      assert Chain(back, nill);
      ChainSplice(front, e, back, nill);
    }

    /** Puts a filled element into its place in the live chain. */
    method InsertElement(e: Element<P>)
      requires LiveChain() && e !in live && e != nill
      modifies this`list, this`live, this`size, this`contents, e`next, live`next
      ensures LiveChain()
      ensures contents == StableQueue.Insert(old(contents), Entry(e.p, e.t, e.d))
      ensures forall x | x in live :: x == e || x in old(live)
      ensures size == old(size) + 1
    {
      hide Chain, Distinct, Holds;
      var ancestor, cursor, k := FindPlace(e.t);
      ghost var entry := Entry(e.p, e.t, e.d);
      InsertAtSplit(contents, entry, k);
      InsertSorted(contents, entry);
      ghost var was := live;
      DistinctSplice(was, e, k);
      SpliceMembers(was, e, k);
      LinkIn(e, ancestor, cursor, k);
      assert Holds(was, contents);
      HoldsSplice(was, contents, e, k);
      contents := contents[..k] + [entry] + contents[k..];
    }

    /** An element is allocated only when all allocated ones are live. */
    method Insert(p: P, t: nat, delta: nat)
      requires Valid()
      modifies Repr
      ensures Valid() && fresh(Repr - old(Repr))
      ensures contents == StableQueue.Insert(old(contents), Entry(p, t, delta))
      ensures peak == if old(peak) < size then size else old(peak)
    {
      hide LiveChain, Chain;
      Refill();
      ghost var spare := free;
      var e := TakeEmpty(p, t, delta);
      assert spare == [e] + free && e in spare && e !in free && e !in live;
      assert forall x | x in free :: x in spare;
      InsertElement(e);
    }

    /** Moves the first live element to the front of the free chain. */
    method UnlinkTop(e: Element<P>)
      requires live != [] && e == live[0] && e == list && e != nill && nill !in live && nill !in free
      requires Distinct(live) && Chain(live, nill) && size == |live| && e !in free
      requires Distinct(free) && Chain(free, null) && empties == Head(free, null)
      modifies this`list, this`empties, this`size, this`live, this`free, e`next
      ensures live == old(live)[1..] && free == [e] + old(free) && size == |live|
      ensures Distinct(live) && Chain(live, nill) && list == Head(live, nill)
      ensures Distinct(free) && Chain(free, null) && empties == Head(free, null)
    {
      list := list.next;
      e.next := empties;
      empties := e;
      size := size - 1;
      free := [e] + free;
      live := live[1..];
    }

    method DeleteTop()
      requires Valid()
      modifies Repr
      ensures Valid() && Repr == old(Repr)
      ensures contents == if old(contents) == [] then [] else old(contents)[1..]
      ensures peak == old(peak)
    {
      if list != nill {
        var e := list;
        assert e == live[0] && e in live;
        UnlinkTop(e);
        contents := contents[1..];
      }
    }

    method Reset()
      requires Valid()
      modifies Repr
      ensures Valid() && Repr == old(Repr)
      ensures contents == [] && peak == old(peak)
    {
      while size != 0
        invariant Valid() && Repr == old(Repr) && peak == old(peak)
        decreases size
      {
        DeleteTop();
      }
    }

    method GetSize() returns (n: nat)
      requires Valid()
      ensures n == |contents|
    {
      n := size;
    }

    method Top() returns (p: P)
      requires Valid() && contents != []
      ensures p == contents[0].p
    {
      p := list.p;
    }

    /** On an empty list this reads the sentinel. */
    method TopTime() returns (t: nat)
      requires Valid()
      ensures contents != [] ==> t == contents[0].t
    {
      t := list.t;
    }
  }
}
