/** Instance-specific extensions (IEEE Std 1666-2011, section 16.4): private slots of one module on
    a transaction, kept in containers that are pooled and give themselves back. */
module Extensions {

  class Extension {
    constructor () {}
  }

  /** Of a transaction only the slot that holds its carrier matters here. */
  class Payload {
    var carrier: Carrier?

    constructor ()
      ensures carrier == null
    {
      carrier := null;
    }
  }

  /** What sits in the transaction's own extension array. */
  class Carrier {
    const container: Container

    constructor (container: Container)
      ensures this.container == container
    {
      this.container := container;
    }
  }

  /** The slots of one transaction: a row for each accessor, a column for each extension type. */
  type Slots = seq<seq<Extension?>>

  class Container {
    var exts: Slots
    var useCount: int
    var myTxn: Payload?
    var myCarrier: Carrier?
    var next: Container?

    constructor (accessors: nat, types: nat)
      ensures exts == seq(accessors, _ => seq(types, _ => null)) && useCount == 0 && next == null
    {
      exts := seq(accessors, _ => seq(types, _ => null));
      useCount := 0;
      next, myTxn, myCarrier := null, null, null;
    }
  }

  // ------------------------------------------------------------------ counting live slots

  ghost function LiveRow(row: seq<Extension?>): nat {
    if row == [] then 0 else (if row[0] != null then 1 else 0) + LiveRow(row[1..])
  }

  ghost function Live(exts: Slots): nat {
    if exts == [] then 0 else LiveRow(exts[0]) + Live(exts[1..])
  }

  ghost function One(e: Extension?): nat {
    if e != null then 1 else 0
  }

  lemma {:induction false} LiveRowUpdate(row: seq<Extension?>, i: nat, e: Extension?)
    requires i < |row|
    ensures LiveRow(row[i := e]) == LiveRow(row) - One(row[i]) + One(e)
    ensures One(row[i]) <= LiveRow(row)
  {
    if i == 0 {
      assert row[0 := e][1..] == row[1..];
    } else {
      LiveRowUpdate(row[1..], i - 1, e);
      assert row[i := e][1..] == row[1..][i - 1 := e];
    }
  }

  function Put(exts: Slots, a: nat, i: nat, e: Extension?): Slots
    requires a < |exts| && i < |exts[a]|
  {
    exts[a := exts[a][i := e]]
  }

  /** Writing one slot changes the count by what it held and what it holds. */
  lemma {:induction false} LiveUpdate(exts: Slots, a: nat, i: nat, e: Extension?)
    requires a < |exts| && i < |exts[a]|
    ensures Live(Put(exts, a, i, e)) == Live(exts) - One(exts[a][i]) + One(e)
    ensures One(exts[a][i]) <= Live(exts)
  {
    if a == 0 {
      LiveRowUpdate(exts[0], i, e);
      assert Put(exts, 0, i, e)[1..] == exts[1..];
    } else {
      LiveUpdate(exts[1..], a - 1, i, e);
      assert Put(exts, a, i, e)[1..] == Put(exts[1..], a - 1, i, e);
    }
  }

  ghost predicate AllNull(exts: Slots) {
    forall a, i | 0 <= a < |exts| && 0 <= i < |exts[a]| :: exts[a][i] == null
  }

  lemma {:induction false} LiveRowZero(row: seq<Extension?>)
    ensures LiveRow(row) == 0 <==> forall i | 0 <= i < |row| :: row[i] == null
  {
    if row != [] {
      LiveRowZero(row[1..]);
      assert forall i | 0 < i < |row| :: row[i] == row[1..][i - 1];
    }
  }

  /** The count is zero exactly if no slot is live. */
  lemma {:induction false} LiveZero(exts: Slots)
    ensures Live(exts) == 0 <==> AllNull(exts)
  {
    if exts != [] {
      LiveRowZero(exts[0]);
      LiveZero(exts[1..]);
      assert forall a | 0 < a < |exts| :: exts[a] == exts[1..][a - 1];
      assert forall a, i | 0 <= a < |exts[1..]| && 0 <= i < |exts[1..][a]| :: exts[1..][a][i] == exts[a + 1][i];
    }
  }

  /** `set_extension` counts a slot up if it was null and the extension is not. It keeps the use
      count right exactly if it does not write null over a live slot. */
  lemma {:induction false} SetKeepsCount(exts: Slots, a: nat, i: nat, e: Extension?, count: int)
    requires a < |exts| && i < |exts[a]| && count == Live(exts)
    ensures count + (if exts[a][i] == null && e != null then 1 else 0) == Live(Put(exts, a, i, e))
      <==> !(exts[a][i] != null && e == null)
  {
    LiveUpdate(exts, a, i, e);
  }

  // ------------------------------------------------------------------ all containers together

  class Registry {
    const accessors: nat
    const types: nat

    /** The pool: a chain of unused containers. */
    var unused: Container?
    ghost var pooled: seq<Container>

    /** The containers in use, the transactions that modules have touched, and how many
        containers were ever in use at once. */
    ghost var busy: set<Container>
    ghost var txns: set<Payload>
    ghost var peak: nat

    static ghost function Max(m: nat, n: nat): nat {
      if m < n then n else m
    }

    ghost predicate Sized(exts: Slots) {
      |exts| == accessors && forall a | 0 <= a < |exts| :: |exts[a]| == types
    }

    static ghost function Follower(cs: seq<Container>, i: nat): Container? {
      if i < |cs| then cs[i] else null
    }

    /** Pooled containers are linked in a chain, each once, and hold nothing. */
    ghost predicate Chain(cs: seq<Container>, head: Container?)
      reads cs
    {
      && head == Follower(cs, 0)
      && (forall i | 0 <= i < |cs| :: cs[i].next == Follower(cs, i + 1))
      && (forall i, j | 0 <= i < j < |cs| :: cs[i] != cs[j])
      && (forall c | c in cs :: Sized(c.exts) && AllNull(c.exts) && c.useCount == 0)
    }

    ghost predicate Pool()
      reads `unused, `pooled, pooled
    {
      Chain(pooled, unused)
    }

    lemma ChainPush(c: Container, cs: seq<Container>, head: Container?)
      requires Chain(cs, head) && c !in cs && c.next == head
      requires Sized(c.exts) && AllNull(c.exts) && c.useCount == 0
      ensures Chain([c] + cs, c)
    {
    }

    /** A container in use belongs to one transaction, through one carrier that points back, and
        counts its live slots, and the slots that were live when null was written over them. */
    ghost predicate Attached(c: Container)
      reads `txns, c, c.myTxn
    {
      && c.myTxn != null && c.myTxn in txns
      && c.myTxn.carrier != null && c.myTxn.carrier == c.myCarrier && c.myCarrier.container == c
      && Sized(c.exts) && Live(c.exts) <= c.useCount
    }

    /** What a transaction carries is in use, and is its own. */
    ghost predicate Held(t: Payload)
      reads `busy, t`carrier, busy`myTxn
    {
      t.carrier != null ==> t.carrier.container in busy && t.carrier.container.myTxn == t
    }

    /** Every container is either in the pool or attached to exactly one transaction. */
    ghost predicate Valid()
      reads this, pooled, busy, txns, set c | c in busy :: c.myTxn
    {
      && Pool()
      && (forall c | c in busy :: c !in pooled && Attached(c))
      && (forall t | t in txns :: Held(t))
      && |busy| <= peak && |busy| + |pooled| == peak
    }

    ghost function Blank(): Slots {
      seq(accessors, _ => seq(types, _ => null))
    }

    /** What the accessors see on a transaction: row `a`, column `i` for accessor `a` and index `i`. */
    ghost function View(t: Payload): (r: Slots)
      requires Valid() && t in txns
      reads this, pooled, busy, txns, set c | c in busy :: c.myTxn
      ensures Sized(r)
    {
      assert t.carrier != null ==> Attached(t.carrier.container) by { assert Held(t); }
      if t.carrier == null then Blank() else t.carrier.container.exts
    }

    /** By how much the use count on a transaction exceeds its live slots. */
    ghost function Surplus(t: Payload): (n: int)
      requires Valid() && t in txns
      reads this, pooled, busy, txns, set c | c in busy :: c.myTxn
      ensures 0 <= n
    {
      assert t.carrier != null ==> Attached(t.carrier.container) by { assert Held(t); }
      if t.carrier == null then 0 else t.carrier.container.useCount - Live(t.carrier.container.exts)
    }

    constructor (accessors: nat, types: nat)
      ensures Valid() && txns == {} && busy == {} && pooled == [] && peak == 0
      ensures this.accessors == accessors && this.types == types
    {
      this.accessors, this.types := accessors, types;
      unused := null;
      pooled, busy, txns, peak := [], {}, {}, 0;
    }

    /** A transaction that carries nothing yet. */
    ghost method Meet(t: Payload)
      requires Valid() && t !in txns && t.carrier == null
      modifies this`txns
      ensures Valid() && txns == old(txns) + {t} && View(t) == Blank() && Surplus(t) == 0
      ensures forall u | u in old(txns) :: View(u) == old(View(u)) && Surplus(u) == old(Surplus(u))
    {
      txns := txns + {t};
    }

    /** `create` of the pool: a container is allocated only if none is unused. */
    method Create() returns (c: Container)
      requires Valid()
      modifies this`unused, this`pooled, this`peak
      ensures Pool() && c !in pooled && c !in busy && (c in old(pooled) || fresh(c))
      ensures Sized(c.exts) && AllNull(c.exts) && c.useCount == 0
      ensures forall x | x in pooled :: x in old(pooled)
      ensures peak == |busy| + |pooled| + 1 && peak == Max(old(peak), |busy| + 1)
    {
      if unused == null {
        unused := new Container(accessors, types);
        pooled := [unused];
        peak := peak + 1;
      }
      c := unused;
      unused := c.next;
      pooled := pooled[1..];
    }

    /** Ties a container that is not in use, a new carrier and the transaction together. */
    method Attach(c: Container, txn: Payload)
      requires Pool() && c !in pooled && c !in busy && Sized(c.exts) && AllNull(c.exts) && c.useCount == 0
      requires forall x | x in busy :: x !in pooled && Attached(x)
      requires forall t | t in txns :: Held(t)
      requires txn in txns && txn.carrier == null && peak == |busy| + |pooled| + 1
      modifies this`busy, txn, c
      ensures Valid() && fresh(txn.carrier) && txn.carrier.container == c
      ensures busy == old(busy) + {c} && |busy| == old(|busy|) + 1 && c.exts == old(c.exts)
      ensures c.useCount == Live(c.exts)
      ensures forall t | t in txns && t != txn && t.carrier != null :: t.carrier.container != c
    {
      hide Attached, Held, Pool, Sized, AllNull, Live;
      Apart(c, txn);
      LiveZero(c.exts);
      var carrier := new Carrier(c);
      c.myCarrier := carrier;
      c.myTxn := txn;
      txn.carrier := carrier;
      label L:
      assert forall x | x in busy :: Attached(x);
      busy := busy + {c};
      Tied(c, txn);
      forall t | t in txns && t != txn ensures Held(t) {
        StillHeld(t, c, old(busy));
      }
    }

    lemma Apart(c: Container, txn: Payload)
      requires c !in busy && txn.carrier == null
      requires forall x | x in busy :: Attached(x)
      requires forall t | t in txns :: Held(t)
      ensures forall x | x in busy :: x != c && x.myTxn != txn
      ensures forall t | t in txns && t.carrier != null ::
        t.carrier.container in busy && t.carrier.container != c && t.carrier.container.myTxn == t
    {
    }

    lemma Tied(c: Container, txn: Payload)
      requires c.myTxn == txn && txn in txns && txn.carrier != null && txn.carrier == c.myCarrier
      requires txn.carrier.container == c && Sized(c.exts) && Live(c.exts) <= c.useCount && c in busy
      ensures Attached(c) && Held(txn)
    {
    }

    lemma StillHeld(t: Payload, c: Container, was: set<Container>)
      requires t.carrier != null ==> t.carrier.container in was && t.carrier.container.myTxn == t
      requires busy == was + {c}
      ensures Held(t)
    {
    }

    /** `operator()` of an accessor, up to the choice of its row. */
    method Access(txn: Payload) returns (c: Container)
      requires Valid() && txn in txns
      modifies this`unused, this`pooled, this`busy, this`peak, txn, pooled
      ensures Valid() && txn.carrier != null && c == txn.carrier.container
      ensures c in old(busy) || c in old(pooled) || fresh(c)
      ensures forall t | t in txns :: View(t) == old(View(t)) && Surplus(t) == old(Surplus(t))
      ensures peak == Max(old(peak), |busy|)
      ensures old(txn.carrier) != null ==> unchanged(this) && unchanged(txn) && unchanged(pooled)
    {
      hide Attached, Held, Pool, Sized, AllNull, Live;
      var carrier := txn.carrier;
      if carrier == null {
        c := Create();
        BlankNull(c.exts);
        Attach(c, txn);
      } else {
        c := carrier.container;
        Other(c, txn);
      }
    }

    /** `m_accessor(txn).set_extension(i, ext)`. Null written over a live slot stays counted. */
    method SetExtension(txn: Payload, a: nat, i: nat, ext: Extension?) returns (prev: Extension?)
      requires Valid() && txn in txns && a < accessors && i < types
      modifies this`unused, this`pooled, this`busy, this`peak, txn, pooled, busy
      ensures Valid() && prev == old(View(txn))[a][i]
      ensures View(txn) == Put(old(View(txn)), a, i, ext)
      ensures View(txn)[a][i] == ext
      ensures forall b, j | 0 <= b < accessors && 0 <= j < types && (b != a || j != i) ::
        View(txn)[b][j] == old(View(txn))[b][j]
      ensures Surplus(txn) == old(Surplus(txn)) + if prev != null && ext == null then 1 else 0
      ensures forall t | t in txns && t != txn :: View(t) == old(View(t)) && Surplus(t) == old(Surplus(t))
      ensures peak == Max(old(peak), |busy|)
    {
      hide Attached, Held, Pool, Live, AllNull;
      var c := Access(txn);
      Other(c, txn);
      prev := WriteSlot(c, txn, a, i, ext);
    }

    method WriteSlot(c: Container, txn: Payload, a: nat, i: nat, ext: Extension?) returns (prev: Extension?)
      requires Valid() && txn in txns && txn.carrier != null && c == txn.carrier.container && c in busy
      requires a < accessors && i < types
      modifies c`exts, c`useCount
      ensures Valid() && prev == old(View(txn))[a][i]
      ensures View(txn) == Put(old(View(txn)), a, i, ext)
      ensures View(txn)[a][i] == ext
      ensures forall b, j | 0 <= b < accessors && 0 <= j < types && (b != a || j != i) ::
        View(txn)[b][j] == old(View(txn))[b][j]
      ensures Surplus(txn) == old(Surplus(txn)) + if prev != null && ext == null then 1 else 0
      ensures forall t | t in txns && t != txn :: View(t) == old(View(t)) && Surplus(t) == old(Surplus(t))
    {
      hide Attached, Held, Pool, Live;
      Other(c, txn);
      OnlyOwner(c, txn);
      LiveUpdate(c.exts, a, i, ext);
      prev := c.exts[a][i];
      c.exts := Put(c.exts, a, i, ext);
      if prev == null && ext != null {
        c.useCount := c.useCount + 1;
      }
      Tied(c, txn);
      assert forall x | x in busy && x != c :: Attached(x);
    }

    /** `dec_use_count`: the last slot that goes gives the container back to the pool and takes
        the carrier off the transaction. */
    method DecUseCount(c: Container)
      requires c.myTxn != null
      modifies this`unused, this`pooled, this`busy, c`useCount, c`next, c.myTxn
      ensures c.useCount == old(c.useCount) - 1
      ensures c.useCount != 0 ==> unchanged(this) && unchanged(c.myTxn) && c.next == old(c.next)
      ensures c.useCount == 0 ==> unused == c && pooled == [c] + old(pooled) && c.next == old(unused)
      ensures c.useCount == 0 ==> busy == old(busy) - {c} && c.myTxn.carrier == null
    {
      c.useCount := c.useCount - 1;
      if c.useCount == 0 {
        c.next := unused;
        unused := c;
        pooled := [c] + pooled;
        c.myTxn.carrier := null;
        busy := busy - {c};
      }
    }

    /** What a clear does to the pool: the container goes there exactly with its last live slot, if
        no other slot is still counted. */
    twostate predicate Released(txn: Payload, a: nat, i: nat)
      requires old(Valid() && txn in txns && a < accessors && i < types) && Valid() && txn in txns
      reads this, pooled, busy, txns, set c | c in busy :: c.myTxn
    {
      && (txn.carrier == null <==>
            old(View(txn))[a][i] != null && AllNull(View(txn)) && old(Surplus(txn)) == 0)
      && (txn.carrier != null ==> pooled == old(pooled) && unused == old(unused) && Surplus(txn) == old(Surplus(txn)))
      && (txn.carrier == null ==>
            unused == old(txn.carrier).container && pooled == [old(txn.carrier).container] + old(pooled))
    }

    /** `m_accessor(txn).clear_extension(i)`. The container may be in the pool before its slot is
        cleared. */
    method ClearExtension(txn: Payload, a: nat, i: nat)
      requires Valid() && txn in txns && a < accessors && i < types
      modifies this`unused, this`pooled, this`busy, this`peak, txn, pooled, busy
      ensures Valid() && View(txn) == Put(old(View(txn)), a, i, null)
      ensures View(txn)[a][i] == null
      ensures forall b, j | 0 <= b < accessors && 0 <= j < types && (b != a || j != i) ::
        View(txn)[b][j] == old(View(txn))[b][j]
      ensures forall t | t in txns && t != txn :: View(t) == old(View(t)) && Surplus(t) == old(Surplus(t))
      ensures if old(txn.carrier) != null then Released(txn, a, i) else txn.carrier != null && Surplus(txn) == 0
      ensures peak == Max(old(peak), |busy|)
    {
      hide Attached, Held, Chain, Live, AllNull;
      ghost var slot := View(txn)[a][i];
      assert txn.carrier == null ==> slot == null;
      var c := Access(txn);
      assert View(txn)[a][i] == slot;
      Other(c, txn);
      ClearSlot(c, txn, a, i);
    }

    method ClearSlot(c: Container, txn: Payload, a: nat, i: nat)
      requires Valid() && txn in txns && txn.carrier != null && c == txn.carrier.container && c in busy
      requires a < accessors && i < types
      modifies this`unused, this`pooled, this`busy, txn, c
      ensures Valid() && View(txn) == Put(old(View(txn)), a, i, null)
      ensures View(txn)[a][i] == null
      ensures forall b, j | 0 <= b < accessors && 0 <= j < types && (b != a || j != i) ::
        View(txn)[b][j] == old(View(txn))[b][j]
      ensures forall t | t in txns && t != txn :: View(t) == old(View(t)) && Surplus(t) == old(Surplus(t))
      ensures Released(txn, a, i)
      ensures |busy| <= old(|busy|) && (old(View(txn))[a][i] == null ==> busy == old(busy))
    {
      hide Attached, Held, Chain, Live;
      Other(c, txn);
      LiveUpdate(c.exts, a, i, null);
      LiveZero(Put(c.exts, a, i, null));
      OnlyOwner(c, txn);
      if i < |c.exts[a]| {
        if c.exts[a][i] != null {
          DecUseCount(c);
        }
        c.exts := Put(c.exts, a, i, null);
      }
      if txn.carrier != null {
        Tied(c, txn);
      } else {
        ChainPush(c, old(pooled), old(unused));
        BlankNull(c.exts);
        forall t | t in txns ensures Held(t) {
          Rehold(t, old(busy), c);
        }
      }
      assert forall x | x in busy && x != c :: Attached(x);
    }

    /** `m_accessor(txn).get_extension(i)`; the first access attaches a container even so. */
    method GetExtension(txn: Payload, a: nat, i: nat) returns (ext: Extension?)
      requires Valid() && txn in txns && a < accessors && i < types
      modifies this`unused, this`pooled, this`busy, this`peak, txn, pooled, busy
      ensures Valid() && ext == old(View(txn))[a][i]
      ensures forall t | t in txns :: View(t) == old(View(t)) && Surplus(t) == old(Surplus(t))
      ensures peak == Max(old(peak), |busy|)
    {
      hide Attached, Held, Pool, Live, AllNull;
      var c := Access(txn);
      Other(c, txn);
      ext := c.exts[a][i];
    }

    /** Two transactions never share a container, and what the pool holds shows nothing. */
    lemma NothingShared(t: Payload, u: Payload)
      requires Valid() && t in txns && u in txns && t != u
      ensures t.carrier != null && u.carrier != null ==> t.carrier.container != u.carrier.container
      ensures t.carrier != null ==> t.carrier.container !in pooled
      ensures t.carrier != null ==> t.carrier.container.useCount == Live(View(t)) + Surplus(t)
      ensures forall c | c in pooled :: c.exts == Blank() && c.useCount == 0
    {
      if t.carrier != null {
        Other(t.carrier.container, t);
      }
      if u.carrier != null {
        Other(u.carrier.container, u);
      }
      forall c | c in pooled ensures c.exts == Blank() {
        BlankNull(c.exts);
      }
    }

    lemma Other(c: Container, txn: Payload)
      requires Valid() && txn in txns && txn.carrier != null && c == txn.carrier.container
      ensures c in busy && c !in pooled && c.myTxn == txn && txn.carrier == c.myCarrier
      ensures Sized(c.exts) && Live(c.exts) <= c.useCount
    {
    }

    /** No other transaction has anything to do with the container of `txn`. */
    lemma OnlyOwner(c: Container, txn: Payload)
      requires txn in txns && c in busy && txn.carrier != null && txn.carrier.container == c
      requires forall x | x in busy :: Attached(x)
      requires forall t | t in txns :: Held(t)
      ensures forall x | x in busy && x != c :: x.myTxn != txn
      ensures forall t | t in txns && t != txn && t.carrier != null ::
        t.carrier.container != c && t.carrier.container in busy && t.carrier.container.myTxn == t
    {
    }

    lemma Rehold(t: Payload, was: set<Container>, c: Container)
      requires t.carrier != null ==>
        t.carrier.container != c && t.carrier.container in was && t.carrier.container.myTxn == t
      requires was - {c} <= busy
      ensures Held(t)
    {
    }

    lemma BlankNull(exts: Slots)
      requires Sized(exts) && AllNull(exts)
      ensures exts == Blank()
    {
      forall a | 0 <= a < accessors ensures exts[a] == Blank()[a] {
      }
    }
  }
}
