/** Multi-sockets (IEEE Std 1666-2011, sections 13.2 and 16.1): the binding tables that initiator
    and target sockets fill while a design is bound and elaborated. */
module MultiSockets {

  /** Stands in for one binding of an initiator; tags backward calls with its number. */
  class BwBinder {
    const id: nat
    ghost const owner: Initiator
    var callbacks: Initiator?

    constructor (id: nat, ghost owner: Initiator)
      ensures this.id == id && this.owner == owner && callbacks == null
    {
      this.id, this.owner, callbacks := id, owner, null;
    }
  }

  /** Stands in for one binding of a target; tags forward calls with its number. `other` is the
      ordinary socket that registered its port, if the other side is one. */
  class FwBinder {
    const id: nat
    const other: nat
    ghost const owner: Target
    var callbacks: Target?

    constructor (id: nat, other: nat, ghost owner: Target)
      ensures this.id == id && this.other == other && this.owner == owner && callbacks == null
    {
      this.id, this.other, this.owner, callbacks := id, other, owner, null;
    }
  }

  /** What a sub-port leads to: a binder of a multi-socket, or an ordinary socket. */
  datatype FwEnd = ToTarget(fw: FwBinder) | ToPlainTarget(name: nat)
  datatype BwEnd = ToInitiator(bw: BwBinder) | ToPlainInitiator(name: nat)

  /** `level` is the depth of the owning module in the module hierarchy; hierarchical bindings
      lead outwards. `child` is a socket that is bound to this one: on the initiator's side the
      latest of them, on the target's side the only one, or none if it was bound elsewhere since. */
  class Initiator {
    ghost const level: nat
    var binders: seq<BwBinder>
    var sockets: seq<FwEnd>
    var usedSockets: seq<FwEnd>
    var hierarchBind: Initiator?
    var beoeDisabled: bool
    ghost var child: Initiator?

    constructor (ghost level: nat)
      ensures this.level == level && binders == [] && sockets == [] && usedSockets == []
      ensures hierarchBind == null && !beoeDisabled && child == null
    {
      this.level := level;
      binders, sockets, usedSockets, hierarchBind, beoeDisabled, child := [], [], [], null, false, null;
    }
  }

  class Target {
    ghost const level: nat
    var binders: seq<FwBinder>
    var multiBinds: map<nat, BwBinder>
    var sockets: seq<BwEnd>
    var hierarchBind: Target?
    var eoeDisabled: bool
    ghost var child: Target?

    constructor (ghost level: nat)
      ensures this.level == level && binders == [] && multiBinds == map[] && sockets == []
      ensures hierarchBind == null && !eoeDisabled && child == null
    {
      this.level := level;
      binders, multiBinds, sockets, hierarchBind, eoeDisabled, child := [], map[], [], null, false, null;
    }
  }

  class Design {
    ghost var inits: set<Initiator>
    ghost var targets: set<Target>
    ghost const height: nat

    /** The tree of hierarchical bindings at an initiator. */
    ghost predicate InitChain(i: Initiator)
      reads `inits, i`hierarchBind, i`child, i`beoeDisabled
      reads (set x | x in inits && x == i.hierarchBind)`child, (set x | x in inits && x == i.child)`hierarchBind
    {
      && i.level <= height
      && (i.hierarchBind != null ==> i.hierarchBind in inits && i.hierarchBind.level < i.level)
      && (i.hierarchBind != null ==> i.hierarchBind.child != null)
      && (i.child != null ==> i.child in inits && i.level < i.child.level && i.child.hierarchBind == i)
      && (i.beoeDisabled <==> i.child != null)
    }

    /** The chain of hierarchical bindings at a target: only the first child of a parent is bound,
        but that may be bound to another parent afterwards. */

    ghost predicate TargetChain(t: Target)
      reads `targets, t`hierarchBind, t`child, t`eoeDisabled
      reads (set x | x in targets && x == t.hierarchBind)`child, (set x | x in targets && x == t.child)`hierarchBind
    {
      && t.level <= height
      && (t.hierarchBind != null ==> t.hierarchBind in targets && t.hierarchBind.level < t.level)
      && (t.hierarchBind != null ==> t.hierarchBind.child == t)
      && (t.child != null ==> t.child in targets && t.level < t.child.level && t.child.hierarchBind == t)
      && (t.child != null ==> t.eoeDisabled)
    }

    /** The table of an initiator: binder `k` has number `k`, and leads to a binder that leads back. */
    ghost predicate InitTable(i: Initiator)
      reads `targets, i`binders, i`sockets, targets`binders, targets`multiBinds
    {
      && |i.binders| == |i.sockets|
      && (forall k | 0 <= k < |i.binders| :: i.binders[k].id == k && i.binders[k].owner == i)
      && (forall k | 0 <= k < |i.sockets| && i.sockets[k].ToTarget? :: LeadsBack(i.sockets[k].fw, i.binders[k]))
    }

    ghost predicate LeadsBack(f: FwBinder, b: BwBinder)
      reads `targets, targets`binders, targets`multiBinds
    {
      && f.owner in targets && f.id < |f.owner.binders| && f.owner.binders[f.id] == f
      && f.id in f.owner.multiBinds && f.owner.multiBinds[f.id] == b
    }

    ghost predicate TargetTable(t: Target)
      reads `inits, t`binders, t`multiBinds, inits`binders, inits`sockets
    {
      && (forall j | 0 <= j < |t.binders| :: t.binders[j].id == j && t.binders[j].owner == t)
      && (forall j | j in t.multiBinds :: j < |t.binders| && LeadsForth(t.multiBinds[j], t.binders[j]))
    }

    ghost predicate LeadsForth(b: BwBinder, f: FwBinder)
      reads `inits, inits`binders, inits`sockets
    {
      && b.owner in inits && b.id < |b.owner.binders| && b.owner.binders[b.id] == b
      && b.id < |b.owner.sockets| && b.owner.sockets[b.id] == ToTarget(f)
    }

    ghost predicate InitChains()
      reads `inits, inits`hierarchBind, inits`child, inits`beoeDisabled
    {
      forall i | i in inits :: InitChain(i)
    }

    ghost predicate TargetChains()
      reads `targets, targets`hierarchBind, targets`child, targets`eoeDisabled
    {
      forall t | t in targets :: TargetChain(t)
    }

    ghost predicate InitTables()
      reads `inits, `targets, inits`binders, inits`sockets, targets`binders, targets`multiBinds
    {
      forall i | i in inits :: InitTable(i)
    }

    ghost predicate TargetTables()
      reads `inits, `targets, inits`binders, inits`sockets, targets`binders, targets`multiBinds
    {
      forall t | t in targets :: TargetTable(t)
    }

    /** An initiator is bound directly or hierarchically, not both. */
    ghost predicate InitTops()
      reads `inits, inits`hierarchBind, inits`binders
    {
      forall i | i in inits && i.hierarchBind != null :: i.binders == []
    }

    ghost predicate Valid()
      reads this, inits, targets
    {
      InitChains() && TargetChains() && InitTables() && TargetTables() && InitTops()
    }

    ghost predicate Silent(t: Target)
      reads t`binders, t.binders
    {
      forall f | f in t.binders :: f.callbacks == null
    }

    /** So it is until elaboration: no target has sub-ports, and no binder of one has callbacks. */
    ghost predicate Unelaborated()
      reads `targets, targets`sockets, targets`binders, FwBinders()
    {
      forall t | t in targets :: OwnFw(t); t.sockets == [] && Silent(t)
    }

    ghost function FwBinders(): set<FwBinder>
      reads `targets, targets`binders
    {
      set t, f | t in targets && f in t.binders :: f
    }

    lemma OwnFw(t: Target)
      requires t in targets
      ensures forall f | f in t.binders :: f in FwBinders()
    {
    }

    constructor (ghost height: nat)
      ensures Valid() && Unelaborated() && inits == {} && targets == {} && this.height == height
    {
      inits, targets, this.height := {}, {}, height;
    }

    ghost method AddInitiator(i: Initiator)
      requires Valid() && i !in inits && i.level <= height && i.binders == [] && i.sockets == []
      requires i.hierarchBind == null && !i.beoeDisabled && i.child == null
      modifies `inits
      ensures Valid() && inits == old(inits) + {i} && (old(Unelaborated()) ==> Unelaborated())
    {
      inits := inits + {i};
    }

    ghost method AddTarget(t: Target)
      requires Valid() && t !in targets && t.level <= height && t.binders == [] && t.multiBinds == map[]
      requires t.hierarchBind == null && !t.eoeDisabled && t.child == null
      modifies `targets
      ensures Valid() && targets == old(targets) + {t}
      ensures old(Unelaborated()) && t.sockets == [] ==> Unelaborated()
    {
      targets := targets + {t};
    }

    /** Everything but the target's entry that belongs to the end `e`. */
    ghost predicate TablesBut(e: FwEnd)
      reads `inits, `targets, inits`binders, inits`sockets, targets`binders, targets`multiBinds
    {
      InitTables() && forall t | t in targets :: TargetTableBut(t, e)
    }

    ghost predicate TargetTableBut(t: Target, e: FwEnd)
      reads `inits, t`binders, t`multiBinds, inits`binders, inits`sockets
    {
      && (forall j | 0 <= j < |t.binders| :: t.binders[j].id == j && t.binders[j].owner == t)
      && (forall j | j in t.multiBinds && !(j < |t.binders| && e == ToTarget(t.binders[j])) ::
            j < |t.binders| && LeadsForth(t.multiBinds[j], t.binders[j]))
    }

    /** `get_base_interface` of a target: it keeps a new binder. */
    method GetBaseInterface(t: Target, other: nat) returns (f: FwBinder)
      requires InitTables() && TargetTables() && t in targets
      modifies t`binders
      ensures InitTables() && TargetTables() && f.id !in t.multiBinds && (old(Unelaborated()) ==> Unelaborated())
      ensures fresh(f) && f.id == old(|t.binders|) && f.other == other && f.owner == t && f.callbacks == null
      ensures t.binders == old(t.binders) + [f]
    {
      hide LeadsForth;
      assert TargetTable(t);
      f := new FwBinder(|t.binders|, other, t);
      t.binders := t.binders + [f];
      forall u | u in targets ensures old(Silent(u)) ==> Silent(u) {
      }
      forall i | i in inits ensures InitTable(i) {
        assert old(InitTable(i));
      }
    }

    /** The binder that an initiator makes in `get_base_interface`. */
    method NextBinder(i: Initiator) returns (b: BwBinder)
      ensures fresh(b) && b.id == |i.binders| && b.owner == i && b.callbacks == null
      ensures old(Unelaborated()) ==> Unelaborated()
    {
      b := new BwBinder(|i.binders|, i);
    }

    /** `get_last_binder`: the target remembers whom its last binder is for. */
    method GetLastBinder(t: Target, f: FwBinder, b: BwBinder)
      requires InitTables() && TargetTables() && t in targets
      requires |t.binders| == f.id + 1 && t.binders[f.id] == f && f.id !in t.multiBinds
      modifies t`multiBinds
      ensures TablesBut(ToTarget(f)) && LeadsBack(f, b) && t.multiBinds == old(t.multiBinds)[f.id := b]
      ensures old(Unelaborated()) ==> Unelaborated()
    {
      assert TargetTable(t);
      t.multiBinds := t.multiBinds[|t.binders| - 1 := b];
      forall i | i in inits ensures InitTable(i) {
        assert old(InitTable(i));
      }
      hide LeadsForth, InitTable;
      forall u | u in targets ensures TargetTableBut(u, ToTarget(f)) {
        assert old(TargetTable(u));
      }
    }

    /** The initiator's side. */
    method GrowInitiator(i: Initiator, b: BwBinder, e: FwEnd)
      requires TablesBut(e) && (e.ToTarget? ==> LeadsBack(e.fw, b))
      requires i in inits && b.id == |i.binders| && b.owner == i
      modifies i`binders, i`sockets
      ensures InitTables() && TargetTables() && (old(Unelaborated()) ==> Unelaborated())
      ensures i.binders == old(i.binders) + [b] && i.sockets == old(i.sockets) + [e]
    {
      hide LeadsBack;
      assert InitTable(i);
      i.binders := i.binders + [b];
      i.sockets := i.sockets + [e];
      assert InitTable(i);
      hide InitTable;
      assert forall x | x in inits && x != i :: InitTable(x);
      if e.ToTarget? {
        BackFacts(e.fw, b);
      }
      forall t | t in targets ensures TargetTable(t) {
        assert old(TargetTableBut(t, e));
        forall j | j in t.multiBinds ensures j < |t.binders| && LeadsForth(t.multiBinds[j], t.binders[j]) {
          if !(j < |t.binders| && e == ToTarget(t.binders[j])) {
            assert old(LeadsForth(t.multiBinds[j], t.binders[j]));
          }
        }
      }
    }

    lemma NothingMissing(name: nat)
      requires InitTables() && TargetTables()
      ensures TablesBut(ToPlainTarget(name))
    {
    }

    lemma BackFacts(f: FwBinder, b: BwBinder)
      requires LeadsBack(f, b)
      ensures f.owner in targets && f.id < |f.owner.binders| && f.owner.binders[f.id] == f
      ensures f.id in f.owner.multiBinds && f.owner.multiBinds[f.id] == b
    {
    }

    /** A binding of `i` to `t` has appended one binder on each side, each leading to the other. */
    twostate predicate Exchanged(i: Initiator, t: Target)
      reads i`binders, i`sockets, t`binders, t`multiBinds, t.binders
    {
      && |i.binders| == old(|i.binders|) + 1 && i.binders[..old(|i.binders|)] == old(i.binders)
      && |t.binders| == old(|t.binders|) + 1 && t.binders[..old(|t.binders|)] == old(t.binders)
      && i.sockets == old(i.sockets) + [ToTarget(t.binders[old(|t.binders|)])]
      && t.multiBinds == old(t.multiBinds)[old(|t.binders|) := i.binders[old(|i.binders|)]]
      && t.binders[old(|t.binders|)].owner == t && t.binders[old(|t.binders|)].callbacks == null
      && fresh(i.binders[old(|i.binders|)]) && fresh(t.binders[old(|t.binders|)])
    }

    /** `bind` of an initiator to a target: both sides create a binder, and exchange them. An error
        is reported if one of them is bound to an enclosing socket. */
    method Bind(i: Initiator, t: Target) returns (ok: bool)
      requires Valid() && i in inits && t in targets
      modifies i`binders, i`sockets, t`binders, t`multiBinds
      ensures Valid() && (old(Unelaborated()) ==> Unelaborated())
      ensures ok <==> i.hierarchBind == null && t.hierarchBind == null
      ensures ok ==> Exchanged(i, t)
      ensures !ok ==> unchanged(i) && unchanged(t)
    {
      hide InitChains, TargetChains, InitTables, TargetTables, TablesBut, LeadsBack, Unelaborated, FwBinders;
      if i.hierarchBind != null || t.hierarchBind != null {
        return false;
      }
      var f := GetBaseInterface(t, 0);
      var b := NextBinder(i);
      GetLastBinder(t, f, b);
      GrowInitiator(i, b, ToTarget(f));
      assert InitChains() && TargetChains() && InitTops();
      ok := true;
    }

    /** `bind` of an initiator to an ordinary target socket: only this side keeps a table. */
    method BindToPlain(i: Initiator, name: nat) returns (ok: bool)
      requires Valid() && i in inits
      modifies i`binders, i`sockets
      ensures Valid() && (old(Unelaborated()) ==> Unelaborated()) && (ok <==> i.hierarchBind == null)
      ensures ok ==> |i.binders| == old(|i.binders|) + 1 && i.binders[..old(|i.binders|)] == old(i.binders)
      ensures ok ==> i.sockets == old(i.sockets) + [ToPlainTarget(name)]
      ensures !ok ==> unchanged(i)
    {
      hide InitChains, TargetChains, InitTables, TargetTables, TablesBut, Unelaborated, FwBinders;
      if i.hierarchBind != null {
        return false;
      }
      NothingMissing(name);
      var b := NextBinder(i);
      GrowInitiator(i, b, ToPlainTarget(name));
      ok := true;
    }

    /** `bind` of an ordinary initiator socket to a target: there is no exchange. */
    method BindFromPlain(t: Target, name: nat) returns (ok: bool)
      requires Valid() && t in targets
      modifies t`binders
      ensures Valid() && (old(Unelaborated()) ==> Unelaborated()) && (ok <==> t.hierarchBind == null)
      ensures ok ==> |t.binders| == old(|t.binders|) + 1 && t.binders[..old(|t.binders|)] == old(t.binders)
      ensures ok ==> t.binders[old(|t.binders|)].other == name && old(|t.binders|) !in t.multiBinds
      ensures !ok ==> unchanged(t)
    {
      hide InitChains, TargetChains, LeadsForth, Unelaborated, FwBinders;
      if t.hierarchBind != null {
        return false;
      }
      var f := GetBaseInterface(t, name);
      ok := true;
    }

    /** Hierarchical `bind` of an initiator to the socket of an enclosing module. */
    method BindInits(child: Initiator, parent: Initiator) returns (result: Hierarchical)
      requires Valid() && child in inits && parent in inits && parent.level < child.level
      modifies child`hierarchBind, parent`beoeDisabled, parent`child
      ensures Valid() && (old(Unelaborated()) ==> Unelaborated())
      ensures result ==
        if child.binders != [] then Refused else if old(child.hierarchBind) != null then Ignored else Bound
      ensures result == Bound ==> child.hierarchBind == parent && parent.child == child && parent.beoeDisabled
      ensures result != Bound ==> unchanged(child) && unchanged(parent)
    {
      if child.binders != [] {
        return Refused;
      }
      if child.hierarchBind != null {
        return Ignored;
      }
      hide InitChains, InitTables, TargetTables, TargetChains;
      LinkInits(child, parent);
      result := Bound;
    }

    method LinkInits(child: Initiator, parent: Initiator)
      requires InitChains() && child in inits && parent in inits && parent.level < child.level
      requires child.hierarchBind == null
      modifies child`hierarchBind, parent`beoeDisabled, parent`child
      ensures InitChains() && child.hierarchBind == parent && parent.child == child && parent.beoeDisabled
    {
      parent.beoeDisabled := true;
      parent.child := child;
      child.hierarchBind := parent;
      forall i | i in inits ensures InitChain(i) {
        assert old(InitChain(i));
      }
    }

    /** Hierarchical `bind` of a target to the socket of an enclosed module; a second child is
        ignored. It is not checked that the child is bound neither directly nor to another parent;
        from another parent it is taken away. */
    method BindTargets(parent: Target, child: Target) returns (result: Hierarchical)
      requires Valid() && child in targets && parent in targets && parent.level < child.level
      modifies parent`eoeDisabled, parent`child, child`hierarchBind
      modifies (set t | t in targets && t == child.hierarchBind)`child
      ensures Valid() && (old(Unelaborated()) ==> Unelaborated())
      ensures result == if old(parent.eoeDisabled) then Ignored else Bound
      ensures result == Bound ==> child.hierarchBind == parent && parent.child == child && parent.eoeDisabled
      ensures result == Bound && old(child.hierarchBind) != null ==> old(child.hierarchBind).child == null
      ensures result != Bound ==>
        unchanged(child) && unchanged(parent) && unchanged(set t | t in targets && t == old(child.hierarchBind))
    {
      if parent.eoeDisabled {
        return Ignored;
      }
      hide InitTables, InitChains, TargetTables, TargetChains;
      LinkTargets(parent, child);
      result := Bound;
    }

    method LinkTargets(parent: Target, child: Target)
      requires TargetChains() && child in targets && parent in targets && parent.level < child.level
      requires !parent.eoeDisabled
      modifies parent`eoeDisabled, parent`child, child`hierarchBind
      modifies (set t | t in targets && t == child.hierarchBind)`child
      ensures TargetChains() && child.hierarchBind == parent && parent.child == child && parent.eoeDisabled
      ensures old(child.hierarchBind) != null ==> old(child.hierarchBind).child == null
    {
      assert TargetChain(child) && TargetChain(parent);
      if child.hierarchBind != null {
        child.hierarchBind.child := null;
      }
      parent.eoeDisabled := true;
      parent.child := child;
      child.hierarchBind := parent;
      forall t | t in targets ensures TargetChain(t) {
        assert old(TargetChain(t));
      }
    }

    // ---------------------------------------------------------------- hierarchical chains

    /** The outermost socket of a chain, and the innermost one. */
    ghost function TopInit(i: Initiator): (top: Initiator)
      requires InitChains() && i in inits
      reads `inits, inits`hierarchBind, inits`child, inits`beoeDisabled
      ensures top in inits && top.hierarchBind == null
      decreases i.level
    {
      assert InitChain(i);
      if i.hierarchBind == null then i else TopInit(i.hierarchBind)
    }

    ghost function LeafInit(i: Initiator): (leaf: Initiator)
      requires InitChains() && i in inits
      reads `inits, inits`hierarchBind, inits`child, inits`beoeDisabled
      ensures leaf in inits && leaf.child == null && TopInit(leaf) == TopInit(i)
      decreases height - i.level
    {
      assert InitChain(i);
      if i.child == null then i else assert InitChain(i.child); LeafInit(i.child)
    }

    ghost function TopTarget(t: Target): (top: Target)
      requires TargetChains() && t in targets
      reads `targets, targets`hierarchBind, targets`child, targets`eoeDisabled
      ensures top in targets && top.hierarchBind == null
      decreases t.level
    {
      assert TargetChain(t);
      if t.hierarchBind == null then t else TopTarget(t.hierarchBind)
    }

    ghost function LeafTarget(t: Target): (leaf: Target)
      requires TargetChains() && t in targets
      reads `targets, targets`hierarchBind, targets`child, targets`eoeDisabled
      ensures leaf in targets && leaf.child == null && TopTarget(leaf) == TopTarget(t)
      decreases height - t.level
    {
      assert TargetChain(t);
      if t.child == null then t else assert TargetChain(t.child); LeafTarget(t.child)
    }

    /** No initiator encloses two others. */
    ghost predicate OneChildEach()
      reads `inits, inits`hierarchBind, inits`child
    {
      forall i | i in inits && i.hierarchBind != null :: i.hierarchBind in inits && i.hierarchBind.child == i
    }

    /** A chain has only one innermost socket. */
    lemma {:induction false} LeafOfTopInit(i: Initiator)
      requires InitChains() && OneChildEach() && i in inits
      ensures LeafInit(TopInit(i)) == LeafInit(i)
      decreases i.level
    {
      assert InitChain(i);
      if i.hierarchBind != null {
        LeafOfTopInit(i.hierarchBind);
        assert InitChain(i.hierarchBind);
      }
    }

    lemma {:induction false} LeafOfTopTarget(t: Target)
      requires TargetChains() && t in targets
      ensures LeafTarget(TopTarget(t)) == LeafTarget(t)
      decreases t.level
    {
      assert TargetChain(t);
      if t.hierarchBind != null {
        LeafOfTopTarget(t.hierarchBind);
        assert TargetChain(t.hierarchBind);
      }
    }

    /** `get_hierarch_bind`. */
    method GetHierarchInit(i: Initiator) returns (top: Initiator)
      requires InitChains() && i in inits
      ensures top == TopInit(i)
      decreases i.level
    {
      assert InitChain(i);
      if i.hierarchBind != null {
        top := GetHierarchInit(i.hierarchBind);
      } else {
        top := i;
      }
    }

    method GetHierarchTarget(t: Target) returns (top: Target)
      requires TargetChains() && t in targets
      ensures top == TopTarget(t)
      decreases t.level
    {
      assert TargetChain(t);
      if t.hierarchBind != null {
        top := GetHierarchTarget(t.hierarchBind);
      } else {
        top := t;
      }
    }

    // ---------------------------------------------------------------- elaboration

    static ghost predicate CallsBack(binders: seq<BwBinder>, i: Initiator)
      reads binders
    {
      forall b | b in binders :: b.callbacks == i
    }

    /** Among the innermost initiators below `top`, the one that is elaborated last. */
    ghost function Elected(order: seq<Initiator>, top: Initiator): (e: Initiator?)
      requires InitChains() && forall i | i in order :: i in inits
      reads `inits, inits`hierarchBind, inits`child, inits`beoeDisabled
      ensures e != null ==> e in inits && e in order && e.child == null && TopInit(e) == top
      ensures forall i | i in order && i.child == null && TopInit(i) == top :: e != null
    {
      if order == [] then null
      else
        var n := |order| - 1;
        if order[n].child == null && TopInit(order[n]) == top then order[n]
        else
          assert order == order[..n] + [order[n]];
          Elected(order[..n], top)
    }

    /** What elaboration does for an innermost initiator: its sub-ports are those of the outermost
        socket, whose binders call back the last one elaborated. */
    ghost predicate InitDone(order: seq<Initiator>, i: Initiator)
      requires InitChains() && i in inits && forall j | j in order :: j in inits
      reads `inits, inits`hierarchBind, inits`child, inits`beoeDisabled, inits`sockets, inits`binders, i`usedSockets
      reads TopInit(i).binders
    {
      && i.usedSockets == TopInit(i).sockets
      && Elected(order, TopInit(i)) != null
      && CallsBack(TopInit(i).binders, Elected(order, TopInit(i)))
    }

    static ghost function Sides(binders: seq<FwBinder>, multi: map<nat, BwBinder>): seq<BwEnd> {
      seq(|binders|, j requires 0 <= j < |binders| =>
        if j in multi then ToInitiator(multi[j]) else ToPlainInitiator(binders[j].other))
    }

    /** A target that gives its sub-ports and callbacks to itself or, through a chain of hierarchical
        bindings, to an enclosed one. */
    ghost predicate Served(t: Target)
      requires TargetChains() && t in targets
      reads `targets, targets`hierarchBind, targets`child, targets`eoeDisabled
    {
      t.hierarchBind == null && !LeafTarget(t).eoeDisabled
    }

    ghost predicate TargetDone(t: Target)
      requires TargetChains() && t in targets
      reads `targets, targets`hierarchBind, targets`child, targets`eoeDisabled, targets`binders, targets`multiBinds
      reads t`sockets, TopTarget(t).binders
    {
      && t.sockets == Sides(TopTarget(t).binders, TopTarget(t).multiBinds)
      && forall f | f in TopTarget(t).binders :: f.callbacks == t
    }

    lemma InitDisabled(i: Initiator)
      requires InitChains() && i in inits
      ensures i.beoeDisabled <==> i.child != null
    {
    }

    /** Different initiators have nothing to do with each other's binders. */
    lemma OtherBinders(i: Initiator, j: Initiator)
      requires InitTables() && i in inits && j in inits && i != j
      ensures forall b | b in i.binders :: b !in j.binders
    {
      assert InitTable(i) && InitTable(j);
    }

    lemma OtherTargetBinders(t: Target, u: Target)
      requires TargetTables() && t in targets && u in targets && t != u
      ensures forall f | f in t.binders :: f !in u.binders
    {
      assert TargetTable(t) && TargetTable(u);
    }

    /** `before_end_of_elaboration`. */
    method BeforeEndOfElaboration(i: Initiator)
      requires Valid() && i in inits
      modifies i`usedSockets, TopInit(i).binders
      ensures Valid()
      ensures i.child == null ==> i.usedSockets == TopInit(i).sockets && CallsBack(TopInit(i).binders, i)
      ensures forall j, c | j in inits && c in inits && old(CallsBack(j.binders, c)) ::
                CallsBack(j.binders, c) || (i.child == null && j == TopInit(i))
    {
      hide InitChains, InitTables, TargetTables, TargetChains, TopInit;
      InitDisabled(i);
      if i.beoeDisabled {
        return;
      }
      var top := GetHierarchInit(i);
      forall j | j in inits && j != top ensures forall b | b in j.binders :: b !in top.binders {
        OtherBinders(j, top);
      }
      i.usedSockets := top.sockets;
      for k := 0 to |top.binders|
        invariant i.usedSockets == top.sockets
        invariant forall j | 0 <= j < k :: top.binders[j].callbacks == i
      {
        top.binders[k].callbacks := i;
      }
      assert TopInit(i) == top;
    }

    /** The loop over the binders. */
    static method TakeOver(t: Target, binders: seq<FwBinder>, multiBinds: map<nat, BwBinder>)
      requires t.sockets == []
      modifies t`sockets, binders
      ensures t.sockets == Sides(binders, multiBinds) && forall f | f in binders :: f.callbacks == t
    {
      for j := 0 to |binders|
        invariant t.sockets == Sides(binders, multiBinds)[..j]
        invariant forall k | 0 <= k < j :: binders[k].callbacks == t
      {
        binders[j].callbacks := t;
        if j in multiBinds {
          t.sockets := t.sockets + [ToInitiator(multiBinds[j])];
        } else {
          t.sockets := t.sockets + [ToPlainInitiator(binders[j].other)];
        }
      }
    }

    /** `end_of_elaboration`. */
    method EndOfElaboration(t: Target)
      requires Valid() && t in targets && t.sockets == []
      modifies t`sockets, TopTarget(t).binders
      ensures Valid() && (if t.eoeDisabled then t.sockets == [] else TargetDone(t))
      ensures forall u | u in targets && !u.eoeDisabled && u != t && old(TargetDone(u)) :: TargetDone(u)
      ensures forall u | u in targets && !Served(u) && old(Silent(u)) :: Silent(u)
    {
      hide InitChains, InitTables, TargetTables, TargetChains, TopTarget, LeafTarget, TargetDone, Silent;
      if t.eoeDisabled {
        return;
      }
      LeafOfTopTarget(t);
      OwnLeaf(t);
      var top := GetHierarchTarget(t);
      forall u | u in targets && u != top ensures forall f | f in u.binders :: f !in top.binders {
        OtherTargetBinders(u, top);
      }
      forall u | u in targets && !u.eoeDisabled && u != t ensures TopTarget(u) != top {
        LeafOfTopTarget(u);
        OwnLeaf(u);
      }
      assert Served(top);
      hide Served;
      TakeOver(t, top.binders, top.multiBinds);
      assert TopTarget(t) == top && Served(top);
      IsTargetDone(t);
      forall u | u in targets && !u.eoeDisabled && u != t && old(TargetDone(u)) ensures TargetDone(u) {
        StillDone(u);
      }
      forall u | u in targets && u != top && old(Silent(u)) ensures Silent(u) {
        StillSilent(u);
      }
    }

    twostate lemma {:induction false} StillDone(u: Target)
      requires TargetChains() && u in targets && old(TargetChains() && u in targets && TargetDone(u))
      requires TopTarget(u) == old(TopTarget(u)) && u.sockets == old(u.sockets)
      requires TopTarget(u).binders == old(TopTarget(u).binders)
      requires TopTarget(u).multiBinds == old(TopTarget(u).multiBinds)
      requires forall f | f in TopTarget(u).binders :: f.callbacks == old(f.callbacks)
      ensures TargetDone(u)
    {
    }

    twostate lemma StillSilent(u: Target)
      requires old(Silent(u)) && u.binders == old(u.binders)
      requires forall f | f in u.binders :: f.callbacks == old(f.callbacks)
      ensures Silent(u)
    {
    }

    lemma {:induction false} IsTargetDone(t: Target)
      requires TargetChains() && t in targets && t.sockets == Sides(TopTarget(t).binders, TopTarget(t).multiBinds)
      requires forall f | f in TopTarget(t).binders :: f.callbacks == t
      ensures TargetDone(t)
    {
    }

    lemma {:induction false} OwnLeaf(t: Target)
      requires TargetChains() && t in targets && !t.eoeDisabled
      ensures LeafTarget(t) == t
    {
      assert TargetChain(t);
    }

    ghost function BwBinders(): set<BwBinder>
      reads `inits, inits`binders
    {
      set i, b | i in inits && b in i.binders :: b
    }

    lemma OwnBw(i: Initiator)
      requires i in inits
      ensures forall b | b in i.binders :: b in BwBinders()
    {
    }

    ghost predicate InitsDone(order: seq<Initiator>)
      requires InitChains() && forall j | j in order :: j in inits
      reads `inits, inits`hierarchBind, inits`child, inits`beoeDisabled, inits`sockets, inits`binders
      reads inits`usedSockets, BwBinders()
    {
      forall i | i in inits && i.child == null :: OwnBw(TopInit(i)); InitDone(order, i)
    }

    ghost predicate TargetsDone()
      requires TargetChains()
      reads `targets, targets`hierarchBind, targets`child, targets`eoeDisabled, targets`binders, targets`multiBinds
      reads targets`sockets, FwBinders()
    {
      && (forall t | t in targets && !t.eoeDisabled :: OwnFw(TopTarget(t)); TargetDone(t))
      && (forall t | t in targets && t.eoeDisabled :: t.sockets == [])
      && (forall t | t in targets && !Served(t) :: OwnFw(t); Silent(t))
    }

    ghost predicate Elaborated(initOrder: seq<Initiator>)
      requires Valid()
      reads this, inits, targets, BwBinders(), FwBinders()
    {
      && (forall i | i in inits :: i in initOrder) && (forall i | i in initOrder :: i in inits)
      && InitsDone(initOrder) && TargetsDone()
    }

    /** Where elaboration stands after `order`. */
    ghost predicate InitsSoFar(order: seq<Initiator>)
      requires InitChains() && forall j | j in order :: j in inits
      reads `inits, inits`hierarchBind, inits`child, inits`beoeDisabled, inits`sockets, inits`binders
      reads inits`usedSockets, BwBinders()
    {
      && (forall i | i in order && i.child == null :: i.usedSockets == TopInit(i).sockets)
      && (forall j | j in inits && Elected(order, j) != null :: OwnBw(j); CallsBack(j.binders, Elected(order, j)))
    }

    lemma {:induction false} ElectedAppend(order: seq<Initiator>, i: Initiator, top: Initiator)
      requires InitChains() && i in inits && forall j | j in order :: j in inits
      ensures Elected(order + [i], top) == if i.child == null && TopInit(i) == top then i else Elected(order, top)
    {
      hide TopInit;
      assert (order + [i])[..|order|] == order;
    }

    method ElaborateNext(ghost order: seq<Initiator>, i: Initiator)
      requires Valid() && i in inits && (forall j | j in order :: j in inits) && InitsSoFar(order)
      modifies i`usedSockets, TopInit(i).binders
      ensures Valid() && InitsSoFar(order + [i])
    {
      hide InitChains, InitTables, TargetTables, TargetChains, TopInit, CallsBack, Elected;
      ghost var was := map j | j in inits :: Elected(order, j);
      forall j | j in inits && was[j] != null ensures CallsBack(j.binders, was[j]) {
        OwnBw(j);
      }
      BeforeEndOfElaboration(i);
      forall j | j in inits && Elected(order + [i], j) != null ensures CallsBack(j.binders, Elected(order + [i], j)) {
        ElectedAppend(order, i, j);
      }
    }

    method ElaborateInits(order: seq<Initiator>)
      requires Valid() && (forall i :: i in inits <==> i in order)
      modifies inits`usedSockets, BwBinders()
      ensures Valid() && InitsDone(order)
    {
      hide InitChains, InitTables, TargetTables, TargetChains, TopInit, InitsSoFar, InitsDone, BwBinders;
      NothingElaborated();
      ghost var all := BwBinders();
      for n := 0 to |order|
        invariant Valid() && BwBinders() == all
        invariant InitsSoFar(order[..n])
      {
        OwnBw(TopInit(order[n]));
        ElaborateNext(order[..n], order[n]);
        assert order[..n + 1] == order[..n] + [order[n]];
      }
      assert order[..|order|] == order;
      AllElaborated(order);
    }

    lemma NothingElaborated()
      requires InitChains()
      ensures InitsSoFar([])
    {
    }

    lemma AllElaborated(order: seq<Initiator>)
      requires InitChains() && (forall j | j in order :: j in inits) && (forall j | j in inits :: j in order)
      requires InitsSoFar(order)
      ensures InitsDone(order)
    {
    }

    method ElaborateTargets(order: seq<Target>)
      requires Valid() && (forall t :: t in targets <==> t in order) && Unelaborated()
      requires forall j, k | 0 <= j < k < |order| :: order[j] != order[k]
      modifies targets`sockets, FwBinders()
      ensures Valid() && TargetsDone()
    {
      hide InitChains, InitTables, TargetTables, TargetChains, TopTarget, TargetDone, FwBinders, Silent, Served;
      ghost var all := FwBinders();
      for n := 0 to |order|
        invariant Valid() && FwBinders() == all
        invariant forall j | n <= j < |order| :: order[j].sockets == []
        invariant forall t | t in order[..n] :: if t.eoeDisabled then t.sockets == [] else TargetDone(t)
        invariant forall t | t in targets && !Served(t) :: Silent(t)
      {
        OwnFw(TopTarget(order[n]));
        EndOfElaboration(order[n]);
      }
      assert order[..|order|] == order;
    }

    /** The phases of elaboration, each over all sockets in any order. */
    method Elaborate(initOrder: seq<Initiator>, targetOrder: seq<Target>)
      requires Valid() && Unelaborated()
      requires (forall i :: i in inits <==> i in initOrder) && (forall t :: t in targets <==> t in targetOrder)
      requires forall j, k | 0 <= j < k < |targetOrder| :: targetOrder[j] != targetOrder[k]
      modifies inits`usedSockets, targets`sockets, BwBinders(), FwBinders()
      ensures Valid() && Elaborated(initOrder)
    {
      hide InitChains, InitTables, TargetTables, TargetChains, InitsDone, TargetsDone;
      ElaborateInits(initOrder);
      ElaborateTargets(targetOrder);
    }

    // ---------------------------------------------------------------- round trips

    /** The callbacks behind `f` have a sub-port with its tag, which leads back to the callbacks of
        `i` with tag `k`. */
    ghost predicate ReturnsTo(f: FwBinder, i: Initiator, k: nat)
      reads f, f.callbacks
      reads set e | f.callbacks != null && e in f.callbacks.sockets && e.ToInitiator? :: e.bw
    {
      && f.callbacks != null
      && f.id < |f.callbacks.sockets| && f.callbacks.sockets[f.id].ToInitiator?
      && f.callbacks.sockets[f.id].bw.callbacks == i && f.callbacks.sockets[f.id].bw.id == k
    }

    /** The sub-ports of an innermost socket are the bindings of its outermost one, in order: to a binder
        of a multi-socket, or to the ordinary socket that was bound. */
    lemma {:induction false} SubPorts(order: seq<Initiator>, i: Initiator, t: Target, j: nat)
      requires Valid() && Elaborated(order) && i in inits && i.child == null && t in targets && !t.eoeDisabled
      ensures i.usedSockets == TopInit(i).sockets && |t.sockets| == |TopTarget(t).binders|
      ensures j < |t.sockets| && j in TopTarget(t).multiBinds ==>
        t.sockets[j] == ToInitiator(TopTarget(t).multiBinds[j])
      ensures j < |t.sockets| && j !in TopTarget(t).multiBinds ==>
        t.sockets[j] == ToPlainInitiator(TopTarget(t).binders[j].other)
    {
      assert InitDone(order, i) && TargetDone(t);
    }

    /** After elaboration, sub-port `k` of an innermost initiator leads to the innermost target below
        the one that was bound, and back, exactly if that target is served and this initiator is
        the last one elaborated in its tree; to an unserved target it leads nowhere. */
    lemma {:induction false} InitiatorRoundTrip(order: seq<Initiator>, i: Initiator, k: nat)
      requires Valid() && Elaborated(order) && i in inits && i.child == null
      requires k < |i.usedSockets| && i.usedSockets[k].ToTarget?
      ensures var f := i.usedSockets[k].fw;
        && f.owner in targets
        && f.callbacks == (if Served(f.owner) then LeafTarget(f.owner) else null)
        && (ReturnsTo(f, i, k) <==> Served(f.owner) && Elected(order, TopInit(i)) == i)
    {
      var f, top := i.usedSockets[k].fw, TopInit(i);
      assert InitDone(order, i);
      assert InitTable(top) && LeadsBack(f, top.binders[k]);
      var t := f.owner;
      assert TargetTable(t) && f in t.binders;
      if Served(t) {
        assert TargetDone(LeafTarget(t));
      }
    }

    /** Sub-port `j` of an innermost target always leads to an initiator's callbacks whose sub-port
        leads here. */
    lemma {:induction false} TargetRoundTrip(order: seq<Initiator>, t: Target, j: nat)
      requires Valid() && Elaborated(order) && t in targets
      requires j < |t.sockets| && t.sockets[j].ToInitiator?
      ensures var b := t.sockets[j].bw;
        && b.owner in inits && b.callbacks != null && b.callbacks == Elected(order, b.owner)
        && b.id < |b.callbacks.usedSockets| && b.callbacks.usedSockets[b.id].ToTarget?
        && b.callbacks.usedSockets[b.id].fw.callbacks == t && b.callbacks.usedSockets[b.id].fw.id == j
    {
      var b, top := t.sockets[j].bw, TopTarget(t);
      assert TargetDone(t);
      assert TargetTable(top) && LeadsForth(b, top.binders[j]);
      var i := b.owner;
      assert InitTable(i) && b in i.binders;
      assert InitDone(order, LeafInit(i));
      assert InitDone(order, Elected(order, i));
    }

    twostate lemma OnlyFreshBw(i: Initiator, new b: BwBinder)
      requires inits == old(inits) && i in inits && fresh(b)
      requires forall j | j in inits :: j.binders == old(j.binders) + (if j == i then [b] else [])
      ensures forall x | x in BwBinders() :: x in old(BwBinders()) || fresh(x)
    {
    }

    twostate lemma OnlyFreshFw(t: Target, new f: FwBinder)
      requires targets == old(targets) && t in targets && fresh(f)
      requires forall u | u in targets :: u.binders == old(u.binders) + (if u == t then [f] else [])
      ensures forall x | x in FwBinders() :: x in old(FwBinders()) || fresh(x)
    {
    }

    method BindThenEnclose(i: Initiator, child: Target, parent: Target)
      requires Valid() && Unelaborated() && i in inits && child in targets && parent in targets
      requires i.hierarchBind == null && child.hierarchBind == null && parent.level < child.level && !parent.eoeDisabled
      modifies i`binders, i`sockets, child`binders, child`multiBinds
      modifies parent`eoeDisabled, parent`child, child`hierarchBind
      ensures Valid() && Unelaborated() && child.hierarchBind == parent
      ensures forall b | b in BwBinders() :: b in old(BwBinders()) || fresh(b)
      ensures forall f | f in FwBinders() :: f in old(FwBinders()) || fresh(f)
      ensures |i.sockets| == old(|i.sockets|) + 1 && i.sockets[old(|i.sockets|)].ToTarget?
      ensures i.sockets[old(|i.sockets|)].fw.owner == child
    {
      hide InitChains, TargetChains, InitTables, TargetTables, InitTops, Unelaborated, BwBinders, FwBinders;
      var ok := Bind(i, child);
      var result := BindTargets(parent, child);
      OnlyFreshBw(i, i.binders[old(|i.binders|)]);
      OnlyFreshFw(child, child.binders[old(|child.binders|)]);
    }

    /** A target that is bound directly and gets a parent afterwards: nothing is reported, and the
        sub-port leads nowhere. */
    method LateParent(i: Initiator, child: Target, parent: Target, initOrder: seq<Initiator>, targetOrder: seq<Target>)
      requires Valid() && Unelaborated() && i in inits && child in targets && parent in targets && i.child == null
      requires i.hierarchBind == null && child.hierarchBind == null && parent.level < child.level && !parent.eoeDisabled
      requires (forall i :: i in inits <==> i in initOrder) && (forall t :: t in targets <==> t in targetOrder)
      requires forall j, k | 0 <= j < k < |targetOrder| :: targetOrder[j] != targetOrder[k]
      modifies inits, targets, BwBinders(), FwBinders()
      ensures |i.usedSockets| == old(|i.sockets|) + 1 && i.usedSockets[old(|i.sockets|)].ToTarget?
      ensures var f := i.usedSockets[old(|i.sockets|)].fw; f.owner == child && f.callbacks == null
    {
      hide InitChains, TargetChains, InitTables, TargetTables, InitTops, TargetsDone;
      hide Unelaborated, BwBinders, FwBinders;
      BindThenEnclose(i, child, parent);
      Elaborate(initOrder, targetOrder);
      LeadsNowhere(initOrder, i, old(|i.sockets|));
    }

    lemma LeadsNowhere(order: seq<Initiator>, i: Initiator, k: nat)
      requires Valid() && Elaborated(order) && i in inits && i.child == null && i.hierarchBind == null
      requires k < |i.sockets| && i.sockets[k].ToTarget? && i.sockets[k].fw.owner.hierarchBind != null
      ensures i.usedSockets == i.sockets && i.usedSockets[k].fw.callbacks == null
    {
      hide InitTables, TargetChains, TargetTables, TargetsDone;
      assert InitDone(order, i);
      InitiatorRoundTrip(order, i, k);
    }

    /** While no initiator encloses two others, the choice is no choice. */
    lemma {:induction false} OnlyOneToElect(order: seq<Initiator>, i: Initiator)
      requires InitChains() && OneChildEach() && (forall j | j in order :: j in inits) && i in order && i.child == null
      ensures Elected(order, TopInit(i)) == i
    {
      LeafOfTopInit(i);
      LeafOfTopInit(Elected(order, TopInit(i)));
    }
  }

  /** An initiator that is bound directly refuses a hierarchical binding; a second one is ignored
      with a warning. */
  datatype Hierarchical = Bound | Ignored | Refused
}
