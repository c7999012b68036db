/** The type ids of the backplane: explicit matches between frameworks, and ids by short name for
    all other types. */
module TypeIds {
  import opened Options
  import opened TypeNames

  /** What a framework proxy knows: ids by name, names by id, and the ids that come from explicit
      matches. */
  datatype Proxy = Proxy(entries: map<string, nat>, names: map<nat, string>, registered: set<nat>)

  datatype Registry = Registry(
    proxies: seq<Proxy>,
    unregistered: map<string, nat>,
    unregisteredNames: map<nat, string>,
    nextId: nat)

  /** `Ambiguous` stands for the failed assertion of the search. */
  datatype Found = Id(id: nat) | Missing | Ambiguous

  ghost function ShortMatches(f: Proxy, name: string): set<string> {
    set k | k in f.entries && ShortName(k) == name
  }

  /** `FindTypeId`: by the exact name; else an unqualified name by the one entry of which it is
      the short name. */
  ghost function FindTypeId(f: Proxy, name: string): Found {
    if name in f.entries then Id(f.entries[name])
    else if Qualified(name) then Missing
    else
      var ks := ShortMatches(f, name);
      if ks == {} then Missing
      else if |ks| == 1 then
        var k :| k in ks;
        Id(f.entries[k])
      else Ambiguous
  }

  datatype Answer = Answer(found: Found, after: Registry)

  /** `GetUnregisteredTypeId`. */
  function UnregisteredId(r: Registry, short: string): (nat, Registry) {
    if short in r.unregistered then (r.unregistered[short], r)
    else
      (r.nextId, r.(unregistered := r.unregistered[short := r.nextId],
                    unregisteredNames := r.unregisteredNames[r.nextId := short],
                    nextId := r.nextId + 1))
  }

  /** `GetTypeId` of framework `f`. */
  ghost function GetTypeId(r: Registry, f: nat, name: string): Answer
    requires f < |r.proxies|
  {
    var p := r.proxies[f];
    match FindTypeId(p, name)
    case Id(id) => Answer(Id(id), r)
    case Ambiguous => Answer(Ambiguous, r)
    case Missing =>
      var short := ShortName(name);
      if Qualified(name) && short in p.entries then Answer(Id(p.entries[short]), r)
      else
        var (id, r1) := UnregisteredId(r, short);
        var p1 := p.(entries := p.entries[short := id], names := p.names[id := name]);
        Answer(Id(id), r1.(proxies := r1.proxies[f := p1]))
  }

  /** `GetTypeName`; `None` stands for the failed assertion that the id is known. */
  function GetTypeName(r: Registry, f: nat, id: nat, getBaseName: bool): Option<string>
    requires f < |r.proxies|
  {
    var name := if id in r.proxies[f].names then Some(r.proxies[f].names[id])
                else if id in r.unregisteredNames then Some(r.unregisteredNames[id]) else None;
    if getBaseName && name.Some? then Some(BaseName(name.value)) else name
  }

  /** `AddRegisteredTypeEntry`. */
  function AddEntry(r: Registry, f: nat, name: string, id: nat): Registry
    requires f < |r.proxies|
  {
    var p := r.proxies[f];
    r.(proxies := r.proxies[f := Proxy(p.entries[name := id], p.names[id := name], p.registered + {id})])
  }

  /** `RegisterTypeMatch` returns a truth value or fails an assertion. */
  datatype Matched = Yes | No | Abort

  datatype Verdict = Verdict(matched: Matched, after: Registry)

  ghost function RegisterTypeMatch(r: Registry, f1: Option<nat>, n1: string, f2: Option<nat>, n2: string): Verdict
    requires f1.Some? ==> f1.value < |r.proxies|
    requires f2.Some? ==> f2.value < |r.proxies|
  {
    if f1.None? || f2.None? then Verdict(No, r)
    else if f1 == f2 then Verdict(Abort, r)
    else
      var p1, p2 := r.proxies[f1.value], r.proxies[f2.value];
      match (FindTypeId(p1, n1), FindTypeId(p2, n2))
      case (Missing, Missing) =>
        var id := r.nextId;
        Verdict(Yes, AddEntry(AddEntry(r.(nextId := id + 1), f1.value, n1, id), f2.value, n2, id))
      case (Id(id1), Missing) =>
        if id1 in p1.registered then Verdict(Yes, AddEntry(r, f2.value, n2, id1)) else Verdict(Abort, r)
      case (Missing, Id(id2)) =>
        if id2 in p2.registered then Verdict(Yes, AddEntry(r, f1.value, n1, id2)) else Verdict(Abort, r)
      case (Id(id1), Id(id2)) =>
        if id1 == id2 then Verdict(Yes, r) else Verdict(Abort, r)
      case _ => Verdict(Abort, r)
  }

  // ------------------------------------------------------------------ runs

  datatype Op =
    | Query(f: nat, name: string)
    | Match(f1: Option<nat>, n1: string, f2: Option<nat>, n2: string)

  function Fresh(frameworks: nat): Registry {
    Registry(seq(frameworks, _ => Proxy(map[], map[], {})), map[], map[], 0)
  }

  /** A step of a program that goes on: no assertion fails. */
  ghost predicate IsStep(r: Registry, op: Op, r': Registry) {
    match op
    case Query(f, name) =>
      f < |r.proxies| && GetTypeId(r, f, name).found.Id? && r' == GetTypeId(r, f, name).after
    case Match(f1, n1, f2, n2) =>
      && (f1.Some? ==> f1.value < |r.proxies|) && (f2.Some? ==> f2.value < |r.proxies|)
      && RegisterTypeMatch(r, f1, n1, f2, n2).matched != Abort
      && r' == RegisterTypeMatch(r, f1, n1, f2, n2).after
  }

  ghost predicate IsRun(rs: seq<Registry>, ops: seq<Op>, frameworks: nat) {
    && |rs| == |ops| + 1 && rs[0] == Fresh(frameworks)
    && forall i | 0 <= i < |ops| :: IsStep(rs[i], ops[i], rs[i + 1])
  }

  /** The id that a query returned. */
  ghost function AnswerOf(r: Registry, op: Op): nat
    requires op.Query? && op.f < |r.proxies| && GetTypeId(r, op.f, op.name).found.Id?
  {
    GetTypeId(r, op.f, op.name).found.id
  }

  // ------------------------------------------------------------------ entries are never lost

  ghost predicate Extends<K, V>(m: map<K, V>, n: map<K, V>) {
    forall k | k in m :: k in n && n[k] == m[k]
  }

  ghost predicate Grows(r: Registry, r': Registry) {
    && |r.proxies| == |r'.proxies|
    && Extends(r.unregistered, r'.unregistered)
    && forall f | 0 <= f < |r.proxies| :: Extends(r.proxies[f].entries, r'.proxies[f].entries)
  }

  lemma {:induction false} AddGrows(r: Registry, f: nat, name: string, id: nat)
    requires f < |r.proxies| && (name in r.proxies[f].entries ==> r.proxies[f].entries[name] == id)
    ensures Grows(r, AddEntry(r, f, name, id))
  {
  }

  lemma {:induction false} GrowsOn(r: Registry, s: Registry, t: Registry)
    requires Grows(r, s) && Grows(s, t)
    ensures Grows(r, t)
  {
  }

  lemma {:induction false} StepGrows(r: Registry, op: Op, r': Registry)
    requires IsStep(r, op, r')
    ensures Grows(r, r')
  {
    match op {
      case Query(f, name) =>
      case Match(f1, n1, f2, n2) =>
        if f1.Some? && f2.Some? {
          var r1 := r.(nextId := r.nextId + 1);
          if FindTypeId(r.proxies[f1.value], n1).Missing? && FindTypeId(r.proxies[f2.value], n2).Missing? {
            AddGrows(r1, f1.value, n1, r.nextId);
            AddGrows(AddEntry(r1, f1.value, n1, r.nextId), f2.value, n2, r.nextId);
            GrowsOn(r1, AddEntry(r1, f1.value, n1, r.nextId), r');
          }
        }
    }
  }

  lemma {:induction false} RunGrows(rs: seq<Registry>, ops: seq<Op>, frameworks: nat, i: nat, j: nat)
    requires IsRun(rs, ops, frameworks) && i <= j < |rs|
    ensures Grows(rs[i], rs[j])
    decreases j - i
  {
    if i < j {
      RunGrows(rs, ops, frameworks, i, j - 1);
      assert IsStep(rs[j - 1], ops[j - 1], rs[j - 1 + 1]);
      StepGrows(rs[j - 1], ops[j - 1], rs[j]);
      GrowsOn(rs[i], rs[j - 1], rs[j]);
    }
  }

  lemma {:induction false} MatchResolves(r: Registry, f1: nat, n1: string, f2: nat, n2: string, r': Registry)
    requires f1 < |r.proxies| && f2 < |r.proxies| && Qualified(n1) && Qualified(n2)
    requires RegisterTypeMatch(r, Some(f1), n1, Some(f2), n2) == Verdict(Yes, r')
    ensures |r'.proxies| == |r.proxies| && n1 in r'.proxies[f1].entries && n2 in r'.proxies[f2].entries
    ensures r'.proxies[f1].entries[n1] == r'.proxies[f2].entries[n2]
  {
  }

  /** Once a match of two qualified names has been accepted, both names resolve to one id for the
      rest of the run. */
  lemma {:induction false} MatchLasts(rs: seq<Registry>, ops: seq<Op>, frameworks: nat, i: nat, j: nat)
    requires IsRun(rs, ops, frameworks) && i < |ops| && i < j < |rs|
    requires ops[i].Match? && ops[i].f1.Some? && ops[i].f2.Some? && Qualified(ops[i].n1) && Qualified(ops[i].n2)
    ensures var f1, f2 := ops[i].f1.value, ops[i].f2.value;
      && f1 < |rs[j].proxies| && f2 < |rs[j].proxies|
      && FindTypeId(rs[j].proxies[f1], ops[i].n1).Id?
      && FindTypeId(rs[j].proxies[f1], ops[i].n1) == FindTypeId(rs[j].proxies[f2], ops[i].n2)
      && GetTypeId(rs[j], f1, ops[i].n1) == GetTypeId(rs[j], f2, ops[i].n2)
  {
    var f1, f2 := ops[i].f1.value, ops[i].f2.value;
    assert IsStep(rs[i], ops[i], rs[i + 1]);
    MatchResolves(rs[i], f1, ops[i].n1, f2, ops[i].n2, rs[i + 1]);
    RunGrows(rs, ops, frameworks, i + 1, j);
    assert Extends(rs[i + 1].proxies[f1].entries, rs[j].proxies[f1].entries);
    assert Extends(rs[i + 1].proxies[f2].entries, rs[j].proxies[f2].entries);
  }

  // ------------------------------------------------------------------ unqualified names

  /** Ids from matches and ids by short name never coincide; an entry is of one of the two kinds, and
      a qualified entry always comes from a match. */
  ghost predicate Apart(r: Registry) {
    && (forall s | s in r.unregistered :: r.unregistered[s] < r.nextId)
    && (forall f | 0 <= f < |r.proxies| :: ProxyApart(r, r.proxies[f]))
  }

  ghost predicate ProxyApart(r: Registry, p: Proxy) {
    && (forall id | id in p.registered :: id < r.nextId && id !in r.unregistered.Values)
    && (forall k | k in p.entries && Qualified(k) :: p.entries[k] in p.registered)
    && (forall k | k in p.entries :: p.entries[k] in p.registered || p.entries[k] in r.unregistered.Values)
  }

  lemma {:induction false} StillApart(r: Registry, r': Registry, p: Proxy)
    requires ProxyApart(r, p) && r.nextId <= r'.nextId
    requires forall id | id in r'.unregistered.Values :: id in r.unregistered.Values || id == r.nextId
    requires r.unregistered.Values <= r'.unregistered.Values
    ensures ProxyApart(r', p)
  {
  }

  lemma {:induction false} UnregisteredValues(r: Registry, short: string)
    ensures var (id, r') := UnregisteredId(r, short);
      && r.nextId <= r'.nextId && id in r'.unregistered.Values
      && (forall i | i in r'.unregistered.Values :: i in r.unregistered.Values || i == r.nextId)
      && r.unregistered.Values <= r'.unregistered.Values
      && ((forall s | s in r.unregistered :: r.unregistered[s] < r.nextId) ==>
            forall s | s in r'.unregistered :: r'.unregistered[s] < r'.nextId)
      && r'.proxies == r.proxies
  {
    var (id, r') := UnregisteredId(r, short);
    assert short in r'.unregistered && r'.unregistered[short] == id;
    forall i | i in r.unregistered.Values ensures i in r'.unregistered.Values {
      var s :| s in r.unregistered && r.unregistered[s] == i;
      assert s in r'.unregistered && r'.unregistered[s] == i;
    }
  }

  lemma {:induction false} QueryApart(r: Registry, f: nat, name: string)
    requires Apart(r) && f < |r.proxies|
    ensures Apart(GetTypeId(r, f, name).after)
  {
    hide ShortName, Qualified, FindTypeId, UnregisteredId;
    var r' := GetTypeId(r, f, name).after;
    if r' != r {
      var short := ShortName(name);
      UnregisteredValues(r, short);
      ShortIsShort(name);
      forall g | 0 <= g < |r'.proxies| ensures ProxyApart(r', r'.proxies[g]) {
        assert ProxyApart(r, r.proxies[g]);
        StillApart(r, r', r.proxies[g]);
      }
    }
  }

  lemma {:induction false} AddApart(r: Registry, f: nat, name: string, id: nat)
    requires Apart(r) && f < |r.proxies| && id < r.nextId && id !in r.unregistered.Values
    ensures Apart(AddEntry(r, f, name, id))
  {
    hide Qualified;
    var r' := AddEntry(r, f, name, id);
    forall g | 0 <= g < |r'.proxies| ensures ProxyApart(r', r'.proxies[g]) {
      assert ProxyApart(r, r.proxies[g]);
    }
  }

  lemma {:induction false} NextApart(r: Registry)
    requires Apart(r)
    ensures Apart(r.(nextId := r.nextId + 1)) && r.nextId !in r.unregistered.Values
  {
    forall f | 0 <= f < |r.proxies| ensures ProxyApart(r.(nextId := r.nextId + 1), r.proxies[f]) {
      assert ProxyApart(r, r.proxies[f]);
    }
  }

  lemma {:induction false} StepApart(r: Registry, op: Op, r': Registry)
    requires Apart(r) && IsStep(r, op, r')
    ensures Apart(r')
  {
    hide Qualified, ShortName, FindTypeId, GetTypeId, Apart;
    match op {
      case Query(f, name) =>
        QueryApart(r, f, name);
      case Match(f1, n1, f2, n2) =>
        if f1.Some? && f2.Some? && r' != r {
          var p1, p2 := r.proxies[f1.value], r.proxies[f2.value];
          RegisteredApart(r, f1.value);
          RegisteredApart(r, f2.value);
          NextApart(r);
          var r1 := r.(nextId := r.nextId + 1);
          if FindTypeId(p1, n1).Missing? && FindTypeId(p2, n2).Missing? {
            AddApart(r1, f1.value, n1, r.nextId);
            AddApart(AddEntry(r1, f1.value, n1, r.nextId), f2.value, n2, r.nextId);
          } else if FindTypeId(p2, n2).Missing? {
            AddApart(r, f2.value, n2, FindTypeId(p1, n1).id);
          } else {
            AddApart(r, f1.value, n1, FindTypeId(p2, n2).id);
          }
        }
    }
  }

  lemma {:induction false} RegisteredApart(r: Registry, f: nat)
    requires Apart(r) && f < |r.proxies|
    ensures forall id | id in r.proxies[f].registered :: id < r.nextId && id !in r.unregistered.Values
  {
    assert ProxyApart(r, r.proxies[f]);
  }

  lemma {:induction false} FreshApart(frameworks: nat)
    ensures Apart(Fresh(frameworks)) && Inverse(Fresh(frameworks))
  {
  }

  lemma {:induction false} StepInverse(r: Registry, op: Op, r': Registry)
    requires Inverse(r) && IsStep(r, op, r')
    ensures Inverse(r')
  {
    hide Qualified, ShortName, FindTypeId, Inverse, UnregisteredId;
    match op {
      case Query(f, name) =>
        ShortIsShort(name);
        UnregisteredKeeps(r, ShortName(name));
        QueryInverse(r, f, name);
      case Match(f1, n1, f2, n2) =>
        MatchInverse(r, r');
    }
  }

  lemma {:induction false} QueryInverse(r: Registry, f: nat, name: string)
    requires Inverse(r) && f < |r.proxies| && Inverse(UnregisteredId(r, ShortName(name)).1)
    ensures Inverse(GetTypeId(r, f, name).after)
  {
  }

  lemma {:induction false} MatchInverse(r: Registry, r': Registry)
    requires Inverse(r) && r.unregistered == r'.unregistered && r.unregisteredNames == r'.unregisteredNames
    requires r.nextId <= r'.nextId
    ensures Inverse(r')
  {
  }

  lemma {:induction false} RunApart(rs: seq<Registry>, ops: seq<Op>, frameworks: nat, i: nat)
    requires IsRun(rs, ops, frameworks) && i < |rs|
    ensures Apart(rs[i]) && Inverse(rs[i])
    decreases i
  {
    if i == 0 {
      FreshApart(frameworks);
    } else {
      hide Apart, Inverse, IsStep;
      RunApart(rs, ops, frameworks, i - 1);
      assert IsStep(rs[i - 1], ops[i - 1], rs[i - 1 + 1]);
      StepApart(rs[i - 1], ops[i - 1], rs[i]);
      StepInverse(rs[i - 1], ops[i - 1], rs[i]);
    }
  }

  /** The unqualified `name` was found by the qualified entry `k`; if it has an entry of its own,
      that is the id by short name. */
  ghost predicate Shadowed(r: Registry, p: Proxy, name: string, k: string) {
    && !Qualified(name) && k in ShortMatches(p, name) && Qualified(k)
    && (name in p.entries ==> name in r.unregistered && p.entries[name] == r.unregistered[name])
  }

  lemma {:induction false} ShadowedFound(r: Registry, p: Proxy, name: string, k: string)
    requires Shadowed(r, p, name, k)
    ensures !FindTypeId(p, name).Missing?
  {
  }

  lemma {:induction false} StepShadowed(r: Registry, op: Op, r': Registry, f: nat, name: string, k: string)
    requires IsStep(r, op, r') && f < |r.proxies| && Shadowed(r, r.proxies[f], name, k)
    ensures f < |r'.proxies| && Shadowed(r', r'.proxies[f], name, k)
  {
    hide Qualified, ShortName, FindTypeId;
    StepGrows(r, op, r');
    ShadowedFound(r, r.proxies[f], name, k);
    match op {
      case Query(g, queried) =>
        ShortIsShort(queried);
      case Match(f1, n1, f2, n2) =>
    }
  }

  lemma {:induction false} RunShadowed(rs: seq<Registry>, ops: seq<Op>, frameworks: nat, i: nat, j: nat, f: nat,
      name: string, k: string)
    requires IsRun(rs, ops, frameworks) && i <= j < |rs| && f < |rs[i].proxies|
    requires Shadowed(rs[i], rs[i].proxies[f], name, k)
    ensures f < |rs[j].proxies| && Shadowed(rs[j], rs[j].proxies[f], name, k)
    decreases j - i
  {
    hide Shadowed;
    if i < j {
      RunShadowed(rs, ops, frameworks, i, j - 1, f, name, k);
      assert IsStep(rs[j - 1], ops[j - 1], rs[j - 1 + 1]);
      StepShadowed(rs[j - 1], ops[j - 1], rs[j], f, name, k);
    }
  }

  /** Framework `p` has become `q`: the entry of the name was its own, or no entry with this short
      name was added. */
  ghost predicate Untouched(p: Proxy, q: Proxy, name: string) {
    name in p.entries || ShortMatches(q, name) == ShortMatches(p, name)
  }

  lemma {:induction false} FoundByQualified(p: Proxy, name: string) returns (k: string)
    requires FindTypeId(p, name).Id? && name !in p.entries
    ensures !Qualified(name) && ShortMatches(p, name) == {k} && Qualified(k) && FindTypeId(p, name) == Id(p.entries[k])
  {
    var ks := ShortMatches(p, name);
    k :| k in ks;
    assert |ks - {k}| == 0;
    assert ks == {k};
    ShortIsShort(k);
  }

  lemma {:induction false} FoundByOne(q: Proxy, name: string, k: string)
    requires !Qualified(name) && name !in q.entries && ShortMatches(q, name) == {k}
    ensures k in q.entries && FindTypeId(q, name) == Id(q.entries[k])
  {
    assert k in ShortMatches(q, name);
  }

  /** What has become of a name that resolved to `id` earlier in the run: while its entries are
      untouched it resolves to `id`; otherwise `id` came from a match, and the name resolves to its
      id by short name or is ambiguous. */
  lemma {:induction false} LaterResolution(rs: seq<Registry>, ops: seq<Op>, frameworks: nat, i: nat, j: nat, f: nat,
      name: string)
    requires IsRun(rs, ops, frameworks) && i <= j < |rs| && f < |rs[i].proxies|
    requires FindTypeId(rs[i].proxies[f], name).Id?
    ensures f < |rs[j].proxies|
    ensures var p, q, id := rs[i].proxies[f], rs[j].proxies[f], FindTypeId(rs[i].proxies[f], name).id;
      if Untouched(p, q, name) then FindTypeId(q, name) == Id(id)
      else
        && id !in rs[j].unregistered.Values
        && if name in q.entries
           then name in rs[j].unregistered && FindTypeId(q, name) == Id(rs[j].unregistered[name])
           else FindTypeId(q, name) == Ambiguous
  {
    hide Qualified, ShortName;
    RunGrows(rs, ops, frameworks, i, j);
    var p, q := rs[i].proxies[f], rs[j].proxies[f];
    assert Extends(p.entries, q.entries);
    if name !in p.entries {
      var k := FoundByQualified(p, name);
      RunShadowed(rs, ops, frameworks, i, j, f, name, k);
      RunApart(rs, ops, frameworks, j);
      assert ProxyApart(rs[j], q) && k in q.entries;
      ShortIsShort(name);
      assert ShortMatches(p, name) <= ShortMatches(q, name);
      assert name in q.entries ==> name in ShortMatches(q, name);
      if ShortMatches(q, name) != {k} {
        var h :| h in ShortMatches(q, name) && h != k;
        TwoMatches(q, name, k, h);
      } else {
        FoundByOne(q, name, k);
      }
    }
  }

  /** A match of any two names, qualified or not: both names still resolve to one id exactly if
      their entries are untouched, or both have since got their own entry by the same short name. */
  lemma {:induction false} MatchLastsExactly(rs: seq<Registry>, ops: seq<Op>, frameworks: nat, i: nat, j: nat)
    requires IsRun(rs, ops, frameworks) && i < |ops| && i < j < |rs|
    requires ops[i].Match? && ops[i].f1.Some? && ops[i].f2.Some?
    ensures var f1, n1, f2, n2 := ops[i].f1.value, ops[i].n1, ops[i].f2.value, ops[i].n2;
      && f1 < |rs[i + 1].proxies| == |rs[j].proxies| && f2 < |rs[j].proxies|
      && var p1, q1, p2, q2 := rs[i + 1].proxies[f1], rs[j].proxies[f1], rs[i + 1].proxies[f2], rs[j].proxies[f2];
      && (FindTypeId(q1, n1).Id? && FindTypeId(q1, n1) == FindTypeId(q2, n2)
          <==> || (Untouched(p1, q1, n1) && Untouched(p2, q2, n2))
               || (n1 == n2 && n1 !in p1.entries && n2 !in p2.entries && n1 in q1.entries && n2 in q2.entries))
  {
    hide Qualified, ShortName, FindTypeId;
    var f1, n1, f2, n2 := ops[i].f1.value, ops[i].n1, ops[i].f2.value, ops[i].n2;
    assert IsStep(rs[i], ops[i], rs[i + 1]);
    AcceptedResolves(rs[i], f1, n1, f2, n2, rs[i + 1]);
    RunGrows(rs, ops, frameworks, i + 1, j);
    LaterResolution(rs, ops, frameworks, i + 1, j, f1, n1);
    LaterResolution(rs, ops, frameworks, i + 1, j, f2, n2);
    RunApart(rs, ops, frameworks, j);
    var q1, q2 := rs[j].proxies[f1], rs[j].proxies[f2];
    OwnEntryTouches(rs[i + 1].proxies[f1], q1, n1);
    OwnEntryTouches(rs[i + 1].proxies[f2], q2, n2);
  }

  lemma {:induction false} OwnEntryTouches(p: Proxy, q: Proxy, name: string)
    requires FindTypeId(p, name).Id?
    ensures name !in p.entries && name in q.entries ==> !Untouched(p, q, name)
  {
    hide Qualified, ShortName;
    ShortIsShort(name);
    if name !in p.entries && name in q.entries {
      assert name in ShortMatches(q, name) && name !in ShortMatches(p, name);
    }
  }

  lemma {:induction false} AcceptedResolves(r: Registry, f1: nat, n1: string, f2: nat, n2: string, r': Registry)
    requires f1 < |r.proxies| && f2 < |r.proxies|
    requires RegisterTypeMatch(r, Some(f1), n1, Some(f2), n2) == Verdict(Yes, r')
    ensures |r'.proxies| == |r.proxies| && FindTypeId(r'.proxies[f1], n1).Id?
    ensures FindTypeId(r'.proxies[f1], n1) == FindTypeId(r'.proxies[f2], n2)
  {
  }

  /** Two accepted matches, and a query for another type with the short name of the second. */
  const Undoing: seq<Op> := [
    Match(Some(0), "a::T", Some(1), "X::U"),
    Match(Some(0), "T", Some(1), "X::U"),
    Query(0, "b::T")]

  lemma {:induction false} UndoingNames()
    ensures Qualified("a::T") && Qualified("b::T") && Qualified("X::U") && !Qualified("T")
    ensures ShortName("a::T") == ShortName("b::T") == ShortName("T") == "T"
  {
    assert PairAt("a::T", 1) && PairAt("b::T", 1) && PairAt("X::U", 1);
    assert LastPair("a::T", 2) == LastPair("b::T", 2) == 1;
    assert LastPair("a::T", 4) == LastPair("b::T", 4) == 1;
  }

  /** A match of an unqualified name need not last. */
  lemma {:induction false} MatchUndone() returns (rs: seq<Registry>)
    ensures IsRun(rs, Undoing, 2) && |rs[2].proxies| == |rs[3].proxies| == 2
    ensures FindTypeId(rs[2].proxies[0], "T") == FindTypeId(rs[2].proxies[1], "X::U") == Id(0)
    ensures FindTypeId(rs[3].proxies[0], "T") == Id(1) && FindTypeId(rs[3].proxies[1], "X::U") == Id(0)
  {
    hide Qualified, ShortName;
    UndoingNames();
    var a := AddEntry(AddEntry(Fresh(2).(nextId := 1), 0, "a::T", 0), 1, "X::U", 0);
    assert "a::T" in ShortMatches(a.proxies[0], "T");
    FoundByOne(a.proxies[0], "T", "a::T");
    var b := GetTypeId(a, 0, "b::T").after;
    rs := [Fresh(2), a, a, b];
    assert IsStep(rs[0], Undoing[0], rs[1]);
    assert IsStep(rs[1], Undoing[1], rs[2]);
    assert IsStep(rs[2], Undoing[2], rs[3]);
  }

  // ------------------------------------------------------------------ which matches are accepted

  /** In any state of a run, a match of two qualified names between two frameworks is accepted
      exactly if it is not the case that both are entered already with different ids. A name that
      is entered keeps its id, and a new name gets the id of the other one. */
  lemma {:induction false} QualifiedMatchAccepted(rs: seq<Registry>, ops: seq<Op>, frameworks: nat, i: nat,
      f1: nat, n1: string, f2: nat, n2: string)
    requires IsRun(rs, ops, frameworks) && i < |rs| && f1 < |rs[i].proxies| && f2 < |rs[i].proxies|
    requires f1 != f2 && Qualified(n1) && Qualified(n2)
    ensures var v, e1, e2 := RegisterTypeMatch(rs[i], Some(f1), n1, Some(f2), n2),
                             rs[i].proxies[f1].entries, rs[i].proxies[f2].entries;
      if n1 in e1 && n2 in e2 && e1[n1] != e2[n2] then v.matched == Abort
      else
        && v.matched == Yes && |v.after.proxies| == |rs[i].proxies|
        && var e1', e2' := v.after.proxies[f1].entries, v.after.proxies[f2].entries;
          && n1 in e1' && n2 in e2' && e1'[n1] == e2'[n2]
          && (n1 in e1 ==> e1'[n1] == e1[n1]) && (n2 in e2 ==> e2'[n2] == e2[n2])
  {
    hide Qualified, IsRun;
    RunApart(rs, ops, frameworks, i);
    assert ProxyApart(rs[i], rs[i].proxies[f1]) && ProxyApart(rs[i], rs[i].proxies[f2]);
  }

  /** For names of any form: a match is refused exactly if a name is ambiguous, if both are known by
      different ids, or if one is known only by its short name and the other not at all; and between
      a framework and itself. With a framework that is not active it has no effect. */
  lemma {:induction false} MatchRefusedExactly(rs: seq<Registry>, ops: seq<Op>, frameworks: nat, i: nat,
      f1: nat, n1: string, f2: nat, n2: string)
    requires IsRun(rs, ops, frameworks) && i < |rs| && f1 < |rs[i].proxies| && f2 < |rs[i].proxies|
    ensures var t1, t2 := FindTypeId(rs[i].proxies[f1], n1), FindTypeId(rs[i].proxies[f2], n2);
      var shorts := rs[i].unregistered.Values;
      RegisterTypeMatch(rs[i], Some(f1), n1, Some(f2), n2).matched ==
        if || f1 == f2 || t1 == Ambiguous || t2 == Ambiguous
           || (t1.Id? && t2.Id? && t1 != t2)
           || (t1.Id? && t2 == Missing && t1.id in shorts) || (t1 == Missing && t2.Id? && t2.id in shorts)
        then Abort else Yes
    ensures RegisterTypeMatch(rs[i], None, n1, Some(f2), n2) == Verdict(No, rs[i])
    ensures RegisterTypeMatch(rs[i], Some(f1), n1, None, n2) == Verdict(No, rs[i])
  {
    hide Qualified, IsRun;
    RunApart(rs, ops, frameworks, i);
    var p1, p2 := rs[i].proxies[f1], rs[i].proxies[f2];
    assert ProxyApart(rs[i], p1) && ProxyApart(rs[i], p2);
    FoundIsEntry(p1, n1);
    FoundIsEntry(p2, n2);
  }

  lemma {:induction false} FoundIsEntry(p: Proxy, name: string)
    ensures FindTypeId(p, name).Id? ==> exists k :: k in p.entries && p.entries[k] == FindTypeId(p, name).id
  {
  }

  ghost predicate Pairs(op: Op, f: nat, n: string, g: nat, m: string) {
    op == Match(Some(f), n, Some(g), m) || op == Match(Some(g), m, Some(f), n)
  }

  /** So a further name can always be matched with a name that has partners already, whichever of the
      two comes first, and is then known by the same id as every earlier partner. */
  lemma {:induction false} PartnersJoin(rs: seq<Registry>, ops: seq<Op>, frameworks: nat, h: nat, i: nat,
      f: nat, n: string, g: nat, m: string, f2: nat, n2: string)
    requires IsRun(rs, ops, frameworks) && h < |ops| && h < i < |rs| && Pairs(ops[h], f, n, g, m)
    requires Qualified(n) && Qualified(m) && Qualified(n2)
    requires f2 < |rs[i].proxies| && f2 != f && n2 !in rs[i].proxies[f2].entries
    ensures f < |rs[i].proxies| && g < |rs[i].proxies|
    ensures var v := RegisterTypeMatch(rs[i], Some(f), n, Some(f2), n2);
      var w := RegisterTypeMatch(rs[i], Some(f2), n2, Some(f), n);
      && v.matched == Yes && w.matched == Yes
      && FindTypeId(v.after.proxies[f2], n2).Id? && FindTypeId(w.after.proxies[f2], n2).Id?
      && FindTypeId(v.after.proxies[f2], n2) == FindTypeId(v.after.proxies[g], m)
      && FindTypeId(w.after.proxies[f2], n2) == FindTypeId(w.after.proxies[g], m)
  {
    hide Qualified;
    PartnersKnown(rs, ops, frameworks, h, i, f, n, g, m);
    QualifiedMatchAccepted(rs, ops, frameworks, i, f, n, f2, n2);
    QualifiedMatchAccepted(rs, ops, frameworks, i, f2, n2, f, n);
    hide IsRun, GetTypeId;
    StepGrows(rs[i], Match(Some(f), n, Some(f2), n2), RegisterTypeMatch(rs[i], Some(f), n, Some(f2), n2).after);
    StepGrows(rs[i], Match(Some(f2), n2, Some(f), n), RegisterTypeMatch(rs[i], Some(f2), n2, Some(f), n).after);
  }

  lemma {:induction false} PartnersKnown(rs: seq<Registry>, ops: seq<Op>, frameworks: nat, h: nat, i: nat,
      f: nat, n: string, g: nat, m: string)
    requires IsRun(rs, ops, frameworks) && h < |ops| && h < i < |rs| && Pairs(ops[h], f, n, g, m)
    requires Qualified(n) && Qualified(m)
    ensures f < |rs[i].proxies| && g < |rs[i].proxies|
    ensures n in rs[i].proxies[f].entries && m in rs[i].proxies[g].entries
    ensures rs[i].proxies[f].entries[n] == rs[i].proxies[g].entries[m]
  {
    hide Qualified, GetTypeId;
    MatchLasts(rs, ops, frameworks, h, i);
    var p, q := rs[i].proxies[f], rs[i].proxies[g];
    QualifiedFound(p, n);
    QualifiedFound(q, m);
  }

  lemma {:induction false} QualifiedFound(p: Proxy, n: string)
    requires Qualified(n)
    ensures FindTypeId(p, n) == if n in p.entries then Id(p.entries[n]) else Missing
  {
  }

  /** A query of a name with the short name of an entry, be it from a match or from another query,
      returns the id of that entry for the rest of the run, while it has no entry of its own. */
  lemma {:induction false} ShortEntryAnswers(rs: seq<Registry>, ops: seq<Op>, frameworks: nat, i: nat, j: nat,
      f: nat, name: string)
    requires IsRun(rs, ops, frameworks) && i <= j < |rs| && f < |rs[i].proxies|
    requires Qualified(name) && ShortName(name) in rs[i].proxies[f].entries
    ensures f < |rs[j].proxies|
    ensures name !in rs[j].proxies[f].entries ==>
      GetTypeId(rs[j], f, name) == Answer(Id(rs[i].proxies[f].entries[ShortName(name)]), rs[j])
    ensures name in rs[j].proxies[f].entries ==>
      GetTypeId(rs[j], f, name) == Answer(Id(rs[j].proxies[f].entries[name]), rs[j])
  {
    hide Qualified, ShortName, IsRun;
    RunGrows(rs, ops, frameworks, i, j);
    QualifiedFound(rs[j].proxies[f], name);
    assert Extends(rs[i].proxies[f].entries, rs[j].proxies[f].entries);
  }

  // ------------------------------------------------------------------ names of ids

  /** Each id that a framework knows has a name there, by which, or by whose short name, the framework
      knows it. */
  ghost predicate Named(p: Proxy) {
    && (forall id | id in p.names :: NamedBy(p, id, p.names[id]))
    && (forall k | k in p.entries :: p.entries[k] in p.names)
  }

  ghost predicate NamedBy(p: Proxy, id: nat, name: string) {
    || (name in p.entries && p.entries[name] == id)
    || (ShortName(name) in p.entries && p.entries[ShortName(name)] == id)
  }

  ghost predicate AllNamed(r: Registry) {
    forall f | 0 <= f < |r.proxies| :: Named(r.proxies[f])
  }

  lemma {:induction false} EnterNamed(p: Proxy, key: string, id: nat, name: string, registered: set<nat>)
    requires Named(p) && key !in p.entries && (key == name || key == ShortName(name))
    ensures Named(Proxy(p.entries[key := id], p.names[id := name], registered))
  {
    hide ShortName;
    var q := Proxy(p.entries[key := id], p.names[id := name], registered);
    forall x | x in q.names ensures NamedBy(q, x, q.names[x]) {
      if x != id {
        assert NamedBy(p, x, p.names[x]);
      }
    }
  }

  lemma {:induction false} StepNamed(r: Registry, op: Op, r': Registry)
    requires AllNamed(r) && IsStep(r, op, r')
    ensures AllNamed(r')
  {
    hide Qualified, ShortName, Named, UnregisteredId, FindTypeId;
    match op {
      case Query(f, name) =>
        var p, short := r.proxies[f], ShortName(name);
        assert Named(p);
        ShortIsShort(name);
        UnregisteredValues(r, short);
        MissingEntry(p, name);
        if short !in p.entries {
          EnterNamed(p, short, UnregisteredId(r, short).0, name, p.registered);
        }
      case Match(f1, n1, f2, n2) =>
        if f1.Some? && f2.Some? && r' != r {
          var p1, p2 := r.proxies[f1.value], r.proxies[f2.value];
          MissingEntry(p1, n1);
          MissingEntry(p2, n2);
          var r1 := r.(nextId := r.nextId + 1);
          if FindTypeId(p1, n1).Missing? && FindTypeId(p2, n2).Missing? {
            AddNamed(r1, f1.value, n1, r.nextId);
            AddNamed(AddEntry(r1, f1.value, n1, r.nextId), f2.value, n2, r.nextId);
          } else if FindTypeId(p2, n2).Missing? {
            AddNamed(r, f2.value, n2, FindTypeId(p1, n1).id);
          } else {
            AddNamed(r, f1.value, n1, FindTypeId(p2, n2).id);
          }
        }
    }
  }

  lemma {:induction false} AddNamed(r: Registry, f: nat, name: string, id: nat)
    requires AllNamed(r) && f < |r.proxies| && name !in r.proxies[f].entries
    ensures AllNamed(AddEntry(r, f, name, id))
  {
    hide Named;
    assert Named(r.proxies[f]);
    EnterNamed(r.proxies[f], name, id, name, r.proxies[f].registered + {id});
  }

  lemma {:induction false} MissingEntry(p: Proxy, name: string)
    ensures FindTypeId(p, name) == Missing ==> name !in p.entries
  {
  }

  lemma {:induction false} RunNamed(rs: seq<Registry>, ops: seq<Op>, frameworks: nat, i: nat)
    requires IsRun(rs, ops, frameworks) && i < |rs|
    ensures AllNamed(rs[i])
    decreases i
  {
    if i > 0 {
      hide IsStep, Named;
      RunNamed(rs, ops, frameworks, i - 1);
      assert IsStep(rs[i - 1], ops[i - 1], rs[i - 1 + 1]);
      StepNamed(rs[i - 1], ops[i - 1], rs[i]);
    }
  }

  /** The full name of an id that a framework knows leads back to that id, unless the framework has
      since entered that very name with another id. */
  lemma {:induction false} NameLeadsBack(rs: seq<Registry>, ops: seq<Op>, frameworks: nat, i: nat, f: nat, id: nat)
    requires IsRun(rs, ops, frameworks) && i < |rs| && f < |rs[i].proxies| && id in rs[i].proxies[f].names
    ensures var p, name := rs[i].proxies[f], GetTypeName(rs[i], f, id, false);
      && name.Some?
      && (GetTypeId(rs[i], f, name.value).found == Id(id)
          <==> name.value !in p.entries || p.entries[name.value] == id)
  {
    hide Qualified, ShortName, IsRun;
    RunNamed(rs, ops, frameworks, i);
    var p := rs[i].proxies[f];
    var n := p.names[id];
    assert Named(p) && NamedBy(p, id, n);
    ShortIsShort(n);
    if n !in p.entries {
      QualifiedFound(p, n);
    }
  }

  /** After an accepted match of two names that were new, each framework has its own name for the
      common id; and after the first query of a short name the asking framework has the full name,
      and every framework that knows nothing of the id the short name. */
  lemma {:induction false} NamesGiven(r: Registry, f: nat, n: string, f2: nat, n2: string, g: nat)
    requires f < |r.proxies| && f2 < |r.proxies| && g < |r.proxies| && f != f2
    requires FindTypeId(r.proxies[f], n) == Missing
    ensures var v := RegisterTypeMatch(r, Some(f), n, Some(f2), n2);
      v.matched == Yes && FindTypeId(r.proxies[f2], n2) == Missing ==>
        var id := v.after.proxies[f].entries[n];
        GetTypeName(v.after, f, id, false) == Some(n) && GetTypeName(v.after, f2, id, false) == Some(n2)
    ensures var a := GetTypeId(r, f, n);
      a.found.Id? && ShortName(n) !in r.proxies[f].entries && ShortName(n) !in r.unregistered ==>
        && GetTypeName(a.after, f, a.found.id, false) == Some(n)
        && (g != f && a.found.id !in r.proxies[g].names ==>
              GetTypeName(a.after, g, a.found.id, false) == Some(ShortName(n)))
  {
    hide Qualified, ShortName;
  }

  // ------------------------------------------------------------------ without explicit matches

  /** The names and ids handed out by short name are inverse to each other. */
  ghost predicate Inverse(r: Registry) {
    && (forall s | s in r.unregistered :: !Qualified(s) && r.unregistered[s] < r.nextId
         && r.unregistered[s] in r.unregisteredNames && r.unregisteredNames[r.unregistered[s]] == s)
    && (forall id | id in r.unregisteredNames :: id < r.nextId)
  }

  /** A framework that only used names of its own knows some of these ids, each by a name with
      the right short name. */
  ghost predicate OwnUse(r: Registry, p: Proxy) {
    && (forall k | k in p.entries :: k in r.unregistered && r.unregistered[k] == p.entries[k])
    && (forall id | id in p.names :: id in r.unregisteredNames && ShortName(p.names[id]) == r.unregisteredNames[id])
  }

  ghost predicate Unmatched(r: Registry) {
    Inverse(r) && forall f | 0 <= f < |r.proxies| :: OwnUse(r, r.proxies[f])
  }

  lemma {:induction false} FindUnmatched(r: Registry, p: Proxy, name: string)
    requires Inverse(r) && OwnUse(r, p)
    ensures FindTypeId(p, name) == if name in p.entries then Id(r.unregistered[name]) else Missing
  {
  }

  lemma {:induction false} UnregisteredKeeps(r: Registry, short: string)
    requires Inverse(r) && !Qualified(short)
    ensures var (id, r') := UnregisteredId(r, short);
      && Inverse(r') && short in r'.unregistered && r'.unregistered[short] == id
      && Extends(r.unregistered, r'.unregistered) && Extends(r.unregisteredNames, r'.unregisteredNames)
      && r'.proxies == r.proxies
  {
  }

  lemma {:induction false} OwnUseGrows(r: Registry, r': Registry, p: Proxy)
    requires OwnUse(r, p)
    requires Extends(r.unregistered, r'.unregistered) && Extends(r.unregisteredNames, r'.unregisteredNames)
    ensures OwnUse(r', p)
  {
  }

  /** Then a query always succeeds, with the id of the short name. */
  lemma {:induction false} QueryUnmatched(r: Registry, f: nat, name: string)
    requires Unmatched(r) && f < |r.proxies|
    ensures var a := GetTypeId(r, f, name);
      && Unmatched(a.after) && ShortName(name) in a.after.unregistered
      && a.found == Id(a.after.unregistered[ShortName(name)])
      && Extends(r.unregistered, a.after.unregistered) && |a.after.proxies| == |r.proxies|
  {
    hide ShortName, Qualified, FindTypeId;
    var p, short := r.proxies[f], ShortName(name);
    ShortIsShort(name);
    assert OwnUse(r, p);
    FindUnmatched(r, p, name);
    if name !in p.entries && !(Qualified(name) && short in p.entries) {
      var (id, r1) := UnregisteredId(r, short);
      UnregisteredKeeps(r, short);
      var r' := GetTypeId(r, f, name).after;
      forall g | 0 <= g < |r'.proxies| ensures OwnUse(r', r'.proxies[g]) {
        assert OwnUse(r, r.proxies[g]);
        OwnUseGrows(r, r', r.proxies[g]);
      }
    }
  }

  ghost predicate OnlyQueries(ops: seq<Op>) {
    forall i | 0 <= i < |ops| :: ops[i].Query?
  }

  lemma {:induction false} RunUnmatched(rs: seq<Registry>, ops: seq<Op>, frameworks: nat, i: nat)
    requires IsRun(rs, ops, frameworks) && OnlyQueries(ops) && i < |rs|
    ensures Unmatched(rs[i]) && |rs[i].proxies| == frameworks
    decreases i
  {
    hide GetTypeId, Unmatched;
    if i == 0 {
      FreshUnmatched(frameworks);
    } else {
      RunUnmatched(rs, ops, frameworks, i - 1);
      assert IsStep(rs[i - 1], ops[i - 1], rs[i - 1 + 1]);
      QueryUnmatched(rs[i - 1], ops[i - 1].f, ops[i - 1].name);
    }
  }

  lemma {:induction false} FreshUnmatched(frameworks: nat)
    ensures Unmatched(Fresh(frameworks)) && |Fresh(frameworks).proxies| == frameworks
  {
  }

  /** What a query returned is, from then on, the id of its short name. */
  lemma {:induction false} AnswerStays(rs: seq<Registry>, ops: seq<Op>, frameworks: nat, i: nat, j: nat)
    requires IsRun(rs, ops, frameworks) && OnlyQueries(ops) && i < |ops| && i < j < |rs|
    requires IsStep(rs[i], ops[i], rs[i + 1])
    ensures ShortName(ops[i].name) in rs[j].unregistered
    ensures AnswerOf(rs[i], ops[i]) == rs[j].unregistered[ShortName(ops[i].name)]
  {
    hide GetTypeId, Unmatched, ShortName;
    RunUnmatched(rs, ops, frameworks, i);
    QueryUnmatched(rs[i], ops[i].f, ops[i].name);
    RunGrows(rs, ops, frameworks, i + 1, j);
  }

  /** Over any interleaving of queries from any frameworks, two queries return the same id exactly
      if their names have the same short name. */
  lemma {:induction false} SameIdSameShortName(rs: seq<Registry>, ops: seq<Op>, frameworks: nat, i: nat, j: nat)
    requires IsRun(rs, ops, frameworks) && OnlyQueries(ops) && i < |ops| && j < |ops|
    requires IsStep(rs[i], ops[i], rs[i + 1]) && IsStep(rs[j], ops[j], rs[j + 1])
    ensures AnswerOf(rs[i], ops[i]) == AnswerOf(rs[j], ops[j]) <==> ShortName(ops[i].name) == ShortName(ops[j].name)
  {
    hide GetTypeId, ShortName;
    AnswerStays(rs, ops, frameworks, i, |ops|);
    AnswerStays(rs, ops, frameworks, j, |ops|);
    RunUnmatched(rs, ops, frameworks, |ops|);
  }

  /** And for every framework the base name of that id stays the base name of the queried name. */
  lemma {:induction false} BaseNameOfId(rs: seq<Registry>, ops: seq<Op>, frameworks: nat, i: nat, j: nat, g: nat)
    requires IsRun(rs, ops, frameworks) && OnlyQueries(ops) && i < |ops| && i < j < |rs| && g < |rs[j].proxies|
    requires IsStep(rs[i], ops[i], rs[i + 1])
    ensures GetTypeName(rs[j], g, AnswerOf(rs[i], ops[i]), true) == Some(BaseName(ops[i].name))
  {
    hide GetTypeId, ShortName, BaseName;
    AnswerStays(rs, ops, frameworks, i, j);
    RunUnmatched(rs, ops, frameworks, j);
    assert OwnUse(rs[j], rs[j].proxies[g]);
    BaseOfShort(ops[i].name);
    var id := AnswerOf(rs[i], ops[i]);
    if id in rs[j].proxies[g].names {
      BaseOfShort(rs[j].proxies[g].names[id]);
    }
  }

  // ------------------------------------------------------------------ the objects

  class FrameworkProxy {
    var typeEntries: map<string, nat>
    var typeNames: map<nat, string>
    var registeredTypes: set<nat>

    ghost function View(): Proxy
      reads this
    {
      Proxy(typeEntries, typeNames, registeredTypes)
    }

    constructor ()
      ensures View() == Proxy(map[], map[], {})
    {
      typeEntries, typeNames, registeredTypes := map[], map[], {};
    }

    /** The search stops at the second entry with the wanted short name. */
    method Find(typeName: string) returns (found: Found)
      ensures found == FindTypeId(View(), typeName)
    {
      if typeName in typeEntries {
        return Id(typeEntries[typeName]);
      }
      if Qualified(typeName) {
        return Missing;
      }
      found := Missing;
      var rest := typeEntries.Keys;
      ghost var hit := "";
      while rest != {}
        invariant rest <= typeEntries.Keys
        invariant found == Missing ==> ShortMatches(View(), typeName) <= rest
        invariant found != Missing ==> hit in typeEntries && hit !in rest && found == Id(typeEntries[hit])
        invariant found != Missing ==> hit in ShortMatches(View(), typeName)
        invariant found != Missing ==> ShortMatches(View(), typeName) <= rest + {hit}
        decreases rest
      {
        var k :| k in rest;
        rest := rest - {k};
        if ShortName(k) == typeName {
          if found != Missing {
            TwoMatches(View(), typeName, k, hit);
            return Ambiguous;
          }
          hit := k;
          found := Id(typeEntries[k]);
        }
      }
      if found != Missing {
        assert ShortMatches(View(), typeName) == {hit};
      }
    }

    method AddRegisteredTypeEntry(typeName: string, typeId: nat)
      modifies this
      ensures View() ==
        old(Proxy(typeEntries[typeName := typeId], typeNames[typeId := typeName], registeredTypes + {typeId}))
    {
      registeredTypes := registeredTypes + {typeId};
      typeEntries := typeEntries[typeName := typeId];
      typeNames := typeNames[typeId := typeName];
    }
  }

  lemma {:induction false} TwoMatches(p: Proxy, name: string, k: string, h: string)
    requires k in ShortMatches(p, name) && h in ShortMatches(p, name) && k != h
    ensures ShortMatches(p, name) != {} && |ShortMatches(p, name)| != 1
  {
    var rest := ShortMatches(p, name) - {k, h};
    assert ShortMatches(p, name) == {k, h} + rest;
    assert |{k, h}| == 2;
  }

  class Interconnect {
    const frameworks: seq<FrameworkProxy>
    var unregisteredTypes: map<string, nat>
    var unregisteredTypeNames: map<nat, string>
    var nextId: nat

    ghost predicate Valid() {
      forall i, j | 0 <= i < j < |frameworks| :: frameworks[i] != frameworks[j]
    }

    ghost function View(): Registry
      reads this, frameworks
    {
      Registry(seq(|frameworks|, i requires 0 <= i < |frameworks| reads frameworks => frameworks[i].View()),
               unregisteredTypes, unregisteredTypeNames, nextId)
    }

    constructor (frameworks: seq<FrameworkProxy>)
      requires forall i, j | 0 <= i < j < |frameworks| :: frameworks[i] != frameworks[j]
      requires forall i | 0 <= i < |frameworks| :: frameworks[i].View() == Proxy(map[], map[], {})
      ensures Valid() && this.frameworks == frameworks && View() == Fresh(|frameworks|)
    {
      this.frameworks := frameworks;
      unregisteredTypes, unregisteredTypeNames, nextId := map[], map[], 0;
      new;
      assert View().proxies == Fresh(|frameworks|).proxies;
    }

    method GetNextTypeId() returns (id: nat)
      modifies this`nextId
      ensures id == old(nextId) && nextId == id + 1
    {
      id := nextId;
      nextId := nextId + 1;
    }

    method GetUnregisteredTypeId(typeName: string) returns (id: nat)
      modifies this
      ensures (id, View()) == UnregisteredId(old(View()), typeName)
    {
      if typeName in unregisteredTypes {
        return unregisteredTypes[typeName];
      }
      id := GetNextTypeId();
      unregisteredTypes := unregisteredTypes[typeName := id];
      unregisteredTypeNames := unregisteredTypeNames[id := typeName];
      assert View().proxies == old(View().proxies);
    }

    /** `GetTypeId` of a framework. */
    method TypeIdOf(f: nat, typeName: string) returns (found: Found)
      requires Valid() && f < |frameworks|
      modifies this, frameworks[f]
      ensures Answer(found, View()) == GetTypeId(old(View()), f, typeName)
    {
      hide FindTypeId, ShortName, Qualified;
      var proxy := frameworks[f];
      assert View().proxies[f] == proxy.View();
      found := proxy.Find(typeName);
      if found != Missing {
        return;
      }
      var short := ShortName(typeName);
      if Qualified(typeName) && short in proxy.typeEntries {
        return Id(proxy.typeEntries[short]);
      }
      var id := GetUnregisteredTypeId(short);
      ghost var r1 := View();
      proxy.typeEntries := proxy.typeEntries[short := id];
      proxy.typeNames := proxy.typeNames[id := typeName];
      assert View().proxies == r1.proxies[f := proxy.View()];
      found := Id(id);
    }

    /** A framework that is not active is `None`. */
    method Register(f1: Option<nat>, n1: string, f2: Option<nat>, n2: string) returns (matched: Matched)
      requires Valid()
      requires f1.Some? ==> f1.value < |frameworks|
      requires f2.Some? ==> f2.value < |frameworks|
      modifies this, frameworks
      ensures Verdict(matched, View()) == RegisterTypeMatch(old(View()), f1, n1, f2, n2)
    {
      hide FindTypeId;
      if f1 == None || f2 == None {
        return No;
      }
      if f1 == f2 {
        return Abort;
      }
      var p1, p2 := frameworks[f1.value], frameworks[f2.value];
      assert View().proxies[f1.value] == p1.View() && View().proxies[f2.value] == p2.View();
      var t1 := p1.Find(n1);
      var t2 := p2.Find(n2);
      if t1 == Ambiguous || t2 == Ambiguous {
        return Abort;
      }
      if t1 == Missing && t2 == Missing {
        var id := GetNextTypeId();
        Enter(f1.value, n1, id);
        Enter(f2.value, n2, id);
      } else if t2 == Missing {
        if t1.id !in p1.registeredTypes {
          return Abort;
        }
        Enter(f2.value, n2, t1.id);
      } else if t1 == Missing {
        if t2.id !in p2.registeredTypes {
          return Abort;
        }
        Enter(f1.value, n1, t2.id);
      } else if t1.id != t2.id {
        return Abort;
      }
      return Yes;
    }

    method Enter(f: nat, name: string, id: nat)
      requires Valid() && f < |frameworks|
      modifies frameworks[f]
      ensures View() == AddEntry(old(View()), f, name, id)
    {
      assert View().proxies[f] == frameworks[f].View();
      ghost var r := View();
      frameworks[f].AddRegisteredTypeEntry(name, id);
      assert View().proxies == r.proxies[f := frameworks[f].View()];
    }
  }
}
