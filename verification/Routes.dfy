/** The route graph of the backplane: connections, their peers on both sides, and the handles by
    which frameworks walk it. */
module Routes {
  import opened Options

  datatype Kind = Port | Export | Imp | InitiatorSocket | TargetSocket

  /** The enumerators are ordered as declared. */
  function Ordinal(k: Kind): nat {
    match k
    case Port => 0 case Export => 1 case Imp => 2 case InitiatorSocket => 3 case TargetSocket => 4
  }

  /** What the framework of a path says about it. */
  datatype Descriptor = Descriptor(frmw: nat, bindKey: int, intf: string, kind: Kind)

  /** `operator >`: the producer may not drive the provider. */
  predicate WrongOrder(producer: Kind, provider: Kind) {
    match producer
    case Port => false
    case Export => Ordinal(provider) < Ordinal(Export)
    case Imp => true
    case InitiatorSocket => provider != TargetSocket
    case TargetSocket => true
  }

  /** Interfaces that may be connected although their names differ. */
  predicate MayServe(producer: string, provider: string) {
    || ((producer == "tlm_blocking_put" || producer == "tlm_nonblocking_put") && provider == "tlm_put")
    || ((producer == "tlm_blocking_get" || producer == "tlm_nonblocking_get") && provider == "tlm_get")
    || ((producer == "tlm_blocking_peek" || producer == "tlm_nonblocking_peek") && provider == "tlm_peek")
    || ((producer == "tlm_blocking_transport" || producer == "tlm_nonblocking_transport")
        && provider == "tlm_transport")
    || ((producer == "tlm_blocking_get_peek" || producer == "tlm_nonblocking_get_peek") && provider == "tlm_get_peek")
    || ((producer == "tlm_blocking_get" || producer == "tlm_blocking_peek")
        && provider == "tlm_blocking_get_peek")
    || ((producer == "tlm_nonblocking_get" || producer == "tlm_nonblocking_peek")
        && provider == "tlm_nonblocking_get_peek")
    || ((producer == "tlm_blocking_put" || producer == "tlm_blocking_get" || producer == "tlm_blocking_peek")
        && (provider == "tlm_blocking_master" || provider == "tlm_blocking_slave"))
    || ((producer == "tlm_nonblocking_put" || producer == "tlm_nonblocking_get" || producer == "tlm_nonblocking_peek")
        && (provider == "tlm_nonblocking_master" || provider == "tlm_nonblocking_slave"))
    || ((producer == "tlm_blocking_put" || producer == "tlm_nonblocking_put" || producer == "tlm_put"
         || producer == "tlm_blocking_get" || producer == "tlm_nonblocking_get" || producer == "tlm_get"
         || producer == "tlm_peek" || producer == "tlm_blocking_peek" || producer == "tlm_nonblocking_peek")
        && (provider == "tlm_master" || provider == "tlm_slave"))
  }

  /** `checkConnectionDirections`; the route type is never set, so it always agrees. */
  predicate Compatible(producer: Descriptor, provider: Descriptor) {
    && (producer.intf == provider.intf || MayServe(producer.intf, provider.intf))
    && !WrongOrder(producer.kind, provider.kind)
  }

  // ------------------------------------------------------------------ what may drive what

  datatype Mode = Both | Blocking | Nonblocking

  datatype Operation = Put | Get | Peek | Transport | GetPeek | Master | Slave

  /** The interfaces of the standard, by mode and operation. */
  function InterfaceName(m: Mode, o: Operation): string {
    match m
    case Both =>
      (match o
       case Put => "tlm_put" case Get => "tlm_get" case Peek => "tlm_peek" case Transport => "tlm_transport"
       case GetPeek => "tlm_get_peek" case Master => "tlm_master" case Slave => "tlm_slave")
    case Blocking =>
      (match o
       case Put => "tlm_blocking_put" case Get => "tlm_blocking_get" case Peek => "tlm_blocking_peek"
       case Transport => "tlm_blocking_transport" case GetPeek => "tlm_blocking_get_peek"
       case Master => "tlm_blocking_master" case Slave => "tlm_blocking_slave")
    case Nonblocking =>
      (match o
       case Put => "tlm_nonblocking_put" case Get => "tlm_nonblocking_get" case Peek => "tlm_nonblocking_peek"
       case Transport => "tlm_nonblocking_transport" case GetPeek => "tlm_nonblocking_get_peek"
       case Master => "tlm_nonblocking_master" case Slave => "tlm_nonblocking_slave")
  }

  /** No two interfaces have the same name. */
  lemma {:induction false} NamesDiffer(m: Mode, o: Operation, m': Mode, o': Operation)
    ensures InterfaceName(m, o) == InterfaceName(m', o') ==> m == m' && o == o'
  {
    NameLength(m, o);
    NameLength(m', o');
    hide InterfaceName;
  }

  /** The length, the fifth character and the third last one tell the names apart. */
  lemma {:induction false} NameLength(m: Mode, o: Operation)
    ensures var s := InterfaceName(m, o);
      && |s| == (match m case Both => 0 case Blocking => 9 case Nonblocking => 12)
              + (match o case Put => 7 case Get => 7 case Peek => 8 case Transport => 13 case GetPeek => 12
                 case Master => 10 case Slave => 9)
      && (m != Both ==> s[4] == if m == Blocking then 'b' else 'n')
      && (m == Both ==> s[4] == match o case Put => 'p' case Get => 'g' case Peek => 'p' case Transport => 't'
                                case GetPeek => 'g' case Master => 'm' case Slave => 's')
      && s[|s| - 3] == match o case Put => 'p' case Get => 'g' case Peek => 'e' case Transport => 'o'
                       case GetPeek => 'e' case Master => 't' case Slave => 'a'
  {
  }

  lemma {:induction false} Recognised(m: Mode, o: Operation)
    ensures InterfaceName(m, o) == "tlm_put" <==> m == Both && o == Put
    ensures InterfaceName(m, o) == "tlm_get" <==> m == Both && o == Get
    ensures InterfaceName(m, o) == "tlm_peek" <==> m == Both && o == Peek
    ensures InterfaceName(m, o) == "tlm_transport" <==> m == Both && o == Transport
    ensures InterfaceName(m, o) == "tlm_get_peek" <==> m == Both && o == GetPeek
    ensures InterfaceName(m, o) == "tlm_master" <==> m == Both && o == Master
    ensures InterfaceName(m, o) == "tlm_slave" <==> m == Both && o == Slave
    ensures InterfaceName(m, o) == "tlm_blocking_put" <==> m == Blocking && o == Put
    ensures InterfaceName(m, o) == "tlm_blocking_get" <==> m == Blocking && o == Get
    ensures InterfaceName(m, o) == "tlm_blocking_peek" <==> m == Blocking && o == Peek
    ensures InterfaceName(m, o) == "tlm_blocking_transport" <==> m == Blocking && o == Transport
    ensures InterfaceName(m, o) == "tlm_blocking_get_peek" <==> m == Blocking && o == GetPeek
    ensures InterfaceName(m, o) == "tlm_blocking_master" <==> m == Blocking && o == Master
    ensures InterfaceName(m, o) == "tlm_blocking_slave" <==> m == Blocking && o == Slave
    ensures InterfaceName(m, o) == "tlm_nonblocking_put" <==> m == Nonblocking && o == Put
    ensures InterfaceName(m, o) == "tlm_nonblocking_get" <==> m == Nonblocking && o == Get
    ensures InterfaceName(m, o) == "tlm_nonblocking_peek" <==> m == Nonblocking && o == Peek
    ensures InterfaceName(m, o) == "tlm_nonblocking_transport" <==> m == Nonblocking && o == Transport
    ensures InterfaceName(m, o) == "tlm_nonblocking_get_peek" <==> m == Nonblocking && o == GetPeek
    ensures InterfaceName(m, o) == "tlm_nonblocking_master" <==> m == Nonblocking && o == Master
    ensures InterfaceName(m, o) == "tlm_nonblocking_slave" <==> m == Nonblocking && o == Slave
  {
    hide InterfaceName;
    Spellings();
    NamesDiffer(m, o, Both, Put);
    NamesDiffer(m, o, Both, Get);
    NamesDiffer(m, o, Both, Peek);
    NamesDiffer(m, o, Both, Transport);
    NamesDiffer(m, o, Both, GetPeek);
    NamesDiffer(m, o, Both, Master);
    NamesDiffer(m, o, Both, Slave);
    NamesDiffer(m, o, Blocking, Put);
    NamesDiffer(m, o, Blocking, Get);
    NamesDiffer(m, o, Blocking, Peek);
    NamesDiffer(m, o, Blocking, Transport);
    NamesDiffer(m, o, Blocking, GetPeek);
    NamesDiffer(m, o, Blocking, Master);
    NamesDiffer(m, o, Blocking, Slave);
    NamesDiffer(m, o, Nonblocking, Put);
    NamesDiffer(m, o, Nonblocking, Get);
    NamesDiffer(m, o, Nonblocking, Peek);
    NamesDiffer(m, o, Nonblocking, Transport);
    NamesDiffer(m, o, Nonblocking, GetPeek);
    NamesDiffer(m, o, Nonblocking, Master);
    NamesDiffer(m, o, Nonblocking, Slave);
  }

  /** An interface may drive another one exactly if the other offers both modes of the same operation,
      or getting and peeking in the same single mode, or is a master or slave with at least this mode. */
  lemma {:induction false} ServesExactly(m: Mode, o: Operation, m': Mode, o': Operation)
    ensures MayServe(InterfaceName(m, o), InterfaceName(m', o')) <==>
      || (o == o' && m != Both && m' == Both && o != Master && o != Slave)
      || ((o == Get || o == Peek) && o' == GetPeek && m == m' != Both)
      || ((o == Put || o == Get || o == Peek) && (o' == Master || o' == Slave) && (m' == m || m' == Both))
  {
    hide InterfaceName;
    Recognised(m, o);
    Recognised(m', o');
  }

  lemma {:induction false} Spellings()
    ensures InterfaceName(Both, Put) == "tlm_put" && InterfaceName(Both, Get) == "tlm_get"
    ensures InterfaceName(Both, Peek) == "tlm_peek" && InterfaceName(Both, Transport) == "tlm_transport"
    ensures InterfaceName(Both, GetPeek) == "tlm_get_peek"
    ensures InterfaceName(Both, Master) == "tlm_master" && InterfaceName(Both, Slave) == "tlm_slave"
    ensures InterfaceName(Blocking, Put) == "tlm_blocking_put" && InterfaceName(Blocking, Get) == "tlm_blocking_get"
    ensures InterfaceName(Blocking, Peek) == "tlm_blocking_peek"
    ensures InterfaceName(Blocking, Transport) == "tlm_blocking_transport"
    ensures InterfaceName(Blocking, GetPeek) == "tlm_blocking_get_peek"
    ensures InterfaceName(Blocking, Master) == "tlm_blocking_master"
    ensures InterfaceName(Blocking, Slave) == "tlm_blocking_slave"
    ensures InterfaceName(Nonblocking, Put) == "tlm_nonblocking_put"
    ensures InterfaceName(Nonblocking, Get) == "tlm_nonblocking_get"
    ensures InterfaceName(Nonblocking, Peek) == "tlm_nonblocking_peek"
    ensures InterfaceName(Nonblocking, Transport) == "tlm_nonblocking_transport"
    ensures InterfaceName(Nonblocking, GetPeek) == "tlm_nonblocking_get_peek"
    ensures InterfaceName(Nonblocking, Master) == "tlm_nonblocking_master"
    ensures InterfaceName(Nonblocking, Slave) == "tlm_nonblocking_slave"
  {
  }

  /** Between interfaces of one name: a port drives anything, an export anything but a port, an
      initiator socket a target socket; implementations and target sockets drive nothing. */
  lemma {:induction false} DrivesExactly(producer: Descriptor, provider: Descriptor)
    requires producer.intf == provider.intf
    ensures Compatible(producer, provider) <==>
      || producer.kind == Port
      || (producer.kind == Export && provider.kind != Port)
      || (producer.kind == InitiatorSocket && provider.kind == TargetSocket)
  {
  }

  /** Different interfaces may be connected only if both are among those of the standard. */
  lemma {:induction false} OnlyStandardNames(producer: Descriptor, provider: Descriptor)
    requires Compatible(producer, provider) && producer.intf != provider.intf
    ensures exists m, o, m', o' :: producer.intf == InterfaceName(m, o) && provider.intf == InterfaceName(m', o')
  {
    hide InterfaceName, WrongOrder;
    Spellings();
  }

  class Connection {
    const path: string
    const descriptor: Descriptor
    var fanout: seq<Connection>
    var fanin: seq<Connection>

    constructor (path: string, descriptor: Descriptor)
      ensures this.path == path && this.descriptor == descriptor && fanout == [] && fanin == []
    {
      this.path, this.descriptor := path, descriptor;
      fanout, fanin := [], [];
    }
  }

  ghost predicate NoDuplicates(cs: seq<Connection>) {
    forall i, j | 0 <= i < j < |cs| :: cs[i] != cs[j]
  }

  /** Each of the two is among the peers of the other, and nobody is listed twice. */
  ghost predicate Converse(c: Connection, all: set<Connection>)
    reads c, all
  {
    && NoDuplicates(c.fanout) && NoDuplicates(c.fanin)
    && (forall p | p in c.fanout :: p in all && c in p.fanin)
    && (forall p | p in c.fanin :: p in all && c in p.fanout)
  }

  class Graph {
    var portRegistry: seq<Connection>
    var connections: map<(nat, int), Connection>

    /** Calls that reached the frameworks: bind keys connected, and data written. */
    var externalConnects: seq<(nat, int)>
    var writes: seq<(nat, int)>

    /** Every connection ever made, also those of earlier elaborations. */
    ghost var all: set<Connection>

    ghost predicate Valid()
      reads `portRegistry, `connections, `all, all
    {
      && (forall c | c in portRegistry :: c in all)
      && (forall k | k in connections :: connections[k] in all)
      && (forall i, j | 0 <= i < j < |portRegistry| :: portRegistry[i].path != portRegistry[j].path)
      && (forall c | c in all :: Converse(c, all))
      && (forall c | c in portRegistry :: Closed(c))
    }

    /** The peers of a registered connection are registered. */
    ghost predicate Closed(c: Connection)
      reads `portRegistry, c
    {
      (forall p | p in c.fanout :: p in portRegistry) && (forall p | p in c.fanin :: p in portRegistry)
    }

    /** The routes, by path. */
    ghost function Edges(): set<(string, string)>
      reads `portRegistry, portRegistry
    {
      set c, p | c in portRegistry && p in c.fanout :: (c.path, p.path)
    }

    constructor ()
      ensures Valid() && portRegistry == [] && connections == map[] && externalConnects == [] && writes == []
    {
      portRegistry, connections, externalConnects, writes, all := [], map[], [], [], {};
    }

    method FindConnectionByName(path: string) returns (con: Connection?)
      ensures con != null ==> con in portRegistry && con.path == path
      ensures con == null ==> forall c | c in portRegistry :: c.path != path
    {
      for i := 0 to |portRegistry|
        invariant forall j | 0 <= j < i :: portRegistry[j].path != path
      {
        if portRegistry[i].path == path {
          return portRegistry[i];
        }
      }
      return null;
    }

    /** A path that no framework knows is not added. */
    method AddConnection(path: string, lookup: string -> Option<Descriptor>) returns (con: Connection?)
      requires Valid() && forall c | c in portRegistry :: c.path != path
      modifies `portRegistry, `connections, `all
      ensures Valid() && Edges() == old(Edges())
      ensures con == null <==> lookup(path) == None
      ensures con == null ==> portRegistry == old(portRegistry) && connections == old(connections) && all == old(all)
      ensures con != null ==> fresh(con) && con.path == path && con.descriptor == lookup(path).value
      ensures con != null ==> con.fanout == con.fanin == [] && all == old(all) + {con}
      ensures con != null ==> portRegistry == old(portRegistry) + [con]
      ensures con != null ==> connections == old(connections)[(con.descriptor.frmw, con.descriptor.bindKey) := con]
    {
      if lookup(path) == None {
        return null;
      }
      con := new Connection(path, lookup(path).value);
      portRegistry := portRegistry + [con];
      connections := connections[(con.descriptor.frmw, con.descriptor.bindKey) := con];
      all := all + {con};
      assert forall c | c in old(all) :: Converse(c, old(all)) && c.fanout == old(c.fanout);
    }

    /** Makes each of the two a peer of the other. */
    method Link(producer: Connection, provider: Connection)
      requires Valid() && producer in portRegistry && provider in portRegistry && provider !in producer.fanout
      modifies producer`fanout, provider`fanin
      ensures Valid() && Edges() == old(Edges()) + {(producer.path, provider.path)}
    {
      assert Converse(producer, all) && Converse(provider, all) && Closed(producer) && Closed(provider);
      assert producer !in provider.fanin;
      producer.fanout := producer.fanout + [provider];
      provider.fanin := provider.fanin + [producer];
      forall c | c in all ensures Converse(c, all) {
        assert old(Converse(c, all));
      }
      forall c | c in portRegistry ensures Closed(c) {
        assert old(Closed(c));
      }
      NewEdge(producer, provider, old(Edges()));
    }

    lemma NewEdge(producer: Connection, provider: Connection, was: set<(string, string)>)
      requires producer in portRegistry && provider in producer.fanout
      requires was ==
        set c, p | c in portRegistry && p in (if c == producer then c.fanout[..|c.fanout| - 1] else c.fanout)
          :: (c.path, p.path)
      requires producer.fanout[|producer.fanout| - 1] == provider
      ensures Edges() == was + {(producer.path, provider.path)}
    {
    }

    /** Paths are unique, so a route by path is a route by connection. */
    lemma EdgeIff(producer: Connection, provider: Connection)
      requires Valid() && producer in portRegistry && provider in portRegistry
      ensures (producer.path, provider.path) in Edges() <==> provider in producer.fanout
    {
    }

    /** What is known of a path: its connection's descriptor, or else what the frameworks answer. */
    ghost function Known(path: string, lookup: string -> Option<Descriptor>): Option<Descriptor>
      reads `portRegistry
    {
      if exists c :: c in portRegistry && c.path == path then
        var c :| c in portRegistry && c.path == path;
        Some(c.descriptor)
      else lookup(path)
    }

    lemma KnownAs(c: Connection, lookup: string -> Option<Descriptor>)
      requires Valid() && c in portRegistry
      ensures Known(c.path, lookup) == Some(c.descriptor)
    {
    }

    method FindOrAdd(path: string, lookup: string -> Option<Descriptor>) returns (con: Connection?)
      requires Valid()
      modifies `portRegistry, `connections, `all
      ensures Valid() && Edges() == old(Edges()) && old(all) <= all
      ensures forall c | c in old(portRegistry) :: c in portRegistry
      ensures fresh(all - old(all))
      ensures forall q :: Known(q, lookup) == old(Known(q, lookup))
      ensures con == null <==> old(Known(path, lookup)) == None
      ensures con != null ==> con in portRegistry && con.path == path
      ensures con == null ==> forall c | c in portRegistry :: c.path != path
    {
      hide Edges;
      con := FindConnectionByName(path);
      if con != null {
        KnownAs(con, lookup);
      } else {
        con := AddConnection(path, lookup);
        forall q ensures Known(q, lookup) == old(Known(q, lookup)) {
          if c :| c in old(portRegistry) && c.path == q {
            assert c in portRegistry;
          }
        }
      }
    }

    method Connect(producer: Connection, provider: Connection) returns (ok: bool)
      requires Valid() && producer in portRegistry && provider in portRegistry
      modifies `externalConnects, producer`fanout, provider`fanin
      ensures Valid()
      ensures ok <==>
        (producer.path, provider.path) in old(Edges()) || Compatible(producer.descriptor, provider.descriptor)
      ensures Edges() == if ok then old(Edges()) + {(producer.path, provider.path)} else old(Edges())
      ensures externalConnects == old(externalConnects) +
        (if ok then [(producer.descriptor.frmw, producer.descriptor.bindKey),
                     (provider.descriptor.frmw, provider.descriptor.bindKey)]
         else [])
    {
      hide Converse, Closed, Compatible;
      EdgeIff(producer, provider);
      if provider !in producer.fanout {
        if !Compatible(producer.descriptor, provider.descriptor) {
          return false;
        }
        Link(producer, provider);
      }
      externalConnects := externalConnects + [(producer.descriptor.frmw, producer.descriptor.bindKey)];
      externalConnects := externalConnects + [(provider.descriptor.frmw, provider.descriptor.bindKey)];
      return true;
    }

    /** `RegisterRoute`, with what the frameworks answer for each path. It succeeds exactly if both
        paths are known and the route exists already or the two may be connected; then the route is
        there, and no other route comes or goes. */
    method RegisterRoute(producerPath: string, providerPath: string, lookup: string -> Option<Descriptor>)
      returns (ok: bool)
      requires Valid()
      modifies this, all
      ensures Valid()
      ensures Edges() == if ok then old(Edges()) + {(producerPath, providerPath)} else old(Edges())
      ensures ok <==> (producerPath, providerPath) in Edges()
      ensures var producer, provider := old(Known(producerPath, lookup)), old(Known(providerPath, lookup));
        ok <==> && producer.Some? && provider.Some?
                && ((producerPath, providerPath) in old(Edges()) || Compatible(producer.value, provider.value))
      ensures ok ==>
        var producer, provider := old(Known(producerPath, lookup)).value, old(Known(providerPath, lookup)).value;
        externalConnects ==
          old(externalConnects) + [(producer.frmw, producer.bindKey), (provider.frmw, provider.bindKey)]
      ensures !ok ==> externalConnects == old(externalConnects)
    {
      hide Valid, Edges, Known, Compatible;
      var producer := FindOrAdd(producerPath, lookup);
      if producer == null {
        NoEdge(producerPath);
        return false;
      }
      var provider := FindOrAdd(providerPath, lookup);
      if provider == null {
        NoEdge(providerPath);
        return false;
      }
      Registered(producer);
      Registered(provider);
      KnownAs(producer, lookup);
      KnownAs(provider, lookup);
      ok := Connect(producer, provider);
    }

    lemma NoEdge(path: string)
      requires Valid() && forall c | c in portRegistry :: c.path != path
      ensures forall e | e in Edges() :: e.0 != path && e.1 != path
    {
    }

    lemma Registered(c: Connection)
      requires Valid() && c in portRegistry
      ensures c in all
    {
    }

    /** `PreRunCleanup`: the registry is emptied; the frameworks keep their connections. */
    method PreRunCleanup()
      requires Valid()
      modifies `portRegistry
      ensures Valid() && portRegistry == [] && Edges() == {}
    {
      portRegistry := [];
    }

    /** `Write`: each provider of the producer gets the data once. */
    method Write(frmw: nat, producerBindKey: int) returns (ghost to: seq<Connection>)
      requires Valid() && (frmw, producerBindKey) in connections
      modifies `writes
      ensures to == connections[(frmw, producerBindKey)].fanout && NoDuplicates(to)
      ensures writes ==
        old(writes) + seq(|to|, i requires 0 <= i < |to| => (to[i].descriptor.frmw, to[i].descriptor.bindKey))
    {
      var producer := connections[(frmw, producerBindKey)];
      assert Converse(producer, all);
      to := producer.fanout;
      for i := 0 to |producer.fanout|
        invariant writes ==
          old(writes) + seq(i, j requires 0 <= j < i => (to[j].descriptor.frmw, to[j].descriptor.bindKey))
      {
        var provider := producer.fanout[i];
        writes := writes + [(provider.descriptor.frmw, provider.descriptor.bindKey)];
      }
    }

    // ---------------------------------------------------------------- handles

    /** Where a connection is in the registry; `None` is the handle -1. */
    method HandleOf(con: Connection?) returns (h: Option<nat>)
      requires Valid()
      ensures h.Some? ==> h.value < |portRegistry| && portRegistry[h.value] == con
      ensures h.None? ==> con == null || con !in portRegistry
    {
      for i := 0 to |portRegistry|
        invariant forall j | 0 <= j < i :: portRegistry[j] != con
      {
        if portRegistry[i] == con {
          return Some(i);
        }
      }
      return None;
    }

    method FindConnectionHandle(frmw: nat, bindKey: int) returns (h: Option<nat>)
      requires Valid()
      ensures h.Some? ==> h.value < |portRegistry| && (frmw, bindKey) in connections
      ensures h.Some? ==> portRegistry[h.value] == connections[(frmw, bindKey)]
      ensures h.None? ==> (frmw, bindKey) in connections ==> connections[(frmw, bindKey)] !in portRegistry
    {
      var con: Connection? := if (frmw, bindKey) in connections then connections[(frmw, bindKey)] else null;
      h := HandleOf(con);
    }

    /** The search always succeeds: the peer of a registered connection is registered. */
    method QueryFanoutHandle(handle: nat, id: nat) returns (h: nat)
      requires Valid() && handle < |portRegistry| && id < |portRegistry[handle].fanout|
      ensures h < |portRegistry| && portRegistry[h] == portRegistry[handle].fanout[id]
    {
      var con := portRegistry[handle];
      assert Closed(con);
      var found := HandleOf(con.fanout[id]);
      h := found.value;
    }

    method QueryFaninHandle(handle: nat, id: nat) returns (h: nat)
      requires Valid() && handle < |portRegistry| && id < |portRegistry[handle].fanin|
      ensures h < |portRegistry| && portRegistry[h] == portRegistry[handle].fanin[id]
    {
      var con := portRegistry[handle];
      assert Closed(con);
      var found := HandleOf(con.fanin[id]);
      h := found.value;
    }

    /** Two handles of one connection are the same handle. */
    lemma OneHandle(h: nat, k: nat)
      requires Valid() && h < |portRegistry| && k < |portRegistry| && portRegistry[h] == portRegistry[k]
      ensures h == k
    {
    }

    static ghost predicate OnlyWayBack(fanin: seq<Connection>, back: nat, c: Connection) {
      && back < |fanin| && fanin[back] == c
      && forall other | 0 <= other < |fanin| && other != back :: fanin[other] != c
    }

    /** From a handle to a provider and back: exactly one of the provider's fanin handles leads to
        where one came from, and it is the handle that one started with. */
    lemma ThereAndBack(handle: nat, id: nat, h: nat)
      requires Valid() && handle < |portRegistry| && id < |portRegistry[handle].fanout|
      requires h < |portRegistry| && portRegistry[h] == portRegistry[handle].fanout[id]
      ensures exists back: nat :: OnlyWayBack(portRegistry[h].fanin, back, portRegistry[handle])
      ensures forall g: nat, back: nat | g < |portRegistry| && back < |portRegistry[h].fanin| ::
                portRegistry[g] == portRegistry[h].fanin[back] == portRegistry[handle] ==> g == handle
    {
      var c := portRegistry[handle];
      assert Converse(c, all) && Converse(portRegistry[h], all);
      var back: nat :| back < |portRegistry[h].fanin| && portRegistry[h].fanin[back] == c;
      assert OnlyWayBack(portRegistry[h].fanin, back, c);
      forall g: nat | g < |portRegistry| && portRegistry[g] == c ensures g == handle {
        OneHandle(g, handle);
      }
    }
  }
}
