/** The client side as a whole: any number of connections under their local ids, the default
    connection, and the event system that walks them. A hash map is walked in an arbitrary order. */
module Clients {
  import opened Prelude
  import opened Mpsc
  import opened ChannelIds
  import opened RecvChannels
  import opened Endpoint
  import opened ClientConnection

  type Connections = map<LocalId, Connection>

  datatype Clients = Clients(connections: Connections, idGen: LocalId, defaultId: Option<LocalId>)

  // ---------------------------------------------------------------- operations

  /** `open_connection`: a local id is used up even if opening fails. */
  function OpenConnection(s: Clients, config: seq<ChannelConfig>, cfg: RecvConfig):
      (Result<LocalId, TrySendError>, Clients)
    requires |config| <= MAX_CHANNEL_COUNT
  {
    IdCountAll();
    var id := s.idGen;
    var (e, c) := OpenConfigured(Unopened(id, config, cfg), config);
    if e.Some? then (Err(e.value), s.(idGen := id + 1))
    else (Ok(id), Clients(s.connections[id := c], id + 1, if s.defaultId.None? then Some(id) else s.defaultId))
  }

  datatype CloseConnectionError = InvalidConnectionId(id: LocalId) | AlreadyClosed

  /** `close_connection`: the connection is forgotten whatever its tasks answer. */
  function CloseConnection(s: Clients, id: LocalId): (Result<(), CloseConnectionError>, Clients) {
    if id !in s.connections then (Err(InvalidConnectionId(id)), s)
    else
      (if Disconnect(s.connections[id], LocalOrder).0.Ok? then Ok(()) else Err(AlreadyClosed),
       s.(connections := s.connections - {id}, defaultId := if s.defaultId == Some(id) then None else s.defaultId))
  }

  /** `close_all_connections`. */
  function CloseAll(s: Clients, order: seq<LocalId>): Clients
    decreases |order|
  {
    if order == [] then s else CloseAll(CloseConnection(s, order[0]).1, order[1..])
  }

  /** The event system: both message loops of each connection in turn. */
  function HandleAll(cs: Connections, order: seq<LocalId>): (r: (seq<ClientEvent>, Connections))
    requires forall id :: id in order ==> id in cs
    ensures r.1.Keys == cs.Keys
    decreases |order|
  {
    if order == [] then ([], cs)
    else
      var (es, c) := HandleEvents(cs[order[0]]);
      var (rest, last) := HandleAll(cs[order[0] := c], order[1..]);
      (es + rest, last)
  }

  // ---------------------------------------------------------------- what the event system means

  /** The events of one connection, in order. */
  function EventsOf(es: seq<ClientEvent>, id: LocalId): seq<ClientEvent> {
    if es == [] then [] else (if es[0].id == id then [es[0]] else []) + EventsOf(es[1..], id)
  }

  lemma {:induction false} EventsOfAppend(es: seq<ClientEvent>, fs: seq<ClientEvent>, id: LocalId)
    ensures EventsOf(es + fs, id) == EventsOf(es, id) + EventsOf(fs, id)
  {
    if es == [] {
      assert es + fs == fs;
    } else {
      EventsOfAppend(es[1..], fs, id);
      assert (es + fs)[1..] == es[1..] + fs;
      var head := if es[0].id == id then [es[0]] else [];
      JoinParts(head, EventsOf(es[1..], id), EventsOf(fs, id));
    }
  }

  predicate AllOf(es: seq<ClientEvent>, id: LocalId) {
    forall i :: 0 <= i < |es| ==> es[i].id == id
  }

  lemma {:induction false} EventsOfOne(es: seq<ClientEvent>, own: LocalId, id: LocalId)
    requires AllOf(es, own)
    ensures EventsOf(es, id) == if id == own then es else []
  {
    if es != [] {
      EventsOfOne(es[1..], own, id);
    }
  }

  lemma OwnEvent(c: Connection, m: ClientAsyncMessage)
    ensures AllOf(OnMessage(c, m).0, c.localId) && OnMessage(c, m).1.localId == c.localId
    ensures OnMessage(c, m).1.config == c.config
    ensures OnMessage(c, m).1.fromAsync == c.fromAsync
  {
  }

  lemma {:induction false} OwnMessages(c: Connection)
    ensures AllOf(OnMessages(c).0, c.localId) && OnMessages(c).1.localId == c.localId
    ensures OnMessages(c).1.config == c.config
    decreases |c.fromAsync|
  {
    hide OnMessage;
    if c.fromAsync != [] {
      var rest := c.(fromAsync := c.fromAsync[1..]);
      OwnEvent(rest, c.fromAsync[0]);
      OwnMessages(OnMessage(rest, c.fromAsync[0]).1);
    }
  }

  lemma {:induction false} OwnChannelMessages(c: Connection)
    ensures AllOf(OnChannelMessages(c).0, c.localId) && OnChannelMessages(c).1.localId == c.localId
    ensures OnChannelMessages(c).1.config == c.config
    decreases |c.peer.fromChannels|
  {
    if c.peer.fromChannels != [] {
      var rest := c.(peer := c.peer.(fromChannels := c.peer.fromChannels[1..]));
      OwnChannelMessages(OnClosed(rest).1);
    }
  }

  lemma OwnEvents(c: Connection)
    ensures AllOf(HandleEvents(c).0, c.localId) && HandleEvents(c).1.localId == c.localId
    ensures HandleEvents(c).1.config == c.config
  {
    hide OnMessages, OnChannelMessages;
    OwnMessages(c);
    OwnChannelMessages(OnMessages(c).1);
  }

  /** Each connection is listed under its own local id. */
  predicate OwnIds(cs: Connections) {
    forall id :: id in cs ==> cs[id].localId == id
  }

  /** Whatever the order of the walk, the system does to each connection what the two loops do to that
      connection alone, and its events are exactly those, in that order. */
  lemma {:induction false} HandleAllEach(cs: Connections, order: seq<LocalId>, id: LocalId)
    requires OwnIds(cs) && id in cs
    requires forall i :: 0 <= i < |order| ==> order[i] in cs
    requires forall i, j :: 0 <= i < j < |order| ==> order[i] != order[j]
    ensures OwnIds(HandleAll(cs, order).1)
    ensures HandleAll(cs, order).1[id] == if id in order then HandleEvents(cs[id]).1 else cs[id]
    ensures EventsOf(HandleAll(cs, order).0, id) == if id in order then HandleEvents(cs[id]).0 else []
    decreases |order|
  {
    hide HandleEvents;
    if order != [] {
      var first := order[0];
      var (es, c) := HandleEvents(cs[first]);
      OwnEvents(cs[first]);
      HandleAllEach(cs[first := c], order[1..], id);
      EventsOfOne(es, first, id);
      EventsOfAppend(es, HandleAll(cs[first := c], order[1..]).0, id);
      assert id in order <==> id == first || id in order[1..];
      assert first !in order[1..];
    }
  }

  lemma {:induction false} NoForeignEvents(cs: Connections, order: seq<LocalId>, id: LocalId)
    requires OwnIds(cs) && id !in cs && forall i :: 0 <= i < |order| ==> order[i] in cs
    ensures EventsOf(HandleAll(cs, order).0, id) == []
    decreases |order|
  {
    hide HandleEvents;
    if order != [] {
      var (es, c) := HandleEvents(cs[order[0]]);
      OwnEvents(cs[order[0]]);
      NoForeignEvents(cs[order[0] := c], order[1..], id);
      EventsOfOne(es, order[0], id);
      EventsOfAppend(es, HandleAll(cs[order[0] := c], order[1..]).0, id);
    }
  }

  /** Closing every connection leaves none, and no default unless it was dangling. */
  lemma {:induction false} CloseAllLeavesNone(s: Clients, order: seq<LocalId>)
    requires forall id :: id in s.connections ==> id in order
    ensures CloseAll(s, order).connections == map[]
    ensures s.defaultId.Some? && s.defaultId.value in s.connections ==> CloseAll(s, order).defaultId == None
    ensures s.defaultId.None? || s.defaultId.value !in s.connections ==> CloseAll(s, order).defaultId == s.defaultId
    decreases |order|
  {
    hide Disconnect;
    if order == [] {
      assert s.connections.Keys == {};
    } else {
      var t := CloseConnection(s, order[0]).1;
      assert forall id :: id in t.connections ==> id in order[1..];
      CloseAllLeavesNone(t, order[1..]);
    }
  }

  lemma HandleAllAt(cs: Connections, order: seq<LocalId>, i: nat)
    requires forall id :: id in order ==> id in cs
    requires i < |order|
    ensures var (es, c) := HandleEvents(cs[order[i]]);
            HandleAll(cs, order[i..]) ==
              (es + HandleAll(cs[order[i] := c], order[i + 1..]).0, HandleAll(cs[order[i] := c], order[i + 1..]).1)
  {
    assert order[i..][1..] == order[i + 1..];
  }

  lemma HandleAllDone(cs: Connections, order: seq<LocalId>)
    ensures HandleAll(cs, order[|order|..]) == ([], cs)
  {
  }

  // ---------------------------------------------------------------- the class

  class IrohClient {
    var connections: map<LocalId, ClientSideConnection>
    var connectionLocalIdGen: LocalId
    var defaultConnectionId: Option<LocalId>
    /** The objects that belong to this client. */
    ghost var owned: set<object>

    /** Each connection has its own objects. */
    ghost predicate Valid()
      reads this`connections, this`owned
      ensures Valid() ==> this !in owned
    {
      && this !in owned
      && (forall i :: i in connections ==>
            {connections[i], connections[i].peer, connections[i].sendChannelIds} <= owned)
      && (forall i, j :: i in connections && j in connections && i != j ==>
            && connections[i] != connections[j]
            && connections[i].peer != connections[j].peer
            && connections[i].sendChannelIds != connections[j].sendChannelIds)
    }

    ghost function States(): (cs: Connections)
      requires Valid()
      reads this`connections, this`owned, owned
      ensures cs.Keys == connections.Keys
    {
      map i | i in connections :: connections[i].State()
    }

    ghost function State(): Clients
      requires Valid()
      reads this, owned
    {
      Clients(States(), connectionLocalIdGen, defaultConnectionId)
    }

    constructor ()
      ensures Valid() && State() == Clients(map[], 0, None)
    {
      connections, connectionLocalIdGen, defaultConnectionId, owned := map[], 0, None, {};
    }

    method OpenNewConnection(config: seq<ChannelConfig>, cfg: RecvConfig) returns (r: Result<LocalId, TrySendError>)
      requires Valid() && |config| <= MAX_CHANNEL_COUNT
      modifies this
      ensures Valid() && fresh(owned - old(owned))
      ensures (r, State()) == OpenConnection(old(State()), config, cfg)
    {
      hide OpenConfigured, Unopened, FreshPool, ClientSideConnection.State;
      ghost var cs := States();
      var id := connectionLocalIdGen;
      connectionLocalIdGen := id + 1;
      var connection := new ClientSideConnection(id, config, cfg);
      IdCountAll();
      UnopenedPool(id, config, cfg);
      assert connection.State().pool.available == connection.sendChannelIds.available by { PoolOf(connection); }
      var e := connection.OpenConfiguredChannels(config);
      assert States() == cs;
      if e.Some? {
        return Err(e.value);
      }
      AddConnection(id, connection);
      if defaultConnectionId.None? {
        defaultConnectionId := Some(id);
      }
      return Ok(id);
    }

    method AddConnection(id: LocalId, connection: ClientSideConnection)
      requires Valid()
      requires connection !in owned && connection.peer !in owned && connection.sendChannelIds !in owned
      modifies this`connections, this`owned
      ensures Valid() && owned == old(owned) + {connection, connection.peer, connection.sendChannelIds}
      ensures States() == old(States())[id := connection.State()]
    {
      hide ClientSideConnection.State;
      ghost var cs := States();
      connections := connections[id := connection];
      owned := owned + {connection, connection.peer, connection.sendChannelIds};
      assert States() == cs[id := connection.State()];
    }

    method CloseOneConnection(id: LocalId) returns (r: Result<(), CloseConnectionError>)
      requires Valid()
      modifies this, owned
      ensures Valid() && connections == old(connections) - {id} && owned == old(owned)
      ensures (r, State()) == CloseConnection(old(State()), id)
      ensures id in old(connections) ==>
                old(connections[id]).State() == Disconnect(old(connections[id].State()), LocalOrder).1
    {
      hide Disconnect, ClientSideConnection.State;
      if id !in connections {
        return Err(InvalidConnectionId(id));
      }
      var connection := connections[id];
      ghost var cs := States();
      connections := connections - {id};
      if defaultConnectionId == Some(id) {
        defaultConnectionId := None;
      }
      var closed := connection.InternalDisconnect(LocalOrder);
      assert States() == cs - {id};
      return if closed.Ok? then Ok(()) else Err(AlreadyClosed);
    }

    /** The local ids are collected first, in some order, which is returned. */
    method CloseAllConnections() returns (ghost order: seq<LocalId>)
      requires Valid()
      modifies this, owned
      ensures Valid() && owned == old(owned) && Enumerates(order, old(connections).Keys)
      ensures State() == CloseAll(old(State()), order)
    {
      hide CloseConnection, Valid, State, States;
      var ids := CollectKeys();
      order := ids;
      ghost var s := State();
      assert ids[0..] == ids;
      for i := 0 to |ids|
        invariant Valid() && owned == old(owned)
        invariant CloseAll(s, ids) == CloseAll(State(), ids[i..])
      {
        assert ids[i..][0] == ids[i] && ids[i..][1..] == ids[i + 1..];
        var _ := CloseOneConnection(ids[i]);
      }
    }

    method CollectKeys() returns (ids: seq<LocalId>)
      ensures Enumerates(ids, connections.Keys)
    {
      var todo := connections.Keys;
      ids := [];
      while todo != {}
        invariant todo <= connections.Keys && Enumerates(ids, connections.Keys - todo)
        decreases |todo|
      {
        var id :| id in todo;
        assert id !in ids;
        todo, ids := todo - {id}, ids + [id];
      }
      assert connections.Keys - todo == connections.Keys;
    }

    method HandleOne(id: LocalId) returns (es: seq<ClientEvent>)
      requires Valid() && id in connections
      modifies owned
      ensures Valid()
      ensures es == HandleEvents(old(States())[id]).0
      ensures States() == old(States())[id := HandleEvents(old(States())[id]).1]
    {
      hide HandleEvents, ClientSideConnection.State;
      ghost var cs := States();
      es := connections[id].HandleClientEvents();
      assert States() == cs[id := HandleEvents(cs[id]).1];
    }

    /** `handle_client_events`: walks the connections in some order, which is returned. */
    method HandleAllEvents() returns (es: seq<ClientEvent>, ghost order: seq<LocalId>)
      requires Valid()
      modifies owned
      ensures Valid() && Enumerates(order, connections.Keys)
      ensures forall id :: id in order ==> id in old(States())
      ensures (es, States()) == HandleAll(old(States()), order)
    {
      hide HandleEvents, Valid, States, HandleAll, Enumerates;
      var ids := CollectKeys();
      order := ids;
      WalksKeys(ids, connections.Keys);
      es := [];
      ghost var all := HandleAll(States(), ids);
      assert [] + all.0 == all.0 && ids[0..] == ids;
      for i := 0 to |ids|
        invariant Valid() && owned == old(owned) && forall id :: id in ids[i..] ==> id in States()
        invariant all == (es + HandleAll(States(), ids[i..]).0, HandleAll(States(), ids[i..]).1)
      {
        HandleAllAt(States(), ids, i);
        var more := HandleOne(ids[i]);
        ghost var rest := HandleAll(States(), ids[i + 1..]).0;
        assert es + (more + rest) == (es + more) + rest;
        es := es + more;
      }
      HandleAllDone(States(), ids);
      assert es + [] == es;
    }
  }

  lemma PoolOf(c: ClientSideConnection)
    ensures c.State().pool.available == c.sendChannelIds.available
  {
  }

  lemma UnopenedPool(id: LocalId, config: seq<ChannelConfig>, cfg: RecvConfig)
    ensures Unopened(id, config, cfg).pool == FreshPool()
  {
  }
}
