/** The server endpoint: its clients, the channels that are open for all of them, the id pool and
    the client id generator. `Endpoint` is the state as a value. A hash map is walked in an
    arbitrary order, which is a parameter here. */
module Endpoint {
  import opened Prelude
  import opened Mpsc
  import opened ChannelIds
  import opened Peers

  /** A `u64`. */
  type ClientId = nat

  const CLIENT_ID_RANGE: nat := 0x1_0000_0000_0000_0000

  type ClientMap = map<ClientId, Peer>

  datatype Endpoint = Endpoint(
    clients: ClientMap,
    clientIdGen: ClientId,
    openChannels: map<ChannelId, ChannelConfig>,
    pool: Pool,
    connects: nat,
    disconnects: nat)

  datatype CreationError = MaxChannelsReached | AsyncError(error: TrySendError)

  datatype ServerSendError = UnknownClient(id: ClientId) | ConnectionSendError(error: SendError)

  datatype DisconnectError = NotAClient(id: ClientId) | ClientAlreadyDisconnected(id: ClientId)

  /** `order` walks each key of a hash map once. */
  ghost predicate Enumerates<K(!new)>(order: seq<K>, keys: set<K>) {
    && (forall k :: k in order <==> k in keys)
    && forall i, j :: 0 <= i < j < |order| ==> order[i] != order[j]
  }

  lemma WalksKeys<K(!new)>(order: seq<K>, keys: set<K>)
    requires Enumerates(order, keys)
    ensures forall k :: k in order ==> k in keys
  {
  }

  // ---------------------------------------------------------------- opening a channel

  /** Asks the clients in turn for a new channel and stops at the first that cannot take it. */
  function CreateOnClients(cs: ClientMap, order: seq<ClientId>, id: ChannelId, config: ChannelConfig):
      (r: (Option<TrySendError>, ClientMap))
    requires forall c :: c in order ==> c in cs
    ensures r.1.Keys == cs.Keys
    ensures forall c :: c in cs ==> r.1[c].sendChannels == cs[c].sendChannels
    decreases |order|
  {
    if order == [] then (None, cs)
    else
      var (r, p) := CreateUnregistered(cs[order[0]], id, config);
      if r.Err? then (Some(r.error), cs[order[0] := p])
      else CreateOnClients(cs[order[0] := p], order[1..], id, config)
  }

  /** Registers the same new channel on the clients in turn. */
  function RegisterOnClients(cs: ClientMap, order: seq<ClientId>, ch: Channel): (r: ClientMap)
    requires forall c :: c in order ==> c in cs
    ensures r.Keys == cs.Keys
    decreases |order|
  {
    if order == [] then cs
    else RegisterOnClients(cs[order[0] := RegisterOn(cs[order[0]], ch)], order[1..], ch)
  }

  function RegisterOn(p: Peer, ch: Channel): Peer {
    p.(sendChannels := Register(p.sendChannels, ch))
  }

  /** Registering is the same for every walk: each client on it gets the channel once. */
  lemma {:induction false} RegisterOnClientsEach(cs: ClientMap, order: seq<ClientId>, ch: Channel)
    requires forall i :: 0 <= i < |order| ==> order[i] in cs
    requires forall i, j :: 0 <= i < j < |order| ==> order[i] != order[j]
    ensures forall c :: c in cs ==> RegisterOnClients(cs, order, ch)[c] == if c in order then RegisterOn(cs[c], ch)
        else cs[c]
    decreases |order|
  {
    hide RegisterOn;
    if order != [] {
      var cs1 := cs[order[0] := RegisterOn(cs[order[0]], ch)];
      RegisterOnClientsEach(cs1, order[1..], ch);
      assert forall c :: c in order <==> c == order[0] || c in order[1..];
    }
  }

  /** `create_endpoint_channel`: first create everywhere, then register everywhere. */
  function CreateEndpointChannel(ep: Endpoint, order: seq<ClientId>, id: ChannelId, config: ChannelConfig):
      (Result<ChannelId, TrySendError>, Endpoint)
    requires forall c :: c in order ==> c in ep.clients
  {
    var (e, cs) := CreateOnClients(ep.clients, order, id, config);
    if e.Some? then (Err(e.value), ep.(clients := cs, pool := Release(ep.pool, id)))
    else (Ok(id), ep.(clients := RegisterOnClients(cs, order, NewChannel(id)),
      openChannels := ep.openChannels[id := config]))
  }

  /** `open_channel`. */
  function OpenChannel(ep: Endpoint, order: seq<ClientId>, config: ChannelConfig):
      (Result<ChannelId, CreationError>, Endpoint)
    requires forall c :: c in order ==> c in ep.clients
  {
    var (id, pool) := Take(ep.pool);
    if id.Err? then (Err(MaxChannelsReached), ep.(pool := pool))
    else
      var (r, e) := CreateEndpointChannel(ep.(pool := pool), order, id.value, config);
      (if r.Ok? then Ok(r.value) else Err(AsyncError(r.error)), e)
  }

  // ---------------------------------------------------------------- closing a channel

  /** Closes the channel on the clients in turn and stops at the first error. */
  function CloseOnClients(cs: ClientMap, order: seq<ClientId>, id: ChannelId):
      (r: (Option<ChannelCloseError>, ClientMap))
    requires forall c :: c in order ==> c in cs
    ensures r.1.Keys == cs.Keys
    decreases |order|
  {
    if order == [] then (None, cs)
    else
      var (r, p) := Peers.CloseChannel(cs[order[0]], id);
      if r.Err? then (Some(r.error), cs[order[0] := p])
      else CloseOnClients(cs[order[0] := p], order[1..], id)
  }

  /** `close_channel`: an error midway leaves the id out of the pool. */
  function CloseEndpointChannel(ep: Endpoint, order: seq<ClientId>, id: ChannelId):
      (Result<(), ChannelCloseError>, Endpoint)
    requires forall c :: c in order ==> c in ep.clients
  {
    if id !in ep.openChannels then (Err(InvalidChannelId(id)), ep)
    else
      var (e, cs) := CloseOnClients(ep.clients, order, id);
      var closed := ep.(openChannels := ep.openChannels - {id}, clients := cs);
      if e.Some? then (Err(e.value), closed) else (Ok(()), closed.(pool := Release(ep.pool, id)))
  }

  // ---------------------------------------------------------------- clients come and go

  /** Creates every open channel on a new connection and stops at the first error. */
  function CreateAll(p: Peer, openChannels: map<ChannelId, ChannelConfig>, order: seq<ChannelId>):
      (Option<TrySendError>, Peer)
    requires forall id :: id in order ==> id in openChannels
    decreases |order|
  {
    if order == [] then (None, p)
    else
      var (r, q) := Create(p, order[0], openChannels[order[0]]);
      if r.Err? then (Some(r.error), q) else CreateAll(q, openChannels, order[1..])
  }

  function NextId(gen: ClientId): ClientId {
    (gen + 1) % CLIENT_ID_RANGE
  }

  /** Allocates the next id and acknowledges it; an acknowledgement that cannot be sent burns it. */
  function Admit(ep: Endpoint, p: Peer, ack: Queue<ClientId>): (Result<ClientId, TrySendError>, Endpoint) {
    var id := NextId(ep.clientIdGen);
    match ack.TrySend(id)
    case Ok(_) => (Ok(id), ep.(clientIdGen := id, clients := ep.clients[id := p], connects := ep.connects + 1))
    case Err(_) => (Err(Closed), ep.(clientIdGen := id))
  }

  /** `handle_new_connection`. */
  function HandleNewConnection(ep: Endpoint, order: seq<ChannelId>, p: Peer, ack: Queue<ClientId>):
      (Result<ClientId, TrySendError>, Endpoint)
    requires forall id :: id in order ==> id in ep.openChannels
  {
    var (e, q) := CreateAll(p, ep.openChannels, order);
    if e.Some? then (Err(e.value), ep) else Admit(ep, q, ack)
  }

  /** `internal_disconnect_client`: the client is gone whatever its tasks answer. */
  function DisconnectClient(ep: Endpoint, id: ClientId, reason: CloseReason): (Result<(), DisconnectError>, Endpoint) {
    if id !in ep.clients then (Err(NotAClient(id)), ep)
    else
      (if Close(ep.clients[id], reason).0.Ok? then Ok(()) else Err(ClientAlreadyDisconnected(id)),
       ep.(clients := ep.clients - {id}, disconnects := ep.disconnects + 1))
  }

  // ---------------------------------------------------------------- sending

  /** `send_payload_on`. */
  function SendTo(ep: Endpoint, c: ClientId, id: ChannelId, payload: Bytes): (Result<(), ServerSendError>, Endpoint) {
    if c !in ep.clients then (Err(UnknownClient(c)), ep)
    else
      var (r, p) := SendPayload(ep.clients[c], id, payload);
      (if r.Ok? then Ok(()) else Err(ConnectionSendError(r.error)), ep.(clients := ep.clients[c := p]))
  }

  /** `send_group_payload_on`: every recipient is tried, the failures are listed in order. */
  function SendGroup(ep: Endpoint, group: seq<ClientId>, id: ChannelId, payload: Bytes):
      (seq<(ClientId, ServerSendError)>, Endpoint)
    decreases |group|
  {
    if group == [] then ([], ep)
    else
      var (r, e) := SendTo(ep, group[0], id, payload);
      var (errs, e') := SendGroup(e, group[1..], id, payload);
      ((if r.Err? then [(group[0], r.error)] else []) + errs, e')
  }

  /** `broadcast_payload_on`: the clients in turn, the failures listed. */
  function Broadcast(cs: ClientMap, order: seq<ClientId>, id: ChannelId, payload: Bytes):
      (r: (seq<(ClientId, ServerSendError)>, ClientMap))
    requires forall c :: c in order ==> c in cs
    ensures r.1.Keys == cs.Keys
    decreases |order|
  {
    if order == [] then ([], cs)
    else
      var (r, p) := SendPayload(cs[order[0]], id, payload);
      var (errs, cs') := Broadcast(cs[order[0] := p], order[1..], id, payload);
      ((if r.Err? then [(order[0], ConnectionSendError(r.error))] else []) + errs, cs')
  }

  /** What a broadcast means: every client sends the payload once, whatever happens on the others,
      and an error is listed for exactly the clients that refuse it. */
  lemma {:induction false} BroadcastReachesAll(cs: ClientMap, order: seq<ClientId>, id: ChannelId, payload: Bytes)
    requires forall i :: 0 <= i < |order| ==> order[i] in cs
    requires forall i, j :: 0 <= i < j < |order| ==> order[i] != order[j]
    ensures forall c :: c in cs ==>
              Broadcast(cs, order, id, payload).1[c] == if c in order then SendPayload(cs[c], id, payload).1 else cs[c]
    ensures forall c, e :: (c, e) in Broadcast(cs, order, id, payload).0 <==>
              c in order && SendPayload(cs[c], id, payload).0.Err?
                  && e == ConnectionSendError(SendPayload(cs[c], id, payload).0.error)
    decreases |order|
  {
    hide SendPayload;
    if order != [] {
      var cs1 := cs[order[0] := SendPayload(cs[order[0]], id, payload).1];
      BroadcastReachesAll(cs1, order[1..], id, payload);
      assert forall c :: c in order <==> c == order[0] || c in order[1..];
      assert order[0] !in order[1..];
    }
  }

  /** The recipients that a group send refuses, told from the state before it. */
  function Refusals(ep: Endpoint, group: seq<ClientId>, id: ChannelId, payload: Bytes):
      seq<(ClientId, ServerSendError)> {
    if group == [] then []
    else
      var r := SendTo(ep, group[0], id, payload).0;
      (if r.Err? then [(group[0], r.error)] else []) + Refusals(ep, group[1..], id, payload)
  }

  /** What a group send means: every recipient sends the payload once, whatever happens on the others, and
      the errors are those of the recipients that refuse it, in order; nobody else is touched. */
  lemma {:induction false} GroupReachesAll(ep: Endpoint, group: seq<ClientId>, id: ChannelId, payload: Bytes)
    requires forall i, j :: 0 <= i < j < |group| ==> group[i] != group[j]
    ensures var (errs, after) := SendGroup(ep, group, id, payload);
            && errs == Refusals(ep, group, id, payload)
            && after == ep.(clients := after.clients) && after.clients.Keys == ep.clients.Keys
            && forall c :: c in ep.clients ==>
                 after.clients[c] == if c in group then SendPayload(ep.clients[c], id, payload).1 else ep.clients[c]
    decreases |group|
  {
    hide SendPayload;
    if group != [] {
      var next := SendTo(ep, group[0], id, payload).1;
      GroupReachesAll(next, group[1..], id, payload);
      RefusalsDepend(ep, next, group[1..], id, payload);
      assert forall c :: c in group <==> c == group[0] || c in group[1..];
      assert group[0] !in group[1..];
    }
  }

  lemma {:induction false} RefusalsDepend(ep: Endpoint, next: Endpoint, group: seq<ClientId>, id: ChannelId,
      payload: Bytes)
    requires forall i :: 0 <= i < |group| ==> (group[i] in next.clients <==> group[i] in ep.clients)
    requires forall i :: 0 <= i < |group| && group[i] in ep.clients ==> next.clients[group[i]] == ep.clients[group[i]]
    ensures Refusals(next, group, id, payload) == Refusals(ep, group, id, payload)
    decreases |group|
  {
    hide SendPayload;
    if group != [] {
      assert forall i :: 0 <= i < |group| - 1 ==> group[1..][i] == group[i + 1];
      RefusalsDepend(ep, next, group[1..], id, payload);
    }
  }

  // One step of each walk, by position.

  lemma CreateOnClientsAt(cs: ClientMap, order: seq<ClientId>, i: nat, id: ChannelId, config: ChannelConfig)
    requires forall c :: c in order ==> c in cs
    requires i < |order|
    ensures var (r, p) := CreateUnregistered(cs[order[i]], id, config);
            CreateOnClients(cs, order[i..], id, config) ==
              if r.Err? then (Some(r.error), cs[order[i] := p])
                  else CreateOnClients(cs[order[i] := p], order[i + 1..], id, config)
  {
    assert order[i..][1..] == order[i + 1..];
  }

  lemma NoClientsLeft(order: seq<ClientId>, cs: ClientMap, id: ChannelId, config: ChannelConfig)
    ensures CreateOnClients(cs, order[|order|..], id, config) == (None, cs)
    ensures CloseOnClients(cs, order[|order|..], id) == (None, cs)
    ensures forall ch :: RegisterOnClients(cs, order[|order|..], ch) == cs
    ensures forall payload :: Broadcast(cs, order[|order|..], id, payload) == ([], cs)
  {
  }

  lemma RegisterOnClientsAt(cs: ClientMap, order: seq<ClientId>, i: nat, ch: Channel)
    requires forall c :: c in order ==> c in cs
    requires i < |order|
    ensures RegisterOnClients(cs, order[i..], ch) == RegisterOnClients(cs[order[i] := RegisterOn(cs[order[i]], ch)],
        order[i + 1..], ch)
  {
    assert order[i..][1..] == order[i + 1..];
  }

  lemma CloseOnClientsAt(cs: ClientMap, order: seq<ClientId>, i: nat, id: ChannelId)
    requires forall c :: c in order ==> c in cs
    requires i < |order|
    ensures var (r, p) := Peers.CloseChannel(cs[order[i]], id);
            CloseOnClients(cs, order[i..], id) ==
              if r.Err? then (Some(r.error), cs[order[i] := p])
                  else CloseOnClients(cs[order[i] := p], order[i + 1..], id)
  {
    assert order[i..][1..] == order[i + 1..];
  }

  lemma BroadcastAt(cs: ClientMap, order: seq<ClientId>, i: nat, id: ChannelId, payload: Bytes)
    requires forall c :: c in order ==> c in cs
    requires i < |order|
    ensures var (r, p) := SendPayload(cs[order[i]], id, payload);
            var (errs, after) := Broadcast(cs[order[i] := p], order[i + 1..], id, payload);
            Broadcast(cs, order[i..], id, payload) ==
              ((if r.Err? then [(order[i], ConnectionSendError(r.error))] else []) + errs, after)
  {
    assert order[i..][1..] == order[i + 1..];
  }

  lemma JoinParts<T>(a: seq<T>, b: seq<T>, c: seq<T>)
    ensures a + (b + c) == (a + b) + c && a + [] == a
  {
  }

  // ---------------------------------------------------------------- the class

  class ServerEndpoint {
    var clients: map<ClientId, PeerConnection>
    var clientIdGen: ClientId
    var openedChannels: map<ChannelId, ChannelConfig>
    const sendChannelIds: ChannelsIdsPool
    var connectCount: nat
    var disconnectCount: nat
    /** The connection objects that belong to this endpoint. */
    ghost var owned: set<PeerConnection>

    /** Each client has its own connection. */
    ghost predicate Valid()
      reads this`clients, this`owned
    {
      && (forall c :: c in clients ==> clients[c] in owned)
      && (forall c, d :: c in clients && d in clients && clients[c] == clients[d] ==> c == d)
    }

    ghost function ClientStates(): (cs: ClientMap)
      requires Valid()
      reads this`clients, this`owned, owned
      ensures cs.Keys == clients.Keys
    {
      map c | c in clients :: clients[c].State()
    }

    ghost function State(): Endpoint
      requires Valid()
      reads this, owned, sendChannelIds
    {
      Endpoint(ClientStates(), clientIdGen, openedChannels, sendChannelIds.State(), connectCount, disconnectCount)
    }

    constructor ()
      ensures Valid() && fresh(sendChannelIds)
      ensures State() == Endpoint(map[], 0, map[], FreshPool(), 0, 0)
    {
      clients, clientIdGen, openedChannels := map[], 0, map[];
      connectCount, disconnectCount, owned := 0, 0, {};
      sendChannelIds := new ChannelsIdsPool();
    }

    // One client at a time: what each operation does to the client map.

    method CreateOn(c: ClientId, id: ChannelId, config: ChannelConfig) returns (r: Result<Channel, TrySendError>)
      requires Valid() && c in clients
      modifies owned
      ensures Valid()
      ensures ClientStates() == old(ClientStates())[c := CreateUnregistered(old(ClientStates())[c], id, config).1]
      ensures r == CreateUnregistered(old(ClientStates())[c], id, config).0
      ensures r.Ok? ==> r.value == NewChannel(id)
    {
      r := clients[c].CreateUnregisteredConnectionChannel(id, config);
    }

    method RegisterOnClient(c: ClientId, ch: Channel)
      requires Valid() && c in clients
      modifies owned
      ensures Valid()
      ensures ClientStates() == old(ClientStates())[c := RegisterOn(old(ClientStates())[c], ch)]
    {
      clients[c].RegisterConnectionChannel(ch);
    }

    method CloseOn(c: ClientId, id: ChannelId) returns (r: Result<(), ChannelCloseError>)
      requires Valid() && c in clients
      modifies owned
      ensures Valid()
      ensures ClientStates() == old(ClientStates())[c := Peers.CloseChannel(old(ClientStates())[c], id).1]
      ensures r == Peers.CloseChannel(old(ClientStates())[c], id).0
    {
      r := clients[c].InternalCloseChannel(id);
    }

    method SendOn(c: ClientId, id: ChannelId, payload: Bytes) returns (r: Result<(), SendError>)
      requires Valid() && c in clients
      modifies owned
      ensures Valid()
      ensures ClientStates() == old(ClientStates())[c := SendPayload(old(ClientStates())[c], id, payload).1]
      ensures r == SendPayload(old(ClientStates())[c], id, payload).0
    {
      r := clients[c].InternalSendPayload(id, payload);
    }

    /** The new channels, in the order in which the clients were asked. */
    method CreateUnregisteredEndpointChannels(order: seq<ClientId>, id: ChannelId, config: ChannelConfig)
      returns (e: Option<TrySendError>, channels: seq<(ClientId, Channel)>)
      requires Valid() && Enumerates(order, clients.Keys)
      modifies owned
      ensures Valid()
      ensures (e, ClientStates()) == CreateOnClients(old(ClientStates()), order, id, config)
      ensures |channels| <= |order| && (e.None? ==> |channels| == |order|)
      ensures forall k :: 0 <= k < |channels| ==> channels[k] == (order[k], NewChannel(id))
    {
      hide Valid, Enumerates, CreateUnregistered, NewChannel, ClientStates, CreateOnClients;
      channels := [];
      ghost var cs := ClientStates();
      assert order[0..] == order;
      WalksKeys(order, clients.Keys);
      for i := 0 to |order|
        invariant Valid() && |channels| == i
        invariant forall k :: 0 <= k < i ==> channels[k] == (order[k], NewChannel(id))
        invariant CreateOnClients(cs, order, id, config) == CreateOnClients(ClientStates(), order[i..], id, config)
      {
        var c := order[i];
        CreateOnClientsAt(ClientStates(), order, i, id, config);
        var ch := CreateOn(c, id, config);
        if ch.Err? {
          return Some(ch.error), channels;
        }
        channels := channels + [(c, ch.value)];
      }
      NoClientsLeft(order, ClientStates(), id, config);
      return None, channels;
    }

    method RegisterChannels(channels: seq<(ClientId, Channel)>, ghost order: seq<ClientId>, ghost ch: Channel)
      requires Valid() && |channels| == |order|
      requires forall k :: 0 <= k < |order| ==> order[k] in clients && channels[k] == (order[k], ch)
      modifies owned
      ensures Valid()
      ensures ClientStates() == RegisterOnClients(old(ClientStates()), order, ch)
    {
      hide Valid, RegisterOn, ClientStates, RegisterOnClients;
      ghost var cs := ClientStates();
      assert order[0..] == order;
      for i := 0 to |channels|
        invariant Valid()
        invariant RegisterOnClients(cs, order, ch) == RegisterOnClients(ClientStates(), order[i..], ch)
      {
        RegisterOnClientsAt(ClientStates(), order, i, ch);
        RegisterOnClient(channels[i].0, channels[i].1);
      }
      NoClientsLeft(order, ClientStates(), 0, Unreliable);
    }

    /** `create_endpoint_channel`. */
    method CreateChannel(order: seq<ClientId>, id: ChannelId, config: ChannelConfig)
      returns (r: Result<ChannelId, TrySendError>)
      requires Valid() && Enumerates(order, clients.Keys)
      modifies this, owned, sendChannelIds
      ensures clients == old(clients) && owned == old(owned) && Valid()
      ensures (r, State()) == CreateEndpointChannel(old(State()), order, id, config)
    {
      hide Valid, ClientStates, Enumerates, CreateOnClients, RegisterOnClients, Release, NewChannel;
      WalksKeys(order, clients.Keys);
      var e, channels := CreateUnregisteredEndpointChannels(order, id, config);
      if e.Some? {
        sendChannelIds.ReleaseId(id);
        return Err(e.value);
      }
      RegisterChannels(channels, order, NewChannel(id));
      openedChannels := openedChannels[id := config];
      return Ok(id);
    }

    method OpenChannelOnClients(order: seq<ClientId>, config: ChannelConfig)
        returns (r: Result<ChannelId, CreationError>)
      requires Valid() && Enumerates(order, clients.Keys)
      modifies this, owned, sendChannelIds
      ensures clients == old(clients) && owned == old(owned) && Valid()
      ensures (r, State()) == OpenChannel(old(State()), order, config)
    {
      hide CreateEndpointChannel, Take;
      ghost var cs := ClientStates();
      var id := sendChannelIds.TakeId();
      assert ClientStates() == cs;
      if id.Err? {
        return Err(MaxChannelsReached);
      }
      var created := CreateChannel(order, id.value, config);
      return if created.Ok? then Ok(created.value) else Err(AsyncError(created.error));
    }

    method CloseChannelOnClients(order: seq<ClientId>, id: ChannelId) returns (r: Result<(), ChannelCloseError>)
      requires Valid() && Enumerates(order, clients.Keys)
      modifies this, owned, sendChannelIds
      ensures clients == old(clients) && owned == old(owned) && Valid()
      ensures (r, State()) == CloseEndpointChannel(old(State()), order, id)
    {
      hide Valid, Enumerates, Peers.CloseChannel, Release, ClientStates, CloseOnClients;
      if id !in openedChannels {
        return Err(InvalidChannelId(id));
      }
      ghost var cs := ClientStates();
      openedChannels := openedChannels - {id};
      assert ClientStates() == cs;
      assert order[0..] == order;
      WalksKeys(order, clients.Keys);
      for i := 0 to |order|
        invariant Valid() && clients == old(clients) && owned == old(owned)
            && openedChannels == old(openedChannels) - {id}
        invariant sendChannelIds.State() == old(sendChannelIds.State())
        invariant clientIdGen == old(clientIdGen) && connectCount == old(connectCount)
            && disconnectCount == old(disconnectCount)
        invariant CloseOnClients(cs, order, id) == CloseOnClients(ClientStates(), order[i..], id)
      {
        var c := order[i];
        CloseOnClientsAt(ClientStates(), order, i, id);
        var closed := CloseOn(c, id);
        if closed.Err? {
          return Err(closed.error);
        }
      }
      NoClientsLeft(order, ClientStates(), id, Unreliable);
      sendChannelIds.ReleaseId(id);
      return Ok(());
    }

    /** Creates every open channel on a connection that is not a client yet. */
    method CreateOpenChannels(order: seq<ChannelId>, connection: PeerConnection) returns (e: Option<TrySendError>)
      requires Enumerates(order, openedChannels.Keys)
      modifies connection
      ensures (e, connection.State()) == CreateAll(old(connection.State()), openedChannels, order)
    {
      hide Create;
      assert order[0..] == order;
      for i := 0 to |order|
        invariant CreateAll(old(connection.State()), openedChannels, order) ==
            CreateAll(connection.State(), openedChannels, order[i..])
      {
        assert order[i..][0] == order[i] && order[i..][1..] == order[i + 1..];
        var created := connection.CreateConnectionChannel(order[i], openedChannels[order[i]]);
        if created.Err? {
          return Some(created.error);
        }
      }
      return None;
    }

    /** `handle_new_connection`; `acked` is the queue of the acknowledgement afterwards. */
    method AcceptConnection(order: seq<ChannelId>, connection: PeerConnection, ack: Queue<ClientId>)
      returns (r: Result<ClientId, TrySendError>, acked: Queue<ClientId>)
      requires Valid() && Enumerates(order, openedChannels.Keys)
      requires connection !in owned
      modifies this, connection
      ensures owned == if r.Ok? then old(owned) + {connection} else old(owned)
      ensures Valid() && clients == if r.Ok? then old(clients)[r.value := connection] else old(clients)
      ensures (r, State()) == HandleNewConnection(old(State()), order, old(connection.State()), ack)
      ensures acked == if r.Ok? then ack.(items := ack.items + [r.value]) else ack
      ensures r.Err? ==>
                connection.State() == Close(CreateAll(old(connection.State()), openedChannels, order).1, LocalOrder).1
    {
      hide Valid, Enumerates, ClientStates, CreateAll, Close, Admit;
      WalksKeys(order, openedChannels.Keys);
      var e := CreateOpenChannels(order, connection);
      if e.Some? {
        var _ := connection.CloseConnection(LocalOrder);
        return Err(e.value), ack;
      }
      r, acked := AdmitConnection(connection, ack);
    }

    method AdmitConnection(connection: PeerConnection, ack: Queue<ClientId>)
      returns (r: Result<ClientId, TrySendError>, acked: Queue<ClientId>)
      requires Valid() && connection !in owned
      modifies this, connection
      ensures owned == if r.Ok? then old(owned) + {connection} else old(owned)
      ensures Valid() && clients == if r.Ok? then old(clients)[r.value := connection] else old(clients)
      ensures (r, State()) == Admit(old(State()), old(connection.State()), ack)
      ensures acked == if r.Ok? then ack.(items := ack.items + [r.value]) else ack
      ensures r.Err? ==> connection.State() == Close(old(connection.State()), LocalOrder).1
      ensures openedChannels == old(openedChannels)
    {
      ghost var cs := ClientStates();
      clientIdGen := (clientIdGen + 1) % CLIENT_ID_RANGE;
      var id := clientIdGen;
      var sent := ack.TrySend(id);
      if sent.Err? {
        hide ClientStates, Valid;
        var _ := connection.CloseConnection(LocalOrder);
        return Err(Closed), ack;
      }
      clients := clients[id := connection];
      owned := owned + {connection};
      connectCount := connectCount + 1;
      assert ClientStates() == cs[id := connection.State()];
      return Ok(id), sent.value;
    }

    method InternalDisconnectClient(id: ClientId, reason: CloseReason) returns (r: Result<(), DisconnectError>)
      requires Valid()
      modifies this, owned
      ensures Valid() && clients == old(clients) - {id} && owned == old(owned)
      ensures (r, State()) == DisconnectClient(old(State()), id, reason)
      ensures id in old(clients) ==> old(clients)[id].State() == Close(old(clients[id].State()), reason).1
      ensures forall o :: o in owned && (id in old(clients) ==> o != old(clients)[id]) ==> o.State() == old(o.State())
    {
      hide Close;
      if id !in clients {
        return Err(NotAClient(id));
      }
      var connection := clients[id];
      ghost var cs := ClientStates();
      clients := clients - {id};
      disconnectCount := disconnectCount + 1;
      var closed := connection.CloseConnection(reason);
      assert ClientStates() == cs - {id};
      return if closed.Ok? then Ok(()) else Err(ClientAlreadyDisconnected(id));
    }

    /** `disconnect_all_clients`: every client is told and forgotten; these are not counted. */
    method DisconnectAllClients()
      requires Valid()
      modifies this, owned
      ensures Valid() && clients == map[] && owned == old(owned)
      ensures State() == old(State()).(clients := map[])
      ensures forall c :: c in old(clients) ==> old(clients)[c].State() == Close(old(clients[c].State()), LocalOrder).1
    {
      hide Close, PeerConnection.State;
      var drained := clients;
      clients := map[];
      assert ClientStates() == map[];
      var todo := drained.Keys;
      while todo != {}
        invariant clients == map[] && owned == old(owned) && todo <= drained.Keys
        invariant clientIdGen == old(clientIdGen) && openedChannels == old(openedChannels)
        invariant connectCount == old(connectCount) && disconnectCount == old(disconnectCount)
        invariant sendChannelIds.State() == old(sendChannelIds.State())
        invariant forall c :: c in drained ==>
                    drained[c].State() == if c in todo then old(drained[c].State())
                        else Close(old(drained[c].State()), LocalOrder).1
        decreases |todo|
      {
        var c :| c in todo;
        var _ := drained[c].CloseConnection(LocalOrder);
        todo := todo - {c};
      }
      assert ClientStates() == map[];
    }

    method SendPayloadOn(c: ClientId, id: ChannelId, payload: Bytes) returns (r: Result<(), ServerSendError>)
      requires Valid()
      modifies owned
      ensures (r, State()) == SendTo(old(State()), c, id, payload)
    {
      hide SendPayload;
      if c !in clients {
        return Err(UnknownClient(c));
      }
      var sent := SendOn(c, id, payload);
      return if sent.Ok? then Ok(()) else Err(ConnectionSendError(sent.error));
    }

    method SendGroupPayloadOn(group: seq<ClientId>, id: ChannelId, payload: Bytes)
      returns (errs: seq<(ClientId, ServerSendError)>)
      requires Valid()
      modifies owned
      ensures (errs, State()) == SendGroup(old(State()), group, id, payload)
    {
      hide SendTo, State;
      errs := [];
      ghost var all := SendGroup(State(), group, id, payload);
      assert [] + all.0 == all.0 && group[0..] == group;
      for i := 0 to |group|
        invariant all == (errs + SendGroup(State(), group[i..], id, payload).0,
            SendGroup(State(), group[i..], id, payload).1)
      {
        ghost var now := State();
        assert group[i..][0] == group[i] && group[i..][1..] == group[i + 1..];
        var sent := SendPayloadOn(group[i], id, payload);
        ghost var rest := SendGroup(State(), group[i + 1..], id, payload).0;
        var err := if sent.Err? then [(group[i], sent.error)] else [];
        assert SendGroup(now, group[i..], id, payload).0 == err + rest;
        assert errs + (err + rest) == (errs + err) + rest;
        errs := errs + err;
      }
      assert group[|group|..] == [] && errs + [] == errs;
    }

    method BroadcastPayloadOn(order: seq<ClientId>, id: ChannelId, payload: Bytes)
      returns (errs: seq<(ClientId, ServerSendError)>)
      requires Valid() && Enumerates(order, clients.Keys)
      modifies owned
      ensures Valid()
      ensures (errs, ClientStates()) == Broadcast(old(ClientStates()), order, id, payload)
    {
      hide Valid, Enumerates, SendPayload, ClientStates, Broadcast;
      errs := [];
      WalksKeys(order, clients.Keys);
      ghost var all := Broadcast(ClientStates(), order, id, payload);
      assert [] + all.0 == all.0 && order[0..] == order;
      for i := 0 to |order|
        invariant Valid()
        invariant all == (errs + Broadcast(ClientStates(), order[i..], id, payload).0,
            Broadcast(ClientStates(), order[i..], id, payload).1)
      {
        var c := order[i];
        BroadcastAt(ClientStates(), order, i, id, payload);
        var sent := SendOn(c, id, payload);
        var err := if sent.Err? then [(c, ConnectionSendError(sent.error))] else [];
        JoinParts(errs, err, Broadcast(ClientStates(), order[i + 1..], id, payload).0);
        errs := errs + err;
      }
      NoClientsLeft(order, ClientStates(), id, Unreliable);
      JoinParts(errs, [], []);
    }
  }
}
