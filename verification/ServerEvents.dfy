/** The server's event system: it takes the messages of the async tasks, updates the endpoint and
    raises connection events. */
module ServerEvents {
  import opened Prelude
  import opened Mpsc
  import opened Peers
  import opened Endpoint

  datatype ServerAsyncMessage =
    | ClientConnected(peer: Peer, ack: Queue<ClientId>)
    | ClientConnectionClosed(client: ClientId)

  datatype Event = Connected(id: ClientId) | Lost(id: ClientId)

  // ---------------------------------------------------------------- the system, as a function

  /** One message of the endpoint's async task. `walk` is the order of the open channels map. */
  function OnMessage(ep: Endpoint, walk: seq<ChannelId>, m: ServerAsyncMessage): (seq<Event>, Endpoint)
    requires forall id :: id in walk ==> id in ep.openChannels
  {
    match m
    case ClientConnected(p, ack) =>
      var (r, after) := HandleNewConnection(ep, walk, p, ack);
      (if r.Ok? then [Connected(r.value)] else [], after)
    case ClientConnectionClosed(c) =>
      if c in ep.clients then ([Lost(c)], DisconnectClient(ep, c, PeerClosed).1) else ([], ep)
  }

  function OnMessages(ep: Endpoint, walk: seq<ChannelId>, ms: seq<ServerAsyncMessage>): (r: (seq<Event>, Endpoint))
    requires forall id :: id in walk ==> id in ep.openChannels
    ensures r.1.openChannels == ep.openChannels && r.1.pool == ep.pool
    decreases |ms|
  {
    if ms == [] then ([], ep)
    else
      var (es, next) := OnMessage(ep, walk, ms[0]);
      var (rest, last) := OnMessages(next, walk, ms[1..]);
      (es + rest, last)
  }

  /** The clients, in walking order, whose channels report a lost connection. */
  function LostClients(cs: ClientMap, order: seq<ClientId>): seq<ClientId>
    requires forall c :: c in order ==> c in cs
    decreases |order|
  {
    if order == [] then []
    else (if cs[order[0]].fromChannels != [] then [order[0]] else []) + LostClients(cs, order[1..])
  }

  function Drain(p: Peer): Peer {
    p.(fromChannels := [])
  }

  function DrainOn(cs: ClientMap, order: seq<ClientId>): (r: ClientMap)
    requires forall c :: c in order ==> c in cs
    ensures r.Keys == cs.Keys
    ensures forall c :: c in cs ==> r[c] == if c in order then Drain(cs[c]) else cs[c]
  {
    map c | c in cs :: if c in order then Drain(cs[c]) else cs[c]
  }

  function LostEvents(lost: seq<ClientId>): (es: seq<Event>)
    ensures |es| == |lost| && forall i :: 0 <= i < |es| ==> es[i] == Lost(lost[i])
  {
    seq(|lost|, i requires 0 <= i < |lost| => Lost(lost[i]))
  }

  /** `try_disconnect_client` on each client of the list. */
  function DisconnectEach(ep: Endpoint, lost: seq<ClientId>): (r: Endpoint)
    ensures r.clientIdGen == ep.clientIdGen && r.openChannels == ep.openChannels && r.pool == ep.pool
    ensures forall c :: c in r.clients <==> c in ep.clients && c !in lost
    ensures forall c :: c in r.clients ==> r.clients[c] == ep.clients[c]
    decreases |lost|
  {
    if lost == [] then ep else DisconnectEach(DisconnectClient(ep, lost[0], LocalOrder).1, lost[1..])
  }

  /** One run of `handle_server_events`; `order` walks the clients that are left after the messages. */
  function HandleEvents(ep: Endpoint, ms: seq<ServerAsyncMessage>, walk: seq<ChannelId>, order: seq<ClientId>):
      (seq<Event>, Endpoint)
    requires forall id :: id in walk ==> id in ep.openChannels
    requires forall c :: c in order ==> c in OnMessages(ep, walk, ms).1.clients
  {
    var (es, mid) := OnMessages(ep, walk, ms);
    var lost := LostClients(mid.clients, order);
    (es + LostEvents(lost), DisconnectEach(mid.(clients := DrainOn(mid.clients, order)), lost))
  }

  // ---------------------------------------------------------------- the system, in place

  method HandleMessage(endpoint: ServerEndpoint, walk: seq<ChannelId>, m: ServerAsyncMessage) returns (es: seq<Event>)
    requires endpoint.Valid() && Enumerates(walk, endpoint.openedChannels.Keys)
    modifies endpoint, endpoint.owned
    ensures endpoint.Valid() && fresh(endpoint.owned - old(endpoint.owned))
    ensures (es, endpoint.State()) == OnMessage(old(endpoint.State()), walk, m)
    ensures m.ClientConnectionClosed? && m.client in old(endpoint.clients) ==>
              old(endpoint.clients)[m.client].State() ==
              Close(old(endpoint.clients[m.client].State()), PeerClosed).1
  {
    hide Enumerates, HandleNewConnection, DisconnectClient, Close;
    WalksKeys(walk, endpoint.openedChannels.Keys);
    if m.ClientConnected? {
      var connection := new PeerConnection.Moved(m.peer);
      var r, _ := endpoint.AcceptConnection(walk, connection, m.ack);
      return if r.Ok? then [Connected(r.value)] else [];
    }
    if m.client !in endpoint.clients {
      return [];
    }
    var _ := endpoint.InternalDisconnectClient(m.client, PeerClosed);
    return [Lost(m.client)];
  }

  method HandleMessages(endpoint: ServerEndpoint, walk: seq<ChannelId>, ms: seq<ServerAsyncMessage>)
      returns (es: seq<Event>)
    requires endpoint.Valid() && Enumerates(walk, endpoint.openedChannels.Keys)
    modifies endpoint, endpoint.owned
    ensures endpoint.Valid() && fresh(endpoint.owned - old(endpoint.owned))
    ensures (es, endpoint.State()) == OnMessages(old(endpoint.State()), walk, ms)
  {
    hide Enumerates, OnMessage, OnMessages;
    WalksKeys(walk, endpoint.openedChannels.Keys);
    es := [];
    ghost var all := OnMessages(endpoint.State(), walk, ms);
    assert [] + all.0 == all.0 && ms[0..] == ms;
    for i := 0 to |ms|
      invariant endpoint.Valid() && fresh(endpoint.owned - old(endpoint.owned))
      invariant endpoint.openedChannels == old(endpoint.openedChannels)
      invariant all == (es + OnMessages(endpoint.State(), walk, ms[i..]).0,
          OnMessages(endpoint.State(), walk, ms[i..]).1)
    {
      OnMessagesAt(endpoint.State(), walk, ms, i);
      ghost var now := endpoint.State();
      var more := HandleMessage(endpoint, walk, ms[i]);
      assert es + (more + OnMessages(endpoint.State(), walk, ms[i + 1..]).0) ==
        (es + more) + OnMessages(endpoint.State(), walk, ms[i + 1..]).0;
      es := es + more;
    }
    OnMessagesDone(endpoint.State(), walk, ms);
    assert es + [] == es;
  }

  lemma OnMessagesAt(ep: Endpoint, walk: seq<ChannelId>, ms: seq<ServerAsyncMessage>, i: nat)
    requires forall id :: id in walk ==> id in ep.openChannels
    requires i < |ms|
    ensures OnMessage(ep, walk, ms[i]).1.openChannels == ep.openChannels
    ensures var (es, next) := OnMessage(ep, walk, ms[i]);
            OnMessages(ep, walk, ms[i..]) == (es + OnMessages(next, walk, ms[i + 1..]).0,
                OnMessages(next, walk, ms[i + 1..]).1)
  {
    assert ms[i..][1..] == ms[i + 1..];
  }

  lemma OnMessagesDone(ep: Endpoint, walk: seq<ChannelId>, ms: seq<ServerAsyncMessage>)
    requires forall id :: id in walk ==> id in ep.openChannels
    ensures OnMessages(ep, walk, ms[|ms|..]) == ([], ep)
  {
  }

  /** Empties the channel messages of one connection. */
  method DrainChannels(connection: PeerConnection) returns (lost: bool)
    modifies connection
    ensures lost <==> old(connection.fromChannels) != []
    ensures connection.State() == Drain(old(connection.State()))
  {
    lost := false;
    while true
      invariant connection.State() == old(connection.State()).(fromChannels := connection.fromChannels)
      invariant if lost then old(connection.fromChannels) != []
          else connection.fromChannels == old(connection.fromChannels)
      decreases |connection.fromChannels|
    {
      var message := connection.TryRecvFromChannels();
      if message.None? {
        return;
      }
      lost := true;
    }
  }

  method DrainClient(endpoint: ServerEndpoint, c: ClientId) returns (lost: bool)
    requires endpoint.Valid() && c in endpoint.clients
    modifies endpoint.owned
    ensures endpoint.Valid()
    ensures lost <==> old(endpoint.ClientStates())[c].fromChannels != []
    ensures endpoint.ClientStates() == old(endpoint.ClientStates())[c := Drain(old(endpoint.ClientStates())[c])]
  {
    lost := DrainChannels(endpoint.clients[c]);
  }

  /** Walks the clients in some order, which is returned, and collects those that report a loss. */
  method CollectLost(endpoint: ServerEndpoint) returns (lost: seq<ClientId>, ghost order: seq<ClientId>)
    requires endpoint.Valid()
    modifies endpoint.owned
    ensures endpoint.Valid() && Enumerates(order, endpoint.clients.Keys)
    ensures lost == LostClients(old(endpoint.ClientStates()), order)
    ensures endpoint.ClientStates() == DrainOn(old(endpoint.ClientStates()), order)
  {
    hide ServerEndpoint.Valid, ServerEndpoint.ClientStates, Drain, DrainOn, LostClients, Enumerates;
    var todo := endpoint.clients.Keys;
    ghost var cs := endpoint.ClientStates();
    lost, order := [], [];
    WalkNothing(cs, todo);
    while todo != {}
      invariant endpoint.Valid() && todo <= endpoint.clients.Keys
      invariant Enumerates(order, endpoint.clients.Keys - todo) && forall c :: c in order ==> c in cs
      invariant lost == LostClients(cs, order)
      invariant endpoint.ClientStates() == DrainOn(cs, order)
      decreases |todo|
    {
      var c :| c in todo;
      WalkOneMore(cs, order, endpoint.clients.Keys, todo, c);
      var reported := DrainClient(endpoint, c);
      if reported {
        lost := lost + [c];
      }
      todo, order := todo - {c}, order + [c];
    }
    assert endpoint.clients.Keys - todo == endpoint.clients.Keys;
  }

  lemma WalkNothing(cs: ClientMap, keys: set<ClientId>)
    ensures Enumerates([], keys - keys) && LostClients(cs, []) == [] && DrainOn(cs, []) == cs
  {
  }

  lemma WalkOneMore(cs: ClientMap, order: seq<ClientId>, keys: set<ClientId>, todo: set<ClientId>, c: ClientId)
    requires keys == cs.Keys && Enumerates(order, keys - todo) && c in todo && todo <= keys
    ensures forall d :: d in order + [c] ==> d in cs
    ensures Enumerates(order + [c], keys - (todo - {c}))
    ensures forall d :: d in order ==> d in cs
    ensures LostClients(cs, order + [c]) == LostClients(cs, order) + (if cs[c].fromChannels != [] then [c] else [])
    ensures DrainOn(cs, order)[c] == cs[c]
    ensures DrainOn(cs, order + [c]) == DrainOn(cs, order)[c := Drain(cs[c])]
  {
    LostClientsSnoc(cs, order, c);
    assert c !in order;
    hide Drain, LostClients;
  }

  lemma {:induction false} LostClientsSnoc(cs: ClientMap, order: seq<ClientId>, c: ClientId)
    requires c in cs && forall d :: d in order ==> d in cs
    ensures LostClients(cs, order + [c]) == LostClients(cs, order) + (if cs[c].fromChannels != [] then [c] else [])
    decreases |order|
  {
    if order == [] {
      assert order + [c] == [c];
    } else {
      LostClientsSnoc(cs, order[1..], c);
      assert (order + [c])[1..] == order[1..] + [c];
    }
  }

  method DisconnectLost(endpoint: ServerEndpoint, lost: seq<ClientId>)
    requires endpoint.Valid()
    modifies endpoint, endpoint.owned
    ensures endpoint.Valid() && endpoint.owned == old(endpoint.owned)
    ensures endpoint.State() == DisconnectEach(old(endpoint.State()), lost)
    ensures forall c :: c in lost && c in old(endpoint.clients) ==>
              old(endpoint.clients)[c].State() == Close(old(endpoint.clients[c].State()), LocalOrder).1
  {
    hide DisconnectClient, Close;
    ghost var all := endpoint.clients;
    ghost var ep := endpoint.State();
    assert lost[0..] == lost;
    for i := 0 to |lost|
      invariant endpoint.Valid() && endpoint.owned == old(endpoint.owned)
      invariant DisconnectEach(ep, lost) == DisconnectEach(endpoint.State(), lost[i..])
      invariant forall c :: c in endpoint.clients <==> c in all && c !in lost[..i]
      invariant forall c :: c in endpoint.clients ==> endpoint.clients[c] == all[c]
      invariant forall c :: c in all ==>
                  all[c].State() == if c in lost[..i] then Close(old(all[c].State()), LocalOrder).1
                      else old(all[c].State())
    {
      assert lost[..i + 1] == lost[..i] + [lost[i]];
      assert lost[i..][0] == lost[i] && lost[i..][1..] == lost[i + 1..];
      var _ := endpoint.InternalDisconnectClient(lost[i], LocalOrder);
    }
    assert lost[..|lost|] == lost;
  }

  /** `handle_server_events`: the messages, then the channel losses, then the removals. */
  method HandleServerEvents(endpoint: ServerEndpoint, ms: seq<ServerAsyncMessage>, walk: seq<ChannelId>)
    returns (es: seq<Event>, ghost order: seq<ClientId>)
    requires endpoint.Valid() && Enumerates(walk, endpoint.openedChannels.Keys)
    modifies endpoint, endpoint.owned
    ensures endpoint.Valid() && fresh(endpoint.owned - old(endpoint.owned))
    ensures forall id :: id in walk ==> id in old(endpoint.State()).openChannels
    ensures Enumerates(order, OnMessages(old(endpoint.State()), walk, ms).1.clients.Keys)
    ensures (es, endpoint.State()) == HandleEvents(old(endpoint.State()), ms, walk, order)
  {
    hide Enumerates, OnMessages, LostClients, LostEvents, DisconnectEach, DrainOn;
    WalksKeys(walk, endpoint.openedChannels.Keys);
    var raised := HandleMessages(endpoint, walk, ms);
    var lost;
    lost, order := CollectLost(endpoint);
    WalksKeys(order, endpoint.clients.Keys);
    DisconnectLost(endpoint, lost);
    es := raised + LostEvents(lost);
  }
}
