/** What the operations of the server endpoint do to the connections of its clients, told in terms of the
    tables, the queues and the guards beforehand. */
module EndpointEffects {
  import opened Prelude
  import opened Mpsc
  import opened ChannelIds
  import opened Peers
  import opened Endpoint
  import ER = EndpointRuns

  // ---------------------------------------------------------------- sending

  /** One recipient: accepted exactly if it is a client and its channel takes the payload. */
  lemma SendToMeans(ep: Endpoint, c: ClientId, id: ChannelId, payload: Bytes)
    ensures var (r, after) := SendTo(ep, c, id, payload);
            && (r.Ok? <==> c in ep.clients && CanSend(ep.clients[c], id))
            && (r == Err(UnknownClient(c)) <==> c !in ep.clients)
            && after == ep.(clients := after.clients) && after.clients.Keys == ep.clients.Keys
            && (forall d :: d in ep.clients ==>
                  if d == c then Sends(ep.clients[d], after.clients[d], id, payload)
                  else after.clients[d] == ep.clients[d])
  {
    if c in ep.clients {
      SendMeans(ep.clients[c], id, payload);
    }
    hide SendPayload, CanSend, Queues, Refuses;
  }

  predicate Distinct<T(==)>(s: seq<T>) {
    forall i, j :: 0 <= i < j < |s| ==> s[i] != s[j]
  }

  /** The client is on a list of failures. */
  ghost predicate Listed(errs: seq<(ClientId, ServerSendError)>, c: ClientId) {
    exists e :: (c, e) in errs
  }

  lemma ListedConcat(head: seq<(ClientId, ServerSendError)>, rest: seq<(ClientId, ServerSendError)>, c: ClientId)
    ensures Listed(head + rest, c) <==> Listed(head, c) || Listed(rest, c)
  {
    if Listed(head, c) {
      var e :| (c, e) in head;
      assert (c, e) in head + rest;
    }
    if Listed(rest, c) {
      var e :| (c, e) in rest;
      assert (c, e) in head + rest;
    }
  }

  /** A broadcast puts the payload at the end of the channel's queue of every client that can take it, whatever
      happens on the others, and lists exactly the clients that cannot. */
  lemma BroadcastQueues(cs: ClientMap, order: seq<ClientId>, id: ChannelId, payload: Bytes)
    requires forall c :: c in order ==> c in cs
    requires Distinct(order)
    ensures var (errs, after) := Broadcast(cs, order, id, payload);
            && (forall c :: c in cs ==>
                  if c in order then Sends(cs[c], after[c], id, payload) else after[c] == cs[c])
            && (forall c :: Listed(errs, c) <==> c in order && !CanSend(cs[c], id))
  {
    BroadcastReachesAll(cs, order, id, payload);
    forall c | c in order {
      SendMeans(cs[c], id, payload);
    }
    hide SendPayload, Sends, CanSend, Broadcast;
    var errs := Broadcast(cs, order, id, payload).0;
    forall c | c in order && !CanSend(cs[c], id) ensures Listed(errs, c) {
      assert (c, ConnectionSendError(SendPayload(cs[c], id, payload).0.error)) in errs;
    }
  }

  lemma {:induction false} RefusalsExactly(ep: Endpoint, group: seq<ClientId>, id: ChannelId, payload: Bytes,
      c: ClientId)
    ensures var errs := Refusals(ep, group, id, payload);
            && (Listed(errs, c) <==> c in group && !(c in ep.clients && CanSend(ep.clients[c], id)))
            && ((c, UnknownClient(c)) in errs <==> c in group && c !in ep.clients)
    decreases |group|
  {
    if group != [] {
      var first, rest := group[0], Refusals(ep, group[1..], id, payload);
      RefusalsExactly(ep, group[1..], id, payload, c);
      SendToMeans(ep, first, id, payload);
      hide SendTo, CanSend;
      var r := SendTo(ep, first, id, payload).0;
      var head := if r.Err? then [(first, r.error)] else [];
      assert Refusals(ep, group, id, payload) == head + rest;
      ListedConcat(head, rest, c);
      assert r.Err? ==> (first, r.error) in head;
    }
  }

  /** A group send does the same for its recipients, and lists those that are no clients as well. */
  lemma GroupQueues(ep: Endpoint, group: seq<ClientId>, id: ChannelId, payload: Bytes)
    requires Distinct(group)
    ensures var (errs, after) := SendGroup(ep, group, id, payload);
            && after == ep.(clients := after.clients) && after.clients.Keys == ep.clients.Keys
            && (forall c :: c in ep.clients ==>
                  if c in group then Sends(ep.clients[c], after.clients[c], id, payload)
                  else after.clients[c] == ep.clients[c])
            && (forall c :: Listed(errs, c) <==> c in group && !(c in ep.clients && CanSend(ep.clients[c], id)))
            && (forall c :: (c, UnknownClient(c)) in errs <==> c in group && c !in ep.clients)
  {
    GroupReachesAll(ep, group, id, payload);
    forall c {
      RefusalsExactly(ep, group, id, payload, c);
    }
    forall c | c in group && c in ep.clients {
      SendMeans(ep.clients[c], id, payload);
    }
    hide SendPayload, Sends, CanSend, SendGroup, Refusals, Listed;
  }

  // ---------------------------------------------------------------- opening and closing a channel

  /** `q` is `p` with one more creation message, which carries the id and the configuration. */
  predicate Told(p: Peer, q: Peer, id: ChannelId, config: ChannelConfig) {
    q == p.(toChannels := p.toChannels.(items := p.toChannels.items + [CreateChannel(id, config)]))
  }

  /** The clients at the front of the walk that can take a creation message. */
  function CreateFront(cs: ClientMap, order: seq<ClientId>): (n: nat)
    requires forall c :: c in order ==> c in cs
    ensures n <= |order|
    ensures n == |order| <==> forall c :: c in order ==> CanCreate(cs[c])
  {
    if order == [] then 0
    else
      assert forall c :: c in order <==> c == order[0] || c in order[1..];
      if CanCreate(cs[order[0]]) then 1 + CreateFront(cs, order[1..]) else 0
  }

  lemma {:induction false} CreateFrontDepends(cs: ClientMap, ds: ClientMap, order: seq<ClientId>)
    requires forall c :: c in order ==> c in cs && c in ds && ds[c] == cs[c]
    ensures CreateFront(ds, order) == CreateFront(cs, order)
  {
    if order != [] {
      CreateFrontDepends(cs, ds, order[1..]);
    }
  }

  /** The creation messages of a new channel go to the clients in turn until the first that cannot take one. */
  lemma {:induction false} CreatesInTurn(cs: ClientMap, order: seq<ClientId>, id: ChannelId, config: ChannelConfig,
      c: ClientId)
    requires forall d :: d in order ==> d in cs
    requires Distinct(order) && c in cs
    ensures var (e, after) := CreateOnClients(cs, order, id, config);
            var n := CreateFront(cs, order);
            && (e.None? <==> n == |order|)
            && if c in order[..n] then Told(cs[c], after[c], id, config) else after[c] == cs[c]
    decreases |order|
  {
    if order != [] {
      var first, rest := order[0], order[1..];
      CreateUnregisteredMeans(cs[first], id, config);
      var (r, p) := CreateUnregistered(cs[first], id, config);
      hide CreateUnregistered, CanCreate;
      if r.Ok? {
        var cs1 := cs[first := p];
        CreateFrontDepends(cs, cs1, rest);
        CreatesInTurn(cs1, rest, id, config, c);
        FrontOf(order, CreateFront(cs, rest));
        assert CreateFront(cs, order) == 1 + CreateFront(cs, rest);
        assert CreateOnClients(cs, order, id, config) == CreateOnClients(cs1, rest, id, config);
        hide CreateFront, CreateOnClients;
        assert c == first ==> c !in rest;
      }
    }
  }

  /** The front of a walk: its first client, and the front of the rest. */
  lemma FrontOf<T>(order: seq<T>, n: nat)
    requires n < |order|
    ensures forall c :: c in order[..n + 1] <==> c == order[0] || c in order[1..][..n]
    ensures forall c :: c in order[1..][..n] ==> c in order[1..]
  {
    assert order[..n + 1] == [order[0]] + order[1..][..n];
  }

  /** Opening a channel succeeds exactly if there is a free id and every client can take the creation message;
      then every client has got one, with the new id and the configuration, and no other. */
  lemma OpenTellsClients(ep: Endpoint, order: seq<ClientId>, config: ChannelConfig)
    requires Enumerates(order, ep.clients.Keys) && ep.pool.available != {}
    ensures var (r, after) := OpenChannel(ep, order, config);
            var id := Least(ep.pool.available);
            && (r.Ok? <==> forall c :: c in ep.clients ==> CanCreate(ep.clients[c]))
            && after.clients.Keys == ep.clients.Keys
            && (r.Ok? ==> forall c :: c in ep.clients ==>
                  && after.clients[c].toChannels.items ==
                       ep.clients[c].toChannels.items + [CreateChannel(id, config)]
                  && after.clients[c] == ep.clients[c].(sendChannels := after.clients[c].sendChannels,
                                                        toChannels := after.clients[c].toChannels))
  {
    var id := Least(ep.pool.available);
    forall c | c in ep.clients {
      CreatesInTurn(ep.clients, order, id, config, c);
    }
    if order != [] {
      CreatesInTurn(ep.clients, order, id, config, order[0]);
    }
    var (e, cs) := CreateOnClients(ep.clients, order, id, config);
    if e.None? {
      assert order[..|order|] == order;
      RegisterOnClientsEach(cs, order, NewChannel(id));
    }
    hide CreateOnClients, RegisterOnClients, CreateFront, CanCreate, Least, NewChannel, Register;
  }

  /** `q` is `p` without the channel. */
  predicate Without(p: Peer, q: Peer, id: ChannelId) {
    && !Registered(q.sendChannels, id) && |q.sendChannels| == |p.sendChannels|
    && (forall other: ChannelId :: other != id ==> Lookup(q.sendChannels, other) == Lookup(p.sendChannels, other))
    && q == p.(sendChannels := q.sendChannels)
  }

  /** The clients at the front of the walk that can close the channel. */
  function CloseFront(cs: ClientMap, order: seq<ClientId>, id: ChannelId): (n: nat)
    requires forall c :: c in order ==> c in cs
    ensures n <= |order|
    ensures n == |order| <==> forall c :: c in order ==> CanClose(cs[c].sendChannels, id)
  {
    if order == [] then 0
    else
      assert forall c :: c in order <==> c == order[0] || c in order[1..];
      if CanClose(cs[order[0]].sendChannels, id) then 1 + CloseFront(cs, order[1..], id) else 0
  }

  lemma {:induction false} CloseFrontDepends(cs: ClientMap, ds: ClientMap, order: seq<ClientId>, id: ChannelId)
    requires forall c :: c in order ==> c in cs && c in ds && ds[c] == cs[c]
    ensures CloseFront(ds, order, id) == CloseFront(cs, order, id)
  {
    hide CanClose;
    if order != [] {
      CloseFrontDepends(cs, ds, order[1..], id);
    }
  }

  function Min(a: nat, b: nat): nat {
    if a <= b then a else b
  }

  /** A channel is closed on the clients in turn until the first that cannot close it; that one loses it too, and
      those behind it keep it. */
  lemma {:induction false} ClosesInTurn(cs: ClientMap, order: seq<ClientId>, id: ChannelId, c: ClientId)
    requires forall d :: d in order ==> d in cs
    requires Distinct(order) && c in cs
    ensures var (e, after) := CloseOnClients(cs, order, id);
            var n := CloseFront(cs, order, id);
            && (e.None? <==> n == |order|)
            && if c in order[..Min(n + 1, |order|)] then Without(cs[c], after[c], id) else after[c] == cs[c]
    decreases |order|
  {
    if order != [] {
      var first, rest := order[0], order[1..];
      CloseChannelMeans(cs[first], id);
      var (r, p) := Peers.CloseChannel(cs[first], id);
      hide Peers.CloseChannel, CanClose, Lookup, Registered;
      assert Without(cs[first], p, id);
      hide Without;
      FrontOf(order, Min(CloseFront(cs, rest, id) + 1, |rest|));
      assert order[..1] == [first];
      if r.Ok? {
        var cs1 := cs[first := p];
        CloseFrontDepends(cs, cs1, rest, id);
        ClosesInTurn(cs1, rest, id, c);
        assert CloseFront(cs, order, id) == 1 + CloseFront(cs, rest, id);
        assert CloseOnClients(cs, order, id) == CloseOnClients(cs1, rest, id);
        hide CloseFront, CloseOnClients;
        assert c == first ==> c !in rest;
      }
    }
  }

  // ---------------------------------------------------------------- clients come and go

  /** The creation messages of the open channels, in the order of the walk. */
  function CreationMessages(openChannels: map<ChannelId, ChannelConfig>, order: seq<ChannelId>):
      (ms: seq<CreateChannel>)
    requires forall id :: id in order ==> id in openChannels
    ensures |ms| == |order|
    ensures forall i :: 0 <= i < |ms| ==> ms[i] == CreateChannel(order[i], openChannels[order[i]])
  {
    seq(|order|, i requires 0 <= i < |order| => CreateChannel(order[i], openChannels[order[i]]))
  }

  /** The queue of creation messages takes `n` more. */
  predicate HasRoom(q: Queue<CreateChannel>, n: nat) {
    n == 0 || (q.receiverOpen && |q.items| + n <= q.capacity)
  }

  lemma {:induction false} CreateAllSucceeds(p: Peer, openChannels: map<ChannelId, ChannelConfig>,
      order: seq<ChannelId>)
    requires forall id :: id in order ==> id in openChannels
    ensures var (e, q) := CreateAll(p, openChannels, order);
            && (e.None? <==> HasRoom(p.toChannels, |order|))
            && q == p.(sendChannels := q.sendChannels, toChannels := q.toChannels)
    decreases |order|
  {
    if order != [] {
      var rest := order[1..];
      CreateMeans(p, order[0], openChannels[order[0]]);
      var (r, q) := Create(p, order[0], openChannels[order[0]]);
      hide Create, Lookup, NewChannel;
      if r.Ok? {
        CreateAllSucceeds(q, openChannels, rest);
        assert CreateAll(p, openChannels, order) == CreateAll(q, openChannels, rest);
        hide CreateAll;
      }
    }
  }

  lemma CreateAllFirst(p: Peer, openChannels: map<ChannelId, ChannelConfig>, order: seq<ChannelId>)
    requires order != [] && (forall id :: id in order ==> id in openChannels)
    requires CreateAll(p, openChannels, order).0.None?
    ensures var q := Create(p, order[0], openChannels[order[0]]).1;
            var first := CreateChannel(order[0], openChannels[order[0]]);
            && CreateAll(p, openChannels, order) == CreateAll(q, openChannels, order[1..])
            && q.toChannels == p.toChannels.(items := p.toChannels.items + [first])
            && q == p.(sendChannels := q.sendChannels, toChannels := q.toChannels)
            && CreationMessages(openChannels, order) == [first] + CreationMessages(openChannels, order[1..])
  {
    CreateMeans(p, order[0], openChannels[order[0]]);
    hide Create, Register, Lookup, NewChannel, CanCreate;
  }

  lemma {:induction false} CreateAllMessages(p: Peer, openChannels: map<ChannelId, ChannelConfig>,
      order: seq<ChannelId>)
    requires forall id :: id in order ==> id in openChannels
    requires CreateAll(p, openChannels, order).0.None?
    ensures CreateAll(p, openChannels, order).1.toChannels ==
            p.toChannels.(items := p.toChannels.items + CreationMessages(openChannels, order))
    decreases |order|
  {
    if order == [] {
      assert p.toChannels.items + CreationMessages(openChannels, order) == p.toChannels.items;
    } else {
      var rest, first := order[1..], CreateChannel(order[0], openChannels[order[0]]);
      CreateAllFirst(p, openChannels, order);
      hide CreateAll, Create, CreationMessages;
      CreateAllMessages(Create(p, order[0], openChannels[order[0]]).1, openChannels, rest);
      JoinParts(p.toChannels.items, [first], CreationMessages(openChannels, rest));
    }
  }

  /** A new connection gets all open channels exactly if its queue has a receiver and room for them, and each
      message carries the configuration under which that channel was opened. */
  lemma CreateAllMeans(p: Peer, openChannels: map<ChannelId, ChannelConfig>, order: seq<ChannelId>)
    requires forall id :: id in order ==> id in openChannels
    ensures var (e, q) := CreateAll(p, openChannels, order);
            && (e.None? <==> HasRoom(p.toChannels, |order|))
            && (e.None? ==>
                  q.toChannels == p.toChannels.(items := p.toChannels.items + CreationMessages(openChannels, order)))
            && q == p.(sendChannels := q.sendChannels, toChannels := q.toChannels)
  {
    CreateAllSucceeds(p, openChannels, order);
    hide CreateAll, HasRoom, CreationMessages;
    if CreateAll(p, openChannels, order).0.None? {
      CreateAllMessages(p, openChannels, order);
    }
  }

  /** A connection whose open channels could be created takes the next id, whether its acknowledgement can be sent
      or not; only with the acknowledgement it becomes a client. */
  lemma AdmitMeans(ep: Endpoint, p: Peer, ack: Queue<ClientId>)
    ensures var (r, after) := Admit(ep, p, ack);
            && (r.Ok? <==> ack.receiverOpen && |ack.items| < ack.capacity)
            && after.clientIdGen == NextId(ep.clientIdGen)
            && (r.Ok? ==> r.value == after.clientIdGen && after.clients == ep.clients[r.value := p]
                          && after.connects == ep.connects + 1)
            && (r.Err? ==> after.clients == ep.clients && after.connects == ep.connects)
            && after == ep.(clientIdGen := after.clientIdGen, clients := after.clients, connects := after.connects)
  {
  }

  /** A connection whose channels cannot be created leaves no trace, not even a used id. */
  lemma NewConnectionMeans(ep: Endpoint, order: seq<ChannelId>, p: Peer, ack: Queue<ClientId>)
    requires forall id :: id in order ==> id in ep.openChannels
    ensures var (r, after) := HandleNewConnection(ep, order, p, ack);
            var room := HasRoom(p.toChannels, |order|);
            && (!room ==> r.Err? && after == ep)
            && (room ==>
                  && after.clientIdGen == NextId(ep.clientIdGen)
                  && (r.Ok? <==> ack.receiverOpen && |ack.items| < ack.capacity)
                  && (r.Ok? ==> r.value == after.clientIdGen && after.clients.Keys == ep.clients.Keys + {r.value})
                  && (r.Err? ==> after.clients == ep.clients))
            && (forall c :: c in ep.clients && (r.Err? || c != r.value) ==>
                  c in after.clients && after.clients[c] == ep.clients[c])
  {
    CreateAllMeans(p, ep.openChannels, order);
    var e := CreateAll(p, ep.openChannels, order).0;
    assert e.None? || e.Some?;
    hide CreateAll;
  }

  /** A client that is disconnected is gone and counted, whatever its tasks answer; nobody else is touched. */
  lemma DisconnectMeans(ep: Endpoint, c: ClientId, reason: CloseReason)
    ensures var (r, after) := DisconnectClient(ep, c, reason);
            && (r.Ok? <==> c in ep.clients && ep.clients[c].closeSend.listeners)
            && (r == Err(NotAClient(c)) <==> c !in ep.clients)
            && (forall d :: d in after.clients <==> d in ep.clients && d != c)
            && (forall d :: d in after.clients ==> after.clients[d] == ep.clients[d])
            && after.disconnects == ep.disconnects + (if c in ep.clients then 1 else 0)
            && after == ep.(clients := after.clients, disconnects := after.disconnects)
  {
    if c in ep.clients {
      CloseMeans(ep.clients[c], reason);
      hide Close;
    }
  }

  // ---------------------------------------------------------------- the actions of a run

  /** Every action of a run does to the endpoint what its operation means. */
  lemma ActionsMean(ep: Endpoint, a: ER.Action)
    requires ER.Enabled(ep, a)
    ensures var after := ER.Step(ep, a);
            match a
            case Send(c, id, payload) =>
              && after.clients.Keys == ep.clients.Keys
              && forall d :: d in ep.clients ==>
                   if d == c then Sends(ep.clients[d], after.clients[d], id, payload)
                   else after.clients[d] == ep.clients[d]
            case Disconnect(c, reason) =>
              && (forall d :: d in after.clients <==> d in ep.clients && d != c)
              && after.disconnects == ep.disconnects + (if c in ep.clients then 1 else 0)
            case DisconnectAll => after.clients == map[] && after.disconnects == ep.disconnects
            case SetDefault(id) => after.pool.defaultChannel == Some(id) && after.pool.available == ep.pool.available
            case Async(c, p) => after == ep.(clients := ep.clients[c := p])
            case Connect(channels, p, ack) =>
              after.clientIdGen == if HasRoom(p.toChannels, |channels|) then NextId(ep.clientIdGen) else ep.clientIdGen
            case Open(walk, config) =>
              ep.pool.available != {} && (forall c :: c in ep.clients ==> CanCreate(ep.clients[c])) ==>
                after.openChannels == ep.openChannels[Least(ep.pool.available) := config]
            case Shut(walk, id) => id in ep.openChannels ==> after.openChannels == ep.openChannels - {id}
  {
    match a
    case Send(c, id, payload) => SendToMeans(ep, c, id, payload);
    case Disconnect(c, reason) => DisconnectMeans(ep, c, reason);
    case Connect(channels, p, ack) => NewConnectionMeans(ep, channels, p, ack);
    case Open(walk, config) =>
      if ep.pool.available != {} {
        OpenTellsClients(ep, walk, config);
      }
      hide CreateOnClients, RegisterOnClients;
    case Shut(walk, id) =>
      hide CloseOnClients;
    case _ =>
  }
}
