/** What every run of a server endpoint keeps: the open channels are registered on every client, and
    each channel id is free, open, or stranded by a failed close. */
module EndpointRuns {
  import opened Prelude
  import opened Mpsc
  import opened ChannelIds
  import opened Peers
  import opened Endpoint
  import opened RecvChannels

  datatype Action =
    | Open(walk: seq<ClientId>, config: ChannelConfig)
    | Shut(walk: seq<ClientId>, id: ChannelId)
    | Connect(channels: seq<ChannelId>, peer: Peer, ack: Queue<ClientId>)
    | Disconnect(client: ClientId, reason: CloseReason)
    | DisconnectAll
    | Send(client: ClientId, id: ChannelId, payload: Bytes)
    | SetDefault(id: ChannelId)
    | Async(client: ClientId, peer: Peer)

  /** Every hash map walk visits each key once; a new connection has no channels yet; the async side
      only moves queues. */
  ghost predicate Enabled(ep: Endpoint, a: Action) {
    match a
    case Open(walk, _) => Enumerates(walk, ep.clients.Keys)
    case Shut(walk, _) => Enumerates(walk, ep.clients.Keys)
    case Connect(channels, p, _) => Enumerates(channels, ep.openChannels.Keys) && p.sendChannels == []
    case Async(c, p) => c in ep.clients && AsyncProgress(ep.clients[c], p)
    case _ => true
  }

  ghost function Step(ep: Endpoint, a: Action): Endpoint
    requires Enabled(ep, a)
  {
    match a
    case Open(walk, config) => OpenChannel(ep, walk, config).1
    case Shut(walk, id) => CloseEndpointChannel(ep, walk, id).1
    case Connect(channels, p, ack) => HandleNewConnection(ep, channels, p, ack).1
    case Disconnect(c, reason) => DisconnectClient(ep, c, reason).1
    case DisconnectAll => ep.(clients := map[])
    case Send(c, id, payload) => SendTo(ep, c, id, payload).1
    case SetDefault(id) => ep.(pool := ep.pool.(defaultChannel := Some(id)))
    case Async(c, p) => ep.(clients := ep.clients[c := p])
  }

  ghost predicate Run(ep: Endpoint, actions: seq<Action>, last: Endpoint)
    decreases |actions|
  {
    if actions == [] then last == ep
    else Enabled(ep, actions[0]) && Run(Step(ep, actions[0]), actions[1..], last)
  }

  function Initial(): Endpoint {
    Endpoint(map[], 0, map[], FreshPool(), 0, 0)
  }

  // ---------------------------------------------------------------- the invariant

  /** A client's table has every open channel, under its own id, and no free id. */
  ghost predicate TableAgrees(t: Table, openIds: set<ChannelId>, free: set<ChannelId>) {
    && (forall id :: id in openIds ==> Registered(t, id))
    && (forall id :: id in free ==> !Registered(t, id))
    && (forall id :: Registered(t, id) ==> Lookup(t, id).value.id == id)
  }

  ghost predicate Inv(ep: Endpoint) {
    && ep.pool.available !! ep.openChannels.Keys
    && forall c :: c in ep.clients ==> TableAgrees(ep.clients[c].sendChannels, ep.openChannels.Keys, ep.pool.available)
  }

  /** The ids that are neither free nor open. */
  function Stranded(ep: Endpoint): set<ChannelId> {
    AllIds() - ep.pool.available - ep.openChannels.Keys
  }

  /** Every client has the channel, and its task still listens to the close signal. */
  predicate AllCanClose(cs: ClientMap, id: ChannelId) {
    forall c :: c in cs ==> CanClose(cs[c].sendChannels, id)
  }

  /** The one way to strand an id: closing an open channel that some client cannot close. */
  function StrandedBy(ep: Endpoint, a: Action): set<ChannelId> {
    match a
    case Shut(_, id) => if id in ep.openChannels && !AllCanClose(ep.clients, id) then {id} else {}
    case _ => {}
  }

  // ---------------------------------------------------------------- walks and tables

  /** What a walk of closes does to the tables: other ids stay, this id is not added, and after a
      walk without error it is gone from every client on the walk. */
  lemma {:induction false} CloseOnClientsTables(cs: ClientMap, walk: seq<ClientId>, id: ChannelId)
    requires forall c :: c in walk ==> c in cs
    ensures var (e, after) := CloseOnClients(cs, walk, id);
            && (forall c, other :: c in cs && other != id ==>
                 Lookup(after[c].sendChannels, other) == Lookup(cs[c].sendChannels, other))
            && (forall c :: c in cs && !Registered(cs[c].sendChannels, id) ==> !Registered(after[c].sendChannels, id))
            && (forall c :: c in cs && Registered(after[c].sendChannels, id) ==>
                 after[c].sendChannels == cs[c].sendChannels)
            && (e.None? ==> forall c :: c in walk ==> !Registered(after[c].sendChannels, id))
    decreases |walk|
  {
    if walk != [] {
      var (r, p) := Peers.CloseChannel(cs[walk[0]], id);
      var cs1 := cs[walk[0] := p];
      if r.Ok? {
        CloseOnClientsTables(cs1, walk[1..], id);
        assert forall c :: c in walk <==> c == walk[0] || c in walk[1..];
      }
    }
  }

  function NewChannels(ids: seq<ChannelId>): (chs: seq<Channel>)
    ensures |chs| == |ids| && forall i :: 0 <= i < |ids| ==> chs[i] == NewChannel(ids[i])
    decreases |ids|
  {
    if ids == [] then [] else [NewChannel(ids[0])] + NewChannels(ids[1..])
  }

  /** The table of a new client after its walk over the open channels. */
  lemma {:induction false} CreateAllRegisters(p: Peer, openChannels: map<ChannelId, ChannelConfig>, ids: seq<ChannelId>)
    requires forall id :: id in ids ==> id in openChannels
    ensures var (e, q) := CreateAll(p, openChannels, ids);
            e.None? ==> q.sendChannels == RegisterAll(p.sendChannels, NewChannels(ids))
    decreases |ids|
  {
    if ids != [] {
      var (r, q) := Create(p, ids[0], openChannels[ids[0]]);
      if r.Ok? {
        CreateAllRegisters(q, openChannels, ids[1..]);
        assert NewChannels(ids)[0] == NewChannel(ids[0]);
        assert NewChannels(ids)[1..] == NewChannels(ids[1..]);
      }
    }
  }

  lemma NewClientAgrees(p: Peer, openChannels: map<ChannelId, ChannelConfig>, ids: seq<ChannelId>, free: set<ChannelId>)
    requires Enumerates(ids, openChannels.Keys) && p.sendChannels == [] && free !! openChannels.Keys
    requires CreateAll(p, openChannels, ids).0.None?
    ensures TableAgrees(CreateAll(p, openChannels, ids).1.sendChannels, openChannels.Keys, free)
  {
    CreateAllRegisters(p, openChannels, ids);
    var chs := NewChannels(ids);
    assert DistinctIds(chs);
    hide NewChannels, CreateAll, RegisterAll;
    forall id: ChannelId ensures Lookup(RegisterAll([], chs), id) == if id in ids then Some(NewChannel(id)) else None {
      RegisterAllIsUpdate([], chs, id);
      if id in ids {
        var i :| 0 <= i < |ids| && ids[i] == id;
        assert chs[i] == NewChannel(id) && chs[i].id == id;
      }
    }
  }

  /** A new client walks the open channels in any order and ends with the same table. */
  lemma NewClientAnyOrder(p: Peer, openChannels: map<ChannelId, ChannelConfig>, walk: seq<ChannelId>,
      other: seq<ChannelId>)
    requires Enumerates(walk, openChannels.Keys) && Enumerates(other, openChannels.Keys) && p.sendChannels == []
    requires CreateAll(p, openChannels, walk).0.None? && CreateAll(p, openChannels, other).0.None?
    ensures CreateAll(p, openChannels, walk).1.sendChannels == CreateAll(p, openChannels, other).1.sendChannels
  {
    CreateAllRegisters(p, openChannels, walk);
    CreateAllRegisters(p, openChannels, other);
    var a, b := NewChannels(walk), NewChannels(other);
    SameChannels(walk, other);
    SameChannels(other, walk);
    RegisterAnyOrder(a, b);
  }

  lemma SameChannels(walk: seq<ChannelId>, other: seq<ChannelId>)
    requires forall id :: id in walk ==> id in other
    ensures forall ch :: ch in NewChannels(walk) ==> ch in NewChannels(other)
  {
    forall ch | ch in NewChannels(walk) ensures ch in NewChannels(other) {
      var i :| 0 <= i < |walk| && NewChannels(walk)[i] == ch;
      assert walk[i] in other;
      var j :| 0 <= j < |other| && other[j] == walk[i];
      assert NewChannels(other)[j] == ch;
    }
  }

  // ---------------------------------------------------------------- one action

  lemma TableGains(t: Table, u: Table, id: ChannelId, openIds: set<ChannelId>, free: set<ChannelId>)
    requires TableAgrees(t, openIds, free)
    requires forall other: ChannelId :: Lookup(u, other) == if other == id then Some(NewChannel(id))
        else Lookup(t, other)
    ensures TableAgrees(u, openIds + {id}, free - {id})
  {
    hide Lookup;
  }

  lemma OpenKeepsInv(ep: Endpoint, walk: seq<ClientId>, config: ChannelConfig)
    requires Inv(ep) && Enumerates(walk, ep.clients.Keys)
    ensures Inv(OpenChannel(ep, walk, config).1)
  {
    hide OpenChannel, TableAgrees, Lookup, Registered, Enumerates, Take, NewChannel, Least;
    WalksKeys(walk, ep.clients.Keys);
    var (r, after) := OpenChannel(ep, walk, config);
    if ep.pool.available == {} {
      NothingFree(ep, walk, config);
    } else {
      OpenAllOrNothing(ep, walk, config);
      if r.Ok? {
        assert after.openChannels.Keys == ep.openChannels.Keys + {r.value};
        forall c | c in after.clients
          ensures TableAgrees(after.clients[c].sendChannels, after.openChannels.Keys, after.pool.available)
        {
          TableGains(ep.clients[c].sendChannels, after.clients[c].sendChannels, r.value, ep.openChannels.Keys,
              ep.pool.available);
        }
      }
    }
  }

  lemma NothingFree(ep: Endpoint, walk: seq<ClientId>, config: ChannelConfig)
    requires ep.pool.available == {} && Enumerates(walk, ep.clients.Keys)
    ensures OpenChannel(ep, walk, config) == (Err(MaxChannelsReached), ep)
  {
  }

  /** Opening is all or nothing. On success every client has the new channel under the smallest free
      id, which none of them had, and nothing else changes. On failure no table and no open channel
      changes, the free ids are as before, and the pool is exactly restored unless the default had
      been set by hand to the id that was tried. */
  lemma OpenAllOrNothing(ep: Endpoint, walk: seq<ClientId>, config: ChannelConfig)
    requires Inv(ep) && Enumerates(walk, ep.clients.Keys) && ep.pool.available != {}
    ensures var (r, after) := OpenChannel(ep, walk, config);
            var id := Least(ep.pool.available);
            && after.clients.Keys == ep.clients.Keys
            && (forall c :: c in ep.clients ==> !Registered(ep.clients[c].sendChannels, id))
            && match r
               case Ok(i) =>
                 && i == id
                 && after.openChannels == ep.openChannels[id := config]
                 && after.pool.available == ep.pool.available - {id}
                 && (forall c, other :: c in ep.clients ==>
                       Lookup(after.clients[c].sendChannels, other) ==
                         if other == id then Some(NewChannel(id)) else Lookup(ep.clients[c].sendChannels, other))
               case Err(e) =>
                 && e.AsyncError?
                 && after.openChannels == ep.openChannels
                 && (forall c :: c in ep.clients ==> after.clients[c].sendChannels == ep.clients[c].sendChannels)
                 && after.pool.available == ep.pool.available
                 && (after.pool == ep.pool <==> ep.pool.defaultChannel != Some(id))
  {
    var id := Least(ep.pool.available);
    TakeThenRelease(ep.pool);
    var (e, cs) := CreateOnClients(ep.clients, walk, id, config);
    forall c | c in ep.clients ensures !Registered(ep.clients[c].sendChannels, id) {
      assert TableAgrees(ep.clients[c].sendChannels, ep.openChannels.Keys, ep.pool.available);
    }
    if e.None? {
      RegisterOnClientsEach(cs, walk, NewChannel(id));
      forall c, other: ChannelId | c in ep.clients
        ensures Lookup(Register(ep.clients[c].sendChannels, NewChannel(id)), other) ==
                if other == id then Some(NewChannel(id)) else Lookup(ep.clients[c].sendChannels, other)
      {
        RegisterIsUpdate(ep.clients[c].sendChannels, NewChannel(id), other);
      }
    }
    hide Lookup, Register, CreateOnClients, RegisterOnClients, NewChannel;
  }

  lemma TableLoses(t: Table, u: Table, id: ChannelId, openIds: set<ChannelId>, free: set<ChannelId>)
    requires TableAgrees(t, openIds, free)
    requires forall other: ChannelId :: other != id ==> Lookup(u, other) == Lookup(t, other)
    requires Registered(u, id) ==> u == t
    ensures TableAgrees(u, openIds - {id}, free)
    ensures !Registered(u, id) ==> TableAgrees(u, openIds - {id}, free + {id})
  {
    hide Lookup;
  }

  lemma ShutKeepsInv(ep: Endpoint, walk: seq<ClientId>, id: ChannelId)
    requires Inv(ep) && Enumerates(walk, ep.clients.Keys)
    ensures var (r, after) := CloseEndpointChannel(ep, walk, id);
            && Inv(after)
            && (id in ep.openChannels ==> after.openChannels == ep.openChannels - {id})
            && after.pool.available == ep.pool.available + (if r.Ok? then {id} else {})
            && (r.Ok? ==> id in ep.openChannels)
  {
    hide CloseOnClients, Lookup, Registered, TableAgrees;
    if id in ep.openChannels {
      CloseOnClientsTables(ep.clients, walk, id);
      var (r, after) := CloseEndpointChannel(ep, walk, id);
      forall c | c in after.clients
        ensures TableAgrees(after.clients[c].sendChannels, after.openChannels.Keys, after.pool.available)
      {
        TableLoses(ep.clients[c].sendChannels, after.clients[c].sendChannels, id, ep.openChannels.Keys,
            ep.pool.available);
        assert (ep.openChannels - {id}).Keys == ep.openChannels.Keys - {id};
        assert c in walk;
      }
    }
  }

  lemma {:induction false} CloseOnClientsFails(cs: ClientMap, walk: seq<ClientId>, id: ChannelId)
    requires forall c :: c in walk ==> c in cs
    requires forall i, j :: 0 <= i < j < |walk| ==> walk[i] != walk[j]
    ensures CloseOnClients(cs, walk, id).0.None? <==> forall c :: c in walk ==> CanClose(cs[c].sendChannels, id)
    decreases |walk|
  {
    hide CanClose, Peers.CloseChannel;
    if walk != [] {
      ClosesOne(cs[walk[0]], id);
      var cs1 := cs[walk[0] := Peers.CloseChannel(cs[walk[0]], id).1];
      CloseOnClientsFails(cs1, walk[1..], id);
      assert forall c :: c in walk <==> c == walk[0] || c in walk[1..];
      assert walk[0] !in walk[1..];
    }
  }

  lemma ClosesOne(p: Peer, id: ChannelId)
    ensures Peers.CloseChannel(p, id).0.Ok? <==> CanClose(p.sendChannels, id)
  {
  }

  /** Closing a channel fails exactly if it is not open, or some client has no channel under the id or
      one whose task listens no more. The order of the walk does not matter. */
  lemma CloseFails(ep: Endpoint, walk: seq<ClientId>, id: ChannelId)
    requires Enumerates(walk, ep.clients.Keys)
    ensures CloseEndpointChannel(ep, walk, id).0.Err? <==> id !in ep.openChannels || !AllCanClose(ep.clients, id)
  {
    hide CloseOnClients, CanClose;
    CloseOnClientsFails(ep.clients, walk, id);
  }

  lemma SendKeepsTable(p: Peer, id: ChannelId, payload: Bytes, other: ChannelId)
    ensures var q := SendPayload(p, id, payload).1;
            && Registered(q.sendChannels, other) == Registered(p.sendChannels, other)
            && (Registered(p.sendChannels, other) ==>
                  Lookup(q.sendChannels, other).value.id == Lookup(p.sendChannels, other).value.id)
  {
  }

  /** Every action keeps the invariant. */
  lemma StepKeepsInv(ep: Endpoint, a: Action)
    requires Inv(ep) && Enabled(ep, a)
    ensures Inv(Step(ep, a))
  {
    match a
    case Open(walk, config) => OpenKeepsInv(ep, walk, config);
    case Shut(walk, id) => ShutKeepsInv(ep, walk, id);
    case Connect(channels, p, ack) =>
      if CreateAll(p, ep.openChannels, channels).0.None? {
        NewClientAgrees(p, ep.openChannels, channels, ep.pool.available);
      }
      hide CreateAll, TableAgrees;
    case Send(c, id, payload) =>
      if c in ep.clients {
        forall other: ChannelId { SendKeepsTable(ep.clients[c], id, payload, other); }
      }
      hide SendPayload;
    case Async(c, p) =>
      assert forall id: ChannelId :: Registered(p.sendChannels, id) == Registered(ep.clients[c].sendChannels, id);
    case _ =>
  }

  /** The id partition: an action strands an id exactly when it is a close that fails, and never
      frees a stranded one. */
  lemma StepStrands(ep: Endpoint, a: Action)
    requires Inv(ep) && Enabled(ep, a)
    ensures Stranded(Step(ep, a)) == Stranded(ep) + StrandedBy(ep, a)
  {
    match a
    case Open(walk, config) =>
      if ep.pool.available != {} {
        OpenAllOrNothing(ep, walk, config);
        hide OpenChannel;
      }
    case Shut(walk, id) => ShutStrands(ep, walk, id);
    case Send(c, id, payload) =>
    case _ =>
  }

  lemma ShutStrands(ep: Endpoint, walk: seq<ClientId>, id: ChannelId)
    requires Inv(ep) && Enumerates(walk, ep.clients.Keys)
    ensures Stranded(CloseEndpointChannel(ep, walk, id).1) == Stranded(ep) + StrandedBy(ep, Shut(walk, id))
  {
    hide Enumerates, AllCanClose, CloseOnClients, TableAgrees;
    ShutKeepsInv(ep, walk, id);
    CloseFails(ep, walk, id);
    NotOpen(ep, walk, id);
    hide CloseEndpointChannel;
  }

  lemma NotOpen(ep: Endpoint, walk: seq<ClientId>, id: ChannelId)
    requires Enumerates(walk, ep.clients.Keys)
    ensures id !in ep.openChannels ==> CloseEndpointChannel(ep, walk, id).1 == ep
  {
  }

  /** From every state of agreement with a client: once the task of an open channel has ended on one client,
      closing the channel fails and its id is lost. */
  lemma CloseCanStrand(ep: Endpoint, walk: seq<ClientId>, c: ClientId, id: ChannelId)
    requires Inv(ep) && Enumerates(walk, ep.clients.Keys) && c in ep.clients && id in ep.openChannels
    ensures Enabled(ep, Async(c, Unheard(ep.clients[c], id)))
    ensures var mid := Step(ep, Async(c, Unheard(ep.clients[c], id)));
            && Enumerates(walk, mid.clients.Keys)
            && CloseEndpointChannel(mid, walk, id).0.Err?
            && id in Stranded(Step(mid, Shut(walk, id)))
  {
    var p := ep.clients[c];
    assert TableAgrees(p.sendChannels, ep.openChannels.Keys, ep.pool.available);
    assert Registered(p.sendChannels, id);
    var a := Async(c, Unheard(p, id));
    StepKeepsInv(ep, a);
    var mid := Step(ep, a);
    assert mid.clients.Keys == ep.clients.Keys;
    assert !CanClose(mid.clients[c].sendChannels, id);
    CloseFails(mid, walk, id);
    StepStrands(mid, Shut(walk, id));
    hide CloseEndpointChannel;
  }

  /** A connection that has just been accepted, with room for every creation message. */
  function NewcomerPeer(): Peer {
    NewPeer(Queue([], DEFAULT_MESSAGE_QUEUE_SIZE, true), Queue([], DEFAULT_QCHANNEL_MESSAGES_CHANNEL_SIZE, true), [],
            CloseSend([], true), RecvConfig(0, 0, false))
  }

  /** Opening a channel and accepting a client, from a new endpoint on. */
  function OneClient(): seq<Action> {
    [Open([], Unreliable), Connect([0], NewcomerPeer(), Queue([], 1, true))]
  }

  lemma RunOneClient() returns (ep: Endpoint)
    ensures Run(Initial(), OneClient(), ep) && Inv(ep) && Stranded(ep) == {}
    ensures ep.clients.Keys == {1} && ep.openChannels.Keys == {0}
  {
    var open, connect := OneClient()[0], OneClient()[1];
    OpenFirst();
    var mid := Step(Initial(), open);
    StepKeepsInv(Initial(), open);
    StepStrands(Initial(), open);
    ep := ConnectFirst(mid, connect);
    assert OneClient()[1..] == [connect];
    hide Step, Enabled, Stranded;
  }

  lemma ConnectFirst(mid: Endpoint, connect: Action) returns (ep: Endpoint)
    requires Inv(mid) && mid.openChannels.Keys == {0} && mid.clients == map[] && mid.clientIdGen == 0
    requires connect == Connect([0], NewcomerPeer(), Queue([], 1, true))
    ensures Run(mid, [connect], ep) && Inv(ep) && Stranded(ep) == Stranded(mid)
    ensures ep.clients.Keys == {1} && ep.openChannels.Keys == {0}
  {
    NewClientIsNeverRefused(mid, [0], NewcomerPeer(), Queue([], 1, true));
    StepKeepsInv(mid, connect);
    StepStrands(mid, connect);
    ep := Step(mid, connect);
    hide CreateAll, AllIds, TableAgrees, NewcomerPeer;
    assert ep.clients.Keys == {1} && ep.openChannels == mid.openChannels;
    assert [connect][1..] == [] && Run(ep, [], ep);
  }

  lemma OpenFirst()
    ensures var r := OpenChannel(Initial(), [], Unreliable);
            r.0 == Ok(0) && r.1.clients == map[] && r.1.openChannels.Keys == {0} && r.1.clientIdGen == 0
  {
    TakesInOrder(0);
    hide Take;
  }

  lemma LoseId(ep: Endpoint) returns (actions: seq<Action>, last: Endpoint)
    requires Inv(ep) && Stranded(ep) == {} && ep.clients.Keys == {1} && ep.openChannels.Keys == {0}
    ensures Run(ep, actions, last) && Stranded(last) == {0}
  {
    hide AllIds, TableAgrees, Unheard, CloseEndpointChannel;
    assert Enumerates([1], ep.clients.Keys);
    var quit, shut := Async(1, Unheard(ep.clients[1], 0)), Shut([1], 0);
    CloseCanStrand(ep, [1], 1, 0);
    var mid := Step(ep, quit);
    StepKeepsInv(ep, quit);
    StepStrands(ep, quit);
    StepStrands(mid, shut);
    actions, last := [quit, shut], Step(mid, shut);
    hide Step, Enabled, Stranded, Inv;
    assert [shut][1..] == [] && actions[1..] == [shut];
    assert Run(last, [], last) && Run(mid, [shut], last);
  }

  /** A run from a new endpoint on that loses an id: open a channel, accept a client, its task for the
      channel ends, close the channel. */
  lemma LostIdIsReachable()
    ensures exists actions, ep :: Run(Initial(), actions, ep) && Stranded(ep) == {0}
  {
    hide Run, Stranded, Inv;
    var ep := RunOneClient();
    var actions, last := LoseId(ep);
    RunOn(Initial(), OneClient(), ep, actions, last);
  }

  lemma {:induction false} RunOn(a: Endpoint, first: seq<Action>, b: Endpoint, second: seq<Action>, c: Endpoint)
    requires Run(a, first, b) && Run(b, second, c)
    ensures Run(a, first + second, c)
    decreases |first|
  {
    hide Enabled, Step;
    if first == [] {
      assert first + second == second;
    } else {
      RunOn(Step(a, first[0]), first[1..], b, second, c);
      assert (first + second)[1..] == first[1..] + second;
    }
  }

  // ---------------------------------------------------------------- whole runs

  /** In every reachable state the endpoint and its clients agree, whatever the order of opens,
      closes (also those that fail midway), connects and disconnects. */
  lemma {:induction false} ChannelAgreement(ep: Endpoint, actions: seq<Action>, last: Endpoint)
    requires Inv(ep) && Run(ep, actions, last)
    ensures Inv(last)
    decreases |actions|
  {
    if actions != [] {
      StepKeepsInv(ep, actions[0]);
      ChannelAgreement(Step(ep, actions[0]), actions[1..], last);
    }
  }

  /** Sending to a known client on an open channel can only fail because the channel's own queue is
      full or its task has ended. */
  lemma OpenChannelsAreUsable(actions: seq<Action>, ep: Endpoint, c: ClientId, id: ChannelId, payload: Bytes)
    requires Run(Initial(), actions, ep) && c in ep.clients && id in ep.openChannels
    ensures match SendTo(ep, c, id, payload).0
            case Ok(_) => true
            case Err(e) => e.ConnectionSendError? && e.error.ChannelSendError?
  {
    ChannelAgreement(Initial(), actions, ep);
    assert TableAgrees(ep.clients[c].sendChannels, ep.openChannels.Keys, ep.pool.available);
    assert Registered(ep.clients[c].sendChannels, id);
  }

  ghost function StrandedAlong(ep: Endpoint, actions: seq<Action>, last: Endpoint): set<ChannelId>
    requires Run(ep, actions, last)
    decreases |actions|
  {
    if actions == [] then {}
    else StrandedBy(ep, actions[0]) + StrandedAlong(Step(ep, actions[0]), actions[1..], last)
  }

  /** Over every run each id is free, open or stranded, and only one of them; the stranded ids are
      exactly those whose close failed along the way. */
  lemma {:induction false} IdOwnership(ep: Endpoint, actions: seq<Action>, last: Endpoint)
    requires Inv(ep) && Run(ep, actions, last)
    ensures last.pool.available !! last.openChannels.Keys !! Stranded(last)
    ensures last.pool.available + last.openChannels.Keys + Stranded(last) == AllIds()
    ensures Stranded(last) == Stranded(ep) + StrandedAlong(ep, actions, last)
    decreases |actions|
  {
    if actions != [] {
      StepKeepsInv(ep, actions[0]);
      StepStrands(ep, actions[0]);
      IdOwnership(Step(ep, actions[0]), actions[1..], last);
    }
  }

  /** A default channel that was never set by hand is never a free id. */
  lemma {:induction false} DefaultNeverFree(ep: Endpoint, actions: seq<Action>, last: Endpoint)
    requires DefaultTaken(ep.pool) && Run(ep, actions, last)
    requires forall a :: a in actions ==> !a.SetDefault?
    ensures DefaultTaken(last.pool)
    decreases |actions|
  {
    if actions != [] {
      StepKeepsDefault(ep, actions[0]);
      DefaultNeverFree(Step(ep, actions[0]), actions[1..], last);
    }
  }

  lemma StepKeepsDefault(ep: Endpoint, a: Action)
    requires DefaultTaken(ep.pool) && Enabled(ep, a) && !a.SetDefault?
    ensures DefaultTaken(Step(ep, a).pool)
  {
    hide CreateOnClients, CloseOnClients, CreateAll, SendPayload, RegisterOnClients;
  }

  // ---------------------------------------------------------------- capacity

  lemma {:induction false} DistinctCount(ids: seq<ChannelId>, bound: set<ChannelId>)
    requires forall i :: 0 <= i < |ids| ==> ids[i] in bound
    requires forall i, j :: 0 <= i < j < |ids| ==> ids[i] != ids[j]
    ensures |ids| <= |bound|
  {
    if ids != [] {
      var rest := ids[1..];
      forall i | 0 <= i < |rest| ensures rest[i] in bound - {ids[0]} {
        assert rest[i] == ids[i + 1];
      }
      DistinctCount(rest, bound - {ids[0]});
    }
  }

  lemma {:induction false} QueueHolds(p: Peer, openChannels: map<ChannelId, ChannelConfig>, ids: seq<ChannelId>)
    requires forall id :: id in ids ==> id in openChannels
    requires p.toChannels.receiverOpen && |p.toChannels.items| + |ids| <= p.toChannels.capacity
    ensures CreateAll(p, openChannels, ids).0.None?
    decreases |ids|
  {
    if ids != [] {
      QueueHolds(Create(p, ids[0], openChannels[ids[0]]).1, openChannels, ids[1..]);
    }
  }

  /** A newly accepted connection never finds its channel creation queue full: it takes all open
      channels, in whatever order. */
  lemma NewClientIsNeverRefused(ep: Endpoint, walk: seq<ChannelId>, p: Peer, ack: Queue<ClientId>)
    requires Enumerates(walk, ep.openChannels.Keys)
    requires p.toChannels == Queue([], DEFAULT_QCHANNEL_MESSAGES_CHANNEL_SIZE, true)
    requires ack.receiverOpen && |ack.items| < ack.capacity
    ensures HandleNewConnection(ep, walk, p, ack).0 == Ok(NextId(ep.clientIdGen))
  {
    hide Create, Enumerates;
    WalkFits(walk, ep.openChannels);
    QueueHolds(p, ep.openChannels, walk);
  }

  lemma WalkFits(walk: seq<ChannelId>, openChannels: map<ChannelId, ChannelConfig>)
    requires Enumerates(walk, openChannels.Keys)
    ensures |walk| <= MAX_CHANNEL_COUNT && forall id :: id in walk ==> id in openChannels
  {
    IdCount(0);
    hide AllIds;
    DistinctCount(walk, AllIds());
  }

  // ---------------------------------------------------------------- configured channels

  /** The endpoint after the first `n` configured channels were opened. */
  function AfterOpening(configs: seq<ChannelConfig>, n: nat): Endpoint
    requires n <= |configs| <= MAX_CHANNEL_COUNT
  {
    Initial().(pool := AfterTaking(n), openChannels := map id: ChannelId | id in AllIds() && id < n :: configs[id])
  }

  /** The start of an endpoint: each configured channel in turn, until the first error. */
  function OpenEach(ep: Endpoint, configs: seq<ChannelConfig>): (Option<CreationError>, Endpoint)
    requires ep.clients == map[]
    decreases |configs|
  {
    if configs == [] then (None, ep)
    else
      var (r, next) := OpenChannel(ep, [], configs[0]);
      if r.Err? then (Some(r.error), next) else OpenEach(next, configs[1..])
  }

  lemma OpensNext(configs: seq<ChannelConfig>, n: nat)
    requires n < |configs| <= MAX_CHANNEL_COUNT
    ensures OpenChannel(AfterOpening(configs, n), [], configs[n]) == (Ok(n), AfterOpening(configs, n + 1))
  {
    hide Take;
    TakesInOrder(n);
    assert AfterOpening(configs, n).openChannels[n := configs[n]] == AfterOpening(configs, n + 1).openChannels;
  }

  lemma {:induction false} OpensInOrder(configs: seq<ChannelConfig>, n: nat)
    requires n <= |configs| <= MAX_CHANNEL_COUNT
    ensures OpenEach(AfterOpening(configs, n), configs[n..]) == (None, AfterOpening(configs, |configs|))
    decreases |configs| - n
  {
    hide OpenChannel, AfterTaking;
    if n < |configs| {
      OpensNext(configs, n);
      OpensInOrder(configs, n + 1);
      assert configs[n..][0] == configs[n] && configs[n..][1..] == configs[n + 1..];
    }
  }

  /** Every configuration of the public interface opens on a new endpoint: the ids are 0, 1, 2, ... in order,
      each with its own configuration, no queue refuses and the unchecked opening never panics. */
  lemma ConfiguredChannelsOpenInOrder(configs: seq<ChannelConfig>)
    requires |configs| <= MAX_CHANNEL_COUNT
    ensures var (e, ep) := OpenEach(Initial(), configs);
            && e == None && ep.clients == map[]
            && ep.openChannels == (map id: ChannelId | id in AllIds() && id < |configs| :: configs[id])
            && ep.pool == AfterTaking(|configs|)
  {
    assert AfterOpening(configs, 0) == Initial() by {
      TakesInOrder(0);
      assert AfterOpening(configs, 0).openChannels == map[];
    }
    hide OpenEach, AfterTaking;
    OpensInOrder(configs, 0);
    assert configs[0..] == configs;
  }
}
