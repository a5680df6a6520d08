/** What the operations of a client do to their connections, and exactly which events one run of the event
    system raises, told from the queues and the state beforehand. */
module ClientEffects {
  import opened Prelude
  import opened ChannelIds
  import opened RecvChannels
  import opened Peers
  import opened Endpoint
  import opened ClientConnection
  import opened Clients
  import CR = ClientRuns

  // ---------------------------------------------------------------- channels and payloads

  /** A channel that is opened is announced with its id and configuration, and nothing else is sent. */
  lemma OpenOneMeans(c: Connection, config: ChannelConfig)
    requires c.pool.available != {}
    ensures var (r, after) := OpenOne(c, config);
            var id := Least(c.pool.available);
            && (r.Ok? <==> CanCreate(c.peer))
            && (r.Ok? ==>
                  && r.value == id && Lookup(after.peer.sendChannels, id) == Some(NewChannel(id))
                  && after.peer.toChannels.items == c.peer.toChannels.items + [CreateChannel(id, config)])
            && (r.Err? ==> after.peer == c.peer)
            && after.pool.available == c.pool.available - {id}
            && after == c.(pool := after.pool, peer := after.peer)
  {
    CreateMeans(c.peer, Least(c.pool.available), config);
    hide Create, Least, CanCreate, Lookup, NewChannel;
  }

  /** A configured channel that cannot be created gives its id back. */
  lemma OpenNextMeans(c: Connection, config: ChannelConfig)
    requires c.pool.available != {}
    ensures var (e, after) := OpenNext(c, config);
            var id := Least(c.pool.available);
            && (e.None? <==> CanCreate(c.peer))
            && (e.Some? ==> after.pool.available == c.pool.available && after.peer == c.peer)
            && (e.None? ==>
                  && Lookup(after.peer.sendChannels, id) == Some(NewChannel(id))
                  && after.peer.toChannels.items == c.peer.toChannels.items + [CreateChannel(id, config)])
            && after == c.(pool := after.pool, peer := after.peer)
  {
    var id := Least(c.pool.available);
    CreateUnregisteredMeans(c.peer, id, config);
    RegisterIsUpdate(c.peer.sendChannels, NewChannel(id), id);
    NewChannelIsEmpty(id);
    hide Register, Least, CanCreate, Lookup, NewChannel, CreateUnregistered;
  }

  lemma ClientSendMeans(c: Connection, id: ChannelId, payload: Bytes)
    ensures var (r, after) := Send(c, id, payload);
            && (r.Ok? <==> !c.state.Disconnected? && CanSend(c.peer, id))
            && (r == Err(NotConnected) <==> c.state.Disconnected?)
            && (if c.state.Disconnected? then after.peer == c.peer else Sends(c.peer, after.peer, id, payload))
            && after == c.(peer := after.peer)
  {
    SendMeans(c.peer, id, payload);
    hide SendPayload, CanSend, Sends;
  }

  // ---------------------------------------------------------------- disconnecting

  /** `q` is `p` after everybody who listens was told these reasons. */
  predicate ToldReasons(p: Peer, q: Peer, reasons: seq<CloseReason>) {
    q == p.(closeSend := p.closeSend.(orders := p.closeSend.orders + if p.closeSend.listeners then reasons else []))
  }

  /** The first disconnection tells the tasks its reason; a second one does nothing. */
  lemma DisconnectMeans(c: Connection, reason: CloseReason)
    ensures var (r, after) := Disconnect(c, reason);
            && after.state.Disconnected?
            && ToldReasons(c.peer, after.peer, if c.state.Disconnected? then [] else [reason])
            && (r.Ok? <==> c.state.Disconnected? || c.peer.closeSend.listeners)
            && after == c.(state := Disconnected, peer := after.peer)
  {
    CloseMeans(c.peer, reason);
    assert c.peer.closeSend.orders + [] == c.peer.closeSend.orders;
  }

  // ---------------------------------------------------------------- events

  /** Whether the connection is disconnected when the `i`-th message is handled: the message before decides. */
  predicate DownBefore(down: bool, ms: seq<ClientAsyncMessage>, i: nat)
    requires i <= |ms|
  {
    if i == 0 then down else !ms[i - 1].NowConnected?
  }

  /** The event of the `i`-th message: a connection that is closed is lost unless it is disconnected already. */
  function EventAt(id: LocalId, down: bool, ms: seq<ClientAsyncMessage>, i: nat): seq<ClientEvent>
    requires i < |ms|
  {
    match ms[i]
    case NowConnected(clientId) => [ConnectionEvent(id, clientId)]
    case ConnectionFailed(e) => [ConnectionFailedEvent(id, e)]
    case ConnectionClosed => if DownBefore(down, ms, i) then [] else [ConnectionLostEvent(id)]
  }

  function EventsUpTo(id: LocalId, down: bool, ms: seq<ClientAsyncMessage>, n: nat): seq<ClientEvent>
    requires n <= |ms|
  {
    if n == 0 then [] else EventsUpTo(id, down, ms, n - 1) + EventAt(id, down, ms, n - 1)
  }

  lemma {:induction false} EventsFromFront(id: LocalId, down: bool, ms: seq<ClientAsyncMessage>, n: nat)
    requires 0 < n <= |ms|
    ensures EventsUpTo(id, down, ms, n) ==
            EventAt(id, down, ms, 0) + EventsUpTo(id, !ms[0].NowConnected?, ms[1..], n - 1)
  {
    if n == 1 {
      assert [] + EventAt(id, down, ms, 0) == EventAt(id, down, ms, 0) + [];
    } else {
      EventsFromFront(id, down, ms, n - 1);
      assert EventAt(id, down, ms, n - 1) == EventAt(id, !ms[0].NowConnected?, ms[1..], n - 2);
      JoinParts(EventAt(id, down, ms, 0), EventsUpTo(id, !ms[0].NowConnected?, ms[1..], n - 2),
                EventAt(id, down, ms, n - 1));
    }
  }

  /** One reason for each loss among the events. */
  function ReasonsFor(es: seq<ClientEvent>): seq<CloseReason> {
    if es == [] then []
    else (if es[0].ConnectionLostEvent? then [PeerClosed] else []) + ReasonsFor(es[1..])
  }

  lemma {:induction false} ReasonsAppend(es: seq<ClientEvent>, fs: seq<ClientEvent>)
    ensures ReasonsFor(es + fs) == ReasonsFor(es) + ReasonsFor(fs)
  {
    if es == [] {
      assert es + fs == fs;
    } else {
      ReasonsAppend(es[1..], fs);
      assert (es + fs)[1..] == es[1..] + fs;
    }
  }

  lemma ToldTwice(p: Peer, q: Peer, r: Peer, a: seq<CloseReason>, b: seq<CloseReason>)
    requires ToldReasons(p, q, a) && ToldReasons(q, r, b)
    ensures ToldReasons(p, r, a + b)
  {
    assert (p.closeSend.orders + a) + b == p.closeSend.orders + (a + b);
    assert p.closeSend.orders + [] == p.closeSend.orders;
  }

  lemma MessageMeans(c: Connection, m: ClientAsyncMessage)
    ensures var (es, after) := OnMessage(c, m);
            && es == EventAt(c.localId, c.state.Disconnected?, [m], 0)
            && after.state == (if m.NowConnected? then Connected(m.clientId) else Disconnected)
            && ToldReasons(c.peer, after.peer, ReasonsFor(es))
            && after == c.(state := after.state, peer := after.peer)
  {
    DisconnectMeans(c, PeerClosed);
    hide Disconnect;
    var es := OnMessage(c, m).0;
    if es != [] {
      assert es[1..] == [];
    }
    assert c.peer.closeSend.orders + [] == c.peer.closeSend.orders;
  }

  /** Every message of the async task raises its own event, a closed connection only if it was not disconnected
      before; the last message decides the state, and each loss tells the tasks that the peer has closed. */
  lemma {:induction false} MessagesExactly(c: Connection)
    ensures var (es, after) := OnMessages(c);
            var n := |c.fromAsync|;
            && es == EventsUpTo(c.localId, c.state.Disconnected?, c.fromAsync, n)
            && after.state == (if n == 0 then c.state
                else if c.fromAsync[n - 1].NowConnected? then Connected(c.fromAsync[n - 1].clientId)
                else Disconnected)
            && ToldReasons(c.peer, after.peer, ReasonsFor(es))
            && after == c.(state := after.state, peer := after.peer, fromAsync := [])
    decreases |c.fromAsync|
  {
    var n := |c.fromAsync|;
    if n == 0 {
      assert c.peer.closeSend.orders + [] == c.peer.closeSend.orders;
    } else {
      var m, d := c.fromAsync[0], c.(fromAsync := c.fromAsync[1..]);
      MessageMeans(d, m);
      hide OnMessage, ToldReasons, ReasonsFor, EventsUpTo;
      var (es, next) := OnMessage(d, m);
      EventsFromFront(c.localId, c.state.Disconnected?, c.fromAsync, n);
      assert es == EventAt(c.localId, c.state.Disconnected?, c.fromAsync, 0);
      hide EventAt;
      MessagesExactly(next);
      var (fs, last) := OnMessages(next);
      assert OnMessages(c) == (es + fs, last);
      ReasonsAppend(es, fs);
      ToldTwice(c.peer, next.peer, last.peer, ReasonsFor(es), ReasonsFor(fs));
      hide OnMessages;
    }
  }

  /** However many losses the channels report, one is raised, and none on a disconnected connection. */
  lemma {:induction false} ChannelLossesExactly(c: Connection)
    ensures var (es, after) := OnChannelMessages(c);
            var lost := c.peer.fromChannels != [] && !c.state.Disconnected?;
            && es == (if lost then [ConnectionLostEvent(c.localId)] else [])
            && after.state == (if lost then Disconnected else c.state)
            && ToldReasons(c.peer.(fromChannels := []), after.peer, if lost then [PeerClosed] else [])
            && after == c.(state := after.state, peer := after.peer)
    decreases |c.peer.fromChannels|
  {
    if c.peer.fromChannels == [] {
      assert c.peer.closeSend.orders + [] == c.peer.closeSend.orders;
    } else {
      var d := c.(peer := c.peer.(fromChannels := c.peer.fromChannels[1..]));
      DisconnectMeans(d, PeerClosed);
      var (es, next) := OnClosed(d);
      ChannelLossesExactly(next);
      var (fs, last) := OnChannelMessages(next);
      assert OnChannelMessages(c) == (es + fs, last);
      hide OnChannelMessages, Disconnect;
      assert [] + fs == fs && es + [] == es;
      assert forall s: seq<CloseReason> :: s + [] == s;
    }
  }

  /** One run of the event system on a connection, told from its two queues and its state beforehand: each
      message raises its event, and a loss reported by a channel is raised unless the messages have left the
      connection disconnected. */
  lemma EventsExactly(c: Connection)
    ensures var (es, after) := HandleEvents(c);
            var n, down := |c.fromAsync|, DownBefore(c.state.Disconnected?, c.fromAsync, |c.fromAsync|);
            var lost := c.peer.fromChannels != [] && !down;
            && es == EventsUpTo(c.localId, c.state.Disconnected?, c.fromAsync, n) +
                     (if lost then [ConnectionLostEvent(c.localId)] else [])
            && (after.state.Disconnected? <==> down || lost)
            && ToldReasons(c.peer.(fromChannels := []), after.peer, ReasonsFor(es))
            && after == c.(state := after.state, peer := after.peer, fromAsync := [])
  {
    MessagesExactly(c);
    var (es, mid) := OnMessages(c);
    ChannelLossesExactly(mid);
    var (fs, last) := OnChannelMessages(mid);
    ReasonsAppend(es, fs);
    OneReason(fs);
    assert ToldReasons(c.peer.(fromChannels := []), mid.peer.(fromChannels := []), ReasonsFor(es));
    hide OnMessages, OnChannelMessages, ToldReasons, EventsUpTo;
    ToldTwice(c.peer.(fromChannels := []), mid.peer.(fromChannels := []), last.peer, ReasonsFor(es), ReasonsFor(fs));
    hide ReasonsFor;
  }

  lemma OneReason(es: seq<ClientEvent>)
    ensures es == [] ==> ReasonsFor(es) == []
    ensures |es| == 1 ==> ReasonsFor(es) == if es[0].ConnectionLostEvent? then [PeerClosed] else []
  {
    if |es| == 1 {
      assert es[1..] == [];
    }
  }

  // ---------------------------------------------------------------- the map of connections

  /** Every legal configuration opens, under the next local id, with all its channels; a default that is set
      stays, and no other connection changes. */
  lemma OpenConnectionMeans(s: Clients, config: seq<ChannelConfig>, cfg: RecvConfig)
    requires |config| <= MAX_CHANNEL_COUNT
    ensures var (r, after) := OpenConnection(s, config, cfg);
            && r == Ok(s.idGen) && after.idGen == s.idGen + 1
            && after.connections == s.connections[s.idGen := CR.Opened(s.idGen, config, cfg, |config|)]
            && (s.defaultId.Some? ==> after.defaultId == s.defaultId)
            && (s.defaultId.None? ==> after.defaultId == Some(s.idGen))
  {
    CR.ConfiguredChannelsOpen(s.idGen, config, cfg);
    hide OpenConfigured, CR.Opened, Unopened;
  }

  /** A connection that is closed is forgotten whatever its tasks answer, and only it. */
  lemma CloseConnectionMeans(s: Clients, id: LocalId)
    ensures var (r, after) := CloseConnection(s, id);
            && (r == Err(InvalidConnectionId(id)) <==> id !in s.connections)
            && (r.Ok? <==>
                  id in s.connections
                  && (s.connections[id].state.Disconnected? || s.connections[id].peer.closeSend.listeners))
            && (forall other :: other in after.connections <==> other in s.connections && other != id)
            && (forall other :: other in after.connections ==> after.connections[other] == s.connections[other])
            && after.idGen == s.idGen
            && after.defaultId == (if id in s.connections && s.defaultId == Some(id) then None else s.defaultId)
  {
    if id in s.connections {
      DisconnectMeans(s.connections[id], LocalOrder);
    }
    hide Disconnect;
  }

  // ---------------------------------------------------------------- the actions of a run

  /** Every action of a run does to the connection what its operation means, and leaves exactly its marks. */
  lemma ActionsMean(c: Connection, a: CR.Action)
    requires CR.Enabled(c, a)
    ensures var (marks, after) := CR.Step(c, a);
            match a
            case SendOn(id, payload) =>
              && marks == []
              && (if c.state.Disconnected? then after == c else Sends(c.peer, after.peer, id, payload))
            case SetDefault(id) =>
              marks == [] && after.pool.defaultChannel == Some(id) && after.pool.available == c.pool.available
            case Leave => marks == [] && after.state.Disconnected?
            case Rejoin =>
              && marks == (if c.state.Disconnected? then [CR.Rejoined] else [])
              && after == if c.state.Disconnected? then CR.Opened(c.localId, c.config, c.peer.cfg, |c.config|) else c
            case Handle =>
              var down := CR.Raised(ConnectionLostEvent(c.localId));
              && after.fromAsync == [] && after.peer.fromChannels == []
              && (c.fromAsync == [] && c.peer.fromChannels != [] && !c.state.Disconnected? ==> marks == [down])
              && |marks| >= |EventsUpTo(c.localId, c.state.Disconnected?, c.fromAsync, |c.fromAsync|)|
            case Async(ms, p) => marks == [] && after == c.(fromAsync := ms, peer := p)
            case Open(config) => marks == [] && (c.pool.available != {} && CanCreate(c.peer) ==>
                after.peer.toChannels.items ==
                  c.peer.toChannels.items + [CreateChannel(Least(c.pool.available), config)])
            case Shut(id) => marks == [] && !Registered(after.peer.sendChannels, id)
  {
    hide Disconnect, OpenOne, Reconnect, HandleEvents, Send, Sends, CR.Opened, Least, CanCreate;
    match a
    case SendOn(id, payload) =>
      ClientSendMeans(c, id, payload);
      NotSent(c, id, payload);
    case Leave => DisconnectMeans(c, LocalOrder);
    case Rejoin =>
      if c.state.Disconnected? {
        CR.ReconnectIsFreshOpen(c);
      } else {
        CR.RejoinOnlyFromDisconnected(c);
      }
    case Handle => EventsExactly(c);
    case Open(config) =>
      if c.pool.available != {} {
        OpenOneMeans(c, config);
      }
    case Shut(id) => CR.CloseRemoves(c, id);
    case _ =>
  }

  lemma NotSent(c: Connection, id: ChannelId, payload: Bytes)
    ensures c.state.Disconnected? ==> Send(c, id, payload).1 == c
  {
    hide SendPayload;
  }
}
