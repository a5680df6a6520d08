/** A client's connection to a server: the peer connection, its own id pool, the connection state
    and the messages of its async task. `Connection` is the state as a value. */
module ClientConnection {
  import opened Prelude
  import opened Mpsc
  import opened ChannelIds
  import opened Peers
  import opened RecvChannels
  import opened Endpoint

  type LocalId = nat

  datatype ConnectionState = Connecting | Connected(clientId: Option<ClientId>) | Disconnected

  datatype ConnectionError = ConnectionError | InvalidClientId | ClientIdNotReceived

  datatype ClientAsyncMessage =
    | NowConnected(clientId: Option<ClientId>)
    | ConnectionFailed(error: ConnectionError)
    | ConnectionClosed

  datatype ClientEvent =
    | ConnectionEvent(id: LocalId, clientId: Option<ClientId>)
    | ConnectionFailedEvent(id: LocalId, error: ConnectionError)
    | ConnectionLostEvent(id: LocalId)

  datatype ClientSendError = NotConnected | SendFailed(error: SendError)

  datatype Connection = Connection(
    localId: LocalId,
    config: seq<ChannelConfig>,
    state: ConnectionState,
    pool: Pool,
    fromAsync: seq<ClientAsyncMessage>,
    peer: Peer)

  // ---------------------------------------------------------------- channels

  /** `open_channel`: an id whose creation fails is not given back. */
  function OpenOne(c: Connection, config: ChannelConfig): (Result<ChannelId, CreationError>, Connection) {
    var (id, pool) := Take(c.pool);
    if id.Err? then (Err(MaxChannelsReached), c.(pool := pool))
    else
      var (r, p) := Create(c.peer, id.value, config);
      (if r.Ok? then Ok(id.value) else Err(AsyncError(r.error)), c.(pool := pool, peer := p))
  }

  /** `close_channel`: an id whose close fails is not given back. */
  function CloseOne(c: Connection, id: ChannelId): (Result<(), ChannelCloseError>, Connection) {
    var (r, p) := Peers.CloseChannel(c.peer, id);
    if r.Err? then (r, c.(peer := p)) else (r, c.(peer := p, pool := Release(c.pool, id)))
  }

  /** Opens the next configured channel; an id that cannot be used is given back. */
  function OpenNext(c: Connection, config: ChannelConfig): (r: (Option<TrySendError>, Connection))
    requires c.pool.available != {}
    ensures r.0.None? ==> |r.1.pool.available| == |c.pool.available| - 1
  {
    var (id, pool) := Take(c.pool);
    var (r, p) := CreateUnregistered(c.peer, id.value, config);
    if r.Err? then (Some(r.error), c.(pool := Release(pool, id.value), peer := p))
    else (None, c.(pool := pool, peer := p.(sendChannels := Register(p.sendChannels, r.value))))
  }

  /** `open_configured_channels`. Running out of ids would be a panic. */
  function OpenConfigured(c: Connection, configs: seq<ChannelConfig>): (Option<TrySendError>, Connection)
    requires |configs| <= |c.pool.available|
    decreases |configs|
  {
    if configs == [] then (None, c)
    else
      var (e, next) := OpenNext(c, configs[0]);
      if e.Some? then (e, next) else OpenConfigured(next, configs[1..])
  }

  // ---------------------------------------------------------------- connecting and disconnecting

  /** The queues of `create_client_connection_async_channels`. */
  function FreshPeer(cfg: RecvConfig): Peer {
    NewPeer(Queue([], DEFAULT_MESSAGE_QUEUE_SIZE, true), Queue([], DEFAULT_QCHANNEL_MESSAGES_CHANNEL_SIZE, true),
            [], CloseSend([], true), cfg)
  }

  function Unopened(localId: LocalId, config: seq<ChannelConfig>, cfg: RecvConfig): Connection {
    Connection(localId, config, Connecting, FreshPool(), [], FreshPeer(cfg))
  }

  /** `internal_disconnect`. */
  function Disconnect(c: Connection, reason: CloseReason): (Result<(), CloseError>, Connection) {
    if c.state.Disconnected? then (Ok(()), c)
    else
      var (r, p) := Close(c.peer, reason);
      (r, c.(state := Disconnected, peer := p))
  }

  /** `reconnect`. */
  function Reconnect(c: Connection): (Option<TrySendError>, Connection)
    requires |c.config| <= MAX_CHANNEL_COUNT
  {
    if !c.state.Disconnected? then (None, c)
    else
      IdCountAll();
      OpenConfigured(Unopened(c.localId, c.config, c.peer.cfg), c.config)
  }

  lemma IdCountAll()
    ensures |FreshPool().available| == MAX_CHANNEL_COUNT
  {
    IdCount(0);
  }

  // ---------------------------------------------------------------- sending and receiving

  function Send(c: Connection, id: ChannelId, payload: Bytes): (Result<(), ClientSendError>, Connection) {
    if c.state.Disconnected? then (Err(NotConnected), c)
    else
      var (r, p) := SendPayload(c.peer, id, payload);
      (if r.Ok? then Ok(()) else Err(SendFailed(r.error)), c.(peer := p))
  }

  // ---------------------------------------------------------------- events

  /** The peer is gone: nothing happens twice. */
  function OnClosed(c: Connection): (seq<ClientEvent>, Connection) {
    if c.state.Disconnected? then ([], c)
    else ([ConnectionLostEvent(c.localId)], Disconnect(c, PeerClosed).1)
  }

  function OnMessage(c: Connection, m: ClientAsyncMessage): (seq<ClientEvent>, Connection) {
    match m
    case NowConnected(clientId) => ([ConnectionEvent(c.localId, clientId)], c.(state := Connected(clientId)))
    case ConnectionFailed(e) => ([ConnectionFailedEvent(c.localId, e)], c.(state := Disconnected))
    case ConnectionClosed => OnClosed(c)
  }

  function OnMessages(c: Connection): (seq<ClientEvent>, Connection)
    decreases |c.fromAsync|
  {
    if c.fromAsync == [] then ([], c)
    else
      var (es, next) := OnMessage(c.(fromAsync := c.fromAsync[1..]), c.fromAsync[0]);
      var (rest, last) := OnMessages(next);
      (es + rest, last)
  }

  function OnChannelMessages(c: Connection): (seq<ClientEvent>, Connection)
    decreases |c.peer.fromChannels|
  {
    if c.peer.fromChannels == [] then ([], c)
    else
      var (es, next) := OnClosed(c.(peer := c.peer.(fromChannels := c.peer.fromChannels[1..])));
      var (rest, last) := OnChannelMessages(next);
      (es + rest, last)
  }

  /** Both message loops of the event system, for one connection. */
  function HandleEvents(c: Connection): (seq<ClientEvent>, Connection) {
    var (es, mid) := OnMessages(c);
    var (rest, last) := OnChannelMessages(mid);
    (es + rest, last)
  }

  // ---------------------------------------------------------------- the class

  class ClientSideConnection {
    const localId: LocalId
    const channelsConfig: seq<ChannelConfig>
    var state: ConnectionState
    const sendChannelIds: ChannelsIdsPool
    var fromAsync: seq<ClientAsyncMessage>
    const peer: PeerConnection

    ghost function State(): Connection
      reads this, sendChannelIds, peer
    {
      Connection(localId, channelsConfig, state, sendChannelIds.State(), fromAsync, peer.State())
    }

    constructor (localId: LocalId, config: seq<ChannelConfig>, cfg: RecvConfig)
      ensures State() == Unopened(localId, config, cfg)
      ensures fresh(sendChannelIds) && fresh(peer)
    {
      this.localId, this.channelsConfig := localId, config;
      state, fromAsync := Connecting, [];
      sendChannelIds := new ChannelsIdsPool();
      peer := new PeerConnection(Queue([], DEFAULT_MESSAGE_QUEUE_SIZE, true),
                                 Queue([], DEFAULT_QCHANNEL_MESSAGES_CHANNEL_SIZE, true), [], CloseSend([], true), cfg);
    }

    method OpenChannel(config: ChannelConfig) returns (r: Result<ChannelId, CreationError>)
      modifies sendChannelIds, peer
      ensures (r, State()) == OpenOne(old(State()), config)
    {
      hide Take, Create;
      var id := sendChannelIds.TakeId();
      if id.Err? {
        return Err(MaxChannelsReached);
      }
      var created := peer.CreateConnectionChannel(id.value, config);
      return if created.Ok? then Ok(id.value) else Err(AsyncError(created.error));
    }

    method CloseChannel(id: ChannelId) returns (r: Result<(), ChannelCloseError>)
      modifies sendChannelIds, peer
      ensures (r, State()) == CloseOne(old(State()), id)
    {
      hide Peers.CloseChannel;
      r := peer.InternalCloseChannel(id);
      if r.Ok? {
        sendChannelIds.ReleaseId(id);
      }
    }

    method OpenNextChannel(config: ChannelConfig) returns (e: Option<TrySendError>)
      requires sendChannelIds.available != {}
      modifies sendChannelIds, peer
      ensures (e, State()) == OpenNext(old(State()), config)
    {
      hide Least, Register, CreateUnregistered;
      var id := sendChannelIds.TakeId();
      var ch := peer.CreateUnregisteredConnectionChannel(id.value, config);
      if ch.Err? {
        sendChannelIds.ReleaseId(id.value);
        return Some(ch.error);
      }
      peer.RegisterConnectionChannel(ch.value);
      return None;
    }

    method OpenConfiguredChannels(configs: seq<ChannelConfig>) returns (e: Option<TrySendError>)
      requires |configs| <= |sendChannelIds.available|
      modifies sendChannelIds, peer
      ensures (e, State()) == OpenConfigured(old(State()), configs)
    {
      hide OpenNext;
      assert configs[0..] == configs;
      for i := 0 to |configs|
        invariant |configs| - i <= |sendChannelIds.available|
        invariant OpenConfigured(old(State()), configs) == OpenConfigured(State(), configs[i..])
      {
        assert configs[i..][0] == configs[i] && configs[i..][1..] == configs[i + 1..];
        ghost var before := State();
        e := OpenNextChannel(configs[i]);
        if e.Some? {
          return e;
        }
        assert State().pool.available == sendChannelIds.available;
      }
      return None;
    }

    method InternalDisconnect(reason: CloseReason) returns (r: Result<(), CloseError>)
      modifies this, peer
      ensures fromAsync == old(fromAsync)
      ensures (r, State()) == Disconnect(old(State()), reason)
    {
      hide Close;
      if state.Disconnected? {
        return Ok(());
      }
      state := Disconnected;
      r := peer.CloseConnection(reason);
    }

    method ReconnectToServer() returns (e: Option<TrySendError>)
      requires |channelsConfig| <= MAX_CHANNEL_COUNT
      modifies this, sendChannelIds, peer
      ensures (e, State()) == Reconnect(old(State()))
    {
      hide OpenConfigured, AllIds;
      if !state.Disconnected? {
        return None;
      }
      state := Connecting;
      sendChannelIds.Reset();
      fromAsync := [];
      peer.InternalReset(CloseSend([], true), Queue([], DEFAULT_QCHANNEL_MESSAGES_CHANNEL_SIZE, true), [],
                         Queue([], DEFAULT_MESSAGE_QUEUE_SIZE, true));
      IdCountAll();
      e := OpenConfiguredChannels(channelsConfig);
    }

    method SendPayloadOn(id: ChannelId, payload: Bytes) returns (r: Result<(), ClientSendError>)
      modifies peer
      ensures (r, State()) == Send(old(State()), id, payload)
    {
      hide SendPayload;
      if state.Disconnected? {
        return Err(NotConnected);
      }
      var sent := peer.InternalSendPayload(id, payload);
      return if sent.Ok? then Ok(()) else Err(SendFailed(sent.error));
    }

    /** What both loops do when the peer is gone. */
    method HandleClosed() returns (es: seq<ClientEvent>)
      modifies this, peer
      ensures fromAsync == old(fromAsync) && peer.fromChannels == old(peer.fromChannels)
      ensures (es, State()) == OnClosed(old(State()))
    {
      if state.Disconnected? {
        return [];
      }
      var _ := InternalDisconnect(PeerClosed);
      return [ConnectionLostEvent(localId)];
    }

    method HandleMessage(m: ClientAsyncMessage) returns (es: seq<ClientEvent>)
      modifies this, peer
      ensures fromAsync == old(fromAsync)
      ensures (es, State()) == OnMessage(old(State()), m)
    {
      hide OnClosed;
      if m.NowConnected? {
        state := Connected(m.clientId);
        return [ConnectionEvent(localId, m.clientId)];
      }
      if m.ConnectionFailed? {
        state := Disconnected;
        return [ConnectionFailedEvent(localId, m.error)];
      }
      es := HandleClosed();
    }

    method HandleAsyncMessages() returns (es: seq<ClientEvent>)
      modifies this, peer
      ensures (es, State()) == OnMessages(old(State()))
    {
      hide OnMessage;
      es := [];
      ghost var all := OnMessages(State());
      assert [] + all.0 == all.0;
      while fromAsync != []
        invariant all == (es + OnMessages(State()).0, OnMessages(State()).1)
        decreases |fromAsync|
      {
        ghost var before := State();
        var m := fromAsync[0];
        fromAsync := fromAsync[1..];
        var more := HandleMessage(m);
        ghost var rest := OnMessages(State()).0;
        assert OnMessages(before) == (more + rest, OnMessages(State()).1);
        assert es + (more + rest) == (es + more) + rest;
        es := es + more;
      }
      assert es + [] == es;
    }

    method HandleChannelMessages() returns (es: seq<ClientEvent>)
      modifies this, peer
      ensures (es, State()) == OnChannelMessages(old(State()))
    {
      hide OnClosed;
      es := [];
      ghost var all := OnChannelMessages(State());
      assert [] + all.0 == all.0;
      while true
        invariant all == (es + OnChannelMessages(State()).0, OnChannelMessages(State()).1)
        decreases |peer.fromChannels|
      {
        ghost var before := State();
        var m := peer.TryRecvFromChannels();
        if m.None? {
          assert es + [] == es;
          return;
        }
        var more := HandleClosed();
        ghost var rest := OnChannelMessages(State()).0;
        assert OnChannelMessages(before) == (more + rest, OnChannelMessages(State()).1);
        assert es + (more + rest) == (es + more) + rest;
        es := es + more;
      }
    }

    /** The body of the event system's loop, for this connection. */
    method HandleClientEvents() returns (es: seq<ClientEvent>)
      modifies this, peer
      ensures (es, State()) == HandleEvents(old(State()))
    {
      hide OnMessages, OnChannelMessages;
      var first := HandleAsyncMessages();
      var second := HandleChannelMessages();
      return first + second;
    }
  }
}
