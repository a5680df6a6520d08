/** A connection to a peer: the table of send channels, the queues to and from the async tasks, the
    receive buffers and the statistics. `Peer` is the state as a value, with one function per
    operation; the class performs the same operations in place. */
module Peers {
  import opened Prelude
  import opened Mpsc
  import opened RecvChannels

  /** A send channel as the sync side holds it: the sending halves of its two queues. */
  datatype Channel = Channel(id: ChannelId, sender: Queue<Bytes>, closer: Queue<()>)

  datatype CreateChannel = CreateChannel(id: ChannelId, config: ChannelConfig)

  datatype ChannelAsyncMessage = LostConnection

  datatype ChannelCloseError = ChannelAlreadyClosed | InvalidChannelId(id: ChannelId)

  datatype SendError = NoSuchChannel(id: ChannelId) | ChannelClosed | ChannelSendError(error: TrySendError)

  datatype CloseError = ConnectionAlreadyClosed

  /** The broadcast of close orders: the orders sent so far, and whether anyone still listens. */
  datatype CloseSend = CloseSend(orders: seq<CloseReason>, listeners: bool)

  datatype Stats = Stats(receivedBytes: nat, sentBytes: nat, receivedMessages: nat)

  type Table = seq<Option<Channel>>

  datatype Peer = Peer(
    sendChannels: Table,
    incoming: Queue<Packet>,
    toChannels: Queue<CreateChannel>,
    fromChannels: seq<ChannelAsyncMessage>,
    closeSend: CloseSend,
    stats: Stats,
    recvBuffers: Buffers,
    cfg: RecvConfig)

  // ---------------------------------------------------------------- the gap-filled table

  /** The table read as a map from ids to channels. */
  function Lookup(t: Table, id: ChannelId): Option<Channel> {
    if id < |t| then t[id] else None
  }

  predicate Registered(t: Table, id: ChannelId) {
    Lookup(t, id).Some?
  }

  function Fill(t: Table, n: nat): (r: Table)
    ensures |r| == if |t| < n then n else |t|
    ensures forall id: ChannelId :: Lookup(r, id) == Lookup(t, id)
  {
    if |t| < n then t + seq(n - |t|, _ => None) else t
  }

  /** `register_connection_channel`. */
  function Register(t: Table, ch: Channel): Table {
    if ch.id < |t| then t[ch.id := Some(ch)] else Fill(t, ch.id) + [Some(ch)]
  }

  /** Registering is a map update, and the vector is just long enough. */
  lemma RegisterIsUpdate(t: Table, ch: Channel, id: ChannelId)
    ensures Lookup(Register(t, ch), id) == if id == ch.id then Some(ch) else Lookup(t, id)
    ensures |Register(t, ch)| == if ch.id < |t| then |t| else ch.id + 1
  {
    if ch.id >= |t| {
      var f := Fill(t, ch.id);
      assert id < |f| ==> (f + [Some(ch)])[id] == f[id] && Lookup(f, id) == f[id];
    }
  }

  function RegisterAll(t: Table, chs: seq<Channel>): Table
    decreases |chs|
  {
    if chs == [] then t else RegisterAll(Register(t, chs[0]), chs[1..])
  }

  /** No two channels of the list share an id. */
  predicate DistinctIds(chs: seq<Channel>) {
    forall i, j :: 0 <= i < j < |chs| ==> chs[i].id != chs[j].id
  }

  /** After registering channels with distinct ids, in whatever order, each is found under its id,
      every other id is as before, and the length is one more than the largest id. */
  lemma {:induction false} RegisterAllIsUpdate(t: Table, chs: seq<Channel>, id: ChannelId)
    requires DistinctIds(chs)
    ensures forall i :: 0 <= i < |chs| && chs[i].id == id ==> Lookup(RegisterAll(t, chs), id) == Some(chs[i])
    ensures (forall i :: 0 <= i < |chs| ==> chs[i].id != id) ==> Lookup(RegisterAll(t, chs), id) == Lookup(t, id)
    ensures |RegisterAll(t, chs)| >= |t|
    ensures forall i :: 0 <= i < |chs| ==> chs[i].id < |RegisterAll(t, chs)|
    ensures |RegisterAll(t, chs)| == |t| || exists i :: 0 <= i < |chs| && |RegisterAll(t, chs)| == chs[i].id + 1
    decreases |chs|
  {
    if chs != [] {
      var t1, rest := Register(t, chs[0]), chs[1..];
      RegisterIsUpdate(t, chs[0], id);
      RegisterAllIsUpdate(t1, rest, id);
      hide Register, Lookup;
      assert forall i :: 0 <= i < |rest| ==> rest[i] == chs[i + 1];
      assert forall i :: 0 < i < |chs| ==> chs[i] == rest[i - 1];
    }
  }

  /** The order of registration does not matter: a new client may walk the opened channels in any
      order and ends with the same table. */
  lemma RegisterAnyOrder(chs: seq<Channel>, other: seq<Channel>)
    requires DistinctIds(chs) && DistinctIds(other)
    requires forall ch :: ch in chs <==> ch in other
    ensures RegisterAll([], chs) == RegisterAll([], other)
  {
    var a, b := RegisterAll([], chs), RegisterAll([], other);
    SameLength(chs, other);
    SameLength(other, chs);
    forall id: ChannelId ensures Lookup(a, id) == Lookup(b, id) {
      RegisterAllIsUpdate([], chs, id);
      RegisterAllIsUpdate([], other, id);
      if i :| 0 <= i < |chs| && chs[i].id == id {
        assert chs[i] in other;
        var j :| 0 <= j < |other| && other[j] == chs[i];
        assert other[j].id == id;
      } else {
        forall j | 0 <= j < |other| ensures other[j].id != id {
          assert other[j] in chs;
        }
      }
    }
    IdRange(chs);
    assert forall k :: 0 <= k < |a| ==> a[k] == Lookup(a, k) && b[k] == Lookup(b, k);
  }

  lemma SameLength(chs: seq<Channel>, other: seq<Channel>)
    requires DistinctIds(chs) && DistinctIds(other)
    requires forall ch :: ch in chs ==> ch in other
    ensures |RegisterAll([], chs)| <= |RegisterAll([], other)|
  {
    RegisterAllIsUpdate([], chs, 0);
    RegisterAllIsUpdate([], other, 0);
    if i :| 0 <= i < |chs| && |RegisterAll([], chs)| == chs[i].id + 1 {
      assert chs[i] in other;
    }
  }

  lemma IdRange(chs: seq<Channel>)
    requires DistinctIds(chs)
    ensures |RegisterAll([], chs)| <= MAX_CHANNEL_COUNT
  {
    RegisterAllIsUpdate([], chs, 0);
  }

  // ---------------------------------------------------------------- operations on the state

  function NewChannel(id: ChannelId): Channel {
    Channel(id, Queue([], DEFAULT_MESSAGE_QUEUE_SIZE, true), Queue([], DEFAULT_KILL_MESSAGE_QUEUE_SIZE, true))
  }

  /** `PeerConnection::new` over the queues that the async side hands over. */
  function NewPeer(incoming: Queue<Packet>, toChannels: Queue<CreateChannel>,
                   fromChannels: seq<ChannelAsyncMessage>, closeSend: CloseSend, cfg: RecvConfig): Peer {
    Peer([], incoming, toChannels, fromChannels, closeSend, Stats(0, 0, 0), [], cfg)
  }

  /** `internal_send_payload`: the byte count moves before the queue may refuse the payload. */
  function SendPayload(p: Peer, id: ChannelId, payload: Bytes): (Result<(), SendError>, Peer) {
    if id >= |p.sendChannels| then (Err(NoSuchChannel(id)), p)
    else
      match p.sendChannels[id]
      case None => (Err(ChannelClosed), p)
      case Some(ch) =>
        var q := p.(stats := p.stats.(sentBytes := p.stats.sentBytes + |payload|));
        match ch.sender.TrySend(payload)
        case Ok(sender) => (Ok(()), q.(sendChannels := p.sendChannels[id := Some(ch.(sender := sender))]))
        case Err(e) => (Err(ChannelSendError(e)), q)
  }

  /** `create_unregistered_connection_channel`. */
  function CreateUnregistered(p: Peer, id: ChannelId, config: ChannelConfig): (Result<Channel, TrySendError>, Peer) {
    match p.toChannels.TrySend(CreateChannel(id, config))
    case Ok(q) => (Ok(NewChannel(id)), p.(toChannels := q))
    case Err(e) => (Err(e), p)
  }

  /** `create_connection_channel`. */
  function Create(p: Peer, id: ChannelId, config: ChannelConfig): (Result<(), TrySendError>, Peer) {
    var (r, q) := CreateUnregistered(p, id, config);
    match r
    case Ok(ch) => (Ok(()), q.(sendChannels := Register(q.sendChannels, ch)))
    case Err(e) => (Err(e), q)
  }

  /** `internal_close_channel`: the channel leaves the table before its close signal can fail. */
  function CloseChannel(p: Peer, id: ChannelId): (Result<(), ChannelCloseError>, Peer) {
    if id >= |p.sendChannels| then (Err(InvalidChannelId(id)), p)
    else
      match p.sendChannels[id]
      case None => (Err(ChannelAlreadyClosed), p)
      case Some(ch) =>
        (if ch.closer.receiverOpen then Ok(()) else Err(ChannelAlreadyClosed),
         p.(sendChannels := p.sendChannels[id := None]))
  }

  /** The queue of creation messages has a receiver and room. */
  predicate CanCreate(p: Peer) {
    p.toChannels.receiverOpen && |p.toChannels.items| < p.toChannels.capacity
  }

  /** There is a channel under the id, and its task still listens to its close signal. */
  predicate CanClose(t: Table, id: ChannelId) {
    Registered(t, id) && Lookup(t, id).value.closer.receiverOpen
  }

  /** `close`: fails only when no task listens any more. */
  function Close(p: Peer, reason: CloseReason): (Result<(), CloseError>, Peer) {
    if p.closeSend.listeners
    then (Ok(()), p.(closeSend := p.closeSend.(orders := p.closeSend.orders + [reason])))
    else (Err(ConnectionAlreadyClosed), p)
  }

  function TotalBytes(q: seq<Packet>): nat {
    if q == [] then 0 else |q[0].payload| + TotalBytes(q[1..])
  }

  /** Dequeuing counts the payload and its bytes. */
  function Counted(s: Stats, q: seq<Packet>): Stats {
    s.(receivedBytes := s.receivedBytes + TotalBytes(q), receivedMessages := s.receivedMessages + |q|)
  }

  /** `dispatch_received_payloads_to_channel_buffers`, on everything that is queued. */
  function DispatchAll(p: Peer): (seq<RecvError>, Peer) {
    var (b, es) := Dispatch(p.recvBuffers, p.cfg, p.incoming.items);
    (es, p.(recvBuffers := b, incoming := p.incoming.(items := []), stats := Counted(p.stats, p.incoming.items)))
  }

  function ReceivePayload(p: Peer, id: ChannelId): (Option<Bytes>, Peer) {
    var (r, b) := PopFront(p.recvBuffers, id);
    (r, p.(recvBuffers := b))
  }

  // ---------------------------------------------------------------- what the operations do

  /** There is a channel under the id, its task still takes payloads, and its queue has room. */
  predicate CanSend(p: Peer, id: ChannelId) {
    Registered(p.sendChannels, id) &&
    var queue := Lookup(p.sendChannels, id).value.sender;
    queue.receiverOpen && |queue.items| < queue.capacity
  }

  /** The channel with one more payload at the end of its queue. */
  predicate Lengthened(before: Channel, after: Channel, payload: Bytes) {
    && after.sender.items == before.sender.items + [payload]
    && after == before.(sender := before.sender.(items := after.sender.items))
  }

  /** `q` is `p` with the payload at the end of the channel's queue, and its bytes counted. */
  predicate Queues(p: Peer, q: Peer, id: ChannelId, payload: Bytes) {
    && Registered(p.sendChannels, id) && Registered(q.sendChannels, id)
    && Lengthened(Lookup(p.sendChannels, id).value, Lookup(q.sendChannels, id).value, payload)
    && |q.sendChannels| == |p.sendChannels|
    && (forall other: ChannelId :: other != id ==> Lookup(q.sendChannels, other) == Lookup(p.sendChannels, other))
    && q.stats == p.stats.(sentBytes := p.stats.sentBytes + |payload|)
    && q == p.(sendChannels := q.sendChannels, stats := q.stats)
  }

  /** `q` is `p` after a refusal: the bytes are counted all the same when there is a channel. */
  predicate Refuses(p: Peer, q: Peer, id: ChannelId, payload: Bytes) {
    && q == p.(stats := q.stats)
    && q.stats == p.stats.(sentBytes := p.stats.sentBytes + if Registered(p.sendChannels, id) then |payload| else 0)
  }

  /** What a send does to the connection, whether it is accepted or not. */
  predicate Sends(p: Peer, q: Peer, id: ChannelId, payload: Bytes) {
    if CanSend(p, id) then Queues(p, q, id, payload) else Refuses(p, q, id, payload)
  }

  /** A send is accepted exactly if there is a channel with a receiver and room, and then the payload is the
      last in its queue; each of the failures has its own guard. */
  lemma SendMeans(p: Peer, id: ChannelId, payload: Bytes)
    ensures var (r, q) := SendPayload(p, id, payload);
            && Sends(p, q, id, payload)
            && (r.Ok? <==> CanSend(p, id))
            && (r == Err(NoSuchChannel(id)) <==> id >= |p.sendChannels|)
            && (r == Err(ChannelClosed) <==> id < |p.sendChannels| && !Registered(p.sendChannels, id))
            && (r == Err(ChannelSendError(Closed)) <==>
                 Registered(p.sendChannels, id) && !Lookup(p.sendChannels, id).value.sender.receiverOpen)
            && (r == Err(ChannelSendError(Full)) <==>
                 && Registered(p.sendChannels, id)
                 && Lookup(p.sendChannels, id).value.sender.receiverOpen && !CanSend(p, id))
  {
  }

  /** A channel is created exactly if its creation message finds a receiver and room. The message carries the
      channel's own id and configuration; the channel is registered with queues that are empty and open. */
  lemma CreateMeans(p: Peer, id: ChannelId, config: ChannelConfig)
    ensures var (r, q) := Create(p, id, config);
            && (r.Ok? <==> CanCreate(p))
            && (r == Err(Closed) <==> !p.toChannels.receiverOpen)
            && (r.Err? ==> q == p)
            && (r.Ok? ==>
                  && q.toChannels == p.toChannels.(items := p.toChannels.items + [CreateChannel(id, config)])
                  && Lookup(q.sendChannels, id) == Some(NewChannel(id))
                  && (forall other: ChannelId :: other != id ==>
                       Lookup(q.sendChannels, other) == Lookup(p.sendChannels, other))
                  && q == p.(sendChannels := q.sendChannels, toChannels := q.toChannels))
  {
    forall other: ChannelId { RegisterIsUpdate(p.sendChannels, NewChannel(id), other); }
    hide Register, Lookup;
  }

  /** Before it is registered only the message is sent. */
  lemma CreateUnregisteredMeans(p: Peer, id: ChannelId, config: ChannelConfig)
    ensures var (r, q) := CreateUnregistered(p, id, config);
            && (r.Ok? <==> CanCreate(p))
            && (r == Err(Closed) <==> !p.toChannels.receiverOpen)
            && (r.Err? ==> q == p)
            && (r.Ok? ==>
                  && r.value == NewChannel(id)
                  && q.toChannels.items == p.toChannels.items + [CreateChannel(id, config)]
                  && q == p.(toChannels := p.toChannels.(items := q.toChannels.items)))
  {
  }

  lemma NewChannelIsEmpty(id: ChannelId)
    ensures var ch := NewChannel(id);
            && ch.id == id
            && ch.sender.items == [] && ch.sender.receiverOpen && ch.sender.capacity == 150
            && ch.closer.items == [] && ch.closer.receiverOpen && ch.closer.capacity == 10
  {
  }

  /** A channel leaves the table whatever its task answers, and nothing else changes. */
  lemma CloseChannelMeans(p: Peer, id: ChannelId)
    ensures var (r, q) := CloseChannel(p, id);
            && (r.Ok? <==> CanClose(p.sendChannels, id))
            && (r == Err(InvalidChannelId(id)) <==> id >= |p.sendChannels|)
            && !Registered(q.sendChannels, id) && |q.sendChannels| == |p.sendChannels|
            && (forall other: ChannelId :: other != id ==>
                 Lookup(q.sendChannels, other) == Lookup(p.sendChannels, other))
            && q == p.(sendChannels := q.sendChannels)
  {
  }

  /** Everybody who listens is told the given reason, once. */
  lemma CloseMeans(p: Peer, reason: CloseReason)
    ensures var (r, q) := Close(p, reason);
            && (r.Ok? <==> p.closeSend.listeners)
            && q.closeSend.orders == p.closeSend.orders + (if p.closeSend.listeners then [reason] else [])
            && q == p.(closeSend := p.closeSend.(orders := q.closeSend.orders))
  {
    assert p.closeSend.orders + [] == p.closeSend.orders;
  }

  /** Dispatching empties the incoming queue behind what the buffers already hold: the buffer of each channel
      under the limit is the front of its old buffer followed by what was queued for it, the errors are the
      payloads for which there was no room, and every payload is counted. */
  lemma DispatchMeans(p: Peer, id: ChannelId)
    requires p.cfg.maxBufferedPayloads >= 1 && Bounded(p.recvBuffers, p.cfg)
    ensures var (errs, q) := DispatchAll(p);
            var arrived := p.incoming.items;
            && Bounded(q.recvBuffers, p.cfg)
            && (id < p.cfg.maxReceiveChannels ==>
                  BufferOf(q.recvBuffers, id) ==
                  First(BufferOf(p.recvBuffers, id) + PayloadsOn(arrived, id), p.cfg.maxBufferedPayloads))
            && errs == Verdicts(p.recvBuffers, p.cfg, arrived, |arrived|)
            && DispatchCounts(p, q)
  {
    DispatchRefinesQueues(p.recvBuffers, p.cfg, p.incoming.items, id);
    ErrorsAreRejections(p.recvBuffers, p.cfg, p.incoming.items, |p.incoming.items|);
    assert p.incoming.items[..|p.incoming.items|] == p.incoming.items;
    hide Dispatch, Verdicts, BufferOf;
    DispatchAllCounts(p);
  }

  /** Nothing but the incoming queue, the buffers and the counters of received payloads has changed. */
  predicate DispatchCounts(p: Peer, q: Peer) {
    && q.incoming.items == []
    && q.stats.receivedMessages == p.stats.receivedMessages + |p.incoming.items|
    && q.stats.receivedBytes == p.stats.receivedBytes + TotalBytes(p.incoming.items)
    && q == p.(recvBuffers := q.recvBuffers, incoming := p.incoming.(items := []),
               stats := p.stats.(receivedMessages := q.stats.receivedMessages,
                   receivedBytes := q.stats.receivedBytes))
  }

  lemma DispatchAllCounts(p: Peer)
    ensures DispatchCounts(p, DispatchAll(p).1)
  {
    hide Dispatch;
  }

  /** Reading takes the oldest payload of the channel out of its buffer, and only that. */
  lemma ReceiveMeans(p: Peer, id: ChannelId)
    ensures var (r, q) := ReceivePayload(p, id);
            var buffer := BufferOf(p.recvBuffers, id);
            && (buffer == [] ==> r == None && q == p)
            && (buffer != [] ==> r == Some(buffer[0]) && BufferOf(q.recvBuffers, id) == buffer[1..])
            && (forall other: ChannelId :: other != id ==>
                 BufferOf(q.recvBuffers, other) == BufferOf(p.recvBuffers, other))
            && q == p.(recvBuffers := q.recvBuffers)
  {
  }

  /** A new connection has no channel, no buffered payload and counts from zero. */
  lemma NewPeerIsEmpty(incoming: Queue<Packet>, toChannels: Queue<CreateChannel>,
                       fromChannels: seq<ChannelAsyncMessage>, closeSend: CloseSend, cfg: RecvConfig, id: ChannelId)
    ensures var p := NewPeer(incoming, toChannels, fromChannels, closeSend, cfg);
            && !Registered(p.sendChannels, id) && BufferOf(p.recvBuffers, id) == []
            && p.stats.receivedBytes == p.stats.sentBytes == p.stats.receivedMessages == 0
            && p.incoming == incoming && p.toChannels == toChannels && p.fromChannels == fromChannels
            && p.closeSend == closeSend && p.cfg == cfg
  {
  }

  /** What the async side may do meanwhile: move any queue and stop listening, but not touch the
      table, the statistics or the receive buffers. */
  predicate AsyncProgress(p: Peer, q: Peer) {
    && |q.sendChannels| == |p.sendChannels|
    && (forall i :: 0 <= i < |p.sendChannels| ==>
          && p.sendChannels[i].Some? == q.sendChannels[i].Some?
          && (p.sendChannels[i].Some? ==> p.sendChannels[i].value.id == q.sendChannels[i].value.id))
    && q.stats == p.stats && q.recvBuffers == p.recvBuffers && q.cfg == p.cfg
  }

  /** The peer after the task of one channel has ended. */
  function Unheard(p: Peer, id: ChannelId): (q: Peer)
    ensures AsyncProgress(p, q) && !CanClose(q.sendChannels, id)
  {
    match Lookup(p.sendChannels, id)
    case None => p
    case Some(ch) => p.(sendChannels := p.sendChannels[id := Some(ch.(closer := ch.closer.(receiverOpen := false)))])
  }

  /** The peer after the task that creates channels has ended. */
  function Unserved(p: Peer): (q: Peer)
    ensures AsyncProgress(p, q) && !CanCreate(q)
  {
    p.(toChannels := p.toChannels.(receiverOpen := false))
  }

  // ---------------------------------------------------------------- the class

  class PeerConnection {
    var sendChannels: Table
    var incoming: Queue<Packet>
    var toChannels: Queue<CreateChannel>
    var fromChannels: seq<ChannelAsyncMessage>
    var closeSend: CloseSend
    var stats: Stats
    var recvBuffers: Buffers
    var cfg: RecvConfig

    ghost function State(): Peer
      reads this
    {
      Peer(sendChannels, incoming, toChannels, fromChannels, closeSend, stats, recvBuffers, cfg)
    }

    constructor (incoming: Queue<Packet>, toChannels: Queue<CreateChannel>,
                 fromChannels: seq<ChannelAsyncMessage>, closeSend: CloseSend, cfg: RecvConfig)
      ensures State() == NewPeer(incoming, toChannels, fromChannels, closeSend, cfg)
    {
      this.sendChannels := [];
      this.incoming, this.toChannels := incoming, toChannels;
      this.fromChannels, this.closeSend := fromChannels, closeSend;
      this.stats, this.recvBuffers, this.cfg := Stats(0, 0, 0), [], cfg;
    }

    /** Takes over a connection that was moved out of a message. */
    constructor Moved(p: Peer)
      ensures State() == p
    {
      sendChannels, incoming, toChannels := p.sendChannels, p.incoming, p.toChannels;
      fromChannels, closeSend, stats := p.fromChannels, p.closeSend, p.stats;
      recvBuffers, cfg := p.recvBuffers, p.cfg;
    }

    /** `try_recv_from_channels`. */
    method TryRecvFromChannels() returns (r: Option<ChannelAsyncMessage>)
      modifies this
      ensures if old(fromChannels) == [] then r == None && State() == old(State())
              else r == Some(old(fromChannels)[0]) && State() == old(State()).(fromChannels := old(fromChannels)[1..])
    {
      if fromChannels == [] {
        return None;
      }
      r := Some(fromChannels[0]);
      fromChannels := fromChannels[1..];
    }

    method InternalSendPayload(id: ChannelId, payload: Bytes) returns (r: Result<(), SendError>)
      modifies this
      ensures (r, State()) == SendPayload(old(State()), id, payload)
    {
      if id >= |sendChannels| {
        return Err(NoSuchChannel(id));
      }
      if sendChannels[id].None? {
        return Err(ChannelClosed);
      }
      var ch := sendChannels[id].value;
      stats := stats.(sentBytes := stats.sentBytes + |payload|);
      match ch.sender.TrySend(payload) {
        case Ok(sender) =>
          sendChannels := sendChannels[id := Some(ch.(sender := sender))];
          return Ok(());
        case Err(e) =>
          return Err(ChannelSendError(e));
      }
    }

    method CreateUnregisteredConnectionChannel(id: ChannelId, config: ChannelConfig)
      returns (r: Result<Channel, TrySendError>)
      modifies this
      ensures (r, State()) == CreateUnregistered(old(State()), id, config)
    {
      match toChannels.TrySend(CreateChannel(id, config)) {
        case Ok(q) =>
          toChannels := q;
          return Ok(NewChannel(id));
        case Err(e) =>
          return Err(e);
      }
    }

    method RegisterConnectionChannel(ch: Channel)
      modifies this
      ensures State() == old(State()).(sendChannels := Register(old(sendChannels), ch))
    {
      if ch.id < |sendChannels| {
        sendChannels := sendChannels[ch.id := Some(ch)];
      } else {
        sendChannels := Fill(sendChannels, ch.id);
        sendChannels := sendChannels + [Some(ch)];
      }
    }

    method CreateConnectionChannel(id: ChannelId, config: ChannelConfig) returns (r: Result<(), TrySendError>)
      modifies this
      ensures (r, State()) == Create(old(State()), id, config)
    {
      var ch := CreateUnregisteredConnectionChannel(id, config);
      if ch.Err? {
        return Err(ch.error);
      }
      RegisterConnectionChannel(ch.value);
      return Ok(());
    }

    method InternalCloseChannel(id: ChannelId) returns (r: Result<(), ChannelCloseError>)
      modifies this
      ensures (r, State()) == CloseChannel(old(State()), id)
    {
      if id >= |sendChannels| {
        return Err(InvalidChannelId(id));
      }
      var taken := sendChannels[id];
      sendChannels := sendChannels[id := None];
      match taken {
        case Some(ch) =>
          return if ch.closer.receiverOpen then Ok(()) else Err(ChannelAlreadyClosed);
        case None =>
          assert sendChannels == old(sendChannels);
          return Err(ChannelAlreadyClosed);
      }
    }

    method CloseConnection(reason: CloseReason) returns (r: Result<(), CloseError>)
      modifies this
      ensures (r, State()) == Close(old(State()), reason)
    {
      if !closeSend.listeners {
        return Err(ConnectionAlreadyClosed);
      }
      closeSend := closeSend.(orders := closeSend.orders + [reason]);
      return Ok(());
    }

    /** Dequeues one received payload and counts it. */
    method DequeueUndispatched() returns (r: Option<Packet>)
      modifies this
      ensures if old(incoming.items) == [] then r == None && State() == old(State())
              else r == Some(old(incoming.items)[0]) &&
                   State() == old(State()).(incoming := old(incoming).(items := old(incoming.items)[1..]),
                                            stats := Counted(old(stats), old(incoming.items)[..1]))
    {
      if incoming.items == [] {
        return None;
      }
      var packet := incoming.items[0];
      assert TotalBytes(incoming.items[..1]) == |packet.payload|;
      incoming := incoming.(items := incoming.items[1..]);
      stats := stats.(receivedBytes := stats.receivedBytes + |packet.payload|,
          receivedMessages := stats.receivedMessages + 1);
      return Some(packet);
    }

    /** Buffers one payload, or says why not. */
    method StoreReceived(packet: Packet) returns (err: Option<RecvError>)
      modifies this`recvBuffers
      ensures (recvBuffers, err) == DispatchOne(old(recvBuffers), cfg, packet)
    {
      var c := packet.channel;
      if c < |recvBuffers| {
        if |recvBuffers[c]| >= cfg.maxBufferedPayloads {
          return Some(RecvChannelFull(c));
        }
        recvBuffers := recvBuffers[c := recvBuffers[c] + [packet.payload]];
      } else {
        if c >= cfg.maxReceiveChannels {
          return Some(MaxRecvChannelCountReached(c));
        }
        recvBuffers := Grow(recvBuffers, c);
        recvBuffers := recvBuffers + [[packet.payload]];
      }
      return None;
    }

    /** Empties the incoming queue into the receive buffers, one payload at a time. */
    method DispatchReceivedPayloads() returns (errs: seq<RecvError>)
      modifies this
      ensures (errs, State()) == DispatchAll(old(State()))
    {
      hide DispatchOne, Dispatch, TotalBytes;
      errs := [];
      ghost var all := Dispatch(recvBuffers, cfg, incoming.items);
      ghost var counted := Counted(stats, incoming.items);
      assert [] + all.1 == all.1;
      while true
        invariant incoming == old(incoming).(items := incoming.items)
        invariant State() == old(State()).(recvBuffers := recvBuffers, incoming := incoming, stats := stats)
        invariant all == (Dispatch(recvBuffers, cfg, incoming.items).0,
            errs + Dispatch(recvBuffers, cfg, incoming.items).1)
        invariant counted == Counted(stats, incoming.items)
        decreases |incoming.items|
      {
        ghost var b, q, s := recvBuffers, incoming.items, stats;
        var next := DequeueUndispatched();
        if next.None? {
          NothingToDispatch(errs, recvBuffers, cfg, stats);
          return;
        }
        CountedOne(s, q);
        DispatchFirst(errs, b, cfg, q);
        var err := StoreReceived(next.value);
        errs := errs + AsSeq(err);
      }
    }

    method InternalReceivePayload(id: ChannelId) returns (r: Option<Bytes>)
      modifies this
      ensures (r, State()) == ReceivePayload(old(State()), id)
    {
      if id >= |recvBuffers| || recvBuffers[id] == [] {
        return None;
      }
      r := Some(recvBuffers[id][0]);
      recvBuffers := recvBuffers[id := recvBuffers[id][1..]];
    }

    method ClearReceivedPayloads()
      modifies this
      ensures State() == old(State()).(recvBuffers := Cleared(old(recvBuffers)))
    {
      ghost var b := recvBuffers;
      for i := 0 to |recvBuffers|
        invariant |recvBuffers| == |b|
        invariant State() == old(State()).(recvBuffers := recvBuffers)
        invariant forall k :: 0 <= k < i ==> recvBuffers[k] == []
        invariant forall k :: i <= k < |b| ==> recvBuffers[k] == b[k]
      {
        recvBuffers := recvBuffers[i := []];
      }
      assert recvBuffers == Cleared(b);
    }

    /** `internal_reset`: fresh queues, an empty table, no statistics, no buffered payloads. */
    method InternalReset(closeSend: CloseSend, toChannels: Queue<CreateChannel>,
                         fromChannels: seq<ChannelAsyncMessage>, incoming: Queue<Packet>)
      modifies this
      ensures State() == NewPeer(incoming, toChannels, fromChannels, closeSend, old(cfg))
    {
      this.closeSend := closeSend;
      this.toChannels := toChannels;
      this.fromChannels := fromChannels;
      this.incoming := incoming;
      sendChannels := [];
      stats := Stats(0, 0, 0);
      recvBuffers := [];
    }
  }

  lemma DispatchFirst(errs: seq<RecvError>, b: Buffers, cfg: RecvConfig, q: seq<Packet>)
    requires q != []
    ensures var (b1, e) := DispatchOne(b, cfg, q[0]);
            var (last, es) := Dispatch(b1, cfg, q[1..]);
            Dispatch(b, cfg, q).0 == last && errs + Dispatch(b, cfg, q).1 == (errs + AsSeq(e)) + es
  {
    hide DispatchOne;
    var (b1, e) := DispatchOne(b, cfg, q[0]);
    var es := Dispatch(b1, cfg, q[1..]).1;
    assert errs + (AsSeq(e) + es) == (errs + AsSeq(e)) + es;
  }

  lemma NothingToDispatch(errs: seq<RecvError>, b: Buffers, cfg: RecvConfig, s: Stats)
    ensures Dispatch(b, cfg, []) == (b, []) && errs + [] == errs && Counted(s, []) == s
  {
  }

  lemma CountedOne(s: Stats, q: seq<Packet>)
    requires q != []
    ensures Counted(Counted(s, q[..1]), q[1..]) == Counted(s, q)
  {
    assert q[..1][0] == q[0] && q[..1][1..] == [];
    assert TotalBytes(q[..1]) == |q[0].payload| + TotalBytes(q[..1][1..]);
  }
}
