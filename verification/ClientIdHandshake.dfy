/** The client id handshake: one server endpoint, any number of client connections and the streams
    that carry the ids. The server allocates an id for each connection it admits and sends it in a
    length-delimited frame; the client's task reads the frame and signals that it is connected. */
module ClientIdHandshake {
  import opened Prelude
  import opened Codec
  import opened Mpsc
  import opened ChannelIds
  import opened Peers
  import opened RecvChannels
  import opened Endpoint
  import ER = EndpointRuns
  import CR = ClientRuns
  import opened StreamReceive
  import opened ClientConnection
  import opened ClientEffects

  const CLIENT_ID_LEN: nat := 8
  const DELIMITED_MAX: nat := 8 * 1024 * 1024

  /** A client id fits its eight bytes. */
  lemma IdWidth()
    ensures Pow256(CLIENT_ID_LEN) == CLIENT_ID_RANGE
  {
    assert Pow256(8) == 65536 * Pow256(6) && Pow256(6) == 65536 * Pow256(4) && Pow256(4) == 65536 * Pow256(2);
  }

  // ---------------------------------------------------------------- the frame

  datatype Reception = Interrupted | Retrieved(id: ClientId) | Failed(error: ConnectionError)

  /** What the server puts on the stream: a 4-byte length and the id, big-endian. */
  function IdFrame(id: ClientId): Bytes {
    PutUint(CLIENT_ID_LEN, LENGTH_FIELD_LEN) + PutUint(id, CLIENT_ID_LEN)
  }

  /** The first length-delimited frame of a stream. */
  function Delimited(s: Bytes): (r: Decoded)
    ensures r.Got? ==> LENGTH_FIELD_LEN + |r.frame| <= |s|
  {
    if |s| < LENGTH_FIELD_LEN then NeedMore
    else
      var n := GetUint(s[..LENGTH_FIELD_LEN]);
      if n > DELIMITED_MAX then TooBig
      else if |s| - LENGTH_FIELD_LEN < n then NeedMore
      else Got(s[LENGTH_FIELD_LEN..LENGTH_FIELD_LEN + n])
  }

  /** What the client makes of the bytes that have arrived, once they are enough. */
  function ReadId(s: Bytes): Option<Reception> {
    match Delimited(s)
    case NeedMore => None
    case TooBig => Some(Failed(ClientIdNotReceived))
    case Got(f) => Some(if |f| >= CLIENT_ID_LEN then Retrieved(GetUint(f[..CLIENT_ID_LEN]))
        else Failed(InvalidClientId))
  }

  /** More bytes change nothing once a frame is complete. */
  lemma ReadIdAppend(s: Bytes, t: Bytes)
    requires ReadId(s).Some?
    ensures ReadId(s + t) == ReadId(s)
  {
    hide GetUint;
    assert (s + t)[..LENGTH_FIELD_LEN] == s[..LENGTH_FIELD_LEN];
    var n := GetUint(s[..LENGTH_FIELD_LEN]);
    if Delimited(s).Got? {
      assert (s + t)[LENGTH_FIELD_LEN..LENGTH_FIELD_LEN + n] == s[LENGTH_FIELD_LEN..LENGTH_FIELD_LEN + n];
    }
  }

  /** The id survives the stream exactly if it is a `u64`; a stream cut short gives no id yet. */
  lemma ReadSentId(id: ClientId, n: nat)
    requires n <= |IdFrame(id)|
    ensures ReadId(IdFrame(id)[..n]) == (if n < |IdFrame(id)| then None else Some(Retrieved(id % CLIENT_ID_RANGE)))
  {
    LengthField(CLIENT_ID_LEN);
    GetPutUint(id, CLIENT_ID_LEN);
    IdWidth();
    hide PutUint, GetUint;
    var s := IdFrame(id)[..n];
    if n >= LENGTH_FIELD_LEN {
      assert s[..LENGTH_FIELD_LEN] == PutUint(CLIENT_ID_LEN, LENGTH_FIELD_LEN);
      if n == |IdFrame(id)| {
        assert s == IdFrame(id);
        assert s[LENGTH_FIELD_LEN..LENGTH_FIELD_LEN + CLIENT_ID_LEN] == PutUint(id, CLIENT_ID_LEN);
        assert PutUint(id, CLIENT_ID_LEN)[..CLIENT_ID_LEN] == PutUint(id, CLIENT_ID_LEN);
      }
    }
  }

  /** What a client makes of whatever a peer sends: a length over the limit fails at once, a frame that is too short
      for an id is invalid, and of a longer one the first eight bytes count. */
  lemma ReadAnyFrame(n: nat, data: Bytes, id: ClientId)
    requires n < LENGTH_FIELD_RANGE && id < CLIENT_ID_RANGE
    ensures var read := ReadId(PutUint(n, LENGTH_FIELD_LEN) + data);
            && (n > DELIMITED_MAX ==> read == Some(Failed(ClientIdNotReceived)))
            && (n <= DELIMITED_MAX ==> (read == None <==> |data| < n))
            && (n < CLIENT_ID_LEN && n <= |data| ==> read == Some(Failed(InvalidClientId)))
            && (CLIENT_ID_LEN <= n <= DELIMITED_MAX && n <= |data| && PutUint(id, CLIENT_ID_LEN) <= data ==>
                  read == Some(Retrieved(id)))
  {
    LengthField(n);
    GetPutUint(id, CLIENT_ID_LEN);
    IdWidth();
    hide PutUint, GetUint, Pow256;
    var head := PutUint(n, LENGTH_FIELD_LEN);
    var s := head + data;
    assert s[..LENGTH_FIELD_LEN] == head;
    if n <= |data| {
      assert s[LENGTH_FIELD_LEN..LENGTH_FIELD_LEN + n] == data[..n];
      if CLIENT_ID_LEN <= n && PutUint(id, CLIENT_ID_LEN) <= data {
        assert data[..n][..CLIENT_ID_LEN] == PutUint(id, CLIENT_ID_LEN);
      }
    }
  }

  /** The server's side: fills a buffer with the id and frames it. */
  method EncodeClientId(id: ClientId) returns (frame: Bytes)
    ensures frame == IdFrame(id)
    ensures |frame| == LENGTH_FIELD_LEN + CLIENT_ID_LEN && frame[..LENGTH_FIELD_LEN] == [0, 0, 0, 8]
    ensures var digits := frame[LENGTH_FIELD_LEN..];
            forall i :: 0 <= i < CLIENT_ID_LEN ==> digits[i] == id / Pow256(CLIENT_ID_LEN - 1 - i) % 256
  {
    LengthBytes(CLIENT_ID_LEN);
    forall i | 0 <= i < CLIENT_ID_LEN
      ensures PutUint(id, CLIENT_ID_LEN)[i] == id / Pow256(CLIENT_ID_LEN - 1 - i) % 256
    {
      PutUintBytes(id, CLIENT_ID_LEN, i);
    }
    hide PutUint, Pow256;
    var msg := new BytesMut();
    msg.Extend(PutUint(id, CLIENT_ID_LEN));
    frame := PutUint(|msg.data|, LENGTH_FIELD_LEN) + msg.data;
  }

  /** The bytes that come before a close signal: all of them, or those of the first `n` reads. */
  function BeforeStop(chunks: seq<Bytes>, stop: Option<nat>): seq<Bytes> {
    if stop.Some? && stop.value < |chunks| then chunks[..stop.value] else chunks
  }

  /** The client's side: reads until a frame is complete or the close signal comes, which it may do after any
      number of reads. Whatever way the bytes are cut into reads, the outcome is that of the bytes before. */
  method ReceiveClientId(chunks: seq<Bytes>, stop: Option<nat>) returns (r: Reception)
    ensures r == match ReadId(Flatten(BeforeStop(chunks, stop)))
                 case Some(x) => x
                 case None => if stop.Some? && stop.value < |chunks| then Interrupted else Failed(ClientIdNotReceived)
  {
    hide Delimited, GetUint;
    NothingRead();
    var buffer := new BytesMut();
    ghost var read := BeforeStop(chunks, stop);
    assert read[0..] == read && [] + Flatten(read) == Flatten(read);
    for i := 0 to |chunks|
      invariant i <= |read| && ReadId(buffer.data).None?
      invariant buffer.data + Flatten(read[i..]) == Flatten(read)
    {
      if stop == Some(i) {
        assert buffer.data + Flatten(read[i..]) == buffer.data;
        return Interrupted;
      }
      assert read[i..][1..] == read[i + 1..] && read[i] == chunks[i];
      ghost var before := buffer.data;
      buffer.Extend(chunks[i]);
      assert (before + chunks[i]) + Flatten(read[i + 1..]) == before + (chunks[i] + Flatten(read[i + 1..]));
      var outcome := ReadId(buffer.data);
      if outcome.Some? {
        ReadIdAppend(buffer.data, Flatten(read[i + 1..]));
        return outcome.value;
      }
    }
    assert buffer.data + Flatten(read[|read|..]) == buffer.data;
    return Failed(ClientIdNotReceived);
  }

  lemma NothingRead()
    ensures ReadId([]) == None
  {
  }

  // ---------------------------------------------------------------- the system

  /** One QUIC connection. `granted` remembers the id that the server gave to it and acknowledged;
      `outgoing` is what its id stream can still carry, `wire` what it has carried, of which `arrived`
      bytes have reached the client. */
  datatype Link = Link(
    presented: bool,
    granted: Option<ClientId>,
    outgoing: Bytes,
    wire: Bytes,
    arrived: nat,
    outcome: Option<Reception>)

  const FRESH_LINK: Link := Link(false, None, [], [], 0, None)

  /** A client's connection object and the QUIC connection that its task drives. */
  datatype Client = Client(conn: Connection, link: nat)

  datatype World = World(server: Endpoint, links: seq<Link>, clients: seq<Client>)

  datatype Step =
    | Opens(localId: LocalId, config: seq<ChannelConfig>, cfg: RecvConfig)
    | Reconnects(i: nat)
    | Presents(l: nat, walk: seq<ChannelId>, peer: Peer, ack: Queue<ClientId>)
    | ServerActs(action: ER.Action)
    | Writes(l: nat, n: nat)
    | WriteFails(l: nat)
    | Arrives(l: nat, n: nat)
    | Decides(l: nat, r: Reception)
    | PeerGone(l: nat)
    | ClientSystem(i: nat)
    | ClientDisconnects(i: nat)
    | ClientActs(i: nat, next: Connection)

  /** The outcomes that the client's task may reach: a close signal or a failing connection at any time,
      otherwise what it reads. */
  predicate MayDecide(k: Link, r: Reception) {
    || r.Interrupted?
    || (r.Failed? && !r.error.InvalidClientId?)
    || (k.arrived <= |k.wire| && ReadId(k.wire[..k.arrived]) == Some(r))
  }

  ghost predicate Enabled(w: World, s: Step) {
    match s
    case Opens(_, config, _) => |config| <= MAX_CHANNEL_COUNT
    case Reconnects(i) => i < |w.clients| && w.clients[i].conn.state.Disconnected?
        && |w.clients[i].conn.config| <= MAX_CHANNEL_COUNT
    case Presents(l, walk, p, ack) => l < |w.links| && !w.links[l].presented
        && ER.Enabled(w.server, ER.Connect(walk, p, ack))
    case ServerActs(a) => !a.Connect? && ER.Enabled(w.server, a)
    case Writes(l, n) => l < |w.links| && n <= |w.links[l].outgoing|
    case WriteFails(l) => l < |w.links|
    case Arrives(l, n) => l < |w.links| && w.links[l].arrived + n <= |w.links[l].wire|
    case Decides(l, r) => l < |w.links| && w.links[l].outcome.None? && MayDecide(w.links[l], r)
    case PeerGone(l) => l < |w.links|
    case ClientSystem(i) => i < |w.clients|
    case ClientDisconnects(i) => i < |w.clients|
    case ClientActs(i, next) =>
      && i < |w.clients|
      && next == w.clients[i].conn.(pool := next.pool, peer := next.peer)
  }

  /** What the task tells the connection object that still listens to it. */
  function Signal(r: Reception): seq<ClientAsyncMessage> {
    match r
    case Interrupted => []
    case Retrieved(id) => [NowConnected(Some(id))]
    case Failed(e) => [ConnectionFailed(e)]
  }

  function Told(c: Client, l: nat, ms: seq<ClientAsyncMessage>): Client {
    if c.link == l then c.(conn := c.conn.(fromAsync := c.conn.fromAsync + ms)) else c
  }

  function Tell(cs: seq<Client>, l: nat, ms: seq<ClientAsyncMessage>): (r: seq<Client>)
    ensures |r| == |cs| && forall i :: 0 <= i < |cs| ==> r[i] == Told(cs[i], l, ms)
  {
    seq(|cs|, i requires 0 <= i < |cs| => Told(cs[i], l, ms))
  }

  /** The server's answer to a connection: an admitted one gets its id and the frame that carries it. */
  function Admitted(k: Link, r: Result<ClientId, TrySendError>): Link {
    match r
    case Ok(id) => k.(presented := true, granted := Some(id), outgoing := IdFrame(id))
    case Err(_) => k.(presented := true)
  }

  ghost function Apply(w: World, s: Step): World
    requires Enabled(w, s)
  {
    match s
    case Opens(localId, config, cfg) =>
      IdCountAll();
      var (e, c) := OpenConfigured(Unopened(localId, config, cfg), config);
      if e.Some? then w
      else w.(links := w.links + [FRESH_LINK], clients := w.clients + [Client(c, |w.links|)])
    case Reconnects(i) =>
      var (e, c) := Reconnect(w.clients[i].conn);
      w.(links := w.links + [FRESH_LINK.(outcome := if e.Some? then Some(Interrupted) else None)],
         clients := w.clients[i := Client(c, |w.links|)])
    case Presents(l, walk, p, ack) =>
      var (r, ep) := HandleNewConnection(w.server, walk, p, ack);
      w.(server := ep, links := w.links[l := Admitted(w.links[l], r)])
    case ServerActs(a) => w.(server := ER.Step(w.server, a))
    case Writes(l, n) =>
      var k := w.links[l];
      w.(links := w.links[l := k.(wire := k.wire + k.outgoing[..n], outgoing := k.outgoing[n..])])
    case WriteFails(l) => w.(links := w.links[l := w.links[l].(outgoing := [])])
    case Arrives(l, n) => w.(links := w.links[l := w.links[l].(arrived := w.links[l].arrived + n)])
    case Decides(l, r) =>
      w.(links := w.links[l := w.links[l].(outcome := Some(r))], clients := Tell(w.clients, l, Signal(r)))
    case PeerGone(l) => w.(clients := Tell(w.clients, l, [ConnectionClosed]))
    case ClientSystem(i) => w.(clients := w.clients[i := w.clients[i].(conn := HandleEvents(w.clients[i].conn).1)])
    case ClientDisconnects(i) =>
      w.(clients := w.clients[i := w.clients[i].(conn := Disconnect(w.clients[i].conn, LocalOrder).1)])
    case ClientActs(i, next) => w.(clients := w.clients[i := w.clients[i].(conn := next)])
  }

  ghost predicate Run(w: World, steps: seq<Step>, last: World)
    decreases |steps|
  {
    if steps == [] then last == w
    else Enabled(w, steps[0]) && Run(Apply(w, steps[0]), steps[1..], last)
  }

  /** No client has been opened and no connection admitted; the server may have opened channels. */
  predicate Fresh(w: World) {
    w.server.clientIdGen == 0 && w.links == [] && w.clients == []
  }

  /** How often the server may have allocated an id. */
  function Attempts(steps: seq<Step>): nat {
    if steps == [] then 0 else (if steps[0].Presents? then 1 else 0) + Attempts(steps[1..])
  }

  // ---------------------------------------------------------------- what the system keeps

  /** The stream carries a front of the frame of the id allocated to this connection. */
  predicate LinkOk(k: Link, gen: ClientId) {
    && k.arrived <= |k.wire|
    && (k.granted.Some? ==>
          k.presented && 1 <= k.granted.value <= gen && k.wire + k.outgoing <= IdFrame(k.granted.value))
    && (k.granted.None? ==> k.wire == [] && k.outgoing == [])
    && (k.outcome.Some? && k.outcome.value.Retrieved? ==> k.granted == Some(k.outcome.value.id))
  }

  /** A connection object only knows the id of its own QUIC connection. */
  predicate OwnId(c: Connection, own: Option<ClientId>) {
    && (c.state.Connected? ==> c.state.clientId.Some? && c.state.clientId == own)
    && forall m :: m in c.fromAsync && m.NowConnected? ==> m.clientId.Some? && m.clientId == own
  }

  predicate LinksOk(links: seq<Link>, gen: ClientId) {
    && (forall l :: 0 <= l < |links| ==> LinkOk(links[l], gen))
    && forall l, m :: 0 <= l < m < |links| && links[l].granted.Some? ==> links[l].granted != links[m].granted
  }

  predicate ClientsOk(clients: seq<Client>, links: seq<Link>) {
    && (forall i :: 0 <= i < |clients| ==>
          clients[i].link < |links| && OwnId(clients[i].conn, links[clients[i].link].granted))
    && forall i, j :: 0 <= i < j < |clients| ==> clients[i].link != clients[j].link
  }

  ghost predicate Inv(w: World) {
    w.server.clientIdGen < CLIENT_ID_RANGE && LinksOk(w.links, w.server.clientIdGen) && ClientsOk(w.clients, w.links)
  }

  lemma OnMessageKeepsOwn(c: Connection, m: ClientAsyncMessage, own: Option<ClientId>)
    requires OwnId(c, own) && (m.NowConnected? ==> m.clientId.Some? && m.clientId == own)
    ensures OwnId(OnMessage(c, m).1, own)
    ensures OnMessage(c, m).1.fromAsync == c.fromAsync
  {
  }

  /** Handling every queued message leaves a connection with its own id or none. */
  lemma {:induction false} OnMessagesKeepOwn(c: Connection, own: Option<ClientId>)
    requires OwnId(c, own)
    ensures OwnId(OnMessages(c).1, own)
    decreases |c.fromAsync|
  {
    hide OnMessage;
    if c.fromAsync != [] {
      var rest := c.(fromAsync := c.fromAsync[1..]);
      assert c.fromAsync[0] in c.fromAsync && forall m :: m in rest.fromAsync ==> m in c.fromAsync;
      OnMessageKeepsOwn(rest, c.fromAsync[0], own);
      OnMessagesKeepOwn(OnMessage(rest, c.fromAsync[0]).1, own);
    }
  }

  lemma {:induction false} OnChannelMessagesKeepOwn(c: Connection, own: Option<ClientId>)
    requires OwnId(c, own)
    ensures OwnId(OnChannelMessages(c).1, own)
    decreases |c.peer.fromChannels|
  {
    if c.peer.fromChannels != [] {
      var rest := c.(peer := c.peer.(fromChannels := c.peer.fromChannels[1..]));
      assert OnClosed(rest).1.fromAsync == c.fromAsync;
      OnChannelMessagesKeepOwn(OnClosed(rest).1, own);
    }
  }

  lemma HandleEventsKeepsOwn(c: Connection, own: Option<ClientId>)
    requires OwnId(c, own)
    ensures OwnId(HandleEvents(c).1, own)
  {
    hide OnMessages, OnChannelMessages, OwnId;
    OnMessagesKeepOwn(c, own);
    OnChannelMessagesKeepOwn(OnMessages(c).1, own);
  }

  lemma {:induction false} OpenConfiguredKeepsState(c: Connection, configs: seq<ChannelConfig>)
    requires |configs| <= |c.pool.available|
    ensures OpenConfigured(c, configs).1.state == c.state && OpenConfigured(c, configs).1.fromAsync == c.fromAsync
    decreases |configs|
  {
    hide Take, CreateUnregistered;
    if configs != [] && OpenNext(c, configs[0]).0.None? {
      OpenConfiguredKeepsState(OpenNext(c, configs[0]).1, configs[1..]);
    }
  }

  // ---------------------------------------------------------------- every step keeps it

  /** A complete frame on the stream is the one that the server sent. */
  lemma ReadsOwnId(k: Link, gen: ClientId, x: ClientId)
    requires LinkOk(k, gen) && gen < CLIENT_ID_RANGE && ReadId(k.wire[..k.arrived]) == Some(Retrieved(x))
    ensures k.granted == Some(x)
  {
    hide ReadId, IdFrame;
    NothingRead();
    var front := k.wire[..k.arrived];
    assert k.wire == [] ==> front == [];
    if k.granted.Some? {
      var id := k.granted.value;
      assert front == IdFrame(id)[..k.arrived];
      ReadSentId(id, k.arrived);
    }
  }

  /** A link moves on without a new id. */
  lemma ReplaceLink(w: World, l: nat, k: Link)
    requires Inv(w) && l < |w.links| && LinkOk(k, w.server.clientIdGen) && k.granted == w.links[l].granted
    ensures Inv(w.(links := w.links[l := k]))
  {
    hide LinkOk, OwnId;
  }

  lemma StreamSteps(w: World, s: Step)
    requires Inv(w) && Enabled(w, s) && (s.Writes? || s.WriteFails? || s.Arrives?)
    ensures Inv(Apply(w, s))
  {
    hide IdFrame, ClientsOk;
    var k := w.links[s.l];
    if s.Writes? {
      assert k.wire + k.outgoing[..s.n] + k.outgoing[s.n..] == k.wire + k.outgoing;
    }
    ReplaceLink(w, s.l, Apply(w, s).links[s.l]);
  }

  lemma TellKeepsClients(w: World, l: nat, ms: seq<ClientAsyncMessage>)
    requires ClientsOk(w.clients, w.links) && l < |w.links|
    requires forall m :: m in ms && m.NowConnected? ==> m.clientId.Some? && m.clientId == w.links[l].granted
    ensures ClientsOk(Tell(w.clients, l, ms), w.links)
  {
    var told := Tell(w.clients, l, ms);
    forall i | 0 <= i < |told| ensures OwnId(told[i].conn, w.links[told[i].link].granted) {
      assert OwnId(w.clients[i].conn, w.links[w.clients[i].link].granted);
    }
  }

  lemma SignalSteps(w: World, s: Step)
    requires Inv(w) && Enabled(w, s) && (s.Decides? || s.PeerGone?)
    ensures Inv(Apply(w, s))
  {
    hide IdFrame, ClientsOk, ReadId, Tell;
    if s.Decides? {
      var k := w.links[s.l];
      if s.r.Retrieved? {
        ReadsOwnId(k, w.server.clientIdGen, s.r.id);
      }
      ReplaceLink(w, s.l, k.(outcome := Some(s.r)));
      TellKeepsClients(w.(links := w.links[s.l := k.(outcome := Some(s.r))]), s.l, Signal(s.r));
    } else {
      TellKeepsClients(w, s.l, [ConnectionClosed]);
    }
  }

  /** The generator moves by at most one, and an admitted connection gets the new id. */
  lemma AdmitsNextId(ep: Endpoint, walk: seq<ChannelId>, p: Peer, ack: Queue<ClientId>)
    requires forall id :: id in walk ==> id in ep.openChannels
    requires ep.clientIdGen + 1 < CLIENT_ID_RANGE
    ensures var (r, next) := HandleNewConnection(ep, walk, p, ack);
            && (r.Ok? ==> r.value == ep.clientIdGen + 1 == next.clientIdGen)
            && ep.clientIdGen <= next.clientIdGen <= ep.clientIdGen + 1
  {
    hide CreateAll;
  }

  lemma PresentsStep(w: World, s: Step)
    requires Inv(w) && Enabled(w, s) && s.Presents? && w.server.clientIdGen + 1 < CLIENT_ID_RANGE
    ensures Inv(Apply(w, s)) && Apply(w, s).server.clientIdGen <= w.server.clientIdGen + 1
  {
    var (r, ep) := HandleNewConnection(w.server, s.walk, s.peer, s.ack);
    AdmitsNextId(w.server, s.walk, s.peer, s.ack);
    hide HandleNewConnection, IdFrame, ER.Enabled;
    var k := w.links[s.l];
    assert k.granted.None? && [] + Admitted(k, r).outgoing == Admitted(k, r).outgoing;
  }

  lemma OtherActionsKeepIds(ep: Endpoint, a: ER.Action)
    requires ER.Enabled(ep, a) && !a.Connect?
    ensures ER.Step(ep, a).clientIdGen == ep.clientIdGen
  {
    hide CreateOnClients, RegisterOnClients, CloseOnClients, Close, SendPayload, Take, Release;
  }

  /** A new QUIC connection has no id yet, and is nobody else's. */
  lemma LinksGrow(links: seq<Link>, gen: ClientId, k: Link)
    requires LinksOk(links, gen) && k.granted.None? && LinkOk(k, gen)
    ensures LinksOk(links + [k], gen)
  {
    hide LinkOk;
  }

  lemma ClientsGrow(clients: seq<Client>, links: seq<Link>, k: Link, c: Connection)
    requires ClientsOk(clients, links) && OwnId(c, k.granted)
    ensures ClientsOk(clients + [Client(c, |links|)], links + [k])
  {
    hide OwnId;
  }

  lemma ClientMovesOn(clients: seq<Client>, links: seq<Link>, k: Link, c: Connection, i: nat)
    requires ClientsOk(clients, links) && OwnId(c, k.granted) && i < |clients|
    ensures ClientsOk(clients[i := Client(c, |links|)], links + [k])
  {
    hide OwnId;
  }

  /** A connection that was just set up knows no id. */
  lemma FreshConnection(localId: LocalId, config: seq<ChannelConfig>, cfg: RecvConfig)
    requires |config| <= MAX_CHANNEL_COUNT
    ensures |config| <= |Unopened(localId, config, cfg).pool.available|
    ensures OwnId(OpenConfigured(Unopened(localId, config, cfg), config).1, None)
  {
    IdCountAll();
    hide OpenConfigured, AllIds;
    OpenConfiguredKeepsState(Unopened(localId, config, cfg), config);
  }

  lemma OpensStep(w: World, s: Step)
    requires Inv(w) && Enabled(w, s) && s.Opens?
    ensures Inv(Apply(w, s))
  {
    hide OpenConfigured, LinksOk, ClientsOk, Unopened, OwnId, IdFrame;
    FreshConnection(s.localId, s.config, s.cfg);
    var c := OpenConfigured(Unopened(s.localId, s.config, s.cfg), s.config).1;
    LinksGrow(w.links, w.server.clientIdGen, FRESH_LINK);
    ClientsGrow(w.clients, w.links, FRESH_LINK, c);
  }

  lemma ReconnectsStep(w: World, s: Step)
    requires Inv(w) && Enabled(w, s) && s.Reconnects?
    ensures Inv(Apply(w, s))
  {
    hide OpenConfigured, LinksOk, ClientsOk, Unopened, OwnId, IdFrame;
    var c := w.clients[s.i].conn;
    FreshConnection(c.localId, c.config, c.peer.cfg);
    var (e, d) := Reconnect(c);
    var k := FRESH_LINK.(outcome := if e.Some? then Some(Interrupted) else None);
    LinksGrow(w.links, w.server.clientIdGen, k);
    ClientMovesOn(w.clients, w.links, k, d, s.i);
  }

  lemma ClientSteps(w: World, s: Step)
    requires Inv(w) && Enabled(w, s) && (s.ClientSystem? || s.ClientDisconnects? || s.ClientActs?)
    ensures Inv(Apply(w, s))
  {
    hide OwnId, HandleEvents, Disconnect, LinksOk;
    var c := w.clients[s.i].conn;
    var own := w.links[w.clients[s.i].link].granted;
    HandleEventsKeepsOwn(c, own);
    LocalStepsKeepOwn(c, own);
    if s.ClientActs? {
      ChannelStepsKeepOwn(c, s.next, own);
    }
  }

  lemma LocalStepsKeepOwn(c: Connection, own: Option<ClientId>)
    requires OwnId(c, own)
    ensures OwnId(Disconnect(c, LocalOrder).1, own)
  {
  }

  lemma ChannelStepsKeepOwn(c: Connection, next: Connection, own: Option<ClientId>)
    requires OwnId(c, own) && next == c.(pool := next.pool, peer := next.peer)
    ensures OwnId(next, own)
  {
  }

  lemma StepKeepsInv(w: World, s: Step)
    requires Inv(w) && Enabled(w, s) && (s.Presents? ==> w.server.clientIdGen + 1 < CLIENT_ID_RANGE)
    ensures Inv(Apply(w, s))
    ensures Apply(w, s).server.clientIdGen <= w.server.clientIdGen + (if s.Presents? then 1 else 0)
  {
    hide Inv, HandleNewConnection, ER.Step, ER.Enabled, OpenConfigured, Reconnect;
    match s
    case Opens(_, _, _) => OpensStep(w, s);
    case Reconnects(_) => ReconnectsStep(w, s);
    case Presents(_, _, _, _) => PresentsStep(w, s);
    case ServerActs(a) =>
      OtherActionsKeepIds(w.server, a);
      SameIds(w, ER.Step(w.server, a));
    case Writes(_, _) => StreamSteps(w, s);
    case WriteFails(_) => StreamSteps(w, s);
    case Arrives(_, _) => StreamSteps(w, s);
    case Decides(_, _) => SignalSteps(w, s);
    case PeerGone(_) => SignalSteps(w, s);
    case _ => ClientSteps(w, s);
  }

  lemma SameIds(w: World, ep: Endpoint)
    requires Inv(w) && ep.clientIdGen == w.server.clientIdGen
    ensures Inv(w.(server := ep))
  {
    hide LinksOk, ClientsOk;
  }

  lemma {:induction false} RunKeepsInv(w: World, steps: seq<Step>, last: World)
    requires Inv(w) && Run(w, steps, last) && w.server.clientIdGen + Attempts(steps) < CLIENT_ID_RANGE
    ensures Inv(last)
    decreases |steps|
  {
    hide Inv, Enabled, Apply;
    if steps != [] {
      StepKeepsInv(w, steps[0]);
      RunKeepsInv(Apply(w, steps[0]), steps[1..], last);
    }
  }

  /** In every reachable state with fewer than 2^64 admissions, a connected client holds the id that the
      server granted to that very connection, and no two clients hold the same. */
  lemma IdAgreement(start: World, steps: seq<Step>, w: World)
    requires Fresh(start) && Run(start, steps, w) && Attempts(steps) < CLIENT_ID_RANGE
    ensures forall i :: 0 <= i < |w.clients| && w.clients[i].conn.state.Connected? ==>
              && w.clients[i].link < |w.links|
              && w.clients[i].conn.state.clientId.Some?
              && w.links[w.clients[i].link].granted == w.clients[i].conn.state.clientId
    ensures forall i, j ::
              && 0 <= i < j < |w.clients|
              && w.clients[i].conn.state.Connected? && w.clients[j].conn.state.Connected? ==>
              w.clients[i].conn.state.clientId != w.clients[j].conn.state.clientId
  {
    assert Inv(start);
    hide Run, LinkOk;
    RunKeepsInv(start, steps, w);
    forall i | 0 <= i < |w.clients| ensures OwnId(w.clients[i].conn, w.links[w.clients[i].link].granted) {
    }
  }

  // ---------------------------------------------------------------- every admitted client can connect

  /** Client `i` waits for the id that was granted to its connection, and nothing has failed on the way. */
  predicate Waits(w: World, i: nat) {
    && i < |w.clients| && w.clients[i].link < |w.links| && w.clients[i].conn.peer.fromChannels == []
    && var k := w.links[w.clients[i].link];
       k.granted.Some? && k.granted.value < CLIENT_ID_RANGE && k.outcome.None? && k.arrived <= |k.wire|
       && k.wire + k.outgoing == IdFrame(k.granted.value)
  }

  /** Whatever is still on the way can arrive, and then the client's task reads the id. */
  lemma IdCanArrive(w: World, i: nat) returns (steps: seq<Step>, v: World)
    requires Waits(w, i)
    ensures Run(w, steps, v) && v.clients == w.clients
    ensures var l := w.clients[i].link;
            && l < |v.links| && v.links[l].granted == w.links[l].granted
            && Enabled(v, Decides(l, Retrieved(w.links[l].granted.value)))
  {
    hide IdFrame, ReadId;
    var l := w.clients[i].link;
    var k := w.links[l];
    var writes := Writes(l, |k.outgoing|);
    var mid := Apply(w, writes);
    assert k.outgoing[..|k.outgoing|] == k.outgoing;
    var arrives := Arrives(l, |mid.links[l].wire| - k.arrived);
    v := Apply(mid, arrives);
    steps := [writes, arrives];
    assert [writes, arrives][1..] == [arrives] && [arrives][1..] == [];
    assert Run(v, [], v) && Run(mid, [arrives], v);
    var wire := IdFrame(k.granted.value);
    ReadSentId(k.granted.value, |wire|);
    assert wire[..|wire|] == wire && v.links[l].wire == wire && v.links[l].arrived == |wire|;
  }

  /** From every state in which a client waits for its id, it can learn it: the client is then connected under the
      id that the server has granted to its own connection. */
  lemma WaitingCanConnect(w: World, i: nat)
    requires Waits(w, i)
    ensures exists steps, v ::
              && Run(w, steps, v) && |v.clients| == |w.clients|
              && v.clients[i].conn.state == Connected(w.links[w.clients[i].link].granted)
  {
    hide IdFrame, ReadId, Run, Enabled, Apply, HandleEvents;
    var steps, mid := IdCanArrive(w, i);
    var l, id := w.clients[i].link, w.links[w.clients[i].link].granted.value;
    var v := TellsAndHandles(mid, i, id);
    RunOn(w, steps, mid, [Decides(l, Retrieved(id)), ClientSystem(i)], v);
  }

  lemma TellsAndHandles(w: World, i: nat, id: ClientId) returns (v: World)
    requires i < |w.clients| && Enabled(w, Decides(w.clients[i].link, Retrieved(id)))
    requires w.clients[i].conn.peer.fromChannels == []
    ensures Run(w, [Decides(w.clients[i].link, Retrieved(id)), ClientSystem(i)], v)
    ensures |v.clients| == |w.clients| && v.clients[i].conn.state == Connected(Some(id))
  {
    hide HandleEvents, ReadId;
    var decides := Decides(w.clients[i].link, Retrieved(id));
    var mid := Apply(w, decides);
    v := Apply(mid, ClientSystem(i));
    assert [decides, ClientSystem(i)][1..] == [ClientSystem(i)] && [ClientSystem(i)][1..] == [];
    assert Run(v, [], v) && Run(mid, [ClientSystem(i)], v);
    var c := mid.clients[i].conn;
    assert c.fromAsync == w.clients[i].conn.fromAsync + [NowConnected(Some(id))];
    LastConnects(c, id);
  }

  lemma LastConnects(c: Connection, id: ClientId)
    requires c.fromAsync != [] && c.fromAsync[|c.fromAsync| - 1] == NowConnected(Some(id))
    requires c.peer.fromChannels == []
    ensures HandleEvents(c).1.state == Connected(Some(id))
  {
    MessagesExactly(c);
    hide OnMessages;
    assert OnChannelMessages(OnMessages(c).1).1 == OnMessages(c).1;
  }

  lemma {:induction false} RunOn(a: World, first: seq<Step>, b: World, second: seq<Step>, c: World)
    requires Run(a, first, b) && Run(b, second, c)
    ensures Run(a, first + second, c)
    decreases |first|
  {
    hide Enabled, Apply;
    if first == [] {
      assert first + second == second;
    } else {
      RunOn(Apply(a, first[0]), first[1..], b, second, c);
      assert (first + second)[1..] == first[1..] + second;
    }
  }

  /** Such states are reached: on a server that has admitted nobody, the first client that connects can learn that
      its id is 1, whatever channels the server has opened before. */
  lemma FirstClientCanConnect(start: World, walk: seq<ChannelId>, localId: LocalId, config: seq<ChannelConfig>,
      cfg: RecvConfig)
    requires Fresh(start) && Enumerates(walk, start.server.openChannels.Keys) && |config| <= MAX_CHANNEL_COUNT
    ensures exists steps, w ::
              Run(start, steps, w) && |w.clients| == 1 && w.clients[0].conn.state == Connected(Some(1))
  {
    hide Run, Apply, Enabled, IdFrame, Fresh;
    var steps, mid := FirstClientWaits(start, walk, localId, config, cfg);
    WaitingCanConnect(mid, 0);
    var more, w :| Run(mid, more, w) && |w.clients| == |mid.clients|
        && w.clients[0].conn.state == Connected(mid.links[mid.clients[0].link].granted);
    RunOn(start, steps, mid, more, w);
  }

  lemma FirstClientWaits(start: World, walk: seq<ChannelId>, localId: LocalId, config: seq<ChannelConfig>,
      cfg: RecvConfig) returns (steps: seq<Step>, w: World)
    requires Fresh(start) && Enumerates(walk, start.server.openChannels.Keys) && |config| <= MAX_CHANNEL_COUNT
    ensures Run(start, steps, w) && |w.clients| == 1 && Waits(w, 0)
    ensures w.links[w.clients[0].link].granted == Some(1)
  {
    hide IdFrame, OpenConfigured, Unopened, CR.Opened, CreateAll, ER.NewcomerPeer;
    CR.ConfiguredChannelsOpen(localId, config, cfg);
    OpenedIsQuiet(localId, config, cfg);
    var opens := Opens(localId, config, cfg);
    var mid := Apply(start, opens);
    var presents := Presents(0, walk, ER.NewcomerPeer(), Queue([], 1, true));
    NewcomerHasNoChannel();
    ER.NewClientIsNeverRefused(mid.server, walk, ER.NewcomerPeer(), Queue([], 1, true));
    hide HandleNewConnection;
    w := Apply(mid, presents);
    steps := [opens, presents];
    assert [opens, presents][1..] == [presents] && [presents][1..] == [];
    assert Run(w, [], w) && Run(mid, [presents], w);
    assert [] + IdFrame(1) == IdFrame(1);
  }

  lemma OpenedIsQuiet(localId: LocalId, config: seq<ChannelConfig>, cfg: RecvConfig)
    requires |config| <= MAX_CHANNEL_COUNT
    ensures CR.Opened(localId, config, cfg, |config|).peer.fromChannels == []
  {
  }

  lemma NewcomerHasNoChannel()
    ensures ER.NewcomerPeer().sendChannels == []
    ensures ER.NewcomerPeer().toChannels == Queue([], DEFAULT_QCHANNEL_MESSAGES_CHANNEL_SIZE, true)
  {
  }

  /** A connection that is gone is noticed: after the next run of its event system the client is disconnected,
      whatever was queued before. */
  lemma GoneIsNoticed(w: World, i: nat)
    requires i < |w.clients| && w.clients[i].link < |w.links|
    ensures Enabled(w, PeerGone(w.clients[i].link))
    ensures var mid := Apply(w, PeerGone(w.clients[i].link));
            Enabled(mid, ClientSystem(i)) && Apply(mid, ClientSystem(i)).clients[i].conn.state.Disconnected?
  {
    var mid := Apply(w, PeerGone(w.clients[i].link));
    var c := mid.clients[i].conn;
    assert c.fromAsync == w.clients[i].conn.fromAsync + [ConnectionClosed];
    EventsExactly(c);
    hide HandleEvents, EventsUpTo;
  }

  /** The task that waits for the id decides once, and the next run of the client's event system raises what it
      decided, whatever was queued before: an id that was read, or the error, which leaves the client disconnected.
      An interrupted task says nothing. */
  lemma DecisionIsHeard(w: World, i: nat, r: Reception)
    requires i < |w.clients| && Enabled(w, Decides(w.clients[i].link, r))
    ensures var l, c := w.clients[i].link, w.clients[i].conn;
            var mid := Apply(w, Decides(l, r));
            var (es, after) := HandleEvents(mid.clients[i].conn);
            && (forall again :: !Enabled(mid, Decides(l, again)))
            && Apply(mid, ClientSystem(i)).clients[i].conn == after
            && (r.Interrupted? ==> mid.clients[i].conn == c)
            && (r.Retrieved? ==> ConnectionEvent(c.localId, Some(r.id)) in es)
            && (r.Failed? ==> ConnectionFailedEvent(c.localId, r.error) in es && after.state.Disconnected?)
  {
    var c, mid := w.clients[i].conn, Apply(w, Decides(w.clients[i].link, r));
    var heard := mid.clients[i].conn;
    EventsExactly(heard);
    hide HandleEvents;
    assert r.Interrupted? ==> c.fromAsync + [] == c.fromAsync;
    if !r.Interrupted? {
      assert heard.fromAsync == c.fromAsync + Signal(r);
    }
  }

  /** Opening and reconnecting go out over a connection of their own, on which nothing has happened yet, with all
      configured channels announced; everybody else keeps what they have. */
  lemma ComesOverNewLink(w: World, s: Step)
    requires Enabled(w, s) && (s.Opens? || s.Reconnects?)
    ensures var n, t := |w.links|, Apply(w, s);
            && t == w.(links := w.links + [FRESH_LINK], clients := t.clients)
            && match s
               case Opens(localId, config, cfg) =>
                 t.clients == w.clients + [Client(CR.Opened(localId, config, cfg, |config|), n)]
               case Reconnects(i) =>
                 var c := w.clients[i].conn;
                 t.clients == w.clients[i := Client(CR.Opened(c.localId, c.config, c.peer.cfg, |c.config|), n)]
               case _ => false
  {
    hide OpenConfigured, Unopened, CR.Opened, Reconnect;
    match s {
      case Opens(localId, config, cfg) =>
        CR.ConfiguredChannelsOpen(localId, config, cfg);
      case Reconnects(i) =>
        CR.ReconnectIsFreshOpen(w.clients[i].conn);
      case _ =>
    }
  }

  /** What comes from outside does what it says, and nobody can prevent it. */
  lemma OutsideSteps(w: World, s: Step)
    requires Enabled(w, s)
    ensures s.WriteFails? ==> Apply(w, s).links[s.l].outgoing == [] && Apply(w, s).links[s.l].wire == w.links[s.l].wire
    ensures s.ClientDisconnects? ==> Apply(w, s).clients[s.i].conn.state.Disconnected?
    ensures s.ServerActs? ==> Apply(w, s) == w.(server := ER.Step(w.server, s.action))
    ensures s.ClientActs? ==> Apply(w, s).clients[s.i].conn == s.next
    ensures forall l :: 0 <= l < |w.links| ==> Enabled(w, WriteFails(l)) && Enabled(w, PeerGone(l))
    ensures forall i :: 0 <= i < |w.clients| ==>
              && Enabled(w, ClientDisconnects(i))
              && (w.clients[i].conn.state.Disconnected? && |w.clients[i].conn.config| <= MAX_CHANNEL_COUNT ==>
                    Enabled(w, Reconnects(i)))
  {
    if s.ClientDisconnects? {
      ClientEffects.DisconnectMeans(w.clients[s.i].conn, LocalOrder);
    }
    hide Disconnect, ER.Step, ER.Enabled, HandleNewConnection, OpenConfigured;
  }
}
