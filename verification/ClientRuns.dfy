/** What every run of a client connection keeps: its channel ids, a reconnection that is as good as a
    new connection, and loss events that alternate with connections. */
module ClientRuns {
  import opened Prelude
  import opened Mpsc
  import opened ChannelIds
  import opened Peers
  import opened RecvChannels
  import opened Endpoint
  import opened ClientConnection

  // ---------------------------------------------------------------- channel configurations

  /** `SendChannelsConfiguration`: a list that the public interface never lets grow beyond the number
      of channel ids. */
  class SendChannelsConfiguration {
    var channels: seq<ChannelConfig>

    ghost predicate Valid()
      reads this
    {
      |channels| <= MAX_CHANNEL_COUNT
    }

    constructor ()
      ensures Valid() && channels == []
    {
      channels := [];
    }

    /** `from_configs`, on a new object; too long a list is refused. */
    static method FromConfigs(configs: seq<ChannelConfig>) returns (r: Option<SendChannelsConfiguration>)
      ensures r.None? <==> |configs| > MAX_CHANNEL_COUNT
      ensures r.Some? ==> fresh(r.value) && r.value.Valid() && r.value.channels == configs
    {
      if |configs| > MAX_CHANNEL_COUNT {
        return None;
      }
      var c := new SendChannelsConfiguration();
      c.channels := configs;
      return Some(c);
    }

    /** `add`: gives the id that the channel will be opened under. */
    method Add(config: ChannelConfig) returns (id: Option<ChannelId>)
      requires Valid()
      modifies this
      ensures Valid()
      ensures if |old(channels)| < MAX_CHANNEL_COUNT
              then id == Some(|old(channels)|) && channels == old(channels) + [config]
              else id == None && channels == old(channels)
    {
      if |channels| >= MAX_CHANNEL_COUNT {
        return None;
      }
      channels := channels + [config];
      return Some(|channels| - 1);
    }
  }

  // ---------------------------------------------------------------- opening and reopening

  /** A new connection with its first `n` configured channels open. */
  function Opened(localId: LocalId, config: seq<ChannelConfig>, cfg: RecvConfig, n: nat): Connection
    requires n <= |config| <= MAX_CHANNEL_COUNT
  {
    Connection(localId, config, Connecting, AfterTaking(n), [],
               FreshPeer(cfg).(sendChannels := seq(n, i requires 0 <= i < n => Some(NewChannel(i))),
                               toChannels := Queue(seq(n, i requires 0 <= i < n => CreateChannel(i, config[i])),
                                                   DEFAULT_QCHANNEL_MESSAGES_CHANNEL_SIZE, true)))
  }

  lemma OpenOneMore(localId: LocalId, config: seq<ChannelConfig>, cfg: RecvConfig, n: nat)
    requires n < |config| <= MAX_CHANNEL_COUNT
    ensures Opened(localId, config, cfg, n).pool.available != {}
    ensures OpenNext(Opened(localId, config, cfg, n), config[n]) == (None, Opened(localId, config, cfg, n + 1))
  {
    hide Take, AfterTaking, NewChannel;
    TakesInOrder(n);
    assert AfterTaking(n).available != {} by { NotExhausted(n); }
    var before, after := Opened(localId, config, cfg, n), Opened(localId, config, cfg, n + 1);
    assert before.peer.sendChannels + [Some(NewChannel(n))] == after.peer.sendChannels;
    assert before.peer.toChannels.items + [CreateChannel(n, config[n])] == after.peer.toChannels.items;
    assert NewChannel(n).id == n by { NewChannelId(n); }
    assert Fill(before.peer.sendChannels, n) == before.peer.sendChannels;
  }

  lemma NewChannelId(n: ChannelId)
    ensures NewChannel(n).id == n
  {
  }

  lemma NotExhausted(n: nat)
    requires n < MAX_CHANNEL_COUNT
    ensures AfterTaking(n).available != {} && |AfterTaking(n).available| == MAX_CHANNEL_COUNT - n
  {
    IdCount(n);
    assert n in IdsFrom(n);
  }

  lemma {:induction false} OpensInOrder(localId: LocalId, config: seq<ChannelConfig>, cfg: RecvConfig, n: nat)
    requires n <= |config| <= MAX_CHANNEL_COUNT
    ensures |config[n..]| <= |Opened(localId, config, cfg, n).pool.available|
    ensures OpenConfigured(Opened(localId, config, cfg, n), config[n..]) ==
        (None, Opened(localId, config, cfg, |config|))
    decreases |config| - n
  {
    hide OpenNext, IdsFrom, Opened;
    OpenedCount(localId, config, cfg, n);
    if n < |config| {
      OpenOneMore(localId, config, cfg, n);
      OpensInOrder(localId, config, cfg, n + 1);
      assert config[n..][1..] == config[n + 1..] && config[n..][0] == config[n];
    }
  }

  lemma OpenedCount(localId: LocalId, config: seq<ChannelConfig>, cfg: RecvConfig, n: nat)
    requires n <= |config| <= MAX_CHANNEL_COUNT
    ensures |Opened(localId, config, cfg, n).pool.available| == MAX_CHANNEL_COUNT - n
  {
    IdCount(n);
    hide IdsFrom;
  }

  /** Opening a connection never fails and never panics: the channels of any configuration get the
      ids 0, 1, 2, ... in order, and every creation message finds room in its queue. */
  lemma ConfiguredChannelsOpen(localId: LocalId, config: seq<ChannelConfig>, cfg: RecvConfig)
    requires |config| <= MAX_CHANNEL_COUNT
    ensures |config| <= |Unopened(localId, config, cfg).pool.available|
    ensures OpenConfigured(Unopened(localId, config, cfg), config) == (None, Opened(localId, config, cfg, |config|))
  {
    OpensInOrder(localId, config, cfg, 0);
    TakesInOrder(0);
    var start := Opened(localId, config, cfg, 0);
    assert start.peer.sendChannels == [] && start.peer.toChannels.items == [];
    assert start == Unopened(localId, config, cfg);
    assert config[0..] == config;
    hide OpenConfigured, Opened;
  }

  /** A reconnection, after whatever history, leaves the connection exactly as a newly opened one
      with the same configuration: pool, channel table, default channel, buffers and statistics. */
  lemma ReconnectIsFreshOpen(c: Connection)
    requires |c.config| <= MAX_CHANNEL_COUNT && c.state.Disconnected?
    ensures Reconnect(c) == (None, Opened(c.localId, c.config, c.peer.cfg, |c.config|))
  {
    hide OpenConfigured, Opened;
    ConfiguredChannelsOpen(c.localId, c.config, c.peer.cfg);
  }

  // ---------------------------------------------------------------- runs

  datatype Action =
    | Open(config: ChannelConfig)
    | Shut(id: ChannelId)
    | SendOn(id: ChannelId, payload: Bytes)
    | SetDefault(id: ChannelId)
    | Leave
    | Rejoin
    | Handle
    | Async(fromAsync: seq<ClientAsyncMessage>, peer: Peer)

  /** What a run leaves behind: the events, and the reconnections in between. */
  datatype Mark = Raised(event: ClientEvent) | Rejoined

  function Marks(es: seq<ClientEvent>): (ms: seq<Mark>)
    ensures |ms| == |es| && forall i :: 0 <= i < |es| ==> ms[i] == Raised(es[i])
  {
    seq(|es|, i requires 0 <= i < |es| => Raised(es[i]))
  }

  predicate Enabled(c: Connection, a: Action) {
    && |c.config| <= MAX_CHANNEL_COUNT
    && (a.Async? ==> AsyncProgress(c.peer, a.peer))
  }

  function Step(c: Connection, a: Action): (seq<Mark>, Connection)
    requires Enabled(c, a)
  {
    match a
    case Open(config) => ([], OpenOne(c, config).1)
    case Shut(id) => ([], CloseOne(c, id).1)
    case SendOn(id, payload) => ([], Send(c, id, payload).1)
    case SetDefault(id) => ([], c.(pool := c.pool.(defaultChannel := Some(id))))
    case Leave => ([], Disconnect(c, LocalOrder).1)
    case Rejoin => (if c.state.Disconnected? then [Rejoined] else [], Reconnect(c).1)
    case Handle => var (es, next) := HandleEvents(c); (Marks(es), next)
    case Async(ms, p) => ([], c.(fromAsync := ms, peer := p))
  }

  predicate Run(c: Connection, actions: seq<Action>, trace: seq<Mark>, last: Connection)
    decreases |actions|
  {
    if actions == [] then trace == [] && last == c
    else
      && Enabled(c, actions[0])
      && var (ms, next) := Step(c, actions[0]);
         ms <= trace && Run(next, actions[1..], trace[|ms|..], last)
  }

  // ---------------------------------------------------------------- channel ids

  /** No free id has a channel, and each channel sits under its own id. */
  ghost predicate Inv(c: Connection) {
    && |c.config| <= MAX_CHANNEL_COUNT
    && forall id: ChannelId :: Registered(c.peer.sendChannels, id) ==>
         id !in c.pool.available && Lookup(c.peer.sendChannels, id).value.id == id
  }

  ghost function OpenIds(c: Connection): set<ChannelId> {
    set id | id in AllIds() && Registered(c.peer.sendChannels, id)
  }

  ghost function Stranded(c: Connection): set<ChannelId> {
    AllIds() - c.pool.available - OpenIds(c)
  }

  /** The two ways to strand an id: an opening or a closing that fails after the id was taken out of
      the pool or out of the table. */
  ghost function StrandedBy(c: Connection, a: Action): set<ChannelId> {
    match a
    case Open(_) => if c.pool.available != {} && !CanCreate(c.peer) then {Least(c.pool.available)} else {}
    case Shut(id) =>
      if Registered(c.peer.sendChannels, id) && !CanClose(c.peer.sendChannels, id) then {id} else {}
    case _ => {}
  }

  /** With a free id, opening a channel fails exactly if the creation queue has no receiver or no room. */
  lemma OpenFails(c: Connection, config: ChannelConfig)
    requires c.pool.available != {}
    ensures OpenOne(c, config).0.Err? <==> !CanCreate(c.peer)
  {
    hide Least, Register, NewChannel;
  }

  /** Closing a channel fails exactly if there is none under the id, or its task listens no more. */
  lemma CloseFails(c: Connection, id: ChannelId)
    ensures CloseOne(c, id).0.Err? <==> !CanClose(c.peer.sendChannels, id)
  {
    hide Release;
  }

  lemma EventsKeepChannels(c: Connection)
    ensures var next := HandleEvents(c).1;
            next.peer.sendChannels == c.peer.sendChannels && next.pool == c.pool && next.config == c.config
  {
    MessagesKeepChannels(c);
    ChannelMessagesKeepChannels(OnMessages(c).1);
  }

  lemma {:induction false} MessagesKeepChannels(c: Connection)
    ensures var next := OnMessages(c).1;
            next.peer.sendChannels == c.peer.sendChannels && next.pool == c.pool && next.config == c.config
    decreases |c.fromAsync|
  {
    if c.fromAsync != [] {
      MessagesKeepChannels(OnMessage(c.(fromAsync := c.fromAsync[1..]), c.fromAsync[0]).1);
    }
  }

  lemma {:induction false} ChannelMessagesKeepChannels(c: Connection)
    ensures var next := OnChannelMessages(c).1;
            next.peer.sendChannels == c.peer.sendChannels && next.pool == c.pool && next.config == c.config
    decreases |c.peer.fromChannels|
  {
    if c.peer.fromChannels != [] {
      ChannelMessagesKeepChannels(OnClosed(c.(peer := c.peer.(fromChannels := c.peer.fromChannels[1..]))).1);
    }
  }

  /** Opening takes the smallest free id, which has no channel, so no live channel is overwritten. */
  lemma OpenNeverOverwrites(c: Connection, config: ChannelConfig)
    requires Inv(c) && c.pool.available != {}
    ensures var (r, next) := OpenOne(c, config);
            var id := Least(c.pool.available);
            && !Registered(c.peer.sendChannels, id)
            && next.config == c.config && next.pool.available == c.pool.available - {id}
            && (r.Ok? ==> r.value == id)
            && forall other: ChannelId ::
                 Lookup(next.peer.sendChannels, other) ==
                   if r.Ok? && other == id then Some(NewChannel(id)) else Lookup(c.peer.sendChannels, other)
  {
    var id := Least(c.pool.available);
    forall other: ChannelId { RegisterIsUpdate(c.peer.sendChannels, NewChannel(id), other); }
    hide Lookup, Register, NewChannel, Least;
  }

  lemma CloseRemoves(c: Connection, id: ChannelId)
    ensures var (r, next) := CloseOne(c, id);
            && next.config == c.config
            && next.pool.available == c.pool.available + (if r.Ok? then {id} else {})
            && (r.Ok? ==> Registered(c.peer.sendChannels, id))
            && forall other: ChannelId ::
                 Lookup(next.peer.sendChannels, other) == if other == id then None
                     else Lookup(c.peer.sendChannels, other)
  {
  }

  lemma ShutKeepsIds(c: Connection, id: ChannelId)
    requires Inv(c)
    ensures var (r, next) := CloseOne(c, id);
            && Inv(next)
            && next.pool.available == c.pool.available + (if r.Ok? then {id} else {})
            && OpenIds(next) == OpenIds(c) - {id}
            && (id in OpenIds(c) <==> Registered(c.peer.sendChannels, id))
            && (r.Ok? ==> Registered(c.peer.sendChannels, id))
            && OpenIds(c) !! c.pool.available
            && OpenIds(c) <= AllIds()
  {
    hide CloseOne, Lookup;
    CloseRemoves(c, id);
    assert id in AllIds();
  }

  lemma OpenKeepsIds(c: Connection, config: ChannelConfig)
    requires Inv(c)
    ensures Inv(OpenOne(c, config).1)
    ensures Stranded(OpenOne(c, config).1) == Stranded(c) + StrandedBy(c, Open(config))
  {
    hide OpenOne, Lookup, Least, NewChannel, CanCreate;
    if c.pool.available == {} {
      NothingFree(c, config);
    } else {
      OpenNeverOverwrites(c, config);
      OpenFails(c, config);
      NewChannelId(Least(c.pool.available));
    }
  }

  lemma RejoinRecoversIds(c: Connection)
    requires |c.config| <= MAX_CHANNEL_COUNT && c.state.Disconnected?
    ensures Inv(Reconnect(c).1) && Stranded(Reconnect(c).1) == {}
  {
    hide Reconnect, Inv, Stranded, Opened, OpenConfigured;
    ReconnectIsFreshOpen(c);
    FreshIds(c.localId, c.config, c.peer.cfg);
  }

  /** The table and the pool decide. */
  lemma SameIds(c: Connection, d: Connection)
    requires Inv(c) && d.config == c.config && d.pool.available == c.pool.available
    requires forall id: ChannelId :: Registered(d.peer.sendChannels, id) <==> Registered(c.peer.sendChannels, id)
    requires forall id: ChannelId :: Registered(d.peer.sendChannels, id) ==>
               Lookup(d.peer.sendChannels, id).value.id == Lookup(c.peer.sendChannels, id).value.id
    ensures Inv(d) && Stranded(d) == Stranded(c)
  {
    hide Lookup;
  }

  /** Every action keeps the ids apart; ids are stranded by the two failures and by nothing else, and
      a reconnection recovers them all. */
  lemma StepKeepsIds(c: Connection, a: Action)
    requires Inv(c) && Enabled(c, a)
    ensures var next := Step(c, a).1;
            && Inv(next)
            && Stranded(next) == if a.Rejoin? && c.state.Disconnected? then {} else Stranded(c) + StrandedBy(c, a)
  {
    match a
    case Open(config) =>
      hide OpenOne, Inv, Stranded, StrandedBy;
      OpenKeepsIds(c, config);
    case Shut(id) =>
      hide CloseOne, OpenIds, Inv, CanClose;
      ShutKeepsIds(c, id);
      CloseFails(c, id);
    case Rejoin =>
      hide Reconnect, Inv, Stranded;
      if c.state.Disconnected? {
        RejoinRecoversIds(c);
      }
    case Handle =>
      hide HandleEvents;
      EventsKeepChannels(c);
      SameIds(c, HandleEvents(c).1);
    case _ =>
      hide Take, Create, Peers.CloseChannel, HandleEvents, Inv, Stranded, Reconnect;
      SameIds(c, Step(c, a).1);
  }

  lemma NothingFree(c: Connection, config: ChannelConfig)
    requires c.pool.available == {}
    ensures OpenOne(c, config) == (Err(MaxChannelsReached), c)
  {
  }

  lemma FreshIds(localId: LocalId, config: seq<ChannelConfig>, cfg: RecvConfig)
    requires |config| <= MAX_CHANNEL_COUNT
    ensures var c := Opened(localId, config, cfg, |config|); Inv(c) && Stranded(c) == {}
  {
    var n, c := |config|, Opened(localId, config, cfg, |config|);
    assert forall id: ChannelId :: id < n ==> Lookup(c.peer.sendChannels, id) == Some(NewChannel(id));
    assert forall id: ChannelId :: id in c.pool.available <==> n <= id;
  }

  /** Over every run each id of the connection is free, open or stranded, and only one of them. */
  lemma {:induction false} IdOwnership(c: Connection, actions: seq<Action>, trace: seq<Mark>, last: Connection)
    requires Inv(c) && Run(c, actions, trace, last)
    ensures Inv(last)
    ensures last.pool.available !! OpenIds(last) !! Stranded(last)
    ensures last.pool.available + OpenIds(last) + Stranded(last) == AllIds()
    decreases |actions|
  {
    hide Step, Stranded, Lookup, Registered;
    if actions != [] {
      StepKeepsIds(c, actions[0]);
      var (ms, next) := Step(c, actions[0]);
      IdOwnership(next, actions[1..], trace[|ms|..], last);
    } else {
      Partition(last);
    }
  }

  lemma Partition(c: Connection)
    requires Inv(c)
    ensures c.pool.available !! OpenIds(c) !! Stranded(c)
    ensures c.pool.available + OpenIds(c) + Stranded(c) == AllIds()
  {
  }

  /** From every state with a free id: once the creation task has ended, opening a channel fails and the
      smallest free id is lost. */
  lemma OpenCanStrand(c: Connection, config: ChannelConfig)
    requires Inv(c) && c.pool.available != {}
    ensures Enabled(c, Async(c.fromAsync, Unserved(c.peer)))
    ensures var mid := Step(c, Async(c.fromAsync, Unserved(c.peer))).1;
            && OpenOne(mid, config).0.Err?
            && Stranded(Step(mid, Open(config)).1) == Stranded(c) + {Least(c.pool.available)}
  {
    hide Unserved, OpenOne, Least, Stranded;
    var a := Async(c.fromAsync, Unserved(c.peer));
    StepKeepsIds(c, a);
    var mid := Step(c, a).1;
    OpenFails(mid, config);
    StepKeepsIds(mid, Open(config));
  }

  /** From every state with an open channel: once its task has ended, closing it fails and its id is lost. */
  lemma CloseCanStrand(c: Connection, id: ChannelId)
    requires Inv(c) && id in OpenIds(c)
    ensures Enabled(c, Async(c.fromAsync, Unheard(c.peer, id)))
    ensures var mid := Step(c, Async(c.fromAsync, Unheard(c.peer, id))).1;
            && CloseOne(mid, id).0.Err?
            && Stranded(Step(mid, Shut(id)).1) == Stranded(c) + {id}
  {
    hide CloseOne, Stranded;
    var a := Async(c.fromAsync, Unheard(c.peer, id));
    StepKeepsIds(c, a);
    var mid := Step(c, a).1;
    assert Registered(mid.peer.sendChannels, id);
    CloseFails(mid, id);
    StepKeepsIds(mid, Shut(id));
  }

  /** Both happen in runs of a newly opened connection. */
  lemma LostIdsAreReachable(localId: LocalId, config: ChannelConfig, cfg: RecvConfig)
    ensures var c := Opened(localId, [config], cfg, 1);
            && (exists actions, last :: Run(c, actions, [], last) && Stranded(last) == {1})
            && (exists actions, last :: Run(c, actions, [], last) && Stranded(last) == {0})
  {
    var c := Opened(localId, [config], cfg, 1);
    FreshIds(localId, [config], cfg);
    FirstIds(localId, config, cfg);
    hide Opened, Stranded, Inv, OpenIds, Unserved, Unheard, OpenOne, CloseOne, Step, Enabled, Run, Least;
    OpenCanStrand(c, config);
    CloseCanStrand(c, 0);
    var deaf := Async(c.fromAsync, Unserved(c.peer));
    var quit := Async(c.fromAsync, Unheard(c.peer, 0));
    TwoSteps(c, deaf, Open(config));
    TwoSteps(c, quit, Shut(0));
  }

  lemma FirstIds(localId: LocalId, config: ChannelConfig, cfg: RecvConfig)
    ensures var c := Opened(localId, [config], cfg, 1);
            c.pool.available != {} && Least(c.pool.available) == 1 && 0 in OpenIds(c)
  {
    TakesInOrder(1);
    assert 1 in IdsFrom(1);
    assert 0 in AllIds();
  }

  lemma TwoSteps(c: Connection, a: Action, b: Action)
    requires Enabled(c, a) && Step(c, a).0 == [] && Enabled(Step(c, a).1, b) && Step(Step(c, a).1, b).0 == []
    ensures Run(c, [a, b], [], Step(Step(c, a).1, b).1)
  {
    hide Step, Enabled;
    var mid := Step(c, a).1;
    var last := Step(mid, b).1;
    var none: seq<Mark> := [];
    assert none[0..] == none && [a, b][1..] == [b] && [b][1..] == [];
    assert Run(last, [], [], last);
    assert Run(mid, [b], [], last);
  }

  /** A default channel that was never set by hand is never a free id. */
  lemma {:induction false} DefaultNeverFree(c: Connection, actions: seq<Action>, trace: seq<Mark>, last: Connection)
    requires DefaultTaken(c.pool) && Run(c, actions, trace, last)
    requires forall a :: a in actions ==> !a.SetDefault?
    ensures DefaultTaken(last.pool)
    decreases |actions|
  {
    hide Step;
    if actions != [] {
      StepKeepsDefault(c, actions[0]);
      var (ms, next) := Step(c, actions[0]);
      DefaultNeverFree(next, actions[1..], trace[|ms|..], last);
    }
  }

  lemma StepKeepsDefault(c: Connection, a: Action)
    requires DefaultTaken(c.pool) && Enabled(c, a) && !a.SetDefault?
    ensures DefaultTaken(Step(c, a).1.pool)
  {
    hide Reconnect, Opened, HandleEvents, Create, Peers.CloseChannel, SendPayload, Close;
    match a
    case Rejoin =>
      if c.state.Disconnected? {
        ReconnectIsFreshOpen(c);
        OpenedDefault(c.localId, c.config, c.peer.cfg);
      }
      assert !c.state.Disconnected? ==> Reconnect(c).1 == c by { RejoinOnlyFromDisconnected(c); }
    case Handle => EventsKeepChannels(c);
    case _ =>
  }

  lemma RejoinOnlyFromDisconnected(c: Connection)
    requires |c.config| <= MAX_CHANNEL_COUNT
    ensures !c.state.Disconnected? ==> Reconnect(c) == (None, c)
  {
    hide OpenConfigured;
  }

  lemma OpenedDefault(localId: LocalId, config: seq<ChannelConfig>, cfg: RecvConfig)
    requires |config| <= MAX_CHANNEL_COUNT
    ensures DefaultTaken(Opened(localId, config, cfg, |config|).pool)
  {
    if config != [] {
      assert 0 !in IdsFrom(|config|);
    }
  }

  // ---------------------------------------------------------------- losses alternate

  predicate IsLoss(m: Mark) {
    m.Raised? && m.event.ConnectionLostEvent?
  }

  predicate Rearms(m: Mark) {
    m.Rejoined? || m.event.ConnectionEvent?
  }

  /** The last loss has not been followed by a connection or a reconnection. */
  predicate AfterLoss(trace: seq<Mark>) {
    trace != [] &&
    var m := trace[|trace| - 1];
    IsLoss(m) || (!Rearms(m) && AfterLoss(trace[..|trace| - 1]))
  }

  /** Between two losses the connection was established or opened again. */
  ghost predicate Alternates(trace: seq<Mark>) {
    forall i, j :: 0 <= i < j < |trace| && IsLoss(trace[i]) && IsLoss(trace[j]) ==>
      exists k :: i < k < j && Rearms(trace[k])
  }

  lemma {:induction false} RearmedSince(trace: seq<Mark>, i: nat)
    requires i < |trace| && IsLoss(trace[i]) && !AfterLoss(trace)
    ensures exists k :: i < k < |trace| && Rearms(trace[k])
  {
    var last := trace[|trace| - 1];
    if !Rearms(last) {
      RearmedSince(trace[..|trace| - 1], i);
    }
  }

  /** A loss is only raised on a connection that is not disconnected, and leaves it disconnected. */
  ghost predicate TraceInv(state: ConnectionState, trace: seq<Mark>) {
    && Alternates(trace)
    && (AfterLoss(trace) ==> state.Disconnected?)
  }

  lemma AddMark(state: ConnectionState, trace: seq<Mark>, m: Mark, next: ConnectionState)
    requires TraceInv(state, trace)
    requires if IsLoss(m) then !state.Disconnected? && next.Disconnected?
             else Rearms(m) || next.Disconnected?
    ensures TraceInv(next, trace + [m])
  {
    var t := trace + [m];
    assert t[..|t| - 1] == trace;
    forall i, j | 0 <= i < j < |t| && IsLoss(t[i]) && IsLoss(t[j])
      ensures exists k :: i < k < j && Rearms(t[k])
    {
      if j < |trace| {
        assert trace[i] == t[i] && trace[j] == t[j];
        var k :| i < k < j && Rearms(trace[k]);
        assert Rearms(t[k]);
      } else {
        RearmedSince(trace, i);
        var k :| i < k < |trace| && Rearms(trace[k]);
        assert Rearms(t[k]);
      }
    }
  }

  lemma MarksAppend(es: seq<ClientEvent>, fs: seq<ClientEvent>, trace: seq<Mark>)
    ensures (trace + Marks(es)) + Marks(fs) == trace + Marks(es + fs)
    ensures trace + Marks([]) == trace
    ensures |es| == 1 ==> trace + Marks(es) == trace + [Raised(es[0])]
  {
  }

  lemma OneMessageAlternates(c: Connection, m: ClientAsyncMessage, trace: seq<Mark>)
    requires TraceInv(c.state, trace)
    ensures var (es, next) := OnMessage(c, m); TraceInv(next.state, trace + Marks(es))
  {
    hide TraceInv, Close;
    var (es, next) := OnMessage(c, m);
    MarksAppend(es, [], trace);
    if |es| == 1 {
      AddMark(c.state, trace, Raised(es[0]), next.state);
    }
  }

  lemma OneClosedAlternates(c: Connection, trace: seq<Mark>)
    requires TraceInv(c.state, trace)
    ensures var (es, next) := OnClosed(c); TraceInv(next.state, trace + Marks(es))
  {
    OneMessageAlternates(c, ConnectionClosed, trace);
  }

  lemma {:induction false} MessagesAlternate(c: Connection, trace: seq<Mark>)
    requires TraceInv(c.state, trace)
    ensures var (es, next) := OnMessages(c); TraceInv(next.state, trace + Marks(es))
    decreases |c.fromAsync|
  {
    hide TraceInv, OnMessage;
    MarksAppend([], [], trace);
    if c.fromAsync != [] {
      var d := c.(fromAsync := c.fromAsync[1..]);
      OneMessageAlternates(d, c.fromAsync[0], trace);
      var (es, next) := OnMessage(d, c.fromAsync[0]);
      assert |next.fromAsync| < |c.fromAsync| by { MessageConsumed(d, c.fromAsync[0]); }
      MessagesAlternate(next, trace + Marks(es));
      MarksAppend(es, OnMessages(next).0, trace);
    }
  }

  lemma MessageConsumed(c: Connection, m: ClientAsyncMessage)
    ensures OnMessage(c, m).1.fromAsync == c.fromAsync
    ensures OnClosed(c).1.peer.fromChannels == c.peer.fromChannels
  {
  }

  lemma {:induction false} ChannelMessagesAlternate(c: Connection, trace: seq<Mark>)
    requires TraceInv(c.state, trace)
    ensures var (es, next) := OnChannelMessages(c); TraceInv(next.state, trace + Marks(es))
    decreases |c.peer.fromChannels|
  {
    hide TraceInv, OnClosed;
    MarksAppend([], [], trace);
    if c.peer.fromChannels != [] {
      var d := c.(peer := c.peer.(fromChannels := c.peer.fromChannels[1..]));
      OneClosedAlternates(d, trace);
      var (es, next) := OnClosed(d);
      assert next.peer.fromChannels == d.peer.fromChannels by { MessageConsumed(d, ConnectionClosed); }
      ChannelMessagesAlternate(next, trace + Marks(es));
      MarksAppend(es, OnChannelMessages(next).0, trace);
    }
  }

  lemma StepAlternates(c: Connection, a: Action, trace: seq<Mark>)
    requires TraceInv(c.state, trace) && Enabled(c, a)
    ensures var (ms, next) := Step(c, a); TraceInv(next.state, trace + ms)
  {
    assert trace + [] == trace;
    if a.Handle? {
      hide TraceInv, OnMessages, OnChannelMessages;
      MessagesAlternate(c, trace);
      var (es, mid) := OnMessages(c);
      ChannelMessagesAlternate(mid, trace + Marks(es));
      MarksAppend(es, OnChannelMessages(mid).0, trace);
    } else if a.Rejoin? {
      if c.state.Disconnected? {
        hide TraceInv, Reconnect;
        AddMark(c.state, trace, Rejoined, Step(c, a).1.state);
      }
    } else {
      OthersStayDisconnected(c, a);
      hide Step;
    }
  }

  lemma OthersStayDisconnected(c: Connection, a: Action)
    requires Enabled(c, a) && !a.Handle? && !a.Rejoin?
    ensures Step(c, a).0 == []
    ensures c.state.Disconnected? ==> Step(c, a).1.state.Disconnected?
  {
    hide Take, Create, Peers.CloseChannel, SendPayload;
  }

  /** In every run of opens, closes, sends, local disconnects, reconnections and event handling, in
      any interleaving with the async side, two loss events are never raised without a connection
      event or a reconnection in between. */
  lemma {:induction false} LossesAlternate(c: Connection, actions: seq<Action>, before: seq<Mark>, trace: seq<Mark>,
      last: Connection)
    requires TraceInv(c.state, before) && Run(c, actions, trace, last)
    ensures TraceInv(last.state, before + trace)
    decreases |actions|
  {
    hide TraceInv, Step;
    if actions == [] {
      assert before + trace == before;
    } else {
      StepAlternates(c, actions[0], before);
      var (ms, next) := Step(c, actions[0]);
      LossesAlternate(next, actions[1..], before + ms, trace[|ms|..], last);
      assert (before + ms) + trace[|ms|..] == before + trace;
    }
  }

  /** What the messages of the async task make of the connection state: the last one decides. */
  lemma {:induction false} LastMessageDecides(c: Connection)
    ensures var d := OnMessages(c).1;
            && d.peer.fromChannels == c.peer.fromChannels
            && (d.state.Disconnected? <==>
                  if c.fromAsync == [] then c.state.Disconnected?
                  else !c.fromAsync[|c.fromAsync| - 1].NowConnected?)
    decreases |c.fromAsync|
  {
    if c.fromAsync != [] {
      var rest := c.(fromAsync := c.fromAsync[1..]);
      MessageDecides(rest, c.fromAsync[0]);
      hide OnMessage;
      LastMessageDecides(OnMessage(rest, c.fromAsync[0]).1);
    }
  }

  lemma MessageDecides(c: Connection, m: ClientAsyncMessage)
    ensures var d := OnMessage(c, m).1;
            && d.fromAsync == c.fromAsync && d.peer.fromChannels == c.peer.fromChannels
            && (d.state.Disconnected? <==> !m.NowConnected?)
  {
  }

  /** One loss reported by a channel is enough. */
  lemma {:induction false} ChannelLossDecides(c: Connection)
    ensures OnChannelMessages(c).1.state.Disconnected? <==> c.state.Disconnected? || c.peer.fromChannels != []
    decreases |c.peer.fromChannels|
  {
    if c.peer.fromChannels != [] {
      ChannelLossDecides(OnClosed(c.(peer := c.peer.(fromChannels := c.peer.fromChannels[1..]))).1);
    }
  }

  /** When `Disconnected` survives the event system: told from the queues beforehand, exactly if a channel
      has reported a loss, or nothing is queued, or the last queued message is no connection message. */
  lemma DisconnectedSurvives(c: Connection)
    requires c.state.Disconnected?
    ensures HandleEvents(c).1.state.Disconnected? <==>
            || c.peer.fromChannels != []
            || c.fromAsync == []
            || !c.fromAsync[|c.fromAsync| - 1].NowConnected?
  {
    hide OnMessages, OnChannelMessages;
    LastMessageDecides(c);
    ChannelLossDecides(OnMessages(c).1);
  }

  /** An instance: a connection message that is still queued when the application disconnects makes the
      connection connected again. */
  lemma QueuedConnectionWins(c: Connection, clientId: Option<ClientId>)
    requires c.fromAsync == [NowConnected(clientId)] && c.peer.fromChannels == []
    ensures HandleEvents(Disconnect(c, LocalOrder).1) ==
            ([ConnectionEvent(c.localId, clientId)],
             Disconnect(c, LocalOrder).1.(fromAsync := [], state := Connected(clientId)))
  {
    var d := Disconnect(c, LocalOrder).1;
    var m := d.fromAsync[0];
    assert d.fromAsync[1..] == [];
    var (es, next) := OnMessage(d.(fromAsync := d.fromAsync[1..]), m);
    assert es + [] == es;
    assert OnMessages(next) == ([], next);
    assert OnMessages(d) == (es, next);
    assert next.peer.fromChannels == [] && OnChannelMessages(next) == ([], next);
  }
}
