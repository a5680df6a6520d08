/** Whole runs of a client: what happens to each of its connections is a run of that connection alone,
    local ids are never used twice, and the default connection does not dangle by itself. */
module ClientsRuns {
  import opened Prelude
  import opened RecvChannels
  import opened Endpoint
  import opened ClientConnection
  import opened Clients
  import opened ClientEffects
  import CR = ClientRuns

  /** The event system handles every connection; all other actions on a connection are the application's
      or its async task's. */
  datatype Step =
    | Opens(config: seq<ChannelConfig>, cfg: RecvConfig)
    | Closes(id: LocalId)
    | Events(order: seq<LocalId>)
    | On(id: LocalId, action: CR.Action)
    | SetsDefault(id: LocalId)

  /** What a run leaves behind, each mark under the local id of its connection. */
  datatype Entry = Entry(id: LocalId, mark: CR.Mark)

  ghost predicate Enabled(s: Clients, step: Step) {
    match step
    case Opens(config, _) => |config| <= MAX_CHANNEL_COUNT
    case Events(order) => Enumerates(order, s.connections.Keys)
    case On(id, a) => id in s.connections && !a.Handle? && CR.Enabled(s.connections[id], a)
    case _ => true
  }

  function Entries(id: LocalId, ms: seq<CR.Mark>): (es: seq<Entry>)
    ensures |es| == |ms| && forall i :: 0 <= i < |es| ==> es[i] == Entry(id, ms[i])
  {
    seq(|ms|, i requires 0 <= i < |ms| => Entry(id, ms[i]))
  }

  function Raise(es: seq<ClientEvent>): (r: seq<Entry>)
    ensures |r| == |es| && forall i :: 0 <= i < |r| ==> r[i] == Entry(es[i].id, CR.Raised(es[i]))
  {
    seq(|es|, i requires 0 <= i < |es| => Entry(es[i].id, CR.Raised(es[i])))
  }

  ghost function Apply(s: Clients, step: Step): (seq<Entry>, Clients)
    requires Enabled(s, step)
  {
    match step
    case Opens(config, cfg) => ([], OpenConnection(s, config, cfg).1)
    case Closes(id) => ([], CloseConnection(s, id).1)
    case Events(order) =>
      WalksKeys(order, s.connections.Keys);
      var (es, cs) := HandleAll(s.connections, order);
      (Raise(es), s.(connections := cs))
    case On(id, a) =>
      var (ms, c) := CR.Step(s.connections[id], a);
      (Entries(id, ms), s.(connections := s.connections[id := c]))
    case SetsDefault(id) => ([], s.(defaultId := Some(id)))
  }

  ghost predicate Run(s: Clients, steps: seq<Step>, log: seq<Entry>, last: Clients)
    decreases |steps|
  {
    if steps == [] then log == [] && last == s
    else
      && Enabled(s, steps[0])
      && var (es, next) := Apply(s, steps[0]);
         es <= log && Run(next, steps[1..], log[|es|..], last)
  }

  const START: Clients := Clients(map[], 0, None)

  /** The marks of one connection, in order. */
  function TraceOf(log: seq<Entry>, id: LocalId): seq<CR.Mark> {
    if log == [] then [] else (if log[0].id == id then [log[0].mark] else []) + TraceOf(log[1..], id)
  }

  lemma {:induction false} TraceOfAppend(a: seq<Entry>, b: seq<Entry>, id: LocalId)
    ensures TraceOf(a + b, id) == TraceOf(a, id) + TraceOf(b, id)
  {
    if a == [] {
      assert a + b == b;
    } else {
      TraceOfAppend(a[1..], b, id);
      assert (a + b)[1..] == a[1..] + b;
      var head := if a[0].id == id then [a[0].mark] else [];
      assert head + (TraceOf(a[1..], id) + TraceOf(b, id)) == (head + TraceOf(a[1..], id)) + TraceOf(b, id);
    }
  }

  lemma {:induction false} TraceOfEntries(own: LocalId, ms: seq<CR.Mark>, id: LocalId)
    ensures TraceOf(Entries(own, ms), id) == if own == id then ms else []
  {
    if ms != [] {
      TraceOfEntries(own, ms[1..], id);
      assert Entries(own, ms)[1..] == Entries(own, ms[1..]);
    }
  }

  lemma {:induction false} TraceOfRaised(es: seq<ClientEvent>, id: LocalId)
    ensures TraceOf(Raise(es), id) == CR.Marks(EventsOf(es, id))
  {
    if es != [] {
      TraceOfRaised(es[1..], id);
      assert Raise(es)[1..] == Raise(es[1..]);
      var head := if es[0].id == id then [es[0]] else [];
      assert CR.Marks(head + EventsOf(es[1..], id)) == CR.Marks(head) + CR.Marks(EventsOf(es[1..], id));
    }
  }

  // ---------------------------------------------------------------- what a run keeps

  /** The connection came out of a run of its own, from its opening, with this trace. */
  ghost predicate OwnRun(id: LocalId, c: Connection, trace: seq<CR.Mark>) {
    exists config, cfg, actions ::
      |config| <= MAX_CHANNEL_COUNT && CR.Run(CR.Opened(id, config, cfg, |config|), actions, trace, c)
  }

  ghost predicate Inv(s: Clients, log: seq<Entry>) {
    && OwnIds(s.connections)
    && (forall id :: id in s.connections ==> id < s.idGen && |s.connections[id].config| <= MAX_CHANNEL_COUNT)
    && (forall id :: id in s.connections ==> OwnRun(id, s.connections[id], TraceOf(log, id)))
    && (forall id :: id >= s.idGen ==> TraceOf(log, id) == [])
    && (forall id :: CR.Alternates(TraceOf(log, id)))
  }

  /** A run goes on with one more action. */
  lemma {:induction false} RunOn(c: Connection, actions: seq<CR.Action>, trace: seq<CR.Mark>, mid: Connection,
      a: CR.Action)
    requires CR.Run(c, actions, trace, mid) && CR.Enabled(mid, a)
    ensures CR.Run(c, actions + [a], trace + CR.Step(mid, a).0, CR.Step(mid, a).1)
    decreases |actions|
  {
    hide CR.Step, CR.Enabled;
    var (more, last) := CR.Step(mid, a);
    if actions == [] {
      assert (actions + [a])[1..] == [] && trace + more == more && more[|more|..] == [];
    } else {
      var (ms, next) := CR.Step(c, actions[0]);
      RunOn(next, actions[1..], trace[|ms|..], mid, a);
      assert (actions + [a])[1..] == actions[1..] + [a];
      assert (trace + more)[|ms|..] == trace[|ms|..] + more && ms <= trace + more;
    }
  }

  lemma OwnRunOn(id: LocalId, c: Connection, trace: seq<CR.Mark>, a: CR.Action)
    requires OwnRun(id, c, trace) && CR.Enabled(c, a)
    ensures OwnRun(id, CR.Step(c, a).1, trace + CR.Step(c, a).0)
  {
    hide CR.Step, CR.Enabled, CR.Run, CR.Opened;
    var config, cfg, actions :|
      |config| <= MAX_CHANNEL_COUNT && CR.Run(CR.Opened(id, config, cfg, |config|), actions, trace, c);
    RunOn(CR.Opened(id, config, cfg, |config|), actions, trace, c, a);
  }

  /** The losses of a connection with a run of its own alternate. */
  lemma OwnRunAlternates(id: LocalId, c: Connection, trace: seq<CR.Mark>)
    requires OwnRun(id, c, trace)
    ensures CR.Alternates(trace)
  {
    hide CR.Run, CR.Alternates, CR.Opened, CR.TraceInv;
    var config, cfg, actions :|
      |config| <= MAX_CHANNEL_COUNT && CR.Run(CR.Opened(id, config, cfg, |config|), actions, trace, c);
    var start := CR.Opened(id, config, cfg, |config|);
    NoMarks(start.state);
    CR.LossesAlternate(start, actions, [], trace, c);
    assert [] + trace == trace;
    InvAlternates(c.state, trace);
  }

  lemma NoMarks(state: ConnectionState)
    ensures CR.TraceInv(state, [])
  {
  }

  lemma InvAlternates(state: ConnectionState, trace: seq<CR.Mark>)
    requires CR.TraceInv(state, trace)
    ensures CR.Alternates(trace)
  {
  }

  // ---------------------------------------------------------------- every step keeps it

  /** Log entries of a step that leaves every other connection alone. */
  lemma LogGrows(log: seq<Entry>, es: seq<Entry>, id: LocalId)
    ensures TraceOf(log + es, id) == TraceOf(log, id) + TraceOf(es, id)
    ensures TraceOf(es, id) == [] ==> TraceOf(log + es, id) == TraceOf(log, id)
  {
    TraceOfAppend(log, es, id);
  }

  lemma OpensKeeps(s: Clients, log: seq<Entry>, step: Step)
    requires Inv(s, log) && Enabled(s, step) && step.Opens?
    ensures Inv(Apply(s, step).1, log)
    ensures Apply(s, step).1.connections.Keys == s.connections.Keys + {s.idGen}
  {
    hide CR.Run, CR.Alternates, CR.Opened, OpenConfigured, Unopened, TraceOf;
    CR.ConfiguredChannelsOpen(s.idGen, step.config, step.cfg);
    var c := CR.Opened(s.idGen, step.config, step.cfg, |step.config|);
    NewRun(s.idGen, step.config, step.cfg);
  }

  lemma NewRun(id: LocalId, config: seq<ChannelConfig>, cfg: RecvConfig)
    requires |config| <= MAX_CHANNEL_COUNT
    ensures OwnRun(id, CR.Opened(id, config, cfg, |config|), [])
    ensures CR.Opened(id, config, cfg, |config|).localId == id && CR.Opened(id, config, cfg, |config|).config == config
  {
    assert CR.Run(CR.Opened(id, config, cfg, |config|), [], [], CR.Opened(id, config, cfg, |config|));
  }

  lemma ClosesKeeps(s: Clients, log: seq<Entry>, step: Step)
    requires Inv(s, log) && Enabled(s, step) && (step.Closes? || step.SetsDefault?)
    ensures Inv(Apply(s, step).1, log)
  {
    hide OwnRun, CR.Alternates, Disconnect, TraceOf;
  }

  lemma StepKeepsIdentity(c: Connection, a: CR.Action)
    requires CR.Enabled(c, a)
    ensures CR.Step(c, a).1.localId == c.localId && CR.Step(c, a).1.config == c.config
  {
    hide OpenOne, CloseOne, Send, Disconnect, Reconnect, HandleEvents;
    match a
    case Open(config) => OpenKeepsIdentity(c, config);
    case Shut(id) => ShutKeepsIdentity(c, id);
    case SendOn(id, p) => SendKeepsIdentity(c, id, p);
    case Leave => LeaveKeepsIdentity(c);
    case Rejoin => RejoinKeepsIdentity(c);
    case Handle => OwnEvents(c);
    case _ =>
  }

  lemma OpenKeepsIdentity(c: Connection, config: ChannelConfig)
    ensures OpenOne(c, config).1 == c.(pool := OpenOne(c, config).1.pool, peer := OpenOne(c, config).1.peer)
  {
  }

  lemma ShutKeepsIdentity(c: Connection, id: Prelude.ChannelId)
    ensures CloseOne(c, id).1 == c.(pool := CloseOne(c, id).1.pool, peer := CloseOne(c, id).1.peer)
  {
  }

  lemma SendKeepsIdentity(c: Connection, id: Prelude.ChannelId, p: Bytes)
    ensures Send(c, id, p).1 == c.(peer := Send(c, id, p).1.peer)
  {
  }

  lemma LeaveKeepsIdentity(c: Connection)
    ensures Disconnect(c, LocalOrder).1 == c.(state := Disconnected, peer := Disconnect(c, LocalOrder).1.peer)
  {
  }

  lemma RejoinKeepsIdentity(c: Connection)
    requires |c.config| <= MAX_CHANNEL_COUNT
    ensures Reconnect(c).1.localId == c.localId && Reconnect(c).1.config == c.config
  {
    if c.state.Disconnected? {
      CR.ReconnectIsFreshOpen(c);
    }
    hide OpenConfigured;
  }

  lemma EventsKeeps(s: Clients, log: seq<Entry>, step: Step)
    requires Inv(s, log) && Enabled(s, step) && step.Events?
    ensures Inv(Apply(s, step).1, log + Apply(s, step).0)
  {
    hide OwnRun, CR.Alternates, HandleEvents, TraceOf, HandleAll, EventsOf, Raise;
    WalksKeys(step.order, s.connections.Keys);
    var (es, cs) := HandleAll(s.connections, step.order);
    forall id | id in s.connections
      ensures cs[id].localId == id && cs[id].config == s.connections[id].config
      ensures OwnRun(id, cs[id], TraceOf(log + Raise(es), id))
      ensures CR.Alternates(TraceOf(log + Raise(es), id))
    {
      EventsOn(s, log, step.order, id);
    }
    forall id | id !in s.connections ensures TraceOf(log + Raise(es), id) == TraceOf(log, id) {
      NoForeignEvents(s.connections, step.order, id);
      TraceOfRaised(es, id);
      LogGrows(log, Raise(es), id);
    }
  }

  lemma EventsOn(s: Clients, log: seq<Entry>, order: seq<LocalId>, id: LocalId)
    requires Inv(s, log) && Enumerates(order, s.connections.Keys) && id in s.connections
    ensures forall i :: i in order ==> i in s.connections
    ensures var (es, cs) := HandleAll(s.connections, order);
            && cs[id].localId == id && cs[id].config == s.connections[id].config
            && OwnRun(id, cs[id], TraceOf(log + Raise(es), id))
            && CR.Alternates(TraceOf(log + Raise(es), id))
  {
    hide OwnRun, CR.Alternates, HandleEvents, TraceOf, HandleAll, EventsOf, Raise;
    WalksKeys(order, s.connections.Keys);
    var (es, cs) := HandleAll(s.connections, order);
    var c := s.connections[id];
    HandleAllEach(s.connections, order, id);
    OwnEvents(c);
    TraceOfRaised(es, id);
    LogGrows(log, Raise(es), id);
    OwnRunOn(id, c, TraceOf(log, id), CR.Handle);
    OwnRunAlternates(id, cs[id], TraceOf(log + Raise(es), id));
  }

  lemma OnKeeps(s: Clients, log: seq<Entry>, step: Step)
    requires Inv(s, log) && Enabled(s, step) && step.On?
    ensures Inv(Apply(s, step).1, log + Apply(s, step).0)
  {
    hide OwnRun, CR.Alternates, TraceOf, CR.Step, CR.Enabled, Entries;
    var c := s.connections[step.id];
    var (ms, d) := CR.Step(c, step.action);
    var es := Entries(step.id, ms);
    StepKeepsIdentity(c, step.action);
    OwnRunOn(step.id, c, TraceOf(log, step.id), step.action);
    forall id ensures TraceOf(log + es, id) == (if id == step.id then TraceOf(log, id) + ms else TraceOf(log, id)) {
      TraceOfEntries(step.id, ms, id);
      LogGrows(log, es, id);
    }
    OwnRunAlternates(step.id, d, TraceOf(log, step.id) + ms);
  }

  lemma StepKeepsInv(s: Clients, log: seq<Entry>, step: Step)
    requires Inv(s, log) && Enabled(s, step)
    ensures Inv(Apply(s, step).1, log + Apply(s, step).0)
  {
    assert log + [] == log;
    hide Inv, CR.Step, HandleAll, OpenConnection, CloseConnection, CR.Enabled;
    match step
    case Opens(_, _) => OpensKeeps(s, log, step);
    case Closes(_) => ClosesKeeps(s, log, step);
    case SetsDefault(_) => ClosesKeeps(s, log, step);
    case Events(_) => EventsKeeps(s, log, step);
    case On(_, _) => OnKeeps(s, log, step);
  }

  lemma {:induction false} RunKeepsInv(s: Clients, before: seq<Entry>, steps: seq<Step>, log: seq<Entry>, last: Clients)
    requires Inv(s, before) && Run(s, steps, log, last)
    ensures Inv(last, before + log)
    decreases |steps|
  {
    hide Inv, Enabled, Apply;
    if steps == [] {
      assert before + log == before;
    } else {
      var (es, next) := Apply(s, steps[0]);
      StepKeepsInv(s, before, steps[0]);
      RunKeepsInv(next, before + es, steps[1..], log[|es|..], last);
      assert (before + es) + log[|es|..] == before + log;
    }
  }

  /** In every run of a client, with any number of connections in any interleaving: what each present
      connection went through is a run of that connection alone, from its own opening, so everything proved
      of one connection holds of each; and on each connection, also one that was closed since, loss events
      alternate with connections and reconnections. */
  lemma ConnectionsAreIndependent(steps: seq<Step>, log: seq<Entry>, last: Clients)
    requires Run(START, steps, log, last)
    ensures forall id :: id in last.connections ==> OwnRun(id, last.connections[id], TraceOf(log, id))
    ensures forall id :: CR.Alternates(TraceOf(log, id))
  {
    StartInv();
    hide Run, OwnRun, CR.Alternates, TraceOf, START;
    RunKeepsInv(START, [], steps, log, last);
    assert [] + log == log;
  }

  lemma StartInv()
    ensures Inv(START, [])
  {
  }

  /** Every step of a client does to each of its connections what it does to that connection alone, and leaves
      exactly its marks under the connection's local id. */
  lemma StepsMean(s: Clients, step: Step, id: LocalId)
    requires OwnIds(s.connections) && Enabled(s, step)
    ensures var (es, after) := Apply(s, step);
            match step
            case Opens(config, cfg) =>
              && es == [] && after.idGen == s.idGen + 1
              && after.connections == s.connections[s.idGen := CR.Opened(s.idGen, config, cfg, |config|)]
            case Closes(own) => es == [] && (id in after.connections <==> id in s.connections && id != own)
            case Events(_) => id in s.connections ==>
                && id in after.connections && after.connections[id] == HandleEvents(s.connections[id]).1
                && TraceOf(es, id) == CR.Marks(HandleEvents(s.connections[id]).0)
            case On(own, a) => id == own ==>
                && id in after.connections && after.connections[id] == CR.Step(s.connections[id], a).1
                && TraceOf(es, id) == CR.Step(s.connections[id], a).0
            case SetsDefault(own) => es == [] && after == s.(defaultId := Some(own))
  {
    hide OpenConnection, CloseConnection, HandleAll, HandleEvents, CR.Step, CR.Enabled, CR.Opened, TraceOf, EventsOf;
    match step
    case Opens(config, cfg) => OpenConnectionMeans(s, config, cfg);
    case Closes(own) => CloseConnectionMeans(s, own);
    case Events(order) =>
      WalksKeys(order, s.connections.Keys);
      if id in s.connections {
        HandleAllEach(s.connections, order, id);
        TraceOfRaised(HandleAll(s.connections, order).0, id);
      }
    case On(own, a) => TraceOfEntries(own, CR.Step(s.connections[own], a).0, id);
    case SetsDefault(_) =>
  }

  // ---------------------------------------------------------------- local ids and the default connection

  lemma {:induction false} IdsOnlyGrow(s: Clients, before: seq<Entry>, steps: seq<Step>, log: seq<Entry>, last: Clients)
    requires Inv(s, before) && Run(s, steps, log, last)
    ensures s.idGen <= last.idGen
    ensures forall id :: id in last.connections && id < s.idGen ==> id in s.connections
    ensures forall id: LocalId :: id < s.idGen && id !in s.connections ==> TraceOf(log, id) == []
    decreases |steps|
  {
    hide Inv, Enabled, Apply, TraceOf;
    if steps == [] {
      NothingLogged();
    } else {
      var (es, next) := Apply(s, steps[0]);
      StepKeepsInv(s, before, steps[0]);
      StepIds(s, before, steps[0]);
      IdsOnlyGrow(next, before + es, steps[1..], log[|es|..], last);
      forall id: LocalId | id < s.idGen && id !in s.connections ensures TraceOf(log, id) == [] {
        LogGrows(es, log[|es|..], id);
        assert log == es + log[|es|..];
      }
    }
  }

  lemma NothingLogged()
    ensures forall id :: TraceOf([], id) == []
  {
  }

  lemma StepIds(s: Clients, log: seq<Entry>, step: Step)
    requires Inv(s, log) && Enabled(s, step)
    ensures var (es, next) := Apply(s, step);
            && s.idGen <= next.idGen
            && (forall id :: id in next.connections && id < s.idGen ==> id in s.connections)
            && (forall id: LocalId :: id < s.idGen && id !in s.connections ==> TraceOf(es, id) == [])
  {
    hide TraceOf, CR.Step, CR.Enabled, HandleEvents, OpenConfigured, Disconnect, OwnRun, CR.Alternates;
    NothingLogged();
    match step
    case Events(order) =>
      WalksKeys(order, s.connections.Keys);
      var es := HandleAll(s.connections, order).0;
      forall id | id !in s.connections ensures TraceOf(Raise(es), id) == [] {
        NoForeignEvents(s.connections, order, id);
        TraceOfRaised(es, id);
      }
    case On(own, a) =>
      var ms := CR.Step(s.connections[own], a).0;
      forall id ensures id != own ==> TraceOf(Entries(own, ms), id) == [] {
        TraceOfEntries(own, ms, id);
      }
    case _ =>
  }

  /** A closed connection stays closed: its local id is never given out again and nothing more is raised
      under it. */
  lemma ClosedStaysSilent(first: seq<Step>, log1: seq<Entry>, mid: Clients, second: seq<Step>, log2: seq<Entry>,
      last: Clients, id: LocalId)
    requires Run(START, first, log1, mid) && Run(mid, second, log2, last)
    requires id < mid.idGen && id !in mid.connections
    ensures id !in last.connections && TraceOf(log2, id) == []
  {
    StartInv();
    hide Inv, Run, TraceOf;
    RunKeepsInv(START, [], first, log1, mid);
    IdsOnlyGrow(mid, [] + log1, second, log2, last);
  }

  /** The default connection is present, if there is one. */
  predicate DefaultLive(s: Clients) {
    s.defaultId.Some? ==> s.defaultId.value in s.connections
  }

  /** The default only dangles when it is set by hand to an id without connection. */
  lemma DefaultDangles(s: Clients, step: Step)
    requires DefaultLive(s) && Enabled(s, step)
    ensures DefaultLive(Apply(s, step).1) <==> !(step.SetsDefault? && step.id !in s.connections)
  {
    hide CR.Step, CR.Enabled, HandleEvents, OpenConfigured, Disconnect;
  }
}
