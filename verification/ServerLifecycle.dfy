/** The connection events of a server over whole runs: the application's own actions and the event
    system take turns in any order. */
module ServerLifecycle {
  import opened Prelude
  import opened ChannelIds
  import opened Peers
  import opened Endpoint
  import opened EndpointRuns
  import opened ServerEvents
  import opened ServerLosses

  datatype Turn =
    | Act(action: Action)
    | System(messages: seq<ServerAsyncMessage>, walk: seq<ChannelId>, order: seq<ClientId>)

  /** Connections only arrive through the event system; its loss signals may name any client, in any
      order, and be repeated. */
  ghost predicate Possible(ep: Endpoint, t: Turn) {
    match t
    case Act(a) => !a.Connect? && Enabled(ep, a)
    case System(ms, walk, order) =>
      && Enumerates(walk, ep.openChannels.Keys)
      && (forall i :: 0 <= i < |ms| && ms[i].ClientConnected? ==> ms[i].peer.sendChannels == [])
      && Enumerates(order, OnMessages(ep, walk, ms).1.clients.Keys)
  }

  ghost function Take(ep: Endpoint, t: Turn): (seq<Event>, Endpoint)
    requires Possible(ep, t)
  {
    match t
    case Act(a) => ([], Step(ep, a))
    case System(ms, walk, order) => HandleEvents(ep, ms, walk, order)
  }

  /** `last` and the events `log` come out of taking these turns. */
  ghost predicate Turns(ep: Endpoint, turns: seq<Turn>, log: seq<Event>, last: Endpoint)
    decreases |turns|
  {
    if turns == [] then log == [] && last == ep
    else
      && Possible(ep, turns[0])
      && var (es, next) := Take(ep, turns[0]);
         es <= log && Turns(next, turns[1..], log[|es|..], last)
  }

  /** An upper bound on the ids that these turns can allocate. */
  function Attempts(turns: seq<Turn>): nat {
    if turns == [] then 0
    else (if turns[0].System? then |turns[0].messages| else 0) + Attempts(turns[1..])
  }

  // ---------------------------------------------------------------- what the log keeps

  /** No event twice; a loss only after the connection; the present clients are connected and not
      lost; no id beyond the generator. */
  ghost predicate LogInv(clients: set<ClientId>, gen: ClientId, log: seq<Event>) {
    && (forall i, j :: 0 <= i < j < |log| ==> log[i] != log[j])
    && (forall j :: 0 <= j < |log| && log[j].Lost? ==> Connected(log[j].id) in log[..j])
    && (forall c :: c in clients ==> Connected(c) in log && Lost(c) !in log)
    && (forall e :: e in log ==> e.id <= gen)
  }

  lemma LogEvent(clients: set<ClientId>, gen: ClientId, log: seq<Event>, e: Event, after: set<ClientId>, next: ClientId)
    requires LogInv(clients, gen, log) && gen <= next
    requires match e
             case Connected(id) => gen < id <= next && after == clients + {id}
             case Lost(id) => id in clients && after == clients - {id}
    ensures LogInv(after, next, log + [e])
  {
    var l := log + [e];
    assert e !in log;
    assert forall x :: x in l <==> x in log || x == e;
    forall j | 0 <= j < |l| && l[j].Lost? ensures Connected(l[j].id) in l[..j] {
      if j < |log| {
        assert l[..j] == log[..j];
      } else {
        assert l[..j] == log;
      }
    }
  }

  lemma {:induction false} MessagesKeepLog(ep: Endpoint, walk: seq<ChannelId>, ms: seq<ServerAsyncMessage>,
      log: seq<Event>)
    requires forall id :: id in walk ==> id in ep.openChannels
    requires LogInv(ep.clients.Keys, ep.clientIdGen, log) && ep.clientIdGen + |ms| < CLIENT_ID_RANGE
    ensures var (es, last) := OnMessages(ep, walk, ms);
            LogInv(last.clients.Keys, last.clientIdGen, log + es)
                && ep.clientIdGen <= last.clientIdGen <= ep.clientIdGen + |ms|
    decreases |ms|
  {
    if ms == [] {
      assert log + [] == log;
    } else {
      hide OnMessage, LogInv;
      OneMessageKeepsLog(ep, walk, ms[0], log);
      OnMessagesAt(ep, walk, ms, 0);
      var (es, next) := OnMessage(ep, walk, ms[0]);
      MessagesKeepLog(next, walk, ms[1..], log + es);
      var rest := OnMessages(next, walk, ms[1..]).0;
      assert (log + es) + rest == log + (es + rest);
    }
  }

  lemma OneMessageKeepsLog(ep: Endpoint, walk: seq<ChannelId>, m: ServerAsyncMessage, log: seq<Event>)
    requires forall id :: id in walk ==> id in ep.openChannels
    requires LogInv(ep.clients.Keys, ep.clientIdGen, log) && ep.clientIdGen + 1 < CLIENT_ID_RANGE
    ensures var (es, next) := OnMessage(ep, walk, m);
            LogInv(next.clients.Keys, next.clientIdGen, log + es)
                && ep.clientIdGen <= next.clientIdGen <= ep.clientIdGen + 1
  {
    hide CreateAll, Close;
    var (es, next) := OnMessage(ep, walk, m);
    assert log + [] == log;
    if es != [] {
      LogEvent(ep.clients.Keys, ep.clientIdGen, log, es[0], next.clients.Keys, next.clientIdGen);
    }
    hide OnMessage;
  }

  lemma {:induction false} LossesKeepLog(clients: set<ClientId>, gen: ClientId, log: seq<Event>, lost: seq<ClientId>,
      after: set<ClientId>)
    requires LogInv(clients, gen, log)
    requires forall i :: 0 <= i < |lost| ==> lost[i] in clients
    requires forall i, j :: 0 <= i < j < |lost| ==> lost[i] != lost[j]
    requires forall c :: c in after <==> c in clients && c !in lost
    ensures LogInv(after, gen, log + LostEvents(lost))
    decreases |lost|
  {
    hide LogInv;
    if lost == [] {
      assert log + LostEvents(lost) == log && after == clients;
    } else {
      var first := lost[0];
      LogEvent(clients, gen, log, Lost(first), clients - {first}, gen);
      RestIsRest(lost, clients, after);
      LossesKeepLog(clients - {first}, gen, log + [Lost(first)], lost[1..], after);
      LostEventsCons(log, lost);
    }
  }

  lemma RestIsRest(lost: seq<ClientId>, clients: set<ClientId>, after: set<ClientId>)
    requires lost != []
    requires forall i :: 0 <= i < |lost| ==> lost[i] in clients
    requires forall i, j :: 0 <= i < j < |lost| ==> lost[i] != lost[j]
    requires forall c :: c in after <==> c in clients && c !in lost
    ensures var rest := lost[1..];
            && (forall i :: 0 <= i < |rest| ==> rest[i] in clients - {lost[0]})
            && (forall i, j :: 0 <= i < j < |rest| ==> rest[i] != rest[j])
            && (forall c :: c in after <==> c in clients - {lost[0]} && c !in rest)
  {
    assert forall c :: c in lost <==> c == lost[0] || c in lost[1..];
  }

  lemma LostEventsCons(log: seq<Event>, lost: seq<ClientId>)
    requires lost != []
    ensures (log + [Lost(lost[0])]) + LostEvents(lost[1..]) == log + LostEvents(lost)
  {
    assert LostEvents(lost) == [Lost(lost[0])] + LostEvents(lost[1..]);
  }

  lemma {:induction false} LostAreClients(cs: ClientMap, order: seq<ClientId>)
    requires forall c :: c in order ==> c in cs
    requires forall i, j :: 0 <= i < j < |order| ==> order[i] != order[j]
    ensures var lost := LostClients(cs, order);
            && (forall c :: c in lost ==> c in order)
            && (forall i, j :: 0 <= i < j < |lost| ==> lost[i] != lost[j])
    decreases |order|
  {
    if order != [] {
      LostAreClients(cs, order[1..]);
      assert order[0] !in order[1..];
    }
  }

  lemma TurnKeepsLog(ep: Endpoint, t: Turn, log: seq<Event>)
    requires LogInv(ep.clients.Keys, ep.clientIdGen, log) && Possible(ep, t)
    requires ep.clientIdGen + Attempts([t]) < CLIENT_ID_RANGE
    ensures var (es, next) := Take(ep, t);
            LogInv(next.clients.Keys, next.clientIdGen, log + es)
                && ep.clientIdGen <= next.clientIdGen <= ep.clientIdGen + Attempts([t])
  {
    match t
    case Act(a) =>
      ActionsAddNoClients(ep, a);
      assert log + [] == log;
      hide Step;
    case System(ms, walk, order) =>
      hide HandleEvents, LogInv, OnMessages;
      WalksKeys(walk, ep.openChannels.Keys);
      WalksKeys(order, OnMessages(ep, walk, ms).1.clients.Keys);
      SystemKeepsLog(ep, ms, walk, order, log);
  }

  lemma SystemKeepsLog(ep: Endpoint, ms: seq<ServerAsyncMessage>, walk: seq<ChannelId>, order: seq<ClientId>,
      log: seq<Event>)
    requires LogInv(ep.clients.Keys, ep.clientIdGen, log) && ep.clientIdGen + |ms| < CLIENT_ID_RANGE
    requires forall id :: id in walk ==> id in ep.openChannels
    requires Enumerates(order, OnMessages(ep, walk, ms).1.clients.Keys)
    requires forall c :: c in order ==> c in OnMessages(ep, walk, ms).1.clients
    ensures var (es, next) := HandleEvents(ep, ms, walk, order);
            LogInv(next.clients.Keys, next.clientIdGen, log + es)
                && ep.clientIdGen <= next.clientIdGen <= ep.clientIdGen + |ms|
  {
    hide OnMessages, LostClients, DrainOn, DisconnectEach, LogInv, LostEvents;
    MessagesKeepLog(ep, walk, ms, log);
    var (es, mid) := OnMessages(ep, walk, ms);
    LostAreClients(mid.clients, order);
    var lost := LostClients(mid.clients, order);
    var after := DisconnectEach(mid.(clients := DrainOn(mid.clients, order)), lost);
    LossesKeepLog(mid.clients.Keys, mid.clientIdGen, log + es, lost, after.clients.Keys);
    assert (log + es) + LostEvents(lost) == log + (es + LostEvents(lost));
  }

  lemma ActionsAddNoClients(ep: Endpoint, a: Action)
    requires Enabled(ep, a) && !a.Connect?
    ensures Step(ep, a).clients.Keys <= ep.clients.Keys && Step(ep, a).clientIdGen == ep.clientIdGen
  {
    hide CreateUnregistered, Peers.CloseChannel, SendPayload, RegisterOn, ChannelIds.Take, Release;
  }

  // ---------------------------------------------------------------- whole runs

  /** Over every run of fewer than 2^64 connection attempts: each connection and each loss is
      reported at most once, a loss only after its connection, and the clients that are present are
      exactly connected and not reported lost. So whoever was reported lost is gone from the map. */
  lemma {:induction false} EventLifecycle(ep: Endpoint, turns: seq<Turn>, before: seq<Event>, log: seq<Event>,
      last: Endpoint)
    requires Turns(ep, turns, log, last)
    requires LogInv(ep.clients.Keys, ep.clientIdGen, before) && ep.clientIdGen + Attempts(turns) < CLIENT_ID_RANGE
    ensures LogInv(last.clients.Keys, last.clientIdGen, before + log)
    ensures forall c :: Lost(c) in before + log ==> c !in last.clients
    decreases |turns|
  {
    hide LogInv, Take, Possible;
    if turns == [] {
      assert before + log == before;
    } else {
      var (es, next) := Take(ep, turns[0]);
      AttemptsFirst(turns);
      TurnKeepsLog(ep, turns[0], before);
      EventLifecycle(next, turns[1..], before + es, log[|es|..], last);
      assert (before + es) + log[|es|..] == before + log;
    }
    PresentAreNotLost(last.clients.Keys, last.clientIdGen, before + log);
  }

  /** From an endpoint without clients on: no event twice, no loss before its connection, who is present was connected,
      and who was reported lost is gone. */
  lemma EventsAtMostOnce(start: Endpoint, turns: seq<Turn>, log: seq<Event>, last: Endpoint)
    requires start.clients == map[] && start.clientIdGen == 0
    requires Turns(start, turns, log, last) && Attempts(turns) < CLIENT_ID_RANGE
    ensures forall i, j :: 0 <= i < j < |log| ==> log[i] != log[j]
    ensures forall j :: 0 <= j < |log| && log[j].Lost? ==> Connected(log[j].id) in log[..j]
    ensures forall c :: c in last.clients ==> Connected(c) in log
    ensures forall c :: Lost(c) in log ==> c !in last.clients
  {
    hide Turns;
    EventLifecycle(start, turns, [], log, last);
    assert [] + log == log;
  }

  lemma PresentAreNotLost(clients: set<ClientId>, gen: ClientId, log: seq<Event>)
    requires LogInv(clients, gen, log)
    ensures forall c :: Lost(c) in log ==> c !in clients
  {
  }

  lemma AttemptsFirst(turns: seq<Turn>)
    requires turns != []
    ensures Attempts(turns) == Attempts([turns[0]]) + Attempts(turns[1..])
  {
    assert [turns[0]][1..] == [];
  }

  /** A client that is gone, whoever removed it and for whatever reason, never comes back and raises
      no further event: in particular a client removed by local order is not reported lost later. */
  lemma {:induction false} GoneStaysGone(ep: Endpoint, turns: seq<Turn>, before: seq<Event>, log: seq<Event>,
      last: Endpoint, c: ClientId)
    requires Turns(ep, turns, log, last)
    requires LogInv(ep.clients.Keys, ep.clientIdGen, before) && ep.clientIdGen + Attempts(turns) < CLIENT_ID_RANGE
    requires c <= ep.clientIdGen && c !in ep.clients
    ensures c !in last.clients
    ensures forall e :: e in log ==> e.id != c
    decreases |turns|
  {
    hide LogInv, Take, Possible;
    if turns != [] {
      var (es, next) := Take(ep, turns[0]);
      AttemptsFirst(turns);
      TurnKeepsLog(ep, turns[0], before);
      TurnIgnores(ep, turns[0], c);
      GoneStaysGone(next, turns[1..], before + es, log[|es|..], last, c);
      assert log == es + log[|es|..];
    }
  }

  lemma TurnIgnores(ep: Endpoint, t: Turn, c: ClientId)
    requires Possible(ep, t) && ep.clientIdGen + Attempts([t]) < CLIENT_ID_RANGE
    requires c <= ep.clientIdGen && c !in ep.clients
    ensures var (es, next) := Take(ep, t);
            c !in next.clients && forall e :: e in es ==> e.id != c
  {
    match t
    case Act(a) =>
      ActionsAddNoClients(ep, a);
      hide Step;
    case System(ms, walk, order) =>
      hide OnMessages, LostClients, DrainOn, DisconnectEach;
      WalksKeys(walk, ep.openChannels.Keys);
      MessagesIgnore(ep, walk, ms, c);
      var mid := OnMessages(ep, walk, ms).1;
      WalksKeys(order, mid.clients.Keys);
      LostAreClients(mid.clients, order);
      assert c !in order;
  }

  lemma {:induction false} MessagesIgnore(ep: Endpoint, walk: seq<ChannelId>, ms: seq<ServerAsyncMessage>, c: ClientId)
    requires forall id :: id in walk ==> id in ep.openChannels
    requires ep.clientIdGen + |ms| < CLIENT_ID_RANGE && c <= ep.clientIdGen && c !in ep.clients
    ensures var (es, last) := OnMessages(ep, walk, ms);
            c !in last.clients && forall e :: e in es ==> e.id != c
    decreases |ms|
  {
    if ms != [] {
      hide OnMessage;
      OnMessagesAt(ep, walk, ms, 0);
      MessageIgnores(ep, walk, ms[0], c);
      MessagesIgnore(OnMessage(ep, walk, ms[0]).1, walk, ms[1..], c);
      assert ms[0..] == ms;
    }
  }

  lemma MessageIgnores(ep: Endpoint, walk: seq<ChannelId>, m: ServerAsyncMessage, c: ClientId)
    requires forall id :: id in walk ==> id in ep.openChannels
    requires ep.clientIdGen + 1 < CLIENT_ID_RANGE && c <= ep.clientIdGen && c !in ep.clients
    ensures var (es, next) := OnMessage(ep, walk, m);
            && c !in next.clients && (forall e :: e in es ==> e.id != c)
            && ep.clientIdGen <= next.clientIdGen <= ep.clientIdGen + 1
  {
    hide CreateAll, Close;
  }

  // ---------------------------------------------------------------- nobody vanishes

  /** The application removes the client. */
  predicate Removes(t: Turn, c: ClientId) {
    t.Act? && (t.action.DisconnectAll? || (t.action.Disconnect? && t.action.client == c))
  }

  lemma ActionsKeepClient(ep: Endpoint, a: Action, c: ClientId)
    requires Enabled(ep, a) && !a.Connect? && !Removes(Act(a), c) && c in ep.clients
    ensures c in Step(ep, a).clients
  {
    hide CreateUnregistered, Peers.CloseChannel, SendPayload, RegisterOn, ChannelIds.Take, Release;
  }

  lemma TurnLosesExactly(ep: Endpoint, t: Turn, c: ClientId)
    requires Possible(ep, t) && ep.clientIdGen + Attempts([t]) < CLIENT_ID_RANGE
    requires c in ep.clients && c <= ep.clientIdGen && !Removes(t, c)
    ensures var (es, next) := Take(ep, t); c in next.clients <==> Lost(c) !in es
  {
    match t
    case Act(a) =>
      ActionsKeepClient(ep, a, c);
      hide Step;
    case System(ms, walk, order) =>
      hide OnMessages, HandleEvents;
      WalksKeys(walk, ep.openChannels.Keys);
      ClientLostExactly(ep, ms, walk, order, c);
  }

  /** Over every run, whatever else happens: a client that the application does not remove itself leaves the map if
      and only if it is reported lost. */
  lemma {:induction false} LeavesExactlyWhenLost(ep: Endpoint, turns: seq<Turn>, before: seq<Event>, log: seq<Event>,
      last: Endpoint, c: ClientId)
    requires Turns(ep, turns, log, last)
    requires LogInv(ep.clients.Keys, ep.clientIdGen, before) && ep.clientIdGen + Attempts(turns) < CLIENT_ID_RANGE
    requires c in ep.clients && forall i :: 0 <= i < |turns| ==> !Removes(turns[i], c)
    ensures c in last.clients <==> Lost(c) !in log
    decreases |turns|
  {
    PresentIsKnown(ep.clients.Keys, ep.clientIdGen, before, c);
    hide LogInv, Take, Possible, Removes;
    if turns != [] {
      var (es, next) := Take(ep, turns[0]);
      AttemptsFirst(turns);
      TurnLosesExactly(ep, turns[0], c);
      TurnKeepsLog(ep, turns[0], before);
      assert log == es + log[|es|..];
      if c in next.clients {
        assert forall i :: 0 <= i < |turns| - 1 ==> turns[1..][i] == turns[i + 1];
        LeavesExactlyWhenLost(next, turns[1..], before + es, log[|es|..], last, c);
      } else {
        GoneStaysGone(next, turns[1..], before + es, log[|es|..], last, c);
      }
    }
  }

  /** What the application does raises no event by itself. A client that it removes is never reported lost and never
      comes back. */
  lemma RemovedIsNeverReported(ep: Endpoint, a: Action, turns: seq<Turn>, before: seq<Event>, log: seq<Event>,
      last: Endpoint)
    requires Possible(ep, Act(a)) && Turns(Take(ep, Act(a)).1, turns, log, last)
    requires LogInv(ep.clients.Keys, ep.clientIdGen, before) && ep.clientIdGen + Attempts(turns) < CLIENT_ID_RANGE
    ensures Take(ep, Act(a)) == ([], Step(ep, a))
    ensures forall c :: c in ep.clients && Removes(Act(a), c) ==>
              c !in last.clients && forall e :: e in log ==> e.id != c
  {
    var next := Take(ep, Act(a)).1;
    assert Attempts([Act(a)]) == 0;
    TurnKeepsLog(ep, Act(a), before);
    assert before + [] == before;
    forall c | c in ep.clients && Removes(Act(a), c)
      ensures c !in last.clients && forall e :: e in log ==> e.id != c
    {
      PresentIsKnown(ep.clients.Keys, ep.clientIdGen, before, c);
      hide LogInv, Turns;
      GoneStaysGone(next, turns, before, log, last, c);
    }
  }

  lemma PresentIsKnown(clients: set<ClientId>, gen: ClientId, log: seq<Event>, c: ClientId)
    requires LogInv(clients, gen, log) && c in clients
    ensures c <= gen
  {
    assert Connected(c) in log;
  }

  // ---------------------------------------------------------------- channels survive the events

  lemma {:induction false} MessagesKeepInv(ep: Endpoint, walk: seq<ChannelId>, ms: seq<ServerAsyncMessage>)
    requires Inv(ep) && Enumerates(walk, ep.openChannels.Keys)
    requires forall i :: 0 <= i < |ms| && ms[i].ClientConnected? ==> ms[i].peer.sendChannels == []
    ensures forall id :: id in walk ==> id in ep.openChannels
    ensures Inv(OnMessages(ep, walk, ms).1)
    decreases |ms|
  {
    WalksKeys(walk, ep.openChannels.Keys);
    if ms != [] {
      hide Inv, Enumerates, HandleNewConnection, DisconnectClient;
      var a := match ms[0]
        case ClientConnected(p, ack) => Connect(walk, p, ack)
        case ClientConnectionClosed(c) => Disconnect(c, PeerClosed);
      StepKeepsInv(ep, a);
      OnMessagesAt(ep, walk, ms, 0);
      var next := OnMessage(ep, walk, ms[0]).1;
      assert Inv(next);
      forall i | 0 <= i < |ms[1..]| && ms[1..][i].ClientConnected? ensures ms[1..][i].peer.sendChannels == [] {
        assert ms[1..][i] == ms[i + 1];
      }
      MessagesKeepInv(next, walk, ms[1..]);
    }
  }

  /** The event system keeps the channel agreement between the endpoint and its clients. */
  lemma SystemKeepsChannels(ep: Endpoint, t: Turn)
    requires Inv(ep) && Possible(ep, t)
    ensures Inv(Take(ep, t).1)
  {
    match t
    case Act(a) => StepKeepsInv(ep, a);
    case System(ms, walk, order) =>
      hide OnMessages, LostClients, DisconnectEach, TableAgrees;
      MessagesKeepInv(ep, walk, ms);
      var mid := OnMessages(ep, walk, ms).1;
      WalksKeys(order, mid.clients.Keys);
      var drained := mid.(clients := DrainOn(mid.clients, order));
      assert forall c :: c in drained.clients ==> drained.clients[c].sendChannels == mid.clients[c].sendChannels;
      assert Inv(drained);
  }
}
