/** Which events one run of the server's event system raises and who is gone afterwards, told from the
    messages, the clients and their queues beforehand. */
module ServerLosses {
  import opened Prelude
  import opened Mpsc
  import opened Peers
  import opened Endpoint
  import opened EndpointEffects
  import opened ServerEvents

  // ---------------------------------------------------------------- the messages

  /** A closed connection is reported and forgotten if it is a client's, and ignored otherwise. */
  lemma ClosedMeans(ep: Endpoint, walk: seq<ChannelId>, c: ClientId)
    requires forall id :: id in walk ==> id in ep.openChannels
    ensures var (es, after) := OnMessage(ep, walk, ClientConnectionClosed(c));
            && es == (if c in ep.clients then [Lost(c)] else [])
            && (forall d :: d in after.clients <==> d in ep.clients && d != c)
            && (forall d :: d in after.clients ==> after.clients[d] == ep.clients[d])
            && after.clientIdGen == ep.clientIdGen
  {
    DisconnectMeans(ep, c, PeerClosed);
    hide DisconnectClient;
  }

  /** A new connection is reported under its id exactly if its channels have room and the acknowledgement can
      be sent; nobody else's table changes. */
  lemma ConnectedMeans(ep: Endpoint, walk: seq<ChannelId>, p: Peer, ack: Queue<ClientId>)
    requires forall id :: id in walk ==> id in ep.openChannels
    ensures var (es, after) := OnMessage(ep, walk, ClientConnected(p, ack));
            var admitted := HasRoom(p.toChannels, |walk|) && ack.receiverOpen && |ack.items| < ack.capacity;
            && es == (if admitted then [Connected(NextId(ep.clientIdGen))] else [])
            && (forall d :: d in after.clients <==> d in ep.clients || (admitted && d == NextId(ep.clientIdGen)))
            && (forall d :: d in ep.clients && !(admitted && d == NextId(ep.clientIdGen)) ==>
                  after.clients[d] == ep.clients[d])
            && after.clientIdGen == if HasRoom(p.toChannels, |walk|) then NextId(ep.clientIdGen) else ep.clientIdGen
  {
    NewConnectionMeans(ep, walk, p, ack);
    hide HandleNewConnection, NextId, HasRoom;
  }

  /** The messages are handled one by one: handling a longer list is handling its rest on what its front left. */
  lemma {:induction false} OnMessagesAppend(ep: Endpoint, walk: seq<ChannelId>, ms: seq<ServerAsyncMessage>,
      more: seq<ServerAsyncMessage>)
    requires forall id :: id in walk ==> id in ep.openChannels
    ensures var (es, mid) := OnMessages(ep, walk, ms);
            var (fs, last) := OnMessages(mid, walk, more);
            OnMessages(ep, walk, ms + more) == (es + fs, last)
    decreases |ms|
  {
    if ms == [] {
      assert ms + more == more && [] + OnMessages(ep, walk, more).0 == OnMessages(ep, walk, more).0;
    } else {
      OnMessagesAt(ep, walk, ms, 0);
      assert ms[0..] == ms;
      hide OnMessage;
      var (es, next) := OnMessage(ep, walk, ms[0]);
      OnMessagesAppend(next, walk, ms[1..], more);
      assert (ms + more)[1..] == ms[1..] + more;
      JoinParts(es, OnMessages(next, walk, ms[1..]).0, OnMessages(OnMessages(next, walk, ms[1..]).1, walk, more).0);
    }
  }

  lemma OnOneMessage(ep: Endpoint, walk: seq<ChannelId>, m: ServerAsyncMessage)
    requires forall id :: id in walk ==> id in ep.openChannels
    ensures OnMessages(ep, walk, [m]) == OnMessage(ep, walk, m)
  {
    OnMessagesAt(ep, walk, [m], 0);
    OnMessagesDone(OnMessage(ep, walk, m).1, walk, [m]);
    assert [m][0..] == [m] && [m][|[m]|..] == [m][1..];
    hide OnMessage;
    JoinParts(OnMessage(ep, walk, m).0, [], []);
  }

  /** What the messages do to a client that was there before, and to its events. */
  lemma {:induction false} MessagesOnClient(ep: Endpoint, walk: seq<ChannelId>, ms: seq<ServerAsyncMessage>,
                                            c: ClientId)
    requires forall id :: id in walk ==> id in ep.openChannels
    requires c <= ep.clientIdGen && ep.clientIdGen + |ms| < CLIENT_ID_RANGE
    ensures var (es, mid) := OnMessages(ep, walk, ms);
            && (Lost(c) in es <==> c in ep.clients && ClientConnectionClosed(c) in ms)
            && (c in mid.clients <==> c in ep.clients && ClientConnectionClosed(c) !in ms)
            && (c in mid.clients ==> mid.clients[c] == ep.clients[c])
            && Connected(c) !in es
    decreases |ms|
  {
    if ms != [] {
      var m, rest := ms[0], ms[1..];
      assert ms == [m] + rest;
      OnMessagesAt(ep, walk, ms, 0);
      assert ms[0..] == ms;
      match m {
        case ClientConnected(p, ack) => ConnectedMeans(ep, walk, p, ack);
        case ClientConnectionClosed(d) => ClosedMeans(ep, walk, d);
      }
      hide OnMessage, HasRoom, OnMessages;
      MessagesOnClient(OnMessage(ep, walk, m).1, walk, rest, c);
    }
  }

  // ---------------------------------------------------------------- the losses reported by channels

  lemma {:induction false} LostClientsExactly(cs: ClientMap, order: seq<ClientId>, c: ClientId)
    requires forall d :: d in order ==> d in cs
    ensures c in LostClients(cs, order) <==> c in order && cs[c].fromChannels != []
    decreases |order|
  {
    if order != [] {
      LostClientsExactly(cs, order[1..], c);
      assert order == [order[0]] + order[1..];
    }
  }

  /** One run of the event system, after its messages: a client is reported lost if and only if a message has
      reported it, or it is still a client and one of its channels reports a loss. Who is reported by a channel
      is gone; everybody else stays, with the same table. */
  lemma LossesExactly(ep: Endpoint, ms: seq<ServerAsyncMessage>, walk: seq<ChannelId>, order: seq<ClientId>,
                      c: ClientId)
    requires forall id :: id in walk ==> id in ep.openChannels
    requires Enumerates(order, OnMessages(ep, walk, ms).1.clients.Keys)
    ensures forall d :: d in order ==> d in OnMessages(ep, walk, ms).1.clients
    ensures var (raised, mid) := OnMessages(ep, walk, ms);
            var (es, after) := HandleEvents(ep, ms, walk, order);
            && (Lost(c) in es <==>
                  Lost(c) in raised || (c in mid.clients && mid.clients[c].fromChannels != []))
            && (c in after.clients <==> c in mid.clients && mid.clients[c].fromChannels == [])
            && (c in after.clients ==> after.clients[c] == mid.clients[c])
            && (Connected(c) in es <==> Connected(c) in raised)
            && after.clientIdGen == mid.clientIdGen
            && after.openChannels == ep.openChannels && after.pool == ep.pool
  {
    WalksKeys(order, OnMessages(ep, walk, ms).1.clients.Keys);
    var (raised, mid) := OnMessages(ep, walk, ms);
    LostClientsExactly(mid.clients, order, c);
    var lost := LostClients(mid.clients, order);
    hide OnMessages, LostClients;
    InLostEvents(lost, c);
    assert c in mid.clients && mid.clients[c].fromChannels == [] ==> Drain(mid.clients[c]) == mid.clients[c];
  }

  lemma InLostEvents(lost: seq<ClientId>, c: ClientId)
    ensures Lost(c) in LostEvents(lost) <==> c in lost
    ensures Connected(c) !in LostEvents(lost)
  {
    if c in lost {
      var i :| 0 <= i < |lost| && lost[i] == c;
      assert LostEvents(lost)[i] == Lost(c);
    }
  }

  /** Told from the state before the call, for every client that is there and fewer than 2^64 admissions: it is
      reported lost if and only if its connection was closed or one of its channels has reported a loss, and
      then it is gone; otherwise it stays, with the same table and queues. */
  lemma ClientLostExactly(ep: Endpoint, ms: seq<ServerAsyncMessage>, walk: seq<ChannelId>, order: seq<ClientId>,
      c: ClientId)
    requires forall id :: id in walk ==> id in ep.openChannels
    requires Enumerates(order, OnMessages(ep, walk, ms).1.clients.Keys)
    requires c in ep.clients && c <= ep.clientIdGen && ep.clientIdGen + |ms| < CLIENT_ID_RANGE
    ensures forall d :: d in order ==> d in OnMessages(ep, walk, ms).1.clients
    ensures var (es, after) := HandleEvents(ep, ms, walk, order);
            var gone := ClientConnectionClosed(c) in ms || ep.clients[c].fromChannels != [];
            && (Lost(c) in es <==> gone)
            && (c in after.clients <==> !gone)
            && (c in after.clients ==> after.clients[c] == ep.clients[c])
  {
    MessagesOnClient(ep, walk, ms, c);
    LossesExactly(ep, ms, walk, order, c);
    hide OnMessages, HandleEvents;
  }
}
