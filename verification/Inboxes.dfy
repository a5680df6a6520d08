/** The receiving side of a connection behind its streams: the queue of received packets, the receive
    buffers and what the application has read on one channel. */
module Inboxes {
  import opened Prelude
  import opened RecvChannels
  import opened Subsequences

  /** `received` is what the application has read on the channel under observation. */
  datatype Inbox = Inbox(incoming: seq<Packet>, buffers: Buffers, received: seq<Bytes>)

  const EMPTY: Inbox := Inbox([], [], [])

  function Queued(i: Inbox, packets: seq<Packet>): Inbox {
    i.(incoming := i.incoming + packets)
  }

  function Dispatched(i: Inbox, cfg: RecvConfig): Inbox
    requires i.incoming != []
  {
    i.(incoming := i.incoming[1..], buffers := DispatchOne(i.buffers, cfg, i.incoming[0]).0)
  }

  /** The application reads channel `c`, while channel `id` is under observation. */
  function AppRead(i: Inbox, id: ChannelId, c: ChannelId): Inbox {
    var (p, b) := PopFront(i.buffers, c);
    i.(buffers := b, received := i.received + if c == id then AsSeq(p) else [])
  }

  function ClearedInbox(i: Inbox): Inbox {
    i.(buffers := Cleared(i.buffers))
  }

  /** What has been handed on and not been lost since. */
  function Delivered(i: Inbox, id: ChannelId): seq<Bytes> {
    i.received + BufferOf(i.buffers, id) + PayloadsOn(i.incoming, id)
  }

  /** A received packet is stored behind its channel's payloads, or dropped. */
  predicate Stored(b: Buffers, cfg: RecvConfig, p: Packet) {
    DispatchOne(b, cfg, p).1.None?
  }

  /** There is no room on the channel: its buffer is full, or its number is over the limit. */
  predicate NoRoom(b: Buffers, cfg: RecvConfig, c: ChannelId) {
    if c < |b| then |b[c]| >= cfg.maxBufferedPayloads else c >= cfg.maxReceiveChannels
  }

  lemma RoomIsStored(b: Buffers, cfg: RecvConfig, p: Packet)
    ensures Stored(b, cfg, p) <==> !NoRoom(b, cfg, p.channel)
  {
  }

  lemma QueuedGrows(i: Inbox, packets: seq<Packet>, id: ChannelId)
    ensures Delivered(Queued(i, packets), id) == Delivered(i, id) + PayloadsOn(packets, id)
  {
    PayloadsOnAppend(i.incoming, packets, id);
  }

  lemma NoPackets(id: ChannelId)
    ensures PayloadsOn([], id) == []
  {
  }

  lemma OnePacket(p: Packet, id: ChannelId)
    ensures PayloadsOn([p], id) == if p.channel == id then [p.payload] else []
  {
    assert [p][1..] == [];
  }

  lemma DispatchOneStores(b: Buffers, cfg: RecvConfig, p: Packet, c: ChannelId)
    ensures BufferOf(DispatchOne(b, cfg, p).0, c) ==
            BufferOf(b, c) + if p.channel == c && Stored(b, cfg, p) then [p.payload] else []
  {
    if p.channel >= |b| && p.channel < cfg.maxReceiveChannels {
      var g := Grow(b, p.channel);
      assert forall d: ChannelId :: d < |g| ==> BufferOf(b, d) == g[d];
    }
  }

  /** Dispatching one packet moves its payload from the queue to the buffer, or drops it. */
  lemma DispatchMoves(i: Inbox, cfg: RecvConfig, id: ChannelId)
    requires i.incoming != []
    ensures var p := i.incoming[0];
            var rest := PayloadsOn(i.incoming[1..], id);
            var front := i.received + BufferOf(i.buffers, id);
            && Delivered(i, id) == front + (if p.channel == id then [p.payload] else []) + rest
            && Delivered(Dispatched(i, cfg), id) ==
               front + (if p.channel == id && Stored(i.buffers, cfg, p) then [p.payload] else []) + rest
  {
    DispatchOneStores(i.buffers, cfg, i.incoming[0], id);
    hide DispatchOne, BufferOf, Stored;
  }

  lemma DispatchLeavesOut(i: Inbox, cfg: RecvConfig, id: ChannelId)
    requires i.incoming != []
    ensures Subsequence(Delivered(Dispatched(i, cfg), id), Delivered(i, id))
    ensures i.incoming[0].channel != id || Stored(i.buffers, cfg, i.incoming[0]) ==>
              Delivered(Dispatched(i, cfg), id) == Delivered(i, id)
  {
    DispatchMoves(i, cfg, id);
    hide Subsequence, Delivered, DispatchOne, PayloadsOn, Stored, BufferOf;
    var p := i.incoming[0];
    var all := if p.channel == id then [p.payload] else [];
    var kept := if p.channel == id && Stored(i.buffers, cfg, p) then [p.payload] else [];
    SubsequenceRefl(all);
    EmptySubsequence(all);
    LeaveOut(i.received + BufferOf(i.buffers, id), all, kept, PayloadsOn(i.incoming[1..], id));
  }

  lemma ReadMoves(i: Inbox, id: ChannelId, c: ChannelId)
    ensures Delivered(AppRead(i, id, c), id) == Delivered(i, id)
  {
    hide PayloadsOn, BufferOf;
    var (p, b) := PopFront(i.buffers, c);
    if c == id {
      assert i.received + (AsSeq(p) + BufferOf(b, c)) == (i.received + AsSeq(p)) + BufferOf(b, c);
    } else {
      assert i.received + [] == i.received;
    }
  }

  lemma ClearLeavesOut(i: Inbox, id: ChannelId)
    ensures Subsequence(Delivered(ClearedInbox(i), id), Delivered(i, id))
    ensures BufferOf(i.buffers, id) == [] ==> Delivered(ClearedInbox(i), id) == Delivered(i, id)
    ensures Delivered(ClearedInbox(i), id) == i.received + PayloadsOn(i.incoming, id)
  {
    hide Subsequence, PayloadsOn, BufferOf;
    var b := BufferOf(i.buffers, id);
    EmptySubsequence(b);
    assert BufferOf(Cleared(i.buffers), id) == [];
    assert i.received + [] == i.received;
    LeaveOut(i.received, b, [], PayloadsOn(i.incoming, id));
  }

  /** Reading and dispatching empty buffer and queue. */
  lemma InboxShrinks(i: Inbox, cfg: RecvConfig, id: ChannelId)
    ensures BufferOf(i.buffers, id) != [] ==>
              var j := AppRead(i, id, id);
              j.incoming == i.incoming && |BufferOf(j.buffers, id)| < |BufferOf(i.buffers, id)|
    ensures i.incoming != [] ==>
              var j := Dispatched(i, cfg);
              |j.incoming| < |i.incoming| && |BufferOf(j.buffers, id)| <= |BufferOf(i.buffers, id)| + 1
  {
    if i.incoming != [] {
      DispatchOneStores(i.buffers, cfg, i.incoming[0], id);
    }
    hide DispatchOne, BufferOf;
  }
}
