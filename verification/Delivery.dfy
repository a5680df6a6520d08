/** End-to-end delivery of one ordered channel: the send side with all its background tasks, the byte
    stream of the channel with arbitrary read boundaries, the decoder of its receiving task, the queue
    of received packets, the receive buffers and the application. */
module Delivery {
  import opened Prelude
  import opened Codec
  import opened StreamReceive
  import opened RecvChannels
  import opened ChannelTask
  import opened ConnectionTasks
  import opened Subsequences
  import opened Receivers
  import opened Inboxes
  import opened Links

  datatype System = System(tasks: State, rx: Receiver, inbox: Inbox)

  const START: System := System(INITIAL, FRESH, EMPTY)

  datatype Move =
    | Sender(step: Step)
    | BytesArrive(n: nat)
    | DecodeNext
    | StopsListening
    | OtherStream(packet: Packet)
    | DispatchNext
    | AppReads(channel: ChannelId)
    | ClearsBuffers

  predicate MoveEnabled(k: Link, s: System, m: Move) {
    match m
    case Sender(step) => Enabled(s.tasks, step) && CreatesObserved(k, s.tasks, step)
    case BytesArrive(n) => s.rx.listening && s.rx.arrived + n <= |Observed(k, s.tasks).stream|
    case DecodeNext => s.rx.listening && |s.inbox.incoming| < DEFAULT_MESSAGE_QUEUE_SIZE
    case StopsListening => s.rx.listening
    case OtherStream(p) => p.channel != k.id && |s.inbox.incoming| < DEFAULT_MESSAGE_QUEUE_SIZE
    case DispatchNext => s.inbox.incoming != []
    case AppReads(_) => true
    case ClearsBuffers => true
  }

  function Moved(k: Link, s: System, m: Move): System
    requires MoveEnabled(k, s, m)
  {
    match m
    case Sender(step) => s.(tasks := Apply(s.tasks, step))
    case BytesArrive(n) =>
      s.(rx := ReadBytes(s.rx, Observed(k, s.tasks).stream[s.rx.arrived..s.rx.arrived + n]))
    case DecodeNext =>
      var (r, packets) := HandOnNext(s.rx, k.decoderMax);
      s.(rx := r, inbox := Queued(s.inbox, packets))
    case StopsListening => s.(rx := s.rx.(listening := false))
    case OtherStream(p) => s.(inbox := Queued(s.inbox, [p]))
    case DispatchNext => s.(inbox := Dispatched(s.inbox, k.cfg))
    case AppReads(c) => s.(inbox := AppRead(s.inbox, k.id, c))
    case ClearsBuffers => s.(inbox := ClearedInbox(s.inbox))
  }

  predicate Moves(k: Link, a: System, ms: seq<Move>, b: System)
    decreases |ms|
  {
    if ms == [] then a == b
    else MoveEnabled(k, a, ms[0]) && Moves(k, Moved(k, a, ms[0]), ms[1..], b)
  }

  // ---------------------------------------------------------------- where a payload can be

  /** The task can still take payloads, or still write what it took. */
  predicate SenderUp(k: Link, s: System) {
    ReceiverAlive(s.tasks, Observed(k, s.tasks))
  }

  /** The payloads that can still be received: one parse of the bytes in the decoder, in the stream and in the
      buffer of a live sender. */
  function OnTheWayNow(k: Link, s: System): seq<Bytes> {
    var c := Observed(k, s.tasks);
    OnTheWay(k.id, s.rx, c.stream, if SenderUp(k, s) then c.buffer else [])
  }

  /** Every payload of the channel, in the order from the application back to the send queue. */
  function Chain(k: Link, s: System): seq<Bytes> {
    Delivered(s.inbox, k.id) + OnTheWayNow(k, s) + if SenderUp(k, s) then Observed(k, s.tasks).queue else []
  }

  // ---------------------------------------------------------------- what the encoder takes

  /** The payloads that the encoder accepts. */
  function Kept(config: ChannelConfig, ps: seq<Bytes>): seq<Bytes> {
    if ps == [] then [] else (if Fits(config, ps[0]) then [ps[0]] else []) + Kept(config, ps[1..])
  }

  lemma {:induction false} KeptAppend(config: ChannelConfig, ps: seq<Bytes>, qs: seq<Bytes>)
    ensures Kept(config, ps + qs) == Kept(config, ps) + Kept(config, qs)
  {
    hide Fits;
    if ps == [] {
      assert ps + qs == qs;
    } else {
      KeptAppend(config, ps[1..], qs);
      assert (ps + qs)[1..] == ps[1..] + qs;
      var head := if Fits(config, ps[0]) then [ps[0]] else [];
      assert head + (Kept(config, ps[1..]) + Kept(config, qs)) == (head + Kept(config, ps[1..])) + Kept(config, qs);
    }
  }

  lemma KeptPrefix(config: ChannelConfig, ps: seq<Bytes>, qs: seq<Bytes>)
    requires ps <= qs
    ensures Kept(config, ps) <= Kept(config, qs)
  {
    KeptAppend(config, ps, qs[|ps|..]);
    assert qs == ps + qs[|ps|..];
  }

  lemma {:induction false} KeptSubsequence(config: ChannelConfig, ps: seq<Bytes>)
    ensures Subsequence(Kept(config, ps), ps)
    ensures (forall k :: 0 <= k < |ps| ==> Fits(config, ps[k])) ==> Kept(config, ps) == ps
  {
    hide Fits;
    if ps != [] {
      KeptSubsequence(config, ps[1..]);
      var head := if Fits(config, ps[0]) then [ps[0]] else [];
      SubsequenceConcat(head, [ps[0]], Kept(config, ps[1..]), ps[1..]);
      assert [ps[0]] + ps[1..] == ps;
    }
  }

  lemma {:induction false} KeptFits(config: ChannelConfig, ps: seq<Bytes>, k: nat)
    requires k < |Kept(config, ps)|
    ensures Fits(config, Kept(config, ps)[k])
  {
    hide Fits;
    if Fits(config, ps[0]) {
      if k > 0 {
        KeptFits(config, ps[1..], k - 1);
      }
    } else {
      KeptFits(config, ps[1..], k);
    }
  }

  lemma {:induction false} EncodedIsStream(id: ChannelId, config: ChannelConfig, ps: seq<Bytes>)
    ensures EncodedAll(id, config, ps) == EncodeStream(Messages(id, Kept(config, ps)))
  {
    hide Fits, Frame;
    if ps != [] {
      EncodedIsStream(id, config, ps[1..]);
      var rest := Kept(config, ps[1..]);
      if Fits(config, ps[0]) {
        assert Kept(config, ps)[1..] == rest;
        assert Messages(id, Kept(config, ps))[1..] == Messages(id, rest);
      } else {
        assert Kept(config, ps) == rest;
        assert [] + EncodeStream(Messages(id, rest)) == EncodeStream(Messages(id, rest));
      }
    }
  }

  lemma {:induction false} KeptMember(config: ChannelConfig, ps: seq<Bytes>, i: nat)
    requires i < |Kept(config, ps)|
    ensures Kept(config, ps)[i] in ps
  {
    hide Fits;
    if Fits(config, ps[0]) {
      if i > 0 {
        KeptMember(config, ps[1..], i - 1);
      }
    } else {
      KeptMember(config, ps[1..], i);
    }
  }

  // ---------------------------------------------------------------- invariant

  /** What the task has taken and the encoder accepts. */
  function Sent(k: Link, t: State): seq<Bytes> {
    Kept(k.config, Taken(Observed(k, t)))
  }

  /** The receiving task is in step with the stream, and what was delivered are payloads that it handed on. */
  ghost predicate SystemInv(k: Link, s: System) {
    && ObservedOk(k, s.tasks)
    && InStep(k.id, k.decoderMax, s.rx, Observed(k, s.tasks).stream)
    && s.rx.handed <= Sent(k, s.tasks)
    && Subsequence(Delivered(s.inbox, k.id), s.rx.handed)
  }

  /** Stream and buffer are the frames of what was sent, cut short by a stream error at most. */
  lemma SentIsWritten(k: Link, t: State)
    requires ObservedOk(k, t) && k.config.OrderedReliable?
    ensures var c := Observed(k, t);
            && c.stream + c.buffer <= EncodeStream(Messages(k.id, Sent(k, t)))
            && (c.stream + c.buffer == EncodedAll(k.id, k.config, Taken(c)) <==>
                  c.stream + c.buffer == EncodeStream(Messages(k.id, Sent(k, t))))
  {
    ObservedInv(k, t);
    EncodedIsStream(k.id, k.config, Taken(Observed(k, t)));
    hide Inv, Observed, Kept, Messages, EncodeStream, EncodedAll, Taken, SomeOversize, QueueIsRest, ChildInv;
  }

  lemma SystemReads(k: Link, s: System)
    requires SystemInv(k, s) && k.config.OrderedReliable?
    ensures var c := Observed(k, s.tasks);
            && Reads(k.id, k.decoderMax, s.rx, c.stream, c.buffer, Sent(k, s.tasks))
            && Reads(k.id, k.decoderMax, s.rx, c.stream, [], Sent(k, s.tasks))
  {
    SentIsWritten(k, s.tasks);
    hide ObservedOk, Observed, Sent, Messages, EncodeStream, InStep, Delivered, Subsequence;
    var c := Observed(k, s.tasks);
    assert c.stream + [] <= c.stream + c.buffer;
  }

  lemma SentIsShort(k: Link, s: System)
    requires SystemInv(k, s) && NoneWraps(k, s.tasks)
    ensures Short(Sent(k, s.tasks))
  {
    hide InStep, Taken, Observed, Subsequence, Delivered, Kept, Fits;
    ObservedInv(k, s.tasks);
    TakenAndQueue(Observed(k, s.tasks));
    forall i | 0 <= i < |Sent(k, s.tasks)| ensures PROTOCOL_HEADER_LEN + |Sent(k, s.tasks)[i]| < LENGTH_FIELD_RANGE {
      KeptFits(k.config, Taken(Observed(k, s.tasks)), i);
      KeptMember(k.config, Taken(Observed(k, s.tasks)), i);
    }
  }

  // ---------------------------------------------------------------- every move keeps the invariant

  lemma SenderKeeps(k: Link, s: System, step: Step)
    requires SystemInv(k, s) && MoveEnabled(k, s, Sender(step))
    ensures SystemInv(k, Moved(k, s, Sender(step)))
  {
    hide ObservedOk, Enabled, Apply, Taken, Observed, InStep, Subsequence, Delivered, Kept, CreatesObserved;
    var t := Apply(s.tasks, step);
    ObservedStep(k, s.tasks, step);
    KeptPrefix(k.config, Taken(Observed(k, s.tasks)), Taken(Observed(k, t)));
    InStepGrows(k.id, k.decoderMax, s.rx, Observed(k, s.tasks).stream, Observed(k, t).stream);
  }

  lemma ArrivalKeeps(k: Link, s: System, n: nat)
    requires SystemInv(k, s) && MoveEnabled(k, s, BytesArrive(n))
    ensures SystemInv(k, Moved(k, s, BytesArrive(n)))
  {
    hide ObservedOk, Sent, Observed, Subsequence, Delivered, InStep;
    ReadStaysInStep(k.id, k.decoderMax, s.rx, Observed(k, s.tasks).stream, n);
  }

  /** The payload that is handed on joins the history and the queue of received packets. */
  lemma DecodeKeeps(k: Link, s: System)
    requires SystemInv(k, s) && MoveEnabled(k, s, DecodeNext) && NoneWraps(k, s.tasks) && k.config.OrderedReliable?
    ensures SystemInv(k, Moved(k, s, DecodeNext))
    ensures Delivered(s.inbox, k.id) == s.rx.handed ==>
              Delivered(Moved(k, s, DecodeNext).inbox, k.id) == Moved(k, s, DecodeNext).rx.handed
  {
    SystemReads(k, s);
    SentIsShort(k, s);
    hide ObservedOk, Observed, Sent, Subsequence, Delivered, InStep, HandOnNext, DecodeOnce, NoneWraps, Ahead,
      EncodeStream, Messages, PayloadsOn;
    var c := Observed(k, s.tasks);
    HandOnKeeps(k.id, k.decoderMax, s.rx, c.stream, c.buffer, Sent(k, s.tasks));
    var (r, packets) := HandOnNext(s.rx, k.decoderMax);
    QueuedGrows(s.inbox, packets, k.id);
    if packets == [] {
      NoPackets(k.id);
      assert Delivered(s.inbox, k.id) + [] == Delivered(s.inbox, k.id);
    } else {
      OnePacket(packets[0], k.id);
      SubsequenceRefl([packets[0].payload]);
      SubsequenceConcat(Delivered(s.inbox, k.id), s.rx.handed, [packets[0].payload], [packets[0].payload]);
    }
  }

  /** What happens behind the queue of received packets may only leave payloads out. */
  lemma InboxKeeps(k: Link, s: System, m: Move)
    requires SystemInv(k, s) && MoveEnabled(k, s, m)
    requires m.OtherStream? || m.DispatchNext? || m.AppReads? || m.ClearsBuffers?
    ensures SystemInv(k, Moved(k, s, m))
  {
    hide ObservedOk, Observed, Sent, Subsequence, Delivered, InStep, PayloadsOn, Dispatched, AppRead, ClearedInbox;
    SubsequenceRefl(Delivered(s.inbox, k.id));
    match m {
      case OtherStream(p) =>
        QueuedGrows(s.inbox, [p], k.id);
        OnePacket(p, k.id);
        assert Delivered(s.inbox, k.id) + [] == Delivered(s.inbox, k.id);
      case DispatchNext => DispatchLeavesOut(s.inbox, k.cfg, k.id);
      case AppReads(c) => ReadMoves(s.inbox, k.id, c);
      case ClearsBuffers => ClearLeavesOut(s.inbox, k.id);
    }
    SubsequenceTrans(Delivered(Moved(k, s, m).inbox, k.id), Delivered(s.inbox, k.id), s.rx.handed);
  }

  lemma MoveKeeps(k: Link, s: System, m: Move)
    requires k.config.OrderedReliable? && SystemInv(k, s) && MoveEnabled(k, s, m) && NoneWraps(k, s.tasks)
    ensures SystemInv(k, Moved(k, s, m))
  {
    hide ObservedOk, Sent, Observed, Subsequence, HandOnNext, Enabled, Apply, Delivered;
    match m
    case Sender(step) => SenderKeeps(k, s, step);
    case BytesArrive(n) => ArrivalKeeps(k, s, n);
    case DecodeNext => DecodeKeeps(k, s);
    case StopsListening =>
    case _ => InboxKeeps(k, s, m);
  }

  /** What comes from outside does what it says: a receiver that stops hands on nothing more, ever; a packet of
      another stream joins the payloads of its own channel; clearing loses what is buffered and nothing else. None of
      it asks for more than room in the queue. */
  lemma OutsideMoves(k: Link, s: System, m: Move)
    requires MoveEnabled(k, s, m)
    ensures m.OtherStream? ==>
              var c := m.packet.channel;
              PayloadsOn(Moved(k, s, m).inbox.incoming, c) == PayloadsOn(s.inbox.incoming, c) + [m.packet.payload]
    ensures m.ClearsBuffers? ==>
              Delivered(Moved(k, s, m).inbox, k.id) == s.inbox.received + PayloadsOn(s.inbox.incoming, k.id)
    ensures MoveEnabled(k, s, ClearsBuffers) && forall c :: MoveEnabled(k, s, AppReads(c))
    ensures forall p: Packet :: p.channel != k.id && |s.inbox.incoming| < DEFAULT_MESSAGE_QUEUE_SIZE ==>
              MoveEnabled(k, s, OtherStream(p))
  {
    hide Delivered, PayloadsOn, Enabled, Apply, HandOnNext, Dispatched, AppRead;
    if m.OtherStream? {
      PayloadsOnAppend(s.inbox.incoming, [m.packet], m.packet.channel);
      OnePacket(m.packet, m.packet.channel);
    }
    ClearLeavesOut(s.inbox, k.id);
  }

  lemma {:induction false} NothingAfterStop(k: Link, s: System, ms: seq<Move>, t: System)
    requires MoveEnabled(k, s, StopsListening) && Moves(k, Moved(k, s, StopsListening), ms, t)
    ensures t.rx.handed == s.rx.handed && !t.rx.listening
  {
    DeafHandsOn(k, Moved(k, s, StopsListening), ms, t);
  }

  lemma {:induction false} DeafHandsOn(k: Link, s: System, ms: seq<Move>, t: System)
    requires !s.rx.listening && Moves(k, s, ms, t)
    ensures t.rx.handed == s.rx.handed && !t.rx.listening
    decreases |ms|
  {
    hide Enabled, Apply, HandOnNext, Dispatched, AppRead, ReadBytes;
    if ms != [] {
      DeafHandsOn(k, Moved(k, s, ms[0]), ms[1..], t);
    }
  }

  /** The queue of received packets never holds more than it was made for. */
  lemma {:induction false} IncomingBounded(k: Link, a: System, ms: seq<Move>, b: System)
    requires |a.inbox.incoming| <= DEFAULT_MESSAGE_QUEUE_SIZE && Moves(k, a, ms, b)
    ensures |b.inbox.incoming| <= DEFAULT_MESSAGE_QUEUE_SIZE
    decreases |ms|
  {
    hide Enabled, Apply, DecodeOnce, DispatchOne, PopFront, Cleared, Observed, ReadBytes;
    if ms != [] {
      IncomingBounded(k, Moved(k, a, ms[0]), ms[1..], b);
    }
  }

  lemma WrapsBefore(k: Link, s: System, m: Move)
    requires MoveEnabled(k, s, m) && NoneWraps(k, Moved(k, s, m).tasks)
    ensures NoneWraps(k, s.tasks)
  {
    hide NoneWraps, Enabled, Apply, HandOnNext, Dispatched, AppRead, Observed;
    if m.Sender? {
      NoneWrapsBefore(k, s.tasks, m.step);
    }
  }

  lemma {:induction false} NoneWrapsAtFirst(k: Link, a: System, ms: seq<Move>, b: System)
    requires Moves(k, a, ms, b) && NoneWraps(k, b.tasks)
    ensures NoneWraps(k, a.tasks)
    decreases |ms|
  {
    hide MoveEnabled, Moved, NoneWraps;
    if ms != [] {
      NoneWrapsAtFirst(k, Moved(k, a, ms[0]), ms[1..], b);
      WrapsBefore(k, a, ms[0]);
    }
  }

  lemma {:induction false} MovesKeep(k: Link, a: System, ms: seq<Move>, b: System)
    requires k.config.OrderedReliable? && SystemInv(k, a) && Moves(k, a, ms, b) && NoneWraps(k, b.tasks)
    ensures SystemInv(k, b)
    decreases |ms|
  {
    hide SystemInv, MoveEnabled, Moved, NoneWraps;
    if ms != [] {
      NoneWrapsAtFirst(k, a, ms, b);
      MoveKeeps(k, a, ms[0]);
      MovesKeep(k, Moved(k, a, ms[0]), ms[1..], b);
    }
  }

  lemma StartInv(k: Link)
    ensures SystemInv(k, START) && Delivered(EMPTY, k.id) == []
  {
    StartObserved(k);
    FreshInStep(k.id, k.decoderMax, []);
    hide ObservedOk, Observed, Sent, InStep;
  }

  // ---------------------------------------------------------------- in order, at every moment

  /** What can still be received is a front of what was sent and not handed on, and all of it as long as no
      byte is missing. */
  lemma ChainIsAhead(k: Link, s: System)
    requires SystemInv(k, s) && NoneWraps(k, s.tasks) && k.config.OrderedReliable?
    ensures OnTheWayNow(k, s) <= Ahead(s.rx, Sent(k, s.tasks))
    ensures var c := Observed(k, s.tasks);
            s.rx.listening && c.stream + c.buffer == EncodedAll(k.id, k.config, Taken(c))
                && (SenderUp(k, s) || c.buffer == [])
            ==> OnTheWayNow(k, s) == Ahead(s.rx, Sent(k, s.tasks))
    ensures !s.rx.listening ==> OnTheWayNow(k, s) == []
  {
    SystemReads(k, s);
    SentIsShort(k, s);
    SentIsWritten(k, s.tasks);
    hide ObservedOk, Observed, Sent, InStep, Delivered, Subsequence, EncodeStream, Messages, EncodedAll, Taken,
      NoneWraps, OnTheWay, Ahead, SenderUp, Reads;
    var c := Observed(k, s.tasks);
    WayIsAhead(k.id, k.decoderMax, s.rx, c.stream, c.buffer, Sent(k, s.tasks));
    WayIsAhead(k.id, k.decoderMax, s.rx, c.stream, [], Sent(k, s.tasks));
    assert c.buffer == [] ==> c.stream + c.buffer == c.stream + [];
  }

  lemma AcceptedParts(k: Link, s: System)
    requires SystemInv(k, s)
    ensures var c := Observed(k, s.tasks);
            && c.accepted == Taken(c) + c.queue
            && s.rx.handed + Ahead(s.rx, Sent(k, s.tasks)) == Kept(k.config, Taken(c))
  {
    ObservedInv(k, s.tasks);
    TakenAndQueue(Observed(k, s.tasks));
    hide ObservedOk, Observed, Kept, Taken, Subsequence, Delivered, InStep;
  }

  /** In every reachable state of the whole system, whatever is lost on the way: what the application has
      read, followed by what is buffered, queued, on the way and still to be sent, is the accepted
      payloads with some left out: never reordered, duplicated or invented. */
  lemma OrderedDelivery(k: Link, ms: seq<Move>, s: System)
    requires k.config.OrderedReliable? && Moves(k, START, ms, s) && NoneWraps(k, s.tasks)
    ensures Subsequence(Chain(k, s), Observed(k, s.tasks).accepted)
    ensures Subsequence(s.inbox.received, Observed(k, s.tasks).accepted)
  {
    StartInv(k);
    MovesKeep(k, START, ms, s);
    ChainIsAhead(k, s);
    AcceptedParts(k, s);
    var c := Observed(k, s.tasks);
    KeptSubsequence(k.config, Taken(c));
    SystemDelivered(k, s);
    hide SystemInv, Taken, Observed, Subsequence, Delivered, Kept, Sent, Ahead, OnTheWayNow, SenderUp, Moves,
      NoneWraps;
    var queue := if SenderUp(k, s) then c.queue else [];
    PrefixSubsequence(OnTheWayNow(k, s), Ahead(s.rx, Sent(k, s.tasks)));
    SubsequenceConcat(Delivered(s.inbox, k.id), s.rx.handed, OnTheWayNow(k, s), Ahead(s.rx, Sent(k, s.tasks)));
    SubsequenceTrans(Delivered(s.inbox, k.id) + OnTheWayNow(k, s), Kept(k.config, Taken(c)), Taken(c));
    SubsequenceRefl(c.queue);
    EmptySubsequence(c.queue);
    SubsequenceConcat(Delivered(s.inbox, k.id) + OnTheWayNow(k, s), Taken(c), queue, c.queue);
    ReceivedIsFront(k, s);
    PrefixSubsequence(s.inbox.received, Chain(k, s));
    SubsequenceTrans(s.inbox.received, Chain(k, s), c.accepted);
  }

  lemma SystemDelivered(k: Link, s: System)
    requires SystemInv(k, s)
    ensures Subsequence(Delivered(s.inbox, k.id), s.rx.handed)
  {
  }

  lemma ReceivedIsFront(k: Link, s: System)
    ensures s.inbox.received <= Chain(k, s)
  {
    hide OnTheWayNow, SenderUp, PayloadsOn, BufferOf;
  }

  /** Told from the configuration: no run wraps a length on a channel whose limit fits the length field. */
  lemma OrderedWithinLimit(k: Link, ms: seq<Move>, s: System)
    requires k.config.OrderedReliable? && k.config.maxFrameSize + PROTOCOL_HEADER_LEN < LENGTH_FIELD_RANGE
    requires Moves(k, START, ms, s)
    ensures Subsequence(Chain(k, s), Observed(k, s.tasks).accepted)
    ensures Subsequence(s.inbox.received, Observed(k, s.tasks).accepted)
  {
    hide Moves, Chain, Observed, NoneWraps;
    SmallLimitNeverWraps(k, s.tasks);
    OrderedDelivery(k, ms, s);
  }
}
