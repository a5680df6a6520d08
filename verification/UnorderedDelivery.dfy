/** End-to-end delivery of one unordered channel: every payload has a stream of its own, with its own
    child task on the send side and its own receiving task, and all of them share the queue of received
    packets. Payloads may overtake each other, so they are counted as multisets. */
module UnorderedDelivery {
  import opened Prelude
  import opened Codec
  import opened StreamReceive
  import opened RecvChannels
  import opened ChannelTask
  import opened ConnectionTasks
  import opened Subsequences
  import opened Receivers
  import opened Inboxes
  import opened Links

  /** `rxs` are the receiving tasks, in the order of the children whose streams they read. */
  datatype System = System(tasks: State, rxs: seq<Receiver>, inbox: Inbox)

  const START: System := System(INITIAL, [], EMPTY)

  datatype Move =
    | Sender(step: Step)
    | BytesArrive(j: nat, n: nat)
    | DecodeNext(j: nat)
    | StopsListening(j: nat)
    | OtherStream(packet: Packet)
    | DispatchNext
    | AppReads(channel: ChannelId)
    | ClearsBuffers

  function Children(k: Link, t: State): seq<Child> {
    Observed(k, t).children
  }

  predicate MoveEnabled(k: Link, s: System, m: Move) {
    match m
    case Sender(step) => Enabled(s.tasks, step) && CreatesObserved(k, s.tasks, step)
    case BytesArrive(j, n) =>
      && j < |s.rxs| && j < |Children(k, s.tasks)| && s.rxs[j].listening
      && s.rxs[j].arrived + n <= |Children(k, s.tasks)[j].stream|
    case DecodeNext(j) => j < |s.rxs| && s.rxs[j].listening && |s.inbox.incoming| < DEFAULT_MESSAGE_QUEUE_SIZE
    case StopsListening(j) => j < |s.rxs| && s.rxs[j].listening
    case OtherStream(p) => p.channel != k.id && |s.inbox.incoming| < DEFAULT_MESSAGE_QUEUE_SIZE
    case DispatchNext => s.inbox.incoming != []
    case AppReads(_) => true
    case ClearsBuffers => true
  }

  /** A stream that is opened gets a receiving task. */
  function Moved(k: Link, s: System, m: Move): System
    requires MoveEnabled(k, s, m)
  {
    match m
    case Sender(step) =>
      var t := Apply(s.tasks, step);
      s.(tasks := t, rxs := if |s.rxs| < |Children(k, t)| then s.rxs + [FRESH] else s.rxs)
    case BytesArrive(j, n) =>
      var r := s.rxs[j];
      s.(rxs := s.rxs[j := ReadBytes(r, Children(k, s.tasks)[j].stream[r.arrived..r.arrived + n])])
    case DecodeNext(j) =>
      var (r, packets) := HandOnNext(s.rxs[j], k.decoderMax);
      s.(rxs := s.rxs[j := r], inbox := Queued(s.inbox, packets))
    case StopsListening(j) => s.(rxs := s.rxs[j := s.rxs[j].(listening := false)])
    case OtherStream(p) => s.(inbox := Queued(s.inbox, [p]))
    case DispatchNext => s.(inbox := Dispatched(s.inbox, k.cfg))
    case AppReads(c) => s.(inbox := AppRead(s.inbox, k.id, c))
    case ClearsBuffers => s.(inbox := ClearedInbox(s.inbox))
  }

  predicate Moves(k: Link, a: System, ms: seq<Move>, b: System)
    decreases |ms|
  {
    if ms == [] then a == b
    else MoveEnabled(k, a, ms[0]) && Moves(k, Moved(k, a, ms[0]), ms[1..], b)
  }

  // ---------------------------------------------------------------- where a payload can be

  /** What a child can still write. */
  function Unwritten(k: Link, c: Child): Bytes {
    match c.phase
    case ChildOpening => Encoded(k.id, k.config, c.payload)
    case ChildSending => c.buffer
    case _ => []
  }

  /** What can still be received of one child's payload, from one parse of the bytes of its stream that are
      on the way. */
  function ChildWay(k: Link, c: Child, r: Receiver): seq<Bytes> {
    OnTheWay(k.id, r, c.stream, Unwritten(k, c))
  }

  function Way(k: Link, cs: seq<Child>, rxs: seq<Receiver>): multiset<Bytes> {
    if cs == [] || rxs == [] then multiset{}
    else multiset(ChildWay(k, cs[0], rxs[0])) + Way(k, cs[1..], rxs[1..])
  }

  /** Every payload of the channel, from the application back to the send queue. */
  function Account(k: Link, s: System): multiset<Bytes> {
    var c := Observed(k, s.tasks);
    multiset(Delivered(s.inbox, k.id)) + Way(k, c.children, s.rxs) +
      multiset(if ReceiverAlive(s.tasks, c) then c.queue else [])
  }

  // ---------------------------------------------------------------- what the receiving tasks handed on

  function Handed(rxs: seq<Receiver>): multiset<Bytes> {
    if rxs == [] then multiset{} else multiset(rxs[0].handed) + Handed(rxs[1..])
  }

  lemma {:induction false} HandedUpdate(rxs: seq<Receiver>, j: nat, r: Receiver, more: seq<Bytes>)
    requires j < |rxs| && r.handed == rxs[j].handed + more
    ensures Handed(rxs[j := r]) == Handed(rxs) + multiset(more)
  {
    if j > 0 {
      HandedUpdate(rxs[1..], j - 1, r, more);
      assert rxs[j := r][1..] == rxs[1..][j - 1 := r];
    } else {
      assert rxs[0 := r][1..] == rxs[1..];
    }
  }

  lemma {:induction false} HandedFresh(rxs: seq<Receiver>)
    ensures Handed(rxs + [FRESH]) == Handed(rxs)
  {
    if rxs == [] {
      assert rxs + [FRESH] == [FRESH] && [FRESH][1..] == [];
    } else {
      HandedFresh(rxs[1..]);
      assert (rxs + [FRESH])[1..] == rxs[1..] + [FRESH];
    }
  }

  // ---------------------------------------------------------------- invariant

  /** The payload of a child, if the encoder takes it. */
  function Sendable(k: Link, p: Bytes): seq<Bytes> {
    if Fits(k.config, p) then [p] else []
  }

  lemma SendableIsEncoded(k: Link, p: Bytes)
    ensures EncodeStream(Messages(k.id, Sendable(k, p))) == Encoded(k.id, k.config, p)
  {
    hide Fits, Frame;
    assert [p][1..] == [];
    assert Messages(k.id, [p]) == [Packet(k.id, p)] && [Packet(k.id, p)][1..] == [];
    assert EncodeStream([]) == [];
    assert Frame(k.id, p) + [] == Frame(k.id, p);
  }

  /** A receiving task is in step with its child's stream and has handed on nothing but the child's payload. */
  predicate ChildOk(k: Link, c: Child, r: Receiver) {
    InStep(k.id, k.decoderMax, r, c.stream) && r.handed <= Sendable(k, c.payload)
  }

  ghost predicate PathsOk(k: Link, cs: seq<Child>, rxs: seq<Receiver>) {
    |rxs| == |cs| && forall j :: 0 <= j < |cs| ==> ChildOk(k, cs[j], rxs[j])
  }

  ghost predicate SystemInv(k: Link, s: System) {
    && ObservedOk(k, s.tasks)
    && PathsOk(k, Children(k, s.tasks), s.rxs)
    && multiset(Delivered(s.inbox, k.id)) <= Handed(s.rxs)
  }

  /** Stream and unwritten bytes are the frame of the child's payload, cut short by an error at most. */
  lemma ChildReads(k: Link, c: Child, r: Receiver)
    requires ChildInv(k.id, k.config, c) && ChildOk(k, c, r)
    ensures Reads(k.id, k.decoderMax, r, c.stream, Unwritten(k, c), Sendable(k, c.payload))
    ensures !c.failed && Fits(k.config, c.payload) ==>
              c.stream + Unwritten(k, c) == EncodeStream(Messages(k.id, Sendable(k, c.payload)))
  {
    SendableIsEncoded(k, c.payload);
    hide InStep, Frame, Fits, Messages, EncodeStream;
    assert c.stream + [] == c.stream;
  }

  lemma ObservedChild(k: Link, t: State, j: nat)
    requires ObservedOk(k, t) && k.config.UnorderedReliable? && j < |Children(k, t)|
    ensures ChildInv(k.id, k.config, Children(k, t)[j])
    ensures Children(k, t)[j].payload in Observed(k, t).accepted
  {
    ObservedInv(k, t);
    hide ObservedOk, Observed, ChildInv, QueueIsRest;
    var c := Observed(k, t);
    assert c.children[j].payload == Taken(c)[j] && Taken(c)[j] in c.accepted;
  }

  lemma ChildIsShort(k: Link, t: State, j: nat)
    requires ObservedOk(k, t) && k.config.UnorderedReliable? && j < |Children(k, t)| && NoneWraps(k, t)
    ensures Short(Sendable(k, Children(k, t)[j].payload))
  {
    ObservedChild(k, t, j);
    hide ObservedOk, Fits, Observed;
  }

  // ---------------------------------------------------------------- every move keeps the invariant

  /** `ds` are the children later on: nobody takes anything back, and new ones only join at the end. */
  ghost predicate Grown(cs: seq<Child>, ds: seq<Child>) {
    && |cs| <= |ds| <= |cs| + 1
    && forall j :: 0 <= j < |cs| ==> cs[j].payload == ds[j].payload && cs[j].stream <= ds[j].stream
  }

  lemma ChildGrows(id: ChannelId, config: ChannelConfig, c: Child, step: ChildStep)
    requires ChildEnabled(c, step)
    ensures var d := ChildApply(id, config, c, step); d.payload == c.payload && c.stream <= d.stream
  {
    hide Fits, Frame;
  }

  lemma TaskGrowsChildren(c: Chan, ts: TaskStep)
    requires TaskEnabled(c, ts)
    ensures Grown(c.children, TaskApply(c, ts).children)
  {
    hide ChildApply, ChildEnabled, Fits, Frame;
    if ts.OfChild? {
      ChildGrows(c.id, c.config, c.children[ts.k], ts.step);
    }
  }

  lemma ChildrenGrow(k: Link, t: State, step: Step)
    requires ObservedOk(k, t) && Enabled(t, step) && CreatesObserved(k, t, step)
    ensures Grown(Children(k, t), Children(k, Apply(t, step)))
  {
    if step.Task? && step.h == k.h {
      ObservedTaskStep(k, t, step.step);
      TaskGrowsChildren(t.chans[k.h], step.step);
    } else if step.Accepts? && step.h == k.h {
      ObservedAccept(k, t, step.payload);
    } else {
      OtherStepFrame(k, t, step);
    }
    hide Inv, Enabled, Apply, TaskApply, TaskEnabled;
  }

  lemma PathsGrow(k: Link, cs: seq<Child>, ds: seq<Child>, rxs: seq<Receiver>)
    requires PathsOk(k, cs, rxs) && Grown(cs, ds)
    ensures PathsOk(k, ds, if |rxs| < |ds| then rxs + [FRESH] else rxs)
  {
    hide InStep, Sendable;
    forall j | 0 <= j < |ds| ensures ChildOk(k, ds[j], (rxs + [FRESH])[j]) {
      if j < |cs| {
        assert ChildOk(k, cs[j], rxs[j]);
        InStepGrows(k.id, k.decoderMax, rxs[j], cs[j].stream, ds[j].stream);
      } else {
        FreshInStep(k.id, k.decoderMax, ds[j].stream);
      }
    }
  }

  lemma SenderKeeps(k: Link, s: System, step: Step)
    requires SystemInv(k, s) && MoveEnabled(k, s, Sender(step))
    ensures SystemInv(k, Moved(k, s, Sender(step)))
  {
    hide Observed, ObservedOk, Enabled, Apply, CreatesObserved, PathsOk, Delivered, Taken;
    ObservedStep(k, s.tasks, step);
    ChildrenGrow(k, s.tasks, step);
    PathsGrow(k, Children(k, s.tasks), Children(k, Apply(s.tasks, step)), s.rxs);
    HandedFresh(s.rxs);
  }

  lemma PathsUpdate(k: Link, cs: seq<Child>, rxs: seq<Receiver>, j: nat, r: Receiver)
    requires PathsOk(k, cs, rxs) && j < |cs| && ChildOk(k, cs[j], r)
    ensures PathsOk(k, cs, rxs[j := r])
  {
    hide ChildOk;
  }

  lemma ArrivalKeeps(k: Link, s: System, j: nat, n: nat)
    requires SystemInv(k, s) && MoveEnabled(k, s, BytesArrive(j, n))
    ensures SystemInv(k, Moved(k, s, BytesArrive(j, n)))
    ensures Handed(Moved(k, s, BytesArrive(j, n)).rxs) == Handed(s.rxs)
  {
    hide ObservedOk, InStep, Delivered, Sendable, Enabled, Apply, HandOnNext, Dispatched, AppRead, Observed;
    var c, r := Children(k, s.tasks)[j], s.rxs[j];
    assert ChildOk(k, c, r);
    var read := ReadBytes(r, c.stream[r.arrived..r.arrived + n]);
    ReadStaysInStep(k.id, k.decoderMax, r, c.stream, n);
    PathsUpdate(k, Children(k, s.tasks), s.rxs, j, read);
    HandedUpdate(s.rxs, j, read, []);
  }

  /** The payload that is handed on is the child's own, and it has not been handed on before. */
  lemma DecodeKeeps(k: Link, s: System, j: nat)
    requires k.config.UnorderedReliable? && SystemInv(k, s) && MoveEnabled(k, s, DecodeNext(j))
    requires NoneWraps(k, s.tasks)
    ensures var t := Moved(k, s, DecodeNext(j));
            && SystemInv(k, t)
            && exists more: seq<Bytes> ::
                 && Handed(t.rxs) == Handed(s.rxs) + multiset(more)
                 && Delivered(t.inbox, k.id) == Delivered(s.inbox, k.id) + more
  {
    hide ObservedOk, InStep, Delivered, Sendable, HandOnNext, DecodeOnce, EncodeStream, Messages, Ahead, Unwritten,
      NoneWraps, PayloadsOn, Enabled, Apply, Dispatched, AppRead, Observed, ChildInv, Short;
    var c, r := Children(k, s.tasks)[j], s.rxs[j];
    ObservedChild(k, s.tasks, j);
    ChildIsShort(k, s.tasks, j);
    assert ChildOk(k, c, r);
    ChildReads(k, c, r);
    HandOnKeeps(k.id, k.decoderMax, r, c.stream, Unwritten(k, c), Sendable(k, c.payload));
    var (next, packets) := HandOnNext(r, k.decoderMax);
    var more := if packets == [] then [] else [packets[0].payload];
    QueuedGrows(s.inbox, packets, k.id);
    if packets == [] {
      NoPackets(k.id);
    } else {
      OnePacket(packets[0], k.id);
    }
    assert next.handed == r.handed + more;
    PathsUpdate(k, Children(k, s.tasks), s.rxs, j, next);
    HandedUpdate(s.rxs, j, next, more);
    assert multiset(Delivered(s.inbox, k.id) + more) == multiset(Delivered(s.inbox, k.id)) + multiset(more);
  }

  lemma StopKeeps(k: Link, s: System, j: nat)
    requires SystemInv(k, s) && MoveEnabled(k, s, StopsListening(j))
    ensures SystemInv(k, Moved(k, s, StopsListening(j)))
    ensures Handed(Moved(k, s, StopsListening(j)).rxs) == Handed(s.rxs)
  {
    hide ObservedOk, Delivered, Sendable, Enabled, Apply, HandOnNext, Dispatched, AppRead, Observed;
    var c, r := Children(k, s.tasks)[j], s.rxs[j];
    assert ChildOk(k, c, r);
    PathsUpdate(k, Children(k, s.tasks), s.rxs, j, r.(listening := false));
    HandedUpdate(s.rxs, j, r.(listening := false), []);
  }

  lemma InboxLeavesOut(k: Link, s: System, m: Move)
    requires MoveEnabled(k, s, m) && (m.OtherStream? || m.DispatchNext? || m.AppReads? || m.ClearsBuffers?)
    ensures Subsequence(Delivered(Moved(k, s, m).inbox, k.id), Delivered(s.inbox, k.id))
    ensures !EventLoses(k, s, m) ==> Delivered(Moved(k, s, m).inbox, k.id) == Delivered(s.inbox, k.id)
  {
    hide Subsequence, Delivered, PayloadsOn, Dispatched, AppRead, ClearedInbox, Stored, NoRoom, BufferOf;
    SubsequenceRefl(Delivered(s.inbox, k.id));
    match m
    case OtherStream(p) =>
      QueuedGrows(s.inbox, [p], k.id);
      OnePacket(p, k.id);
      assert Delivered(s.inbox, k.id) + [] == Delivered(s.inbox, k.id);
    case DispatchNext =>
      DispatchLeavesOut(s.inbox, k.cfg, k.id);
      RoomIsStored(s.inbox.buffers, k.cfg, s.inbox.incoming[0]);
    case AppReads(c) => ReadMoves(s.inbox, k.id, c);
    case ClearsBuffers => ClearLeavesOut(s.inbox, k.id);
  }

  lemma InboxKeeps(k: Link, s: System, m: Move)
    requires SystemInv(k, s) && MoveEnabled(k, s, m)
    requires m.OtherStream? || m.DispatchNext? || m.AppReads? || m.ClearsBuffers?
    ensures SystemInv(k, Moved(k, s, m))
  {
    hide ObservedOk, PathsOk, Delivered, Subsequence, Children, EventLoses, Enabled, Apply, HandOnNext, Dispatched,
      AppRead, ClearedInbox, CreatesObserved;
    InboxLeavesOut(k, s, m);
    SubsequenceMultiset(Delivered(Moved(k, s, m).inbox, k.id), Delivered(s.inbox, k.id));
  }

  lemma MoveKeeps(k: Link, s: System, m: Move)
    requires k.config.UnorderedReliable? && SystemInv(k, s) && MoveEnabled(k, s, m) && NoneWraps(k, s.tasks)
    ensures SystemInv(k, Moved(k, s, m))
  {
    hide SystemInv, Moved, MoveEnabled, NoneWraps;
    match m
    case Sender(step) => SenderKeeps(k, s, step);
    case BytesArrive(j, n) => ArrivalKeeps(k, s, j, n);
    case DecodeNext(j) => DecodeKeeps(k, s, j);
    case StopsListening(j) => StopKeeps(k, s, j);
    case _ => InboxKeeps(k, s, m);
  }

  /** What comes from outside does what it says: a receiver that stops hands on nothing more, ever; a packet of
      another stream joins the payloads of its own channel; clearing loses what is buffered and nothing else. None of
      it asks for more than room in the queue. */
  lemma OutsideMoves(k: Link, s: System, m: Move)
    requires MoveEnabled(k, s, m)
    ensures m.OtherStream? ==>
              var c := m.packet.channel;
              PayloadsOn(Moved(k, s, m).inbox.incoming, c) == PayloadsOn(s.inbox.incoming, c) + [m.packet.payload]
    ensures m.ClearsBuffers? ==>
              Delivered(Moved(k, s, m).inbox, k.id) == s.inbox.received + PayloadsOn(s.inbox.incoming, k.id)
    ensures MoveEnabled(k, s, ClearsBuffers) && forall c :: MoveEnabled(k, s, AppReads(c))
    ensures forall p: Packet :: p.channel != k.id && |s.inbox.incoming| < DEFAULT_MESSAGE_QUEUE_SIZE ==>
              MoveEnabled(k, s, OtherStream(p))
  {
    hide Delivered, PayloadsOn, Enabled, Apply, HandOnNext, Dispatched, AppRead, Children;
    if m.OtherStream? {
      PayloadsOnAppend(s.inbox.incoming, [m.packet], m.packet.channel);
      OnePacket(m.packet, m.packet.channel);
    }
    ClearLeavesOut(s.inbox, k.id);
  }

  lemma {:induction false} NothingAfterStop(k: Link, s: System, j: nat, ms: seq<Move>, t: System)
    requires MoveEnabled(k, s, StopsListening(j)) && Moves(k, Moved(k, s, StopsListening(j)), ms, t)
    ensures j < |t.rxs| && t.rxs[j].handed == s.rxs[j].handed && !t.rxs[j].listening
  {
    DeafHandsOn(k, Moved(k, s, StopsListening(j)), j, ms, t);
  }

  lemma {:induction false} DeafHandsOn(k: Link, s: System, j: nat, ms: seq<Move>, t: System)
    requires j < |s.rxs| && !s.rxs[j].listening && Moves(k, s, ms, t)
    ensures j < |t.rxs| && t.rxs[j].handed == s.rxs[j].handed && !t.rxs[j].listening
    decreases |ms|
  {
    hide Enabled, Apply, HandOnNext, Dispatched, AppRead, ReadBytes, Children;
    if ms != [] {
      DeafHandsOn(k, Moved(k, s, ms[0]), j, ms[1..], t);
    }
  }

  /** The queue of received packets never holds more than it was made for. */
  lemma {:induction false} IncomingBounded(k: Link, a: System, ms: seq<Move>, b: System)
    requires |a.inbox.incoming| <= DEFAULT_MESSAGE_QUEUE_SIZE && Moves(k, a, ms, b)
    ensures |b.inbox.incoming| <= DEFAULT_MESSAGE_QUEUE_SIZE
    decreases |ms|
  {
    hide Enabled, Apply, DecodeOnce, DispatchOne, PopFront, Cleared, Observed, ReadBytes;
    if ms != [] {
      IncomingBounded(k, Moved(k, a, ms[0]), ms[1..], b);
    }
  }

  lemma WrapsBefore(k: Link, s: System, m: Move)
    requires MoveEnabled(k, s, m) && NoneWraps(k, Moved(k, s, m).tasks)
    ensures NoneWraps(k, s.tasks)
  {
    hide NoneWraps, Enabled, Apply, HandOnNext, Dispatched, AppRead, Observed;
    if m.Sender? {
      NoneWrapsBefore(k, s.tasks, m.step);
    }
  }

  lemma {:induction false} NoneWrapsAtFirst(k: Link, a: System, ms: seq<Move>, b: System)
    requires Moves(k, a, ms, b) && NoneWraps(k, b.tasks)
    ensures NoneWraps(k, a.tasks)
    decreases |ms|
  {
    hide MoveEnabled, Moved, NoneWraps;
    if ms != [] {
      NoneWrapsAtFirst(k, Moved(k, a, ms[0]), ms[1..], b);
      WrapsBefore(k, a, ms[0]);
    }
  }

  lemma {:induction false} MovesKeep(k: Link, a: System, ms: seq<Move>, b: System)
    requires k.config.UnorderedReliable? && SystemInv(k, a) && Moves(k, a, ms, b) && NoneWraps(k, b.tasks)
    ensures SystemInv(k, b)
    decreases |ms|
  {
    hide SystemInv, MoveEnabled, Moved, NoneWraps;
    if ms != [] {
      NoneWrapsAtFirst(k, a, ms, b);
      MoveKeeps(k, a, ms[0]);
      MovesKeep(k, Moved(k, a, ms[0]), ms[1..], b);
    }
  }

  lemma StartInv(k: Link)
    ensures SystemInv(k, START) && multiset(Delivered(EMPTY, k.id)) == Handed([])
  {
    StartObserved(k);
    hide ObservedOk;
  }

  // ---------------------------------------------------------------- none twice, none invented

  /** What was handed on of one child and what can still be received of it is its payload at most. */
  lemma ChildAccount(k: Link, c: Child, r: Receiver)
    requires ChildInv(k.id, k.config, c) && ChildOk(k, c, r) && Short(Sendable(k, c.payload))
    ensures ChildPart(k, c, r) <= multiset{c.payload}
    ensures ChildExact(k, c, r) ==> ChildPart(k, c, r) == multiset{c.payload}
  {
    ChildReads(k, c, r);
    hide ChildInv, Fits, InStep, EncodeStream, Messages, OnTheWay, Unwritten;
    var ps := Sendable(k, c.payload);
    WayIsAhead(k.id, k.decoderMax, r, c.stream, Unwritten(k, c), ps);
    hide Reads;
    FrontAndPart(r.handed, ChildWay(k, c, r), ps);
    assert multiset(ps) <= multiset{c.payload};
  }

  lemma FrontAndPart(front: seq<Bytes>, part: seq<Bytes>, all: seq<Bytes>)
    requires front <= all && part <= all[|front|..]
    ensures multiset(front) + multiset(part) <= multiset(all)
    ensures |front| + |part| == |all| ==> multiset(front) + multiset(part) == multiset(all)
  {
    var rest := all[|front| + |part|..];
    assert all == front + part + rest;
  }

  /** The payload of child `c`, as far as it has been handed on or is on the way. */
  function ChildPart(k: Link, c: Child, r: Receiver): multiset<Bytes> {
    multiset(r.handed) + multiset(ChildWay(k, c, r))
  }

  lemma PartsAdd(a: multiset<Bytes>, b: multiset<Bytes>, x: multiset<Bytes>,
                 c: multiset<Bytes>, d: multiset<Bytes>, y: multiset<Bytes>)
    ensures a + b <= x && c + d <= y ==> (a + c) + (b + d) <= x + y
    ensures a + b == x && c + d == y ==> (a + c) + (b + d) == x + y
  {
    assert (a + c) + (b + d) == (a + b) + (c + d);
  }

  lemma FirstPart(k: Link, cs: seq<Child>, rxs: seq<Receiver>, ps: seq<Bytes>)
    requires |cs| == |rxs| == |ps| > 0
    ensures Handed(rxs) == multiset(rxs[0].handed) + Handed(rxs[1..])
    ensures Way(k, cs, rxs) == multiset(ChildWay(k, cs[0], rxs[0])) + Way(k, cs[1..], rxs[1..])
    ensures multiset(ps) == multiset{ps[0]} + multiset(ps[1..])
  {
    hide ChildWay;
    assert ps == [ps[0]] + ps[1..];
  }

  /** The same over all children of the channel. */
  lemma {:induction false} AllAccounts(k: Link, cs: seq<Child>, rxs: seq<Receiver>, ps: seq<Bytes>)
    requires |cs| == |rxs| == |ps|
    requires forall j :: 0 <= j < |cs| ==> ChildPart(k, cs[j], rxs[j]) <= multiset{ps[j]}
    ensures Handed(rxs) + Way(k, cs, rxs) <= multiset(ps)
  {
    hide ChildWay;
    if cs != [] {
      assert ChildPart(k, cs[0], rxs[0]) <= multiset{ps[0]};
      PartsAdd(multiset(rxs[0].handed), multiset(ChildWay(k, cs[0], rxs[0])), multiset{ps[0]},
               Handed(rxs[1..]), Way(k, cs[1..], rxs[1..]), multiset(ps[1..]));
      FirstPart(k, cs, rxs, ps);
      hide ChildPart, Handed, Way;
      forall j | 0 <= j < |cs[1..]| ensures ChildPart(k, cs[1..][j], rxs[1..][j]) <= multiset{ps[1..][j]} {
        assert ChildPart(k, cs[j + 1], rxs[j + 1]) <= multiset{ps[j + 1]};
      }
      AllAccounts(k, cs[1..], rxs[1..], ps[1..]);
    }
  }

  lemma {:induction false} AllExact(k: Link, cs: seq<Child>, rxs: seq<Receiver>, ps: seq<Bytes>)
    requires |cs| == |rxs| == |ps|
    requires forall j :: 0 <= j < |cs| ==> ChildPart(k, cs[j], rxs[j]) == multiset{ps[j]}
    ensures Handed(rxs) + Way(k, cs, rxs) == multiset(ps)
  {
    hide ChildWay;
    if cs != [] {
      assert ChildPart(k, cs[0], rxs[0]) == multiset{ps[0]};
      PartsAdd(multiset(rxs[0].handed), multiset(ChildWay(k, cs[0], rxs[0])), multiset{ps[0]},
               Handed(rxs[1..]), Way(k, cs[1..], rxs[1..]), multiset(ps[1..]));
      FirstPart(k, cs, rxs, ps);
      hide ChildPart, Handed, Way;
      forall j | 0 <= j < |cs[1..]| ensures ChildPart(k, cs[1..][j], rxs[1..][j]) == multiset{ps[1..][j]} {
        assert ChildPart(k, cs[j + 1], rxs[j + 1]) == multiset{ps[j + 1]};
      }
      AllExact(k, cs[1..], rxs[1..], ps[1..]);
    }
  }

  lemma ChildrenArePayloads(k: Link, t: State)
    requires ObservedOk(k, t) && k.config.UnorderedReliable?
    ensures var c := Observed(k, t);
            && |c.children| == |Taken(c)|
            && (forall j :: 0 <= j < |c.children| ==> c.children[j].payload == Taken(c)[j])
            && multiset(c.accepted) == multiset(Taken(c)) + multiset(c.queue)
  {
    ObservedInv(k, t);
    TakenAndQueue(Observed(k, t));
    hide ObservedOk, Observed, ChildInv, QueueIsRest, Taken;
  }

  lemma PartsOf(k: Link, s: System, j: nat)
    requires SystemInv(k, s) && k.config.UnorderedReliable? && NoneWraps(k, s.tasks) && j < |s.rxs|
    ensures var c := Children(k, s.tasks)[j];
            && ChildPart(k, c, s.rxs[j]) <= multiset{c.payload}
            && (ChildExact(k, c, s.rxs[j]) ==> ChildPart(k, c, s.rxs[j]) == multiset{c.payload})
  {
    hide ObservedOk, Observed, NoneWraps, Delivered, ChildOk, Short, ChildExact;
    ObservedChild(k, s.tasks, j);
    ChildIsShort(k, s.tasks, j);
    ChildAccount(k, Children(k, s.tasks)[j], s.rxs[j]);
  }

  lemma HandedAndWay(k: Link, s: System)
    requires SystemInv(k, s) && k.config.UnorderedReliable? && NoneWraps(k, s.tasks)
    ensures Handed(s.rxs) + Way(k, Children(k, s.tasks), s.rxs) <= multiset(Taken(Observed(k, s.tasks)))
    ensures (forall j :: 0 <= j < |s.rxs| ==> ChildExact(k, Children(k, s.tasks)[j], s.rxs[j])) ==>
              Handed(s.rxs) + Way(k, Children(k, s.tasks), s.rxs) == multiset(Taken(Observed(k, s.tasks)))
  {
    hide ObservedOk, Observed, NoneWraps, Taken, Delivered, ChildOk, ChildPart, ChildExact;
    var cs := Children(k, s.tasks);
    ChildrenArePayloads(k, s.tasks);
    forall j | 0 <= j < |cs|
      ensures ChildPart(k, cs[j], s.rxs[j]) <= multiset{cs[j].payload}
      ensures ChildExact(k, cs[j], s.rxs[j]) ==> ChildPart(k, cs[j], s.rxs[j]) == multiset{cs[j].payload}
    {
      PartsOf(k, s, j);
    }
    AllAccounts(k, cs, s.rxs, Taken(Observed(k, s.tasks)));
    if forall j :: 0 <= j < |s.rxs| ==> ChildExact(k, cs[j], s.rxs[j]) {
      AllExact(k, cs, s.rxs, Taken(Observed(k, s.tasks)));
    }
  }

  /** In every reachable state of the whole system, whatever is lost on the way: what the application has
      read, what is buffered, queued, on the way and still to be sent is a sub-multiset of the accepted
      payloads. No payload arrives twice and none is invented. */
  lemma UnorderedArrivesOnce(k: Link, ms: seq<Move>, s: System)
    requires k.config.UnorderedReliable? && Moves(k, START, ms, s) && NoneWraps(k, s.tasks)
    ensures Account(k, s) <= multiset(Observed(k, s.tasks).accepted)
    ensures multiset(s.inbox.received) <= multiset(Observed(k, s.tasks).accepted)
  {
    hide Moves, NoneWraps, ReceiverAlive;
    StartInv(k);
    MovesKeep(k, START, ms, s);
    HandedAndWay(k, s);
    ChildrenArePayloads(k, s.tasks);
    hide ObservedOk, Observed, PathsOk, Taken, PayloadsOn, BufferOf, Way;
    var i := s.inbox;
    assert multiset(Delivered(i, k.id)) ==
           multiset(i.received) + multiset(BufferOf(i.buffers, k.id)) + multiset(PayloadsOn(i.incoming, k.id));
  }

  // ---------------------------------------------------------------- all of them, without losing events

  /** The receiver of a child has read its whole stream, down to the last frame. */
  predicate AtEndOfStream(c: Child, r: Receiver) {
    !ChildLive(c) && r.arrived == |c.stream| && r.dec == Decoding(Head, [])
  }

  /** The events that cost payloads: those on the send side, stopping before the end of a stream, a packet for
      which there is no room, and clearing buffered payloads. */
  predicate EventLoses(k: Link, s: System, m: Move)
    requires MoveEnabled(k, s, m)
  {
    match m
    case Sender(step) => SenderEventLoses(k, s.tasks, step)
    case StopsListening(j) => j < |Children(k, s.tasks)| && !AtEndOfStream(Children(k, s.tasks)[j], s.rxs[j])
    case DispatchNext => s.inbox.incoming[0].channel == k.id && NoRoom(s.inbox.buffers, k.cfg, k.id)
    case ClearsBuffers => BufferOf(s.inbox.buffers, k.id) != []
    case _ => false
  }

  predicate EventfreeMoves(k: Link, a: System, ms: seq<Move>, b: System)
    decreases |ms|
  {
    if ms == [] then a == b
    else MoveEnabled(k, a, ms[0]) && !EventLoses(k, a, ms[0]) && EventfreeMoves(k, Moved(k, a, ms[0]), ms[1..], b)
  }

  /** The payload of a child can be or has been handed on. */
  predicate ChildExact(k: Link, c: Child, r: Receiver) {
    !c.failed && Fits(k.config, c.payload) && (r.listening || r.handed == [c.payload])
  }

  ghost predicate Exact(k: Link, s: System) {
    && SystemInv(k, s) && Clean(k, s.tasks)
    && multiset(Delivered(s.inbox, k.id)) == Handed(s.rxs)
    && forall j :: 0 <= j < |s.rxs| && !s.rxs[j].listening ==> s.rxs[j].handed == [Children(k, s.tasks)[j].payload]
  }

  lemma CleanChild(k: Link, t: State, j: nat)
    requires ObservedOk(k, t) && Clean(k, t) && k.config.UnorderedReliable? && j < |Children(k, t)|
    ensures var c := Children(k, t)[j];
            !c.failed && Fits(k.config, c.payload) && Deliverable(c.payload, k.decoderMax)
  {
    ObservedChild(k, t, j);
    hide ObservedOk, Observed, Fits, Deliverable;
  }

  lemma ExactAccount(k: Link, s: System)
    requires Exact(k, s) && k.config.UnorderedReliable?
    ensures Account(k, s) == multiset(Observed(k, s.tasks).accepted)
  {
    hide ReceiverAlive;
    CleanNeverWraps(k, s.tasks);
    forall j | 0 <= j < |s.rxs| ensures ChildExact(k, Children(k, s.tasks)[j], s.rxs[j]) {
      CleanChild(k, s.tasks, j);
    }
    HandedAndWay(k, s);
    ChildrenArePayloads(k, s.tasks);
    if !ReceiverAlive(s.tasks, Observed(k, s.tasks)) {
      NothingLeftBehind(k, s.tasks);
    }
    hide ObservedOk, Observed, PathsOk, Taken, Delivered, Way, Clean;
  }

  lemma SenderStaysExact(k: Link, s: System, step: Step)
    requires Exact(k, s) && MoveEnabled(k, s, Sender(step)) && !SenderEventLoses(k, s.tasks, step)
    ensures Exact(k, Moved(k, s, Sender(step)))
  {
    hide Observed, ObservedOk, Enabled, Apply, CreatesObserved, PathsOk, Delivered, Clean;
    SenderKeeps(k, s, step);
    CleanStep(k, s.tasks, step);
    ChildrenGrow(k, s.tasks, step);
    HandedFresh(s.rxs);
    PathsLength(k, Children(k, s.tasks), s.rxs);
  }

  lemma PathsLength(k: Link, cs: seq<Child>, rxs: seq<Receiver>)
    requires PathsOk(k, cs, rxs)
    ensures |rxs| == |cs|
  {
  }

  lemma CleanIsNeverDeaf(k: Link, s: System, j: nat)
    requires Exact(k, s) && k.config.UnorderedReliable? && j < |s.rxs| && s.rxs[j].listening
    ensures HandOnNext(s.rxs[j], k.decoderMax).0.listening
  {
    hide ObservedOk, Clean, Delivered, HandOnNext, Unwritten, ChildInv, Fits, Deliverable, Reads, Observed, InStep;
    var c, r := Children(k, s.tasks)[j], s.rxs[j];
    CleanChild(k, s.tasks, j);
    ObservedChild(k, s.tasks, j);
    assert ChildOk(k, c, r);
    ChildReads(k, c, r);
    NeverDeaf(k.id, k.decoderMax, r, c.stream, Unwritten(k, c), Sendable(k, c.payload));
  }

  lemma DecodeStaysExact(k: Link, s: System, j: nat)
    requires Exact(k, s) && k.config.UnorderedReliable? && MoveEnabled(k, s, DecodeNext(j))
    ensures Exact(k, Moved(k, s, DecodeNext(j)))
  {
    hide SystemInv, Clean, Delivered, HandOnNext, Children, NoneWraps;
    CleanNeverWraps(k, s.tasks);
    DecodeKeeps(k, s, j);
    CleanIsNeverDeaf(k, s, j);
    var t := Moved(k, s, DecodeNext(j));
    var more :| && Handed(t.rxs) == Handed(s.rxs) + multiset(more)
                && Delivered(t.inbox, k.id) == Delivered(s.inbox, k.id) + more;
    assert multiset(Delivered(s.inbox, k.id) + more) == multiset(Delivered(s.inbox, k.id)) + multiset(more);
  }

  /** A receiver at the end of the stream of a child that is done has handed on the child's payload. */
  lemma EndHasHanded(k: Link, c: Child, r: Receiver)
    requires ChildInv(k.id, k.config, c) && ChildOk(k, c, r) && r.listening && AtEndOfStream(c, r)
    requires !c.failed && Fits(k.config, c.payload)
    ensures r.handed == [c.payload]
  {
    hide Fits, Frame;
    assert c.stream[..r.arrived] == c.stream && c.stream == Frame(k.id, c.payload);
    NoMessages(k.id);
  }

  lemma NoMessages(id: ChannelId)
    ensures EncodeStream(Messages(id, [])) + [] == []
  {
  }

  lemma StopStaysExact(k: Link, s: System, j: nat)
    requires Exact(k, s) && k.config.UnorderedReliable?
    requires MoveEnabled(k, s, StopsListening(j)) && !EventLoses(k, s, StopsListening(j))
    ensures Exact(k, Moved(k, s, StopsListening(j)))
  {
    StopKeeps(k, s, j);
    var c, r := Children(k, s.tasks)[j], s.rxs[j];
    CleanChild(k, s.tasks, j);
    ObservedChild(k, s.tasks, j);
    assert ChildOk(k, c, r);
    EndHasHanded(k, c, r);
    hide SystemInv, Clean, Delivered, Children, ChildInv, ChildOk, Fits, Deliverable;
  }

  lemma ArrivalStaysExact(k: Link, s: System, j: nat, n: nat)
    requires Exact(k, s) && MoveEnabled(k, s, BytesArrive(j, n))
    ensures Exact(k, Moved(k, s, BytesArrive(j, n)))
  {
    hide SystemInv, Clean, Delivered, Enabled, Apply, HandOnNext, Dispatched, AppRead, Observed;
    ArrivalKeeps(k, s, j, n);
  }

  lemma InboxStaysExact(k: Link, s: System, m: Move)
    requires Exact(k, s) && MoveEnabled(k, s, m) && !EventLoses(k, s, m)
    requires m.OtherStream? || m.DispatchNext? || m.AppReads? || m.ClearsBuffers?
    ensures Exact(k, Moved(k, s, m))
  {
    hide SystemInv, Clean, Delivered, Children, Subsequence, EventLoses, Enabled, Apply, HandOnNext, Dispatched,
      AppRead, ClearedInbox, CreatesObserved;
    InboxKeeps(k, s, m);
    InboxLeavesOut(k, s, m);
  }

  lemma MoveStaysExact(k: Link, s: System, m: Move)
    requires Exact(k, s) && k.config.UnorderedReliable? && MoveEnabled(k, s, m) && !EventLoses(k, s, m)
    ensures Exact(k, Moved(k, s, m))
  {
    hide Exact, Moved, MoveEnabled, SenderEventLoses;
    match m
    case Sender(step) => SenderStaysExact(k, s, step);
    case BytesArrive(j, n) => ArrivalStaysExact(k, s, j, n);
    case DecodeNext(j) => DecodeStaysExact(k, s, j);
    case StopsListening(j) => StopStaysExact(k, s, j);
    case _ => InboxStaysExact(k, s, m);
  }

  lemma {:induction false} MovesStayExact(k: Link, a: System, ms: seq<Move>, b: System)
    requires k.config.UnorderedReliable? && Exact(k, a) && EventfreeMoves(k, a, ms, b)
    ensures Exact(k, b)
    decreases |ms|
  {
    hide Exact, MoveEnabled, Moved, EventLoses;
    if ms != [] {
      MoveStaysExact(k, a, ms[0]);
      MovesStayExact(k, Moved(k, a, ms[0]), ms[1..], b);
    }
  }

  /** Exact delivery: as long as no payload over a limit is accepted, none after the last look at the queue, no
      stream fails, no peer is lost, every receiver reads its stream to the end, there is room and nothing is
      cleared, every accepted payload is read, buffered, queued, on the way or still to be sent, exactly once. */
  lemma UnorderedArriveAll(k: Link, ms: seq<Move>, s: System)
    requires k.config.UnorderedReliable? && EventfreeMoves(k, START, ms, s)
    ensures Account(k, s) == multiset(Observed(k, s.tasks).accepted)
  {
    StartInv(k);
    StartIsClean(k);
    hide EventfreeMoves, SystemInv, Clean, Delivered, Account;
    MovesStayExact(k, START, ms, s);
    ExactAccount(k, s);
  }
}
