/** When nothing at all is lost on an ordered channel: the moves that can lose a payload, and that
    without them the channel accounts for the accepted payloads one by one. */
module ExactDelivery {
  import opened Prelude
  import opened Codec
  import opened RecvChannels
  import opened StreamReceive
  import opened ChannelTask
  import opened ConnectionTasks
  import opened Subsequences
  import opened Receivers
  import opened Inboxes
  import opened Links
  import opened Delivery

  /** The task drops a payload it has taken, or dies with payloads that it could still have sent: after
      a lost peer, a panic, a stream error, or a payload accepted after its last look at the queue. */
  predicate SenderLoses(k: Link, t: State, step: Step)
    requires Enabled(t, step)
  {
    || DiesWithPayloads(k, t, step)
    || (step.Task? && step.h == k.h && TaskLoses(t.chans[k.h], step.step))
  }

  predicate DiesWithPayloads(k: Link, t: State, step: Step)
    requires Enabled(t, step)
  {
    var d := Observed(k, Apply(t, step));
    ReceiverAlive(t, Observed(k, t)) && !ReceiverAlive(Apply(t, step), d) && (d.queue != [] || d.buffer != [])
  }

  predicate TaskLoses(c: Chan, ts: TaskStep)
    requires TaskEnabled(c, ts)
  {
    match ts
    case WriteFails => c.buffer != []
    case TakeNext(_) => !Fits(c.config, c.queue[0]) || c.failed
    case DrainNext => !Fits(c.config, c.queue[0]) || c.failed
    case _ => false
  }

  /** The receiving task ends while payloads are on the way or may still come. */
  predicate DeafTooEarly(k: Link, s: System) {
    SenderUp(k, s) || OnTheWayNow(k, s) != []
  }

  predicate Loses(k: Link, s: System, m: Move)
    requires MoveEnabled(k, s, m)
  {
    match m
    case Sender(step) => SenderLoses(k, s.tasks, step)
    case DecodeNext => !HandOnNext(s.rx, k.decoderMax).0.listening && DeafTooEarly(k, s)
    case StopsListening => DeafTooEarly(k, s)
    case DispatchNext => s.inbox.incoming[0].channel == k.id && !Stored(s.inbox.buffers, k.cfg, s.inbox.incoming[0])
    case ClearsBuffers => BufferOf(s.inbox.buffers, k.id) != []
    case _ => false
  }

  predicate MovesWithoutLoss(k: Link, a: System, ms: seq<Move>, b: System)
    decreases |ms|
  {
    if ms == [] then a == b
    else MoveEnabled(k, a, ms[0]) && !Loses(k, a, ms[0]) && MovesWithoutLoss(k, Moved(k, a, ms[0]), ms[1..], b)
  }

  // ---------------------------------------------------------------- nothing is missing

  predicate AllFit(config: ChannelConfig, ps: seq<Bytes>) {
    forall i :: 0 <= i < |ps| ==> Fits(config, ps[i])
  }

  /** The send side still has, or has written, every byte of what it took. */
  ghost predicate SenderExact(k: Link, t: State) {
    var c := Observed(k, t);
    && ChanExact(c)
    && (!ReceiverAlive(t, c) ==> c.queue == [] && c.buffer == [])
  }

  ghost predicate Exact(k: Link, s: System) {
    && k.config.OrderedReliable?
    && SystemInv(k, s)
    && SenderExact(k, s.tasks)
    && Delivered(s.inbox, k.id) == s.rx.handed
    && (!s.rx.listening ==> !SenderUp(k, s) && Ahead(s.rx, Sent(k, s.tasks)) == [])
  }

  lemma ExactChain(k: Link, s: System)
    requires Exact(k, s) && NoneWraps(k, s.tasks)
    ensures Chain(k, s) == Observed(k, s.tasks).accepted
  {
    ChainIsAhead(k, s);
    AcceptedParts(k, s);
    var c := Observed(k, s.tasks);
    KeptSubsequence(k.config, Taken(c));
    ObservedInv(k, s.tasks);
    hide ObservedOk, ChanInv, InStep, Taken, Observed, Subsequence, Delivered, Kept, Sent, Ahead, OnTheWay,
      EncodedAll, Fits, ReceiverAlive, NoneWraps;
  }

  /** Nothing that the task took is missing from its stream and buffer. */
  predicate ChanExact(c: Chan) {
    && c.config.OrderedReliable?
    && AllFit(c.config, Taken(c))
    && c.stream + c.buffer == EncodedAll(c.id, c.config, Taken(c))
  }

  lemma TaskStaysExact(c: Chan, ts: TaskStep)
    requires ChanInv(c) && ChanExact(c) && TaskEnabled(c, ts) && !TaskLoses(c, ts)
    ensures ChanExact(TaskApply(c, ts))
  {
    StepFrame(c, ts);
    hide ChanInv, TaskEnabled, TaskApply, Taken, EncodedAll, Fits;
    match ts
    case TakeNext(_) => TakeStaysExact(c, ts);
    case DrainNext => TakeStaysExact(c, ts);
    case _ => BytesStay(c, ts);
  }

  /** A step of the task that takes no payload and loses no byte moves bytes from buffer to stream at most. */
  lemma BytesStay(c: Chan, ts: TaskStep)
    requires ChanInv(c) && c.config.OrderedReliable? && TaskEnabled(c, ts) && !TaskLoses(c, ts)
    requires !ts.TakeNext? && !ts.DrainNext?
    ensures var d := TaskApply(c, ts);
            d.stream + d.buffer == c.stream + c.buffer && Taken(d) == Taken(c)
  {
    SameQueue(c, TaskApply(c, ts));
    hide Taken, EncodedAll, ChildInv, SomeOversize, QueueIsRest;
    if ts.Writes? {
      assert c.stream + c.buffer[..ts.n] + c.buffer[ts.n..] == c.stream + c.buffer;
    }
  }

  /** A payload that fits goes, on a sound stream, behind the bytes of the others. */
  lemma TakeStaysExact(c: Chan, ts: TaskStep)
    requires ChanInv(c) && ChanExact(c) && TaskEnabled(c, ts) && (ts.TakeNext? || ts.DrainNext?) && !TaskLoses(c, ts)
    ensures ChanExact(TaskApply(c, ts))
  {
    TaskKeepsInv(c, ts);
    var inLoop, lost := ts.TakeNext?, ts.TakeNext? && ts.datagramLost;
    ConsumeTakes(c, inLoop, lost);
    ConsumeFrame(c, inLoop, lost);
    hide Taken, EncodedAll, ChildInv, SomeOversize, QueueIsRest, Fits, Consume;
  }

  lemma NoOrderedChildren(c: Chan)
    requires ChanInv(c) && c.config.OrderedReliable?
    ensures c.children == []
  {
    hide Taken, EncodedAll, ChildInv, SomeOversize, QueueIsRest, OnItsWay;
  }

  /** A step elsewhere does not touch the channel's bytes, nor bring a dead send side back. */
  lemma OtherStepStaysExact(k: Link, t: State, step: Step)
    requires ObservedOk(k, t) && SenderExact(k, t) && Enabled(t, step)
    requires CreatesObserved(k, t, step)
    requires Elsewhere(k, step) && !DiesWithPayloads(k, t, step)
    ensures SenderExact(k, Apply(t, step))
    ensures !ReceiverAlive(t, Observed(k, t)) ==> !ReceiverAlive(Apply(t, step), Observed(k, Apply(t, step)))
    ensures Taken(Observed(k, Apply(t, step))) == Taken(Observed(k, t))
  {
    SameQueueBut(k, t, step);
    StaysDead(k, t, step);
    hide Inv, Taken, EncodedAll, Fits, Enabled, Apply, ReceiverAlive, Observed;
  }

  lemma StaysDead(k: Link, t: State, step: Step)
    requires Inv(t) && Enabled(t, step)
    requires Elsewhere(k, step)
    ensures !ReceiverAlive(t, Observed(k, t)) ==> !ReceiverAlive(Apply(t, step), Observed(k, Apply(t, step)))
  {
    hide HeldByAll, Held, ChanOk, TaskApply, TaskMay, KeepaliveChange;
  }

  lemma SameQueueBut(k: Link, t: State, step: Step)
    requires Enabled(t, step)
    requires Elsewhere(k, step)
    requires CreatesObserved(k, t, step)
    ensures var c, d := Observed(k, t), Observed(k, Apply(t, step));
            && d.queue == c.queue && d.buffer == c.buffer && d.stream == c.stream
            && d.id == c.id && d.config == c.config && Taken(d) == Taken(c)
  {
    hide TaskApply, TaskMay, KeepaliveChange;
    SameQueue(Observed(k, t), Observed(k, Apply(t, step)));
    hide Taken;
  }

  lemma AcceptStaysExact(k: Link, t: State, p: Bytes)
    requires ObservedOk(k, t) && SenderExact(k, t) && Enabled(t, Accepts(k.h, p))
    ensures SenderExact(k, Apply(t, Accepts(k.h, p))) && ReceiverAlive(t, Observed(k, t))
    ensures Taken(Observed(k, Apply(t, Accepts(k.h, p)))) == Taken(Observed(k, t))
  {
    hide HeldByAll, Held, ChanInv, Taken, EncodedAll, Fits;
    AcceptKeepsInv(t.chans[k.h], p);
    hide AllFit;
  }

  lemma OwnTaskStaysExact(k: Link, t: State, ts: TaskStep)
    requires ObservedOk(k, t) && SenderExact(k, t) && Enabled(t, Task(k.h, ts)) && !SenderLoses(k, t, Task(k.h, ts))
    ensures SenderExact(k, Apply(t, Task(k.h, ts))) && ReceiverAlive(t, Observed(k, t))
  {
    var c := t.chans[k.h];
    ObservedInv(k, t);
    assert ReceiverAlive(t, c) by { EnabledTaskIsUp(t, c, ts); }
    assert ChanExact(TaskApply(c, ts)) by { TaskStaysExact(c, ts); }
    hide Inv, ChanInv, Taken, EncodedAll, TaskApply, TaskEnabled, ChildEnabled, MayStop, ChanExact, TaskLoses,
      KeepaliveChange, ReceiverAlive, ReportsOf;
    assert Observed(k, Apply(t, Task(k.h, ts))) == TaskApply(c, ts);
  }

  lemma EnabledTaskIsUp(t: State, c: Chan, ts: TaskStep)
    requires ChanInv(c) && c.config.OrderedReliable? && TaskEnabled(c, ts)
    ensures ReceiverAlive(t, c)
  {
    NoOrderedChildren(c);
    hide ChanInv, ChildEnabled;
  }

  lemma SenderStaysExact(k: Link, s: System, step: Step)
    requires Exact(k, s) && MoveEnabled(k, s, Sender(step)) && !SenderLoses(k, s.tasks, step)
    ensures Exact(k, Moved(k, s, Sender(step)))
  {
    SenderKeeps(k, s, step);
    SystemObserved(k, s);
    hide SystemInv, ObservedOk, Enabled, Delivered, Taken, Kept, SenderExact, ReceiverAlive, Observed,
      DiesWithPayloads, TaskLoses, Apply, CreatesObserved;
    if step.Task? && step.h == k.h {
      OwnTaskStaysExact(k, s.tasks, step.step);
    } else if step.Accepts? && step.h == k.h {
      AcceptStaysExact(k, s.tasks, step.payload);
    } else {
      OtherStepStaysExact(k, s.tasks, step);
    }
  }

  lemma SystemObserved(k: Link, s: System)
    requires SystemInv(k, s)
    ensures ObservedOk(k, s.tasks)
  {
  }

  lemma DecodeStaysExact(k: Link, s: System)
    requires Exact(k, s) && MoveEnabled(k, s, DecodeNext) && !Loses(k, s, DecodeNext) && NoneWraps(k, s.tasks)
    ensures Exact(k, Moved(k, s, DecodeNext))
  {
    DecodeKeeps(k, s);
    hide SystemInv, SenderExact, Observed, Delivered, Sent, Ahead, HandOnNext, NoneWraps, OnTheWayNow;
    if !HandOnNext(s.rx, k.decoderMax).0.listening {
      DeafIsExact(k, s);
      hide ReceiverAlive;
      DeafHandsOnNothing(s.rx, k.decoderMax);
    }
  }

  lemma DeafHandsOnNothing(r: Receiver, max: nat)
    requires !HandOnNext(r, max).0.listening && r.listening
    ensures HandOnNext(r, max).0 == r.(listening := false)
  {
    hide DecodeOnce;
  }

  /** When the receiving task ends in time nothing is ahead of it. */
  lemma DeafIsExact(k: Link, s: System)
    requires Exact(k, s) && !DeafTooEarly(k, s) && s.rx.listening && NoneWraps(k, s.tasks)
    ensures Ahead(s.rx, Sent(k, s.tasks)) == []
  {
    ChainIsAhead(k, s);
    SystemObserved(k, s);
    hide SystemInv, Taken, Sent, EncodedAll, Fits, OnTheWayNow, Ahead, NoneWraps;
  }

  lemma StopStaysExact(k: Link, s: System)
    requires Exact(k, s) && MoveEnabled(k, s, StopsListening) && !Loses(k, s, StopsListening) && NoneWraps(k, s.tasks)
    ensures Exact(k, Moved(k, s, StopsListening))
  {
    MoveKeeps(k, s, StopsListening);
    DeafIsExact(k, s);
    hide SystemInv, SenderExact, Observed, Delivered, Sent, OnTheWayNow, NoneWraps;
  }

  lemma InboxStaysExact(k: Link, s: System, m: Move)
    requires Exact(k, s) && MoveEnabled(k, s, m) && !Loses(k, s, m)
    requires m.OtherStream? || m.DispatchNext? || m.AppReads? || m.ClearsBuffers?
    ensures Exact(k, Moved(k, s, m))
  {
    hide SystemInv, SenderExact, Sent, Delivered, Ahead, ReceiverAlive, Observed, Loses;
    InboxKeeps(k, s, m);
    NothingDropped(k, s, m);
  }

  lemma NothingDropped(k: Link, s: System, m: Move)
    requires MoveEnabled(k, s, m) && !Loses(k, s, m)
    requires m.OtherStream? || m.DispatchNext? || m.AppReads? || m.ClearsBuffers?
    ensures Delivered(Moved(k, s, m).inbox, k.id) == Delivered(s.inbox, k.id)
    ensures Moved(k, s, m) == s.(inbox := Moved(k, s, m).inbox)
  {
    hide Delivered, Stored, Dispatched, AppRead, ClearedInbox, BufferOf, PayloadsOn;
    match m
    case OtherStream(p) =>
      QueuedGrows(s.inbox, [p], k.id);
      OnePacket(p, k.id);
      assert Delivered(s.inbox, k.id) + [] == Delivered(s.inbox, k.id);
    case DispatchNext => DispatchLeavesOut(s.inbox, k.cfg, k.id);
    case AppReads(c) => ReadMoves(s.inbox, k.id, c);
    case ClearsBuffers => ClearLeavesOut(s.inbox, k.id);
  }

  lemma {:induction false} LosslessMoves(k: Link, a: System, ms: seq<Move>, b: System)
    requires MovesWithoutLoss(k, a, ms, b)
    ensures Moves(k, a, ms, b)
    decreases |ms|
  {
    hide MoveEnabled, Moved, Loses;
    if ms != [] {
      LosslessMoves(k, Moved(k, a, ms[0]), ms[1..], b);
    }
  }

  lemma {:induction false} MovesStayExact(k: Link, a: System, ms: seq<Move>, b: System)
    requires Exact(k, a) && MovesWithoutLoss(k, a, ms, b) && NoneWraps(k, b.tasks)
    ensures Exact(k, b)
    decreases |ms|
  {
    hide Exact, MoveEnabled, Moved, Loses, NoneWraps;
    if ms != [] {
      LosslessMoves(k, a, ms, b);
      NoneWrapsAtFirst(k, a, ms, b);
      MoveStaysExact(k, a, ms[0]);
      MovesStayExact(k, Moved(k, a, ms[0]), ms[1..], b);
    }
  }

  lemma MoveStaysExact(k: Link, s: System, m: Move)
    requires Exact(k, s) && MoveEnabled(k, s, m) && !Loses(k, s, m) && NoneWraps(k, s.tasks)
    ensures Exact(k, Moved(k, s, m))
  {
    hide Exact, SenderLoses, DeafTooEarly, HandOnNext, NoneWraps;
    match m
    case Sender(step) => SenderStaysExact(k, s, step);
    case DecodeNext => DecodeStaysExact(k, s);
    case StopsListening => StopStaysExact(k, s);
    case BytesArrive(n) => ArrivalStaysExact(k, s, n);
    case _ => InboxStaysExact(k, s, m);
  }

  lemma ArrivalStaysExact(k: Link, s: System, n: nat)
    requires Exact(k, s) && MoveEnabled(k, s, BytesArrive(n))
    ensures Exact(k, Moved(k, s, BytesArrive(n)))
  {
    ArrivalKeeps(k, s, n);
    hide SystemInv, SenderExact, Sent, Delivered, Observed;
  }

  lemma StartIsExact(k: Link)
    requires k.config.OrderedReliable?
    ensures Exact(k, START)
  {
    StartInv(k);
    assert Taken(Observed(k, INITIAL)) == [];
    hide SystemInv, Taken, Delivered;
  }

  /** In every state reached without a losing move, the chain from the application back to the send queue
      is exactly the accepted payloads, one for one and in order. */
  lemma ExactInEveryState(k: Link, ms: seq<Move>, s: System)
    requires k.config.OrderedReliable? && MovesWithoutLoss(k, START, ms, s) && NoneWraps(k, s.tasks)
    ensures Chain(k, s) == Observed(k, s.tasks).accepted
  {
    hide Exact, MovesWithoutLoss, Chain;
    StartIsExact(k);
    MovesStayExact(k, START, ms, s);
    ExactChain(k, s);
  }

  // ---------------------------------------------------------------- told from the events alone

  /** The receiver has read the whole stream of a task that has ended, down to the last frame. */
  predicate AtEndOfStream(k: Link, s: System) {
    !SenderUp(k, s) && s.rx.arrived == |Observed(k, s.tasks).stream| && s.rx.dec == Decoding(Head, [])
  }

  /** Those on the receive side: stopping before the end of the stream, a packet for which there is no room,
      and clearing buffered payloads. */
  predicate EventLoses(k: Link, s: System, m: Move)
    requires MoveEnabled(k, s, m)
  {
    match m
    case Sender(step) => SenderEventLoses(k, s.tasks, step)
    case StopsListening => !AtEndOfStream(k, s)
    case DispatchNext => s.inbox.incoming[0].channel == k.id && NoRoom(s.inbox.buffers, k.cfg, k.id)
    case ClearsBuffers => BufferOf(s.inbox.buffers, k.id) != []
    case _ => false
  }

  predicate EventfreeMoves(k: Link, a: System, ms: seq<Move>, b: System)
    decreases |ms|
  {
    if ms == [] then a == b
    else MoveEnabled(k, a, ms[0]) && !EventLoses(k, a, ms[0]) && EventfreeMoves(k, Moved(k, a, ms[0]), ms[1..], b)
  }

  /** No other event costs the channel a payload. */
  lemma CleanSenderKeepsAll(k: Link, t: State, step: Step)
    requires ObservedOk(k, t) && SenderExact(k, t) && Clean(k, t) && Enabled(t, step) && !SenderEventLoses(k, t, step)
    requires CreatesObserved(k, t, step)
    ensures !SenderLoses(k, t, step)
  {
    if step.Task? && step.h == k.h {
      CleanTaskKeepsAll(k, t, step.step);
    } else {
      OthersKeepAll(k, t, step);
    }
  }

  lemma CleanTaskKeepsAll(k: Link, t: State, ts: TaskStep)
    requires ObservedOk(k, t) && Clean(k, t) && !k.config.Unreliable? && Enabled(t, Task(k.h, ts)) && !Breaks(ts)
    ensures !SenderLoses(k, t, Task(k.h, ts))
  {
    hide ChanInv, HeldByAll, TaskEnabled, TaskApply, KeepaliveChange, MayStop, AllDeliverable;
    var c, d := t.chans[k.h], TaskApply(t.chans[k.h], ts);
    TaskKeepsInv(c, ts);
    OnlyErrorsFail(c, ts);
    StepFrame(c, ts);
    FittingNeverPanics(k, d);
    QueueFits(k, c, ts);
    if TaskLive(c.phase) && !TaskLive(d.phase) {
      LastStep(c, ts);
    }
  }

  lemma QueueFits(k: Link, c: Chan, ts: TaskStep)
    requires ChanInv(c) && c.config == k.config && AllArrive(k, c.accepted) && TaskEnabled(c, ts)
    requires !c.failed && !ts.WriteFails?
    ensures !TaskLoses(c, ts)
  {
    TakenAndQueue(c);
    hide ChanInv, Taken, Fits, Deliverable, ChildEnabled;
    assert c.queue != [] ==> c.queue[0] in c.accepted;
  }

  lemma OthersKeepAll(k: Link, t: State, step: Step)
    requires ObservedOk(k, t) && SenderExact(k, t) && Enabled(t, step) && !SenderEventLoses(k, t, step)
    requires !(step.Task? && step.h == k.h) && CreatesObserved(k, t, step)
    ensures !SenderLoses(k, t, step)
  {
    hide Inv, ChanExact, TaskMay, TaskApply, KeepaliveChange, Fits, Deliverable, Spawned;
    UnservedHasNoBytes(k, t);
    if step.Accepts? && step.h == k.h {
      StaysUp(k, t, step.payload);
    } else {
      OtherStepFrame(k, t, step);
      hide Enabled, Apply, Observed;
    }
  }

  lemma StaysUp(k: Link, t: State, p: Bytes)
    requires Enabled(t, Accepts(k.h, p))
    ensures !DiesWithPayloads(k, t, Accepts(k.h, p))
  {
  }

  lemma UnservedHasNoBytes(k: Link, t: State)
    requires ObservedOk(k, t)
    ensures Observed(k, t).phase.Unserved? ==> Observed(k, t).buffer == []
  {
    ObservedInv(k, t);
    hide Inv, ChildInv, SomeOversize, QueueIsRest, Fits;
  }

  lemma NothingLost(k: Link, s: System, m: Move)
    requires Exact(k, s) && Clean(k, s.tasks) && MoveEnabled(k, s, m) && !EventLoses(k, s, m)
    ensures !Loses(k, s, m)
    ensures Clean(k, Moved(k, s, m).tasks)
  {
    hide SystemInv, SenderExact, Clean, Delivered, Ahead, SenderEventLoses, SenderLoses, AtEndOfStream, NoRoom, Stored;
    CleanNeverWraps(k, s.tasks);
    match m
    case Sender(step) =>
      SystemObserved(k, s);
      CleanStep(k, s.tasks, step);
      CleanSenderKeepsAll(k, s.tasks, step);
    case DecodeNext =>
      CleanIsNeverDeaf(k, s);
    case StopsListening => EndIsNotEarly(k, s);
    case DispatchNext => RoomIsStored(s.inbox.buffers, k.cfg, s.inbox.incoming[0]);
    case _ =>
  }

  lemma EndIsNotEarly(k: Link, s: System)
    requires AtEndOfStream(k, s)
    ensures !DeafTooEarly(k, s)
  {
    NothingToReceive(k.id);
    hide Receive, PayloadsOn, SenderUp, Observed;
    var c := Observed(k, s.tasks);
    assert BytesOnTheWay(s.rx, c.stream, []) == [];
  }

  /** What was sent on a clean channel is deliverable. */
  lemma CleanIsNeverDeaf(k: Link, s: System)
    requires k.config.OrderedReliable? && SystemInv(k, s) && Clean(k, s.tasks) && s.rx.listening
    ensures HandOnNext(s.rx, k.decoderMax).0.listening
  {
    SystemReads(k, s);
    ObservedInv(k, s.tasks);
    TakenAndQueue(Observed(k, s.tasks));
    CleanArrives(k, s.tasks);
    hide SystemInv, Clean, Kept, Taken, Observed, HandOnNext, Reads, Deliverable, Fits, ChanInv;
    var c, sent := Observed(k, s.tasks), Sent(k, s.tasks);
    forall p | p in sent ensures Deliverable(p, k.decoderMax) {
      var i :| 0 <= i < |sent| && sent[i] == p;
      KeptMember(k.config, Taken(c), i);
      assert p in c.accepted;
    }
    NeverDeaf(k.id, k.decoderMax, s.rx, c.stream, c.buffer, sent);
  }

  lemma {:induction false} EventfreeStaysExact(k: Link, a: System, ms: seq<Move>, b: System)
    requires Exact(k, a) && Clean(k, a.tasks) && EventfreeMoves(k, a, ms, b)
    ensures Exact(k, b) && Clean(k, b.tasks)
    decreases |ms|
  {
    hide Exact, Clean, MoveEnabled, Moved, EventLoses, Loses;
    if ms != [] {
      CleanNeverWraps(k, a.tasks);
      NothingLost(k, a, ms[0]);
      MoveStaysExact(k, a, ms[0]);
      EventfreeStaysExact(k, Moved(k, a, ms[0]), ms[1..], b);
    }
  }

  /** Exact delivery, told from the events: as long as no payload over a limit is accepted, none after the last
      look at the queue, no stream fails, no peer is lost, the receiver reads to the end, there is room and
      nothing is cleared, the chain from the application back to the send queue is the accepted payloads, one
      for one and in order. */
  lemma ExactWithoutEvents(k: Link, ms: seq<Move>, s: System)
    requires k.config.OrderedReliable? && EventfreeMoves(k, START, ms, s)
    ensures Chain(k, s) == Observed(k, s.tasks).accepted
  {
    hide Exact, Clean, EventfreeMoves, Chain;
    StartIsExact(k);
    StartIsClean(k);
    EventfreeStaysExact(k, START, ms, s);
    CleanNeverWraps(k, s.tasks);
    ExactChain(k, s);
  }
}
