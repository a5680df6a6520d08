/** One send channel of a connection, as a machine of atomic steps: the queue that the sync side
    fills, the task that empties it onto a stream, the cancellation of its send loop in the middle of
    a send, the drain that follows, and the child tasks of an unordered channel. */
module ChannelTask {
  import opened Prelude
  import opened Codec

  /** What the send loop is doing inside the `select`. */
  datatype Activity = Waiting | Sending | Reporting

  /** `Flushing` is what follows the last look at the queue: an ordered channel flushes and finishes its
      stream; the queue still has its receiver until the task ends. */
  datatype Phase =
    | Unserved
    | Opening
    | Selecting(activity: Activity)
    | Draining(sending: bool)
    | Flushing
    | Ended(reason: CloseReason)
    | Panicked

  datatype ChildPhase = ChildOpening | ChildSending | ChildReporting | ChildDone | ChildPanicked

  /** The task of one unordered message; `drained` tells whether it was spawned by the drain. */
  datatype Child = Child(payload: Bytes, drained: bool, phase: ChildPhase, buffer: Bytes, stream: Bytes, failed: bool)

  /** `accepted` is the history of what the sync side was allowed to queue; `failed` remembers an
      error of the stream, which is permanent; `buffer` is what the frame sender can still write. */
  datatype Chan = Chan(
    id: ChannelId,
    config: ChannelConfig,
    queue: seq<Bytes>,
    accepted: seq<Bytes>,
    senderAlive: bool,
    closeSignal: bool,
    closePos: nat,
    phase: Phase,
    buffer: Bytes,
    stream: Bytes,
    failed: bool,
    children: seq<Child>)

  datatype ChildStep =
    | ChildOpened
    | ChildOpenFails
    | ChildWrites(n: nat)
    | ChildSent
    | ChildWriteFails
    | ChildReported(heard: bool)

  datatype TaskStep =
    | Opened
    | OpenFails
    | TakeNext(datagramLost: bool)
    | Writes(n: nat)
    | SendDone
    | WriteFails
    | Reported(heard: bool)
    | Stops(reason: CloseReason)
    | DrainNext
    | DrainDone
    | Finish
    | OfChild(k: nat, step: ChildStep)

  function NewChan(id: ChannelId, config: ChannelConfig): Chan {
    Chan(id, config, [], [], true, false, 0, Unserved, [], [], false, [])
  }

  // ---------------------------------------------------------------- encoding

  predicate Fits(config: ChannelConfig, p: Bytes) {
    !config.Unreliable? && |p| <= config.maxFrameSize
  }

  /** What the encoder makes of one payload: nothing if it is over the channel's limit. */
  function Encoded(id: ChannelId, config: ChannelConfig, p: Bytes): Bytes {
    if Fits(config, p) then Frame(id, p) else []
  }

  function EncodedAll(id: ChannelId, config: ChannelConfig, ps: seq<Bytes>): Bytes {
    if ps == [] then [] else Encoded(id, config, ps[0]) + EncodedAll(id, config, ps[1..])
  }

  lemma {:induction false} EncodedAllAppend(id: ChannelId, config: ChannelConfig, ps: seq<Bytes>, qs: seq<Bytes>)
    ensures EncodedAll(id, config, ps + qs) == EncodedAll(id, config, ps) + EncodedAll(id, config, qs)
  {
    hide Encoded;
    if ps == [] {
      assert ps + qs == qs;
    } else {
      EncodedAllAppend(id, config, ps[1..], qs);
      assert (ps + qs)[1..] == ps[1..] + qs;
    }
  }

  lemma EncodedOne(id: ChannelId, config: ChannelConfig, p: Bytes)
    ensures EncodedAll(id, config, [p]) == Encoded(id, config, p)
  {
    assert [p][1..] == [];
    hide Encoded;
  }

  // ---------------------------------------------------------------- child tasks

  predicate ChildLive(c: Child) {
    !c.phase.ChildDone? && !c.phase.ChildPanicked?
  }

  predicate ChildEnabled(c: Child, s: ChildStep) {
    match s
    case ChildOpened => c.phase.ChildOpening?
    case ChildOpenFails => c.phase.ChildOpening?
    case ChildWrites(n) => c.phase.ChildSending? && 0 < n <= |c.buffer|
    case ChildSent => c.phase.ChildSending? && c.buffer == []
    case ChildWriteFails => c.phase.ChildSending?
    case ChildReported(_) => c.phase.ChildReporting?
  }

  /** After an error a child of the send loop reports a lost connection; a child of the drain only
      logs. Failing to open a stream panics, and so does a report that nobody can hear. */
  function ChildApply(id: ChannelId, config: ChannelConfig, c: Child, s: ChildStep): Child
    requires ChildEnabled(c, s)
  {
    var onError := if c.drained then ChildDone else ChildReporting;
    match s
    case ChildOpened =>
      if Fits(config, c.payload) then c.(phase := ChildSending, buffer := Frame(id, c.payload))
          else c.(phase := onError)
    case ChildOpenFails => c.(phase := ChildPanicked, failed := true)
    case ChildWrites(n) => c.(stream := c.stream + c.buffer[..n], buffer := c.buffer[n..])
    case ChildSent => c.(phase := ChildDone)
    case ChildWriteFails => c.(phase := onError, failed := true)
    case ChildReported(heard) => c.(phase := if heard then ChildDone else ChildPanicked)
  }

  /** A child without a stream error has written exactly its own frame once it is done; after an error, a
      front of it. */
  predicate ChildInv(id: ChannelId, config: ChannelConfig, c: Child) {
    && (!c.failed ==>
          match c.phase
          case ChildOpening => c.stream == [] && c.buffer == []
          case ChildSending => Fits(config, c.payload) && c.stream + c.buffer == Frame(id, c.payload)
          case ChildPanicked => !Fits(config, c.payload) && c.stream == []
          case _ => c.stream == Encoded(id, config, c.payload) && c.buffer == [])
    && (c.phase.ChildReporting? && !c.failed ==> !Fits(config, c.payload))
    && (c.failed ==>
          !c.phase.ChildOpening? && !c.phase.ChildSending? && c.stream <= Encoded(id, config, c.payload))
  }

  lemma ChildKeepsInv(id: ChannelId, config: ChannelConfig, c: Child, s: ChildStep)
    requires ChildInv(id, config, c) && ChildEnabled(c, s)
    ensures ChildInv(id, config, ChildApply(id, config, c, s))
    ensures ChildApply(id, config, c, s).payload == c.payload
  {
    hide Frame;
    if s.ChildWrites? {
      assert c.stream + c.buffer[..s.n] + c.buffer[s.n..] == c.stream + c.buffer;
    }
  }

  // ---------------------------------------------------------------- the task

  /** The task holds a keepalive handle. */
  predicate TaskLive(p: Phase) {
    p.Opening? || p.Selecting? || p.Draining? || p.Flushing?
  }

  /** The task waits for its stream: to send a frame, or to flush what is left at the end. */
  predicate OnStream(c: Chan) {
    c.phase == Selecting(Sending) || c.phase == Draining(true) || (c.phase.Flushing? && c.config.OrderedReliable?)
  }

  predicate TaskEnabled(c: Chan, s: TaskStep) {
    match s
    case Opened => c.phase.Opening?
    case OpenFails => c.phase.Opening?
    case TakeNext(_) => c.phase == Selecting(Waiting) && c.queue != []
    case Writes(n) => OnStream(c) && 0 < n <= |c.buffer|
    case SendDone => (c.phase == Selecting(Sending) || c.phase == Draining(true)) && c.buffer == [] && !c.failed
    case WriteFails => OnStream(c)
    case Reported(_) => c.phase == Selecting(Reporting)
    case Stops(_) => c.phase.Selecting?
    case DrainNext => c.phase == Draining(false) && c.queue != []
    case DrainDone => c.phase == Draining(false) && c.queue == []
    case Finish => c.phase.Flushing? && c.buffer == []
    case OfChild(k, step) => k < |c.children| && ChildEnabled(c.children[k], step)
  }

  /** Takes the next payload off the queue. An ordered channel encodes it behind what its sender still
      buffers, an unordered one hands it to a child task, an unreliable one sends a datagram. `loop`
      tells the send loop, which reports errors, from the drain, which does not. */
  function Consume(c: Chan, inLoop: bool, datagramLost: bool): Chan
    requires c.queue != []
  {
    var p, d := c.queue[0], c.(queue := c.queue[1..]);
    match c.config
    case OrderedReliable(_) =>
      if Fits(c.config, p)
      then d.(buffer := if c.failed then [] else c.buffer + Frame(c.id, p),
              phase := if inLoop then Selecting(Sending) else Draining(true))
      else d.(phase := if inLoop then Selecting(Reporting) else Draining(false))
    case UnorderedReliable(_) => d.(children := c.children + [Child(p, !inLoop, ChildOpening, [], [], false)])
    case Unreliable => d.(phase := if inLoop && datagramLost then Selecting(Reporting) else c.phase)
  }

  function TaskApply(c: Chan, s: TaskStep): Chan
    requires TaskEnabled(c, s)
  {
    match s
    case Opened => c.(phase := Selecting(Waiting))
    case OpenFails => c.(phase := Panicked, failed := true)
    case TakeNext(lost) => Consume(c, true, lost)
    case Writes(n) => c.(stream := c.stream + c.buffer[..n], buffer := c.buffer[n..])
    case SendDone => c.(phase := if c.phase.Selecting? then Selecting(Waiting) else Draining(false))
    case WriteFails =>
      c.(failed := true, buffer := [],
         phase := if c.phase.Selecting? then Selecting(Reporting) else if c.phase.Draining? then Draining(false)
             else Ended(LocalOrder))
    case Reported(heard) => c.(phase := if heard then Selecting(Waiting) else Panicked)
    case Stops(reason) => c.(phase := if reason.PeerClosed? then Ended(PeerClosed) else Draining(false))
    case DrainNext => Consume(c, false, false)
    case DrainDone => c.(phase := Flushing)
    case Finish => c.(phase := Ended(LocalOrder))
    case OfChild(k, step) => c.(children := c.children[k := ChildApply(c.id, c.config, c.children[k], step)])
  }

  /** The keepalive handles cloned and dropped by a step. */
  function KeepaliveChange(c: Chan, s: TaskStep): int
    requires TaskEnabled(c, s)
  {
    match s
    case OpenFails => -1
    case TakeNext(_) => if c.config.UnorderedReliable? then 1 else 0
    case DrainNext => if c.config.UnorderedReliable? then 1 else 0
    case WriteFails => if c.phase.Flushing? then -1 else 0
    case Reported(heard) => if heard then 0 else -1
    case Stops(reason) => if reason.PeerClosed? then -1 else 0
    case Finish => -1
    case OfChild(k, step) => if ChildLive(ChildApply(c.id, c.config, c.children[k], step)) then 0 else -1
    case _ => 0
  }

  function LiveChildren(cs: seq<Child>): nat {
    if cs == [] then 0 else (if ChildLive(cs[0]) then 1 else 0) + LiveChildren(cs[1..])
  }

  /** The keepalive handles that a channel accounts for. */
  function Held(c: Chan): nat {
    (if TaskLive(c.phase) then 1 else 0) + LiveChildren(c.children)
  }

  lemma {:induction false} LiveChildrenUpdate(cs: seq<Child>, k: nat, d: Child)
    requires k < |cs|
    ensures LiveChildren(cs[k := d]) == LiveChildren(cs) - (if ChildLive(cs[k]) then 1 else 0) +
        (if ChildLive(d) then 1 else 0)
  {
    if k > 0 {
      LiveChildrenUpdate(cs[1..], k - 1, d);
      assert cs[k := d][1..] == cs[1..][k - 1 := d];
    } else {
      assert cs[0 := d][1..] == cs[1..];
    }
  }

  lemma {:induction false} LiveChildrenAppend(cs: seq<Child>, d: Child)
    ensures LiveChildren(cs + [d]) == LiveChildren(cs) + (if ChildLive(d) then 1 else 0)
  {
    if cs == [] {
      assert cs + [d] == [d] && [d][1..] == [];
    } else {
      LiveChildrenAppend(cs[1..], d);
      assert (cs + [d])[1..] == cs[1..] + [d];
    }
  }

  /** Every clone and drop is accounted for: the handles that a channel holds are those of its live
      task and its live children. */
  lemma HeldChanges(c: Chan, s: TaskStep)
    requires TaskEnabled(c, s)
    ensures Held(TaskApply(c, s)) == Held(c) + KeepaliveChange(c, s)
  {
    hide Frame, LiveChildren, Fits;
    match s
    case TakeNext(lost) =>
      if c.config.UnorderedReliable? {
        LiveChildrenAppend(c.children, Child(c.queue[0], false, ChildOpening, [], [], false));
      }
    case DrainNext =>
      if c.config.UnorderedReliable? {
        LiveChildrenAppend(c.children, Child(c.queue[0], true, ChildOpening, [], [], false));
      }
    case OfChild(k, step) =>
      LiveChildrenUpdate(c.children, k, ChildApply(c.id, c.config, c.children[k], step));
    case _ =>
  }

  lemma {:induction false} NoLiveChildren(cs: seq<Child>)
    requires LiveChildren(cs) == 0
    ensures forall k :: 0 <= k < |cs| ==> !ChildLive(cs[k])
  {
    if cs != [] {
      NoLiveChildren(cs[1..]);
      assert forall k :: 0 < k < |cs| ==> cs[k] == cs[1..][k - 1];
    }
  }

  /** Every step is taken by a live task or a live child. */
  lemma EnabledIsLive(c: Chan, s: TaskStep)
    requires TaskEnabled(c, s)
    ensures Held(c) > 0
  {
    if s.OfChild? {
      if LiveChildren(c.children) == 0 {
        NoLiveChildren(c.children);
      }
    }
  }

  /** The task has left its send loop. */
  predicate Stopped(p: Phase) {
    p.Draining? || p.Flushing? || p.Ended?
  }

  /** What a step leaves alone, and that only a stop signal ends the send loop. */
  lemma StepFrame(c: Chan, s: TaskStep)
    requires TaskEnabled(c, s)
    ensures var d := TaskApply(c, s);
            && d == c.(queue := d.queue, phase := d.phase, buffer := d.buffer, stream := d.stream, failed := d.failed,
                 children := d.children)
            && (c.failed ==> d.failed)
            && (Stopped(d.phase) ==> Stopped(c.phase) || s.Stops?)
            && (d.phase == Ended(PeerClosed) ==> c.phase == Ended(PeerClosed) || s == Stops(PeerClosed))
            && (d.phase.Unserved? ==> c.phase.Unserved?)
            && (c.phase.Unserved? ==> s.OfChild?)
  {
    hide Consume, ChildApply, ChildEnabled;
    match s
    case TakeNext(lost) => ConsumeFrame(c, true, lost);
    case DrainNext => ConsumeFrame(c, false, false);
    case _ =>
  }

  /** An error that the send loop reports: of the stream or the datagram, or a payload over the limit. The drain
      reports none. */
  predicate LoopError(c: Chan, s: TaskStep)
    requires TaskEnabled(c, s)
  {
    match s
    case WriteFails => c.phase.Selecting?
    case TakeNext(lost) => (c.config.OrderedReliable? && !Fits(c.config, c.queue[0])) || (c.config.Unreliable? && lost)
    case _ => false
  }

  /** Exactly when a task starts to report, panics, and gives up on a lost peer. */
  lemma TurningPoints(c: Chan, s: TaskStep)
    requires TaskEnabled(c, s)
    ensures var d := TaskApply(c, s);
            && (c.phase != Selecting(Reporting) ==> (d.phase == Selecting(Reporting) <==> LoopError(c, s)))
            && (!c.phase.Panicked? ==> (d.phase.Panicked? <==> s.OpenFails? || s == Reported(false)))
            && (c.phase != Ended(PeerClosed) ==> (d.phase == Ended(PeerClosed) <==> s == Stops(PeerClosed)))
            && (s == Stops(PeerClosed) ==> d.queue == c.queue && d.children == c.children && d.stream == c.stream)
            && (s == Reported(true) ==> d.phase == Selecting(Waiting))
  {
    hide ChildApply, ChildEnabled, Frame;
  }

  /** An unordered channel spawns one child for each payload that its task takes, which knows whether the drain has
      spawned it; nothing else spawns children. */
  lemma Spawns(c: Chan, s: TaskStep)
    requires TaskEnabled(c, s) && !s.OfChild?
    ensures TaskApply(c, s).children ==
            if c.config.UnorderedReliable? && (s.TakeNext? || s.DrainNext?)
            then c.children + [Child(c.queue[0], s.DrainNext?, ChildOpening, [], [], false)] else c.children
  {
    hide Frame, Fits;
  }

  /** Exactly when a child starts to report and when it panics: a child of the drain reports nothing. */
  lemma ChildTurningPoints(id: ChannelId, config: ChannelConfig, c: Child, s: ChildStep)
    requires ChildEnabled(c, s)
    ensures var d := ChildApply(id, config, c, s);
            var error := s.ChildWriteFails? || (s.ChildOpened? && !Fits(config, c.payload));
            && (!c.phase.ChildReporting? ==> (d.phase.ChildReporting? <==> error && !c.drained))
            && (error && c.drained ==> d.phase.ChildDone?)
            && (d.phase.ChildPanicked? <==> s.ChildOpenFails? || s == ChildReported(false))
            && (s == ChildReported(true) ==> d.phase.ChildDone?)
  {
    hide Fits, Frame;
  }

  lemma ConsumeFrame(c: Chan, inLoop: bool, lost: bool)
    requires c.queue != [] && (if inLoop then c.phase == Selecting(Waiting) else c.phase == Draining(false))
    ensures var d := Consume(c, inLoop, lost);
            && d == c.(queue := c.queue[1..], phase := d.phase, buffer := d.buffer, children := d.children)
            && (if inLoop then d.phase.Selecting? else d.phase.Draining?)
  {
    hide Frame, Fits;
    match c.config
    case OrderedReliable(_) =>
      if Fits(c.config, c.queue[0]) {
      }
    case _ =>
  }

  // ---------------------------------------------------------------- what a channel keeps

  /** The payloads that the task has taken: all accepted ones but those still queued. */
  function Taken(c: Chan): seq<Bytes> {
    if |c.queue| <= |c.accepted| then c.accepted[..|c.accepted| - |c.queue|] else []
  }

  predicate QueueIsRest(c: Chan) {
    |c.queue| <= |c.accepted| && c.queue == c.accepted[|c.accepted| - |c.queue|..]
  }

  predicate SomeOversize(c: Chan) {
    exists k :: 0 <= k < |Taken(c)| && !Fits(c.config, Taken(c)[k])
  }

  /** Only an error of the stream makes a channel fail. */
  lemma OnlyErrorsFail(c: Chan, s: TaskStep)
    requires TaskEnabled(c, s) && !s.WriteFails? && !s.OpenFails?
    ensures TaskApply(c, s).failed == c.failed
  {
    hide ChildApply, ChildEnabled, Frame, Fits;
  }

  /** The drain is over when the queue was found empty. */
  lemma DrainEndsEmpty(c: Chan, s: TaskStep)
    requires TaskEnabled(c, s) && (Drained(c.phase) ==> c.queue == [])
    ensures Drained(TaskApply(c, s).phase) ==> TaskApply(c, s).queue == []
  {
    hide Consume, ChildApply, ChildEnabled;
    match s
    case TakeNext(lost) => ConsumeFrame(c, true, lost);
    case DrainNext => ConsumeFrame(c, false, false);
    case _ =>
  }

  /** A task that ends without an error of its stream, not on a lost peer and without panic, is done. */
  lemma LastStep(c: Chan, s: TaskStep)
    requires TaskEnabled(c, s) && TaskLive(c.phase) && !TaskLive(TaskApply(c, s).phase)
    requires !s.WriteFails? && !s.OpenFails? && s != Stops(PeerClosed) && !TaskApply(c, s).phase.Panicked?
    ensures s.Finish? && c.buffer == [] && Drained(c.phase)
    ensures TaskApply(c, s) == c.(phase := Ended(LocalOrder))
  {
    hide Consume, ChildApply, ChildEnabled;
    match s
    case TakeNext(lost) => ConsumeFrame(c, true, lost);
    case DrainNext => ConsumeFrame(c, false, false);
    case _ =>
  }

  /** What is written and can still be written is the front of `all`; after an error it may be cut short. */
  predicate OnItsWay(c: Chan, all: Bytes) {
    c.stream + c.buffer <= all && (!c.failed ==> c.stream + c.buffer == all)
  }

  /** The task has no payload in its hands. */
  predicate NothingBegun(p: Phase) {
    p.Unserved? || p.Opening? || p == Selecting(Waiting) || p == Selecting(Reporting)
  }

  ghost predicate ChanInv(c: Chan) {
    && QueueIsRest(c)
    && (c.phase.Unserved? || c.phase.Opening? ==> Taken(c) == [])
    && match c.config
       case OrderedReliable(_) =>
         && c.children == []
         && OnItsWay(c, EncodedAll(c.id, c.config, Taken(c)))
         && (!c.failed && c.phase == Ended(LocalOrder) ==> c.buffer == [])
         && (!c.failed && NothingBegun(c.phase) ==> c.buffer == [])
         && (!c.failed && (c.phase == Selecting(Reporting) || c.phase.Panicked?) ==> SomeOversize(c))
       case UnorderedReliable(_) =>
         && c.stream == [] && c.buffer == []
         && |c.children| == |Taken(c)|
         && (forall k :: 0 <= k < |c.children| ==>
               c.children[k].payload == Taken(c)[k] && ChildInv(c.id, c.config, c.children[k]))
         && !OnStream(c) && c.phase != Selecting(Reporting) && !c.phase.Opening? && !c.phase.Panicked?
       case Unreliable => c.stream == [] && c.buffer == [] && c.children == [] && !OnStream(c)
  }

  lemma ConsumeTakes(c: Chan, inLoop: bool, lost: bool)
    requires QueueIsRest(c) && c.queue != []
    requires if inLoop then c.phase == Selecting(Waiting) else c.phase == Draining(false)
    ensures var d := Consume(c, inLoop, lost);
            && QueueIsRest(d) && Taken(d) == Taken(c) + [c.queue[0]] && |Taken(c)| < |c.accepted|
            && d.id == c.id && d.config == c.config && d.accepted == c.accepted && d.senderAlive == c.senderAlive
  {
    hide Taken, QueueIsRest, Consume;
    ConsumeFrame(c, inLoop, lost);
    ConsumeSteps(c, Consume(c, inLoop, lost));
  }

  lemma ConsumeSteps(c: Chan, d: Chan)
    requires QueueIsRest(c) && c.queue != []
    requires d.queue == c.queue[1..] && d.accepted == c.accepted
    ensures QueueIsRest(d) && Taken(d) == Taken(c) + [c.queue[0]] && |Taken(c)| < |c.accepted|
  {
    var n := |c.accepted| - |c.queue|;
    assert c.accepted[n] == c.queue[0];
    assert c.accepted[..n + 1] == c.accepted[..n] + [c.accepted[n]];
  }

  lemma ConsumeKeepsInv(c: Chan, inLoop: bool, lost: bool)
    requires ChanInv(c) && c.queue != []
    requires if inLoop then c.phase == Selecting(Waiting) else c.phase == Draining(false)
    ensures ChanInv(Consume(c, inLoop, lost))
  {
    hide Frame, Fits, EncodedAll, QueueIsRest, Taken, ChildInv, SomeOversize;
    match c.config
    case OrderedReliable(_) => OrderedConsumeKeepsInv(c, inLoop, lost);
    case UnorderedReliable(_) => UnorderedConsumeKeepsInv(c, inLoop, lost);
    case Unreliable => ConsumeTakes(c, inLoop, lost);
  }

  lemma OrderedConsumeKeepsInv(c: Chan, inLoop: bool, lost: bool)
    requires ChanInv(c) && c.queue != [] && c.config.OrderedReliable?
    requires if inLoop then c.phase == Selecting(Waiting) else c.phase == Draining(false)
    ensures ChanInv(Consume(c, inLoop, lost))
  {
    hide Frame, Fits, EncodedAll, QueueIsRest, Taken, ChildInv, SomeOversize;
    ConsumeTakes(c, inLoop, lost);
    var d, p := Consume(c, inLoop, lost), c.queue[0];
    EncodedAllAppend(c.id, c.config, Taken(c), [p]);
    EncodedOne(c.id, c.config, p);
    BufferGrows(c, EncodedAll(c.id, c.config, Taken(c)), Encoded(c.id, c.config, p));
    if !Fits(c.config, p) {
      OversizeTaken(d, p);
    }
  }

  lemma BufferGrows(c: Chan, all: Bytes, more: Bytes)
    requires OnItsWay(c, all)
    ensures OnItsWay(c.(buffer := if c.failed then [] else c.buffer + more), all + more)
    ensures more == [] ==> OnItsWay(c, all + more)
  {
    assert c.stream + (c.buffer + more) == (c.stream + c.buffer) + more;
  }

  lemma OversizeTaken(d: Chan, p: Bytes)
    requires Taken(d) != [] && Taken(d)[|Taken(d)| - 1] == p && !Fits(d.config, p)
    ensures SomeOversize(d)
  {
  }

  lemma UnorderedConsumeKeepsInv(c: Chan, inLoop: bool, lost: bool)
    requires ChanInv(c) && c.queue != [] && c.config.UnorderedReliable?
    requires if inLoop then c.phase == Selecting(Waiting) else c.phase == Draining(false)
    ensures ChanInv(Consume(c, inLoop, lost))
  {
    hide Frame, Fits, EncodedAll, QueueIsRest, Taken, ChildInv, SomeOversize;
    ConsumeTakes(c, inLoop, lost);
    NewChildInv(c.id, c.config, c.queue[0], !inLoop);
  }

  lemma NewChildInv(id: ChannelId, config: ChannelConfig, p: Bytes, drained: bool)
    ensures ChildInv(id, config, Child(p, drained, ChildOpening, [], [], false))
  {
  }

  lemma WriteKeepsInv(c: Chan, n: nat)
    requires ChanInv(c) && TaskEnabled(c, Writes(n))
    ensures ChanInv(TaskApply(c, Writes(n)))
  {
    hide EncodedAll, Fits, QueueIsRest, SomeOversize, Taken, ChildInv;
    SameQueue(c, TaskApply(c, Writes(n)));
    assert c.stream + c.buffer[..n] + c.buffer[n..] == c.stream + c.buffer;
  }

  lemma SameQueue(c: Chan, d: Chan)
    requires d.queue == c.queue && d.accepted == c.accepted && d.config == c.config
    ensures QueueIsRest(d) == QueueIsRest(c) && Taken(d) == Taken(c) && SomeOversize(d) == SomeOversize(c)
  {
  }

  lemma ChildStepKeepsInv(c: Chan, k: nat, step: ChildStep)
    requires ChanInv(c) && TaskEnabled(c, OfChild(k, step))
    ensures ChanInv(TaskApply(c, OfChild(k, step)))
  {
    hide EncodedAll, Fits, QueueIsRest, SomeOversize, Taken, ChildInv, ChildApply;
    SameQueue(c, TaskApply(c, OfChild(k, step)));
    if c.config.UnorderedReliable? {
      ChildKeepsInv(c.id, c.config, c.children[k], step);
    }
  }

  /** Every step of a task keeps its channel's invariant, also the cancellation in the middle of a
      send: what was encoded but not yet written stays in front of everything the drain adds. */
  lemma TaskKeepsInv(c: Chan, s: TaskStep)
    requires ChanInv(c) && TaskEnabled(c, s)
    ensures ChanInv(TaskApply(c, s))
  {
    hide EncodedAll, Fits, QueueIsRest, SomeOversize, Taken, ChildInv, ChildApply, Consume;
    match s
    case TakeNext(lost) => ConsumeKeepsInv(c, true, lost);
    case DrainNext => ConsumeKeepsInv(c, false, false);
    case Writes(n) => WriteKeepsInv(c, n);
    case OfChild(k, step) => ChildStepKeepsInv(c, k, step);
    case _ => SameQueue(c, TaskApply(c, s));
  }

  /** A task never takes anything back: neither from its stream nor from what it has taken. */
  lemma TaskGrows(c: Chan, s: TaskStep)
    requires ChanInv(c) && TaskEnabled(c, s)
    ensures var d := TaskApply(c, s); c.stream <= d.stream && Taken(c) <= Taken(d)
  {
    hide EncodedAll, QueueIsRest, SomeOversize, Taken, ChildInv, ChildApply, ChildEnabled, Consume;
    match s
    case TakeNext(lost) =>
      ConsumeTakes(c, true, lost);
      ConsumeFrame(c, true, lost);
    case DrainNext =>
      ConsumeTakes(c, false, false);
      ConsumeFrame(c, false, false);
    case _ => SameQueue(c, TaskApply(c, s));
  }

  /** A payload that the sync side is allowed to queue. */
  function Accept(c: Chan, p: Bytes): Chan {
    c.(queue := c.queue + [p], accepted := c.accepted + [p])
  }

  lemma AcceptKeepsInv(c: Chan, p: Bytes)
    requires ChanInv(c)
    ensures ChanInv(Accept(c, p)) && Taken(Accept(c, p)) == Taken(c) && Held(Accept(c, p)) == Held(c)
  {
    hide EncodedAll, ChildInv, Fits, Taken, QueueIsRest, LiveChildren;
    AcceptTakes(c, p);
  }

  lemma AcceptTakes(c: Chan, p: Bytes)
    requires QueueIsRest(c)
    ensures var d := Accept(c, p);
            QueueIsRest(d) && Taken(d) == Taken(c) && SomeOversize(d) == SomeOversize(c)
  {
    var d := Accept(c, p);
    var n := |c.accepted| - |c.queue|;
    assert d.accepted[n..] == c.accepted[n..] + [p];
    assert d.accepted[..n] == c.accepted[..n];
  }

  // ---------------------------------------------------------------- drained

  /** The task has found its queue empty after a local close order. */
  predicate Drained(p: Phase) {
    p.Flushing? || p == Ended(LocalOrder)
  }

  /** `b` is a later state of the channel `a`, which was still taking payloads: if the drain is over
      in `b`, it took at least what was accepted in `a`. */
  ghost predicate LaterThan(a: Chan, b: Chan) {
    && b.id == a.id && b.config == a.config
    && a.accepted <= b.accepted
    && (!a.senderAlive ==> !b.senderAlive && b.accepted == a.accepted)
    && (Drained(b.phase) ==> |a.accepted| <= |Taken(b)|)
  }

  lemma TaskStaysLater(a: Chan, b: Chan, s: TaskStep)
    requires LaterThan(a, b) && ChanInv(b) && TaskEnabled(b, s)
    ensures LaterThan(a, TaskApply(b, s))
  {
    hide EncodedAll, Fits, ChildInv, Frame, ChildApply, ChildEnabled, SomeOversize, Taken, Consume, QueueIsRest;
    match s
    case TakeNext(lost) =>
      ConsumeTakes(b, true, lost);
      ConsumeFrame(b, true, lost);
    case DrainNext =>
      ConsumeTakes(b, false, false);
      ConsumeFrame(b, false, false);
    case DrainDone =>
      AllTaken(b);
      SameQueue(b, TaskApply(b, s));
    case _ => SameQueue(b, TaskApply(b, s));
  }

  /** After its last look at the queue a task takes nothing more. */
  lemma DrainedTakesNothing(c: Chan, s: TaskStep)
    requires Drained(c.phase) && TaskEnabled(c, s)
    ensures var d := TaskApply(c, s); Drained(d.phase) && Taken(d) == Taken(c)
  {
    SameQueue(c, TaskApply(c, s));
    hide ChildApply, ChildEnabled, Taken;
  }

  lemma AllTaken(c: Chan)
    requires QueueIsRest(c) && c.queue == []
    ensures Taken(c) == c.accepted
  {
  }

  /** What an ordered channel has handed to its stream when its task ended on a local order: the frames
      of a prefix of the accepted payloads, which covers all that had been accepted before. */
  lemma OrderedDrained(a: Chan, b: Chan)
    requires LaterThan(a, b) && ChanInv(b)
    requires b.config.OrderedReliable? && b.phase == Ended(LocalOrder) && !b.failed
    ensures b.stream == EncodedAll(b.id, b.config, Taken(b))
    ensures a.accepted <= Taken(b) <= b.accepted && (!a.senderAlive ==> Taken(b) == a.accepted)
    ensures EncodedAll(a.id, a.config, a.accepted) <= b.stream
  {
    TakenCovers(a, b);
    hide Encoded, Taken, SomeOversize;
    var n := |a.accepted|;
    assert Taken(b) == a.accepted + Taken(b)[n..];
    EncodedAllAppend(b.id, b.config, a.accepted, Taken(b)[n..]);
    assert b.stream + [] == b.stream;
  }

  lemma EndedStream(c: Chan)
    requires ChanInv(c) && c.phase == Ended(LocalOrder)
    ensures Taken(c) <= c.accepted
    ensures c.config.OrderedReliable? && !c.failed ==> c.stream == EncodedAll(c.id, c.config, Taken(c))
  {
    assert c.stream + [] == c.stream;
    hide EncodedAll, ChildInv, Fits, SomeOversize;
  }

  lemma OrderedNeverInvents(c: Chan)
    requires ChanInv(c) && c.config.OrderedReliable?
    ensures c.stream <= EncodedAll(c.id, c.config, c.accepted)
  {
    hide EncodedAll, SomeOversize;
    assert c.accepted == Taken(c) + c.queue;
    EncodedAllAppend(c.id, c.config, Taken(c), c.queue);
  }

  lemma TakenCovers(a: Chan, b: Chan)
    requires LaterThan(a, b) && QueueIsRest(b) && Drained(b.phase)
    ensures a.accepted <= Taken(b) <= b.accepted
    ensures !a.senderAlive ==> Taken(b) == a.accepted
  {
    assert b.accepted[..|a.accepted|] == a.accepted;
  }

  /** The streams of an unordered channel, one per payload taken. */
  function Streams(cs: seq<Child>): (ss: seq<Bytes>)
    ensures |ss| == |cs| && forall k :: 0 <= k < |cs| ==> ss[k] == cs[k].stream
  {
    seq(|cs|, k requires 0 <= k < |cs| => cs[k].stream)
  }

  function Frames(id: ChannelId, config: ChannelConfig, ps: seq<Bytes>): (fs: seq<Bytes>)
    ensures |fs| == |ps| && forall k :: 0 <= k < |fs| ==> fs[k] == Encoded(id, config, ps[k])
  {
    seq(|ps|, k requires 0 <= k < |ps| => Encoded(id, config, ps[k]))
  }

  /** No child met a stream error. */
  predicate NoChildFailed(c: Chan) {
    forall k :: 0 <= k < |c.children| ==> !c.children[k].failed
  }

  /** After a local close with no write errors and no task left, the streams written are exactly one
      per payload: as multisets, the frames of what the task took, which covers all that had been
      accepted before. */
  lemma UnorderedDrained(a: Chan, b: Chan)
    requires LaterThan(a, b) && ChanInv(b) && b.config.UnorderedReliable?
    requires b.phase == Ended(LocalOrder) && LiveChildren(b.children) == 0 && NoChildFailed(b)
    ensures multiset(Streams(b.children)) == multiset(Frames(b.id, b.config, Taken(b)))
    ensures a.accepted <= Taken(b) <= b.accepted && (!a.senderAlive ==> Taken(b) == a.accepted)
  {
    UnorderedEnded(b);
    hide Frames, Streams, LiveChildren, NoChildFailed, ChildInv;
    TakenCovers(a, b);
  }

  /** Without errors the streams that were written are one per payload taken, once no child is left. */
  lemma UnorderedEnded(c: Chan)
    requires ChanInv(c) && c.config.UnorderedReliable? && LiveChildren(c.children) == 0 && NoChildFailed(c)
    ensures multiset(Streams(c.children)) == multiset(Frames(c.id, c.config, Taken(c)))
  {
    hide Encoded, Frame, LiveChildren, Fits;
    NoLiveChildren(c.children);
    forall k | 0 <= k < |c.children| ensures c.children[k].stream == Encoded(c.id, c.config, Taken(c)[k]) {
      assert ChildInv(c.id, c.config, c.children[k]);
      PanickedIsOversize(c.id, c.config, c.children[k]);
    }
    assert Streams(c.children) == Frames(c.id, c.config, Taken(c));
  }

  lemma PanickedIsOversize(id: ChannelId, config: ChannelConfig, c: Child)
    requires ChildInv(id, config, c) && !c.failed && !ChildLive(c)
    ensures c.stream == Encoded(id, config, c.payload)
  {
    hide Frame;
  }

  /** The complete streams of the children that met no error. */
  function Finished(cs: seq<Child>): seq<Bytes> {
    if cs == [] then []
    else (if cs[0].phase.ChildDone? && !cs[0].failed then [cs[0].stream] else []) + Finished(cs[1..])
  }

  lemma {:induction false} FinishedAreFrames(id: ChannelId, config: ChannelConfig, cs: seq<Child>, ps: seq<Bytes>)
    requires |cs| == |ps|
    requires forall k :: 0 <= k < |cs| ==> cs[k].payload == ps[k] && ChildInv(id, config, cs[k])
    ensures multiset(Finished(cs)) <= multiset(Frames(id, config, ps))
  {
    hide Encoded, Frame, Fits, Frames;
    if cs != [] {
      FinishedAreFrames(id, config, cs[1..], ps[1..]);
      FramesCons(id, config, ps);
      assert ChildInv(id, config, cs[0]);
      hide ChildInv;
      assert Finished(cs) == (if cs[0].phase.ChildDone? && !cs[0].failed then [Encoded(id, config, ps[0])] else []) +
        Finished(cs[1..]);
    }
  }

  lemma FramesCons(id: ChannelId, config: ChannelConfig, ps: seq<Bytes>)
    requires ps != []
    ensures Frames(id, config, ps) == [Encoded(id, config, ps[0])] + Frames(id, config, ps[1..])
  {
    hide Encoded;
  }

  /** At every moment, also before the drain and with errors on other streams, the complete streams are
      a sub-multiset of the frames of the accepted payloads: no payload is written twice, none invented. */
  lemma UnorderedNeverInvents(c: Chan)
    requires ChanInv(c) && c.config.UnorderedReliable?
    ensures multiset(Finished(c.children)) <= multiset(Frames(c.id, c.config, c.accepted))
  {
    hide Encoded, Frame, Fits, ChildInv;
    var n := |Taken(c)|;
    FinishedAreFrames(c.id, c.config, c.children, Taken(c));
    var all, some := Frames(c.id, c.config, c.accepted), Frames(c.id, c.config, Taken(c));
    assert all == some + all[n..];
  }
}
