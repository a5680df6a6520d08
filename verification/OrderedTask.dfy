/** The task of an ordered channel as a program: the send loop that a stop signal may cancel in the
    middle of a send, the drain and the flush, while the sync side goes on queueing payloads at any
    moment. Every execution is a run of the step machine. */
module OrderedTask {
  import opened Prelude
  import opened Codec
  import opened ChannelTask

  /** What happens to the channel while its task runs. */
  datatype Event = Arrives(payload: Bytes) | Steps(step: TaskStep)

  predicate EventEnabled(c: Chan, e: Event) {
    match e
    case Arrives(_) => c.senderAlive && TaskLive(c.phase) && |c.queue| < DEFAULT_MESSAGE_QUEUE_SIZE
    case Steps(s) => TaskEnabled(c, s)
  }

  function EventApply(c: Chan, e: Event): Chan
    requires EventEnabled(c, e)
  {
    match e
    case Arrives(p) => Accept(c, p)
    case Steps(s) => TaskApply(c, s)
  }

  /** `events` takes the channel from `a` to `b`. */
  predicate TaskRun(a: Chan, events: seq<Event>, b: Chan)
    decreases |events|
  {
    if events == [] then a == b
    else EventEnabled(a, events[0]) && TaskRun(EventApply(a, events[0]), events[1..], b)
  }

  lemma {:induction false} TaskRunMore(a: Chan, events: seq<Event>, b: Chan, e: Event)
    requires TaskRun(a, events, b) && EventEnabled(b, e)
    ensures TaskRun(a, events + [e], EventApply(b, e))
    decreases |events|
  {
    hide EventEnabled, EventApply;
    if events == [] {
      assert ([] + [e])[1..] == [];
    } else {
      TaskRunMore(EventApply(a, events[0]), events[1..], b, e);
      assert (events + [e])[1..] == events[1..] + [e];
    }
  }

  lemma EventKeepsInv(a: Chan, b: Chan, e: Event)
    requires ChanInv(b) && LaterThan(a, b) && EventEnabled(b, e)
    ensures ChanInv(EventApply(b, e)) && LaterThan(a, EventApply(b, e))
  {
    hide ChanInv, TaskEnabled, TaskApply, Taken;
    match e
    case Arrives(p) => AcceptKeepsInv(b, p);
    case Steps(s) =>
      TaskKeepsInv(b, s);
      TaskStaysLater(a, b, s);
  }

  lemma {:induction false} TaskRunKeepsInv(start: Chan, a: Chan, events: seq<Event>, b: Chan)
    requires ChanInv(a) && LaterThan(start, a) && TaskRun(a, events, b)
    ensures ChanInv(b) && LaterThan(start, b)
    decreases |events|
  {
    hide ChanInv, LaterThan, EventEnabled, EventApply;
    if events != [] {
      EventKeepsInv(start, a, events[0]);
      TaskRunKeepsInv(start, EventApply(a, events[0]), events[1..], b);
    }
  }

  datatype Flushed = AllWritten | Broken | Cancelled

  datatype Sent = Done | Erred | Cut

  function Idle(inLoop: bool): Phase {
    if inLoop then Selecting(Waiting) else Draining(false)
  }

  function AfterFailure(p: Phase): Phase {
    if p.Selecting? then Selecting(Reporting) else if p.Draining? then Draining(false) else Ended(LocalOrder)
  }

  class Task {
    const encoder: Encoder
    const buffer: BytesMut
    var queue: seq<Bytes>
    /** What the sync side has yet to queue, at moments of its own. */
    var inbox: seq<Bytes>
    var stream: Bytes
    var failed: bool
    /** Where the task stands, what was accepted, what it started from, and what has happened since. */
    ghost var phase: Phase
    ghost var accepted: seq<Bytes>
    ghost var start: Chan
    ghost var events: seq<Event>

    ghost function State(): Chan
      reads this, buffer
    {
      start.(queue := queue, accepted := accepted, phase := phase, buffer := buffer.data, stream := stream,
          failed := failed)
    }

    ghost predicate Valid()
      reads this, buffer
    {
      && start.id == encoder.rawChannelId && start.config == OrderedReliable(encoder.maxFrameLen)
      && start.children == [] && start.senderAlive
      && TaskRun(start, events, State())
    }

    /** The task of a channel whose stream has just been opened. */
    constructor (c: Chan, inbox: seq<Bytes>)
      requires c.config.OrderedReliable? && c.phase == Selecting(Waiting) && c.buffer == [] && c.children == []
      requires c.senderAlive
      ensures Valid() && State() == c && start == c && this.inbox == inbox && fresh(buffer)
    {
      encoder := new Encoder(c.id, c.config.maxFrameSize);
      buffer := new BytesMut();
      queue, this.inbox, stream, failed := c.queue, inbox, c.stream, c.failed;
      phase, accepted, start, events := c.phase, c.accepted, c, [];
    }

    /** Records an event that has just happened. */
    ghost method Took(was: Chan, e: Event)
      requires start.id == encoder.rawChannelId && start.config == OrderedReliable(encoder.maxFrameLen)
      requires start.children == [] && start.senderAlive
      requires TaskRun(start, events, was) && EventEnabled(was, e) && EventApply(was, e) == State()
      modifies this`events
      ensures Valid()
    {
      TaskRunMore(start, events, was, e);
      events := events + [e];
    }

    /** Meanwhile the sync side may queue some of its payloads. */
    method Meanwhile()
      requires Valid() && TaskLive(phase)
      modifies this`queue, this`inbox, this`accepted, this`events
      ensures Valid() && queue + inbox == old(queue) + old(inbox)
      ensures old(queue) <= queue
    {
      while inbox != [] && |queue| < DEFAULT_MESSAGE_QUEUE_SIZE
        invariant Valid() && queue + inbox == old(queue) + old(inbox) && old(queue) <= queue
        decreases |inbox|
      {
        if * {
          return;
        }
        Arrive();
      }
    }

    method Arrive()
      requires Valid() && TaskLive(phase) && inbox != [] && |queue| < DEFAULT_MESSAGE_QUEUE_SIZE
      modifies this`queue, this`inbox, this`accepted, this`events
      ensures Valid() && queue == old(queue) + [old(inbox)[0]] && inbox == old(inbox)[1..]
      ensures queue + inbox == old(queue) + old(inbox)
    {
      ghost var was := State();
      var p := inbox[0];
      queue, inbox, accepted := queue + [p], inbox[1..], accepted + [p];
      Took(was, Arrives(p));
    }

    method BreakStream()
      requires Valid() && OnStream(State())
      modifies this`failed, this`phase, this`events, buffer
      ensures Valid() && failed && buffer.data == [] && phase == AfterFailure(old(phase))
    {
      ghost var was := State();
      var _ := buffer.SplitTo(|buffer.data|);
      failed, phase := true, AfterFailure(phase);
      Took(was, Steps(WriteFails));
    }

    /** Writes until the buffer is empty. The stream takes as much as it likes at a time and may fail; a
        stop signal may cancel it between two writes. */
    method Flush(cancellable: bool) returns (r: Flushed)
      requires Valid() && OnStream(State())
      modifies this, buffer
      ensures Valid() && start == old(start) && queue + inbox == old(queue) + old(inbox) && old(queue) <= queue
      ensures r.AllWritten? ==> buffer.data == [] && !failed && phase == old(phase)
      ensures r.Broken? ==> failed && phase == AfterFailure(old(phase))
      ensures r.Cancelled? ==> cancellable && phase == old(phase)
    {
      while buffer.data != [] && !failed
        invariant Valid() && OnStream(State())
        invariant start == old(start) && phase == old(phase)
        invariant queue + inbox == old(queue) + old(inbox) && old(queue) <= queue
        decreases |buffer.data|
      {
        Meanwhile();
        if cancellable {
          if * {
            return Cancelled;
          }
        }
        if * {
          BreakStream();
          return Broken;
        }
        var n: nat :| 1 <= n <= |buffer.data|;
        WriteSome(n);
      }
      if failed {
        BreakStream();
        return Broken;
      }
      return AllWritten;
    }

    method WriteSome(n: nat)
      requires Valid() && OnStream(State()) && 0 < n <= |buffer.data|
      modifies this`stream, this`events, buffer
      ensures Valid() && OnStream(State())
      ensures buffer.data == old(buffer.data)[n..] && stream == old(stream) + old(buffer.data)[..n]
    {
      ghost var was := State();
      var front := buffer.SplitTo(n);
      stream := stream + front;
      Took(was, Steps(Writes(n)));
    }

    /** `frame_sender.send` of the next payload: encode it behind what is still buffered, then flush. */
    method SendNext(inLoop: bool) returns (r: Sent)
      requires Valid() && queue != [] && phase == Idle(inLoop)
      modifies this, buffer
      ensures Valid() && start == old(start) && queue + inbox == (old(queue) + old(inbox))[1..]
      ensures old(queue)[1..] <= queue
      ensures r.Done? ==> phase == Idle(inLoop)
      ensures r.Erred? ==> phase == if inLoop then Selecting(Reporting) else Draining(false)
      ensures r.Cut? ==> inLoop && phase.Selecting?
    {
      hide Valid, OnStream, State;
      var encoded := EncodeNext(inLoop);
      if !encoded {
        return Erred;
      }
      var flushed := Flush(inLoop);
      if flushed.Broken? {
        return Erred;
      }
      if flushed.Cancelled? {
        return Cut;
      }
      SendIsDone(inLoop);
      return Done;
    }

    ghost method SendIsDone(inLoop: bool)
      requires Valid() && phase == (if inLoop then Selecting(Sending) else Draining(true)) && buffer.data == []
          && !failed
      modifies this`phase, this`events
      ensures Valid() && phase == Idle(inLoop)
    {
      ghost var was := State();
      phase := Idle(inLoop);
      Took(was, Steps(SendDone));
    }

    /** A broken stream carries nothing any more: what is encoded for it is dropped. */
    method EncodeNext(inLoop: bool) returns (ok: bool)
      requires Valid() && queue != [] && phase == Idle(inLoop)
      modifies this`queue, this`phase, this`events, buffer
      ensures Valid() && queue == old(queue)[1..]
      ensures if ok then OnStream(State()) && phase == (if inLoop then Selecting(Sending) else Draining(true))
              else phase == if inLoop then Selecting(Reporting) else Draining(false)
    {
      ghost var was := State();
      var p := queue[0];
      queue := queue[1..];
      var encoded := encoder.Encode(p, buffer);
      if encoded.Err? {
        phase := if inLoop then Selecting(Reporting) else Draining(false);
        Took(was, Steps(if inLoop then TakeNext(false) else DrainNext));
        return false;
      }
      if failed {
        var _ := buffer.SplitTo(|buffer.data|);
      }
      phase := if inLoop then Selecting(Sending) else Draining(true);
      Took(was, Steps(if inLoop then TakeNext(false) else DrainNext));
      return true;
    }

    /** The loop inside the `select`: it ends when a stop signal cancels it, wherever it is, or when an
        error cannot be reported. Waiting for a payload that never comes is left to the stop signal. */
    method SendLoop() returns (panicked: bool)
      requires Valid() && phase == Selecting(Waiting)
      modifies this, buffer
      ensures Valid() && start == old(start)
      ensures if panicked then phase.Panicked? else phase.Selecting?
    {
      while true
        invariant Valid() && start == old(start) && phase == Selecting(Waiting)
        decreases |queue + inbox|
      {
        Meanwhile();
        if queue == [] {
          return false;
        }
        if * {
          return false;
        }
        var sent := SendNext(true);
        if sent.Cut? {
          return false;
        }
        if sent.Erred? {
          Meanwhile();
          if * {
            return false;
          }
          var heard: bool := *;
          Report(heard);
          if !heard {
            return true;
          }
        }
      }
    }

    method Report(heard: bool)
      requires Valid() && phase == Selecting(Reporting)
      modifies this`phase, this`events
      ensures Valid() && phase == if heard then Selecting(Waiting) else Panicked
    {
      ghost var was := State();
      phase := if heard then Selecting(Waiting) else Panicked;
      Took(was, Steps(Reported(heard)));
    }

    /** The task after its stream is open, until it ends for the given reason. On a local order without a
        stream error its stream carries the frames of what it took: all that had been accepted when it
        started, and what arrived until its last look at the queue. */
    method RunToEnd(reason: CloseReason)
      requires Valid() && phase == Selecting(Waiting) && ChanInv(start) && !Drained(start.phase)
      modifies this, buffer
      ensures Valid() && start == old(start)
      ensures phase == Ended(reason) || phase.Panicked?
      ensures phase == Ended(LocalOrder) && !failed ==>
                && stream == EncodedAll(start.id, start.config, Taken(State()))
                && start.accepted <= Taken(State()) <= accepted
    {
      hide ChanInv, EncodedAll, Valid, Taken, State;
      var panicked := SendLoop();
      if panicked {
        return;
      }
      Stop(reason);
      if reason.PeerClosed? {
        return;
      }
      Drain();
      FlushAndFinish();
      EverythingWritten();
    }

    method Stop(reason: CloseReason)
      requires Valid() && phase.Selecting?
      modifies this`phase, this`events
      ensures Valid() && phase == if reason.PeerClosed? then Ended(PeerClosed) else Draining(false)
    {
      ghost var was := State();
      phase := if reason.PeerClosed? then Ended(PeerClosed) else Draining(false);
      Took(was, Steps(Stops(reason)));
    }

    /** The drain: `try_recv` until the queue is found empty. */
    method Drain()
      requires Valid() && phase == Draining(false)
      modifies this, buffer
      ensures Valid() && start == old(start) && phase == Flushing
    {
      while true
        invariant Valid() && start == old(start) && phase == Draining(false)
        decreases |queue + inbox|
      {
        Meanwhile();
        if queue == [] {
          ghost var was := State();
          phase := Flushing;
          Took(was, Steps(DrainDone));
          return;
        }
        var _ := SendNext(false);
      }
    }

    /** Payloads that arrive from now on are never taken. */
    method FlushAndFinish()
      requires Valid() && phase == Flushing
      modifies this, buffer
      ensures Valid() && start == old(start) && phase == Ended(LocalOrder)
    {
      var flushed := Flush(false);
      if flushed.AllWritten? {
        Meanwhile();
        ghost var was := State();
        phase := Ended(LocalOrder);
        Took(was, Steps(Finish));
      }
    }

    lemma EverythingWritten()
      requires Valid() && ChanInv(start) && !Drained(start.phase)
      ensures phase == Ended(LocalOrder) && !failed ==>
                && stream == EncodedAll(start.id, start.config, Taken(State()))
                && start.accepted <= Taken(State()) <= accepted
    {
      hide ChanInv, EncodedAll, Taken;
      TaskRunKeepsInv(start, start, events, State());
      if phase == Ended(LocalOrder) && !failed {
        OrderedDrained(start, State());
      }
    }
  }
}
