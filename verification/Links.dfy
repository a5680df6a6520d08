/** One channel of a connection under observation, and the events on its send side that can cost it
    payloads. The channel's id is used by no other channel of the connection. */
module Links {
  import opened Prelude
  import opened Codec
  import opened StreamReceive
  import opened RecvChannels
  import opened ChannelTask
  import opened ConnectionTasks

  /** The channel under observation: the `h`-th created on its connection; the receiver's limit and buffers. */
  datatype Link = Link(h: nat, id: ChannelId, config: ChannelConfig, decoderMax: nat, cfg: RecvConfig)

  /** The channel, also before its creation. */
  function Observed(k: Link, t: State): Chan {
    if k.h < |t.chans| then t.chans[k.h] else NewChan(k.id, k.config)
  }

  /** The `h`-th channel that is created is the one under observation. */
  predicate CreatesObserved(k: Link, t: State, step: Step) {
    step.Create? && |t.chans| == k.h ==> step.id == k.id && step.config == k.config
  }

  ghost predicate ObservedOk(k: Link, t: State) {
    Inv(t) && Observed(k, t).id == k.id && Observed(k, t).config == k.config
  }

  /** A step that is neither one of the channel's own task nor accepts a payload on it. */
  predicate Elsewhere(k: Link, step: Step) {
    !(step.Task? && step.h == k.h) && !(step.Accepts? && step.h == k.h)
  }

  lemma StartObserved(k: Link)
    ensures ObservedOk(k, INITIAL) && Observed(k, INITIAL).stream == []
  {
    assert Inv(INITIAL);
  }

  lemma ObservedInv(k: Link, t: State)
    requires ObservedOk(k, t)
    ensures ChanInv(Observed(k, t))
  {
    NewChanInv(k.id, k.config);
    hide HeldByAll, Held, ChanInv;
  }

  /** What a step elsewhere leaves of the channel: all but its flags, unless the spawner takes it up. */
  lemma OtherStepFrame(k: Link, t: State, step: Step)
    requires Inv(t) && Enabled(t, step) && Elsewhere(k, step) && CreatesObserved(k, t, step)
    ensures var c, d, u := Observed(k, t), Observed(k, Apply(t, step)), Apply(t, step);
            && d == c.(phase := d.phase, senderAlive := d.senderAlive, closeSignal := d.closeSignal,
                 closePos := d.closePos)
            && (d.phase == c.phase || (c.phase.Unserved? && (d.phase.Opening? || d.phase == Selecting(Waiting))))
            && (u.spawner.ConnectionClosed? ==> t.spawner.ConnectionClosed? || step.ConnectionCloses?)
  {
    hide HeldByAll, Held, ChanOk, TaskApply, TaskMay, KeepaliveChange, ReceiverAlive, Accept, MayReport;
  }

  /** Every step on the send side only adds to the channel's stream and to what its task has taken. */
  lemma ObservedStep(k: Link, t: State, step: Step)
    requires ObservedOk(k, t) && Enabled(t, step) && CreatesObserved(k, t, step)
    ensures ObservedOk(k, Apply(t, step))
    ensures var c, d := Observed(k, t), Observed(k, Apply(t, step));
            c.stream <= d.stream && Taken(c) <= Taken(d)
  {
    StepKeepsInv(t, step);
    if step.Task? && step.h == k.h {
      ObservedTaskStep(k, t, step.step);
    } else if step.Accepts? && step.h == k.h {
      ObservedAccept(k, t, step.payload);
    } else {
      OtherStepFrame(k, t, step);
      SameQueue(Observed(k, t), Observed(k, Apply(t, step)));
    }
    hide Inv, Taken, Enabled, Apply;
  }

  lemma ObservedTaskStep(k: Link, t: State, ts: TaskStep)
    requires Inv(t) && Enabled(t, Task(k.h, ts))
    ensures var c, d := Observed(k, t), Observed(k, Apply(t, Task(k.h, ts)));
            && TaskEnabled(c, ts) && d == TaskApply(c, ts)
            && c.stream <= d.stream && Taken(c) <= Taken(d) && d.id == c.id && d.config == c.config
  {
    hide ChanInv, TaskEnabled, Taken, HeldByAll, TaskApply, MayStop, MayReport;
    TaskGrows(t.chans[k.h], ts);
    StepFrame(t.chans[k.h], ts);
  }

  lemma ObservedAccept(k: Link, t: State, p: Bytes)
    requires Inv(t) && Enabled(t, Accepts(k.h, p))
    ensures var c, d := Observed(k, t), Observed(k, Apply(t, Accepts(k.h, p)));
            && d == Accept(c, p) && ReceiverAlive(t, c)
            && c.stream == d.stream && Taken(c) == Taken(d) && d.id == c.id && d.config == c.config
  {
    hide ChanInv, Taken, HeldByAll, ReceiverAlive;
    AcceptKeepsInv(t.chans[k.h], p);
  }

  lemma TakenAndQueue(c: Chan)
    requires ChanInv(c)
    ensures c.accepted == Taken(c) + c.queue
  {
    hide EncodedAll, ChildInv, Fits, SomeOversize, OnItsWay;
  }

  lemma AcceptedStays(k: Link, t: State, step: Step)
    requires Enabled(t, step)
    ensures Observed(k, t).accepted <= Observed(k, Apply(t, step)).accepted
  {
    if k.h < |t.chans| {
      hide Enabled, Apply;
      AcceptedGrowsOnce(t, step, k.h);
    }
  }

  // ---------------------------------------------------------------- payloads that can be delivered

  /** No payload that was accepted and that the encoder takes wraps the length field. */
  predicate NoneWraps(k: Link, t: State) {
    forall p :: p in Observed(k, t).accepted && Fits(k.config, p) ==> PROTOCOL_HEADER_LEN + |p| < LENGTH_FIELD_RANGE
  }

  /** A channel whose limit fits the length field accepts no other payloads. */
  lemma SmallLimitNeverWraps(k: Link, t: State)
    requires !k.config.Unreliable? ==> k.config.maxFrameSize + PROTOCOL_HEADER_LEN < LENGTH_FIELD_RANGE
    ensures NoneWraps(k, t)
  {
  }

  lemma NoneWrapsBefore(k: Link, t: State, step: Step)
    requires Enabled(t, step) && NoneWraps(k, Apply(t, step))
    ensures NoneWraps(k, t)
  {
    hide Enabled, Apply, Fits, Observed;
    AcceptedStays(k, t, step);
  }

  /** The receive buffers are configured to hold payloads of the channel. */
  predicate Holds(k: Link) {
    k.cfg.maxBufferedPayloads >= 1 && k.id < k.cfg.maxReceiveChannels
  }

  predicate FitsAndArrives(k: Link, p: Bytes) {
    Fits(k.config, p) && Deliverable(p, k.decoderMax)
  }

  predicate AllArrive(k: Link, ps: seq<Bytes>) {
    forall p :: p in ps ==> FitsAndArrives(k, p)
  }

  /** With a limit strictly below the receiver's, everything that fits is deliverable. */
  lemma FittingIsDeliverable(k: Link, p: Bytes)
    requires !k.config.Unreliable? && k.config.maxFrameSize < k.decoderMax
    requires k.config.maxFrameSize + PROTOCOL_HEADER_LEN < LENGTH_FIELD_RANGE
    requires Fits(k.config, p)
    ensures Deliverable(p, k.decoderMax)
  {
  }

  // ---------------------------------------------------------------- what costs payloads

  /** A stream that fails, or a peer that is lost. */
  predicate Breaks(ts: TaskStep) {
    match ts
    case OpenFails => true
    case WriteFails => true
    case Stops(reason) => reason.PeerClosed?
    case OfChild(_, step) => step.ChildOpenFails? || step.ChildWriteFails?
    case _ => false
  }

  /** The events on the send side that cost payloads: accepting one that is over a limit or that comes after
      the last look at the queue, an error of a stream, a lost peer, and closing the connection before the
      channel was ever served. */
  predicate SenderEventLoses(k: Link, t: State, step: Step)
    requires Enabled(t, step)
  {
    match step
    case Accepts(h, p) => h == k.h && (!FitsAndArrives(k, p) || Drained(t.chans[h].phase))
    case ConnectionCloses => Observed(k, t).phase.Unserved? && Observed(k, t).queue != []
    case Task(h, ts) => h == k.h && Breaks(ts)
    case _ => false
  }

  /** The state of a channel that no such event has touched. */
  ghost predicate Clean(k: Link, t: State) {
    var c := Observed(k, t);
    && AllArrive(k, c.accepted)
    && !c.failed && c.phase != Ended(PeerClosed) && NoChildFailed(c)
    && (Drained(c.phase) || (c.phase.Unserved? && t.spawner.ConnectionClosed?) ==> c.queue == [])
  }

  lemma StartIsClean(k: Link)
    ensures Clean(k, INITIAL)
  {
  }

  lemma CleanNeverWraps(k: Link, t: State)
    requires Clean(k, t)
    ensures NoneWraps(k, t)
  {
    hide Fits, Observed;
  }

  lemma CleanArrives(k: Link, t: State)
    requires Clean(k, t)
    ensures AllArrive(k, Observed(k, t).accepted)
  {
  }

  lemma FittingNeverPanics(k: Link, c: Chan)
    requires ChanInv(c) && c.config == k.config && !k.config.Unreliable? && !c.failed && AllArrive(k, c.accepted)
    ensures !c.phase.Panicked?
  {
    hide ChanInv, Fits, Deliverable;
    assert forall i :: 0 <= i < |c.accepted| ==> FitsAndArrives(k, c.accepted[i]);
    NoPanic(c);
  }

  /** On a clean channel nothing is left in a queue that nobody empties. */
  lemma NothingLeftBehind(k: Link, t: State)
    requires ObservedOk(k, t) && Clean(k, t) && !k.config.Unreliable? && !ReceiverAlive(t, Observed(k, t))
    ensures Observed(k, t).queue == []
  {
    hide Inv, ChanInv, AllArrive, NoChildFailed, Observed;
    ObservedInv(k, t);
    FittingNeverPanics(k, Observed(k, t));
    var p := Observed(k, t).phase;
    assert p.Ended? ==> p.reason.LocalOrder? || p == Ended(PeerClosed);
  }

  /** A step of the task or of a child that breaks nothing fails nowhere. */
  lemma SoundStep(c: Chan, ts: TaskStep)
    requires TaskEnabled(c, ts) && !Breaks(ts) && NoChildFailed(c)
    ensures TaskApply(c, ts).failed == c.failed && NoChildFailed(TaskApply(c, ts))
  {
    OnlyErrorsFail(c, ts);
    hide Fits, Frame;
  }

  lemma CleanTask(k: Link, t: State, ts: TaskStep)
    requires ObservedOk(k, t) && Clean(k, t) && Enabled(t, Task(k.h, ts)) && !Breaks(ts)
    ensures Clean(k, Apply(t, Task(k.h, ts)))
  {
    hide ChanInv, HeldByAll, TaskEnabled, TaskApply, KeepaliveChange, MayStop, MayReport, AllArrive, NoChildFailed,
      QueueOk, KeepaliveOk;
    var c := t.chans[k.h];
    TaskKeepsChan(t, c, ts);
    hide ChanOk;
    SoundStep(c, ts);
    if Drained(c.phase) ==> c.queue == [] {
      DrainEndsEmpty(c, ts);
    }
    StepFrame(c, ts);
  }

  lemma CleanAccept(k: Link, t: State, p: Bytes)
    requires ObservedOk(k, t) && Clean(k, t) && Enabled(t, Accepts(k.h, p)) && !SenderEventLoses(k, t, Accepts(k.h, p))
    ensures Clean(k, Apply(t, Accepts(k.h, p)))
  {
    hide Inv, Fits, Deliverable;
  }

  lemma CleanElsewhere(k: Link, t: State, step: Step)
    requires ObservedOk(k, t) && Clean(k, t) && Enabled(t, step) && !SenderEventLoses(k, t, step)
    requires Elsewhere(k, step) && CreatesObserved(k, t, step)
    ensures Clean(k, Apply(t, step))
  {
    hide Enabled, Apply, Inv, AllArrive, CreatesObserved, NoChildFailed;
    OtherStepFrame(k, t, step);
    hide Observed;
    SameChildren(Observed(k, t), Observed(k, Apply(t, step)));
  }

  lemma SameChildren(c: Chan, d: Chan)
    requires d.children == c.children
    ensures NoChildFailed(d) == NoChildFailed(c)
  {
  }

  lemma CleanStep(k: Link, t: State, step: Step)
    requires ObservedOk(k, t) && Clean(k, t) && Enabled(t, step) && !SenderEventLoses(k, t, step)
    requires CreatesObserved(k, t, step)
    ensures Clean(k, Apply(t, step))
  {
    hide ObservedOk, Clean, Enabled, Apply, CreatesObserved, Observed;
    if step.Task? && step.h == k.h {
      CleanTask(k, t, step.step);
    } else if step.Accepts? && step.h == k.h {
      CleanAccept(k, t, step.payload);
    } else {
      CleanElsewhere(k, t, step);
    }
  }
}
