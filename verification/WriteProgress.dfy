/** What is accepted on a channel can be written: from every state that no losing event has touched, the
    background tasks have steps that empty the channel's queue and put every byte on a stream. */
module WriteProgress {
  import opened Prelude
  import opened StreamReceive
  import opened ChannelTask
  import opened ConnectionTasks
  import opened CloseProgress
  import opened Links

  /** Steps of the spawner and of the channel's own task and children, none of which is a losing event for the
      channel or ends the send loop. */
  predicate Writing(k: Link, step: Step) {
    step.SpawnsNext? || (step.Task? && step.h == k.h && !step.step.Stops? && !Breaks(step.step))
  }

  predicate WritingRun(k: Link, t: State, steps: seq<Step>, u: State)
    decreases |steps|
  {
    if steps == [] then t == u
    else
      && Enabled(t, steps[0]) && Writing(k, steps[0])
      && WritingRun(k, Apply(t, steps[0]), steps[1..], u)
  }

  /** Nothing of what was accepted is still to be written. */
  predicate AllWritten(c: Chan) {
    c.queue == [] && c.buffer == [] && forall j :: 0 <= j < |c.children| ==> !ChildLive(c.children[j])
  }

  /** If payloads wait for the channel to be served, somebody still serves channels. */
  predicate WillBeServed(t: State, c: Chan) {
    c.phase.Unserved? && c.queue != [] ==> t.spawner.Serving?
  }

  ghost predicate Going(k: Link, t: State) {
    ObservedOk(k, t) && Clean(k, t) && !k.config.Unreliable? && WillBeServed(t, Observed(k, t))
  }

  /** A task that is live has no error to report on a clean channel. */
  lemma CleanNeverReports(k: Link, c: Chan)
    requires ChanInv(c) && c.config == k.config && !k.config.Unreliable? && !c.failed && AllArrive(k, c.accepted)
    ensures c.phase != Selecting(Reporting)
  {
    hide ChildInv, QueueIsRest, OnItsWay, EncodedAll, Fits, Deliverable;
    forall j | 0 <= j < |Taken(c)| ensures Fits(c.config, Taken(c)[j]) {
      assert Taken(c)[j] in c.accepted;
    }
  }

  lemma NothingInHand(c: Chan)
    requires ChanInv(c) && !c.failed && !c.config.Unreliable?
    ensures NothingBegun(c.phase) || c.phase == Ended(LocalOrder) ==> c.buffer == []
    ensures c.phase.Unserved? ==> c.children == []
  {
    UnservedHasNoChildren(c);
    hide ChildInv, QueueIsRest, OnItsWay, EncodedAll, Fits, SomeOversize, Taken;
  }

  /** A channel whose task has ended cleanly has written everything but what its children still write. */
  lemma EndedIsEmpty(k: Link, t: State)
    requires Going(k, t) && !TaskLive(Observed(k, t).phase) && !Observed(k, t).phase.Unserved?
    ensures Observed(k, t).queue == [] && Observed(k, t).buffer == []
  {
    hide Inv, ChanInv, AllArrive, NoChildFailed, Observed;
    ObservedInv(k, t);
    NothingLeftBehind(k, t);
    FittingNeverPanics(k, Observed(k, t));
    NothingInHand(Observed(k, t));
    var p := Observed(k, t).phase;
    assert p.Ended? ==> p.reason.LocalOrder? || p == Ended(PeerClosed);
  }

  /** A live child of a clean channel goes on. */
  lemma ChildGoesOn(k: Link, t: State, j: nat) returns (ts: TaskStep)
    requires Going(k, t) && k.h < |t.chans| && j < |t.chans[k.h].children| && ChildLive(t.chans[k.h].children[j])
    ensures Enabled(t, Task(k.h, ts)) && !ts.Stops? && !Breaks(ts)
  {
    hide Going, ReportsFull, Enabled, ChildEnabled;
    var c := t.chans[k.h].children[j];
    CleanChildFits(k, t, j);
    LiveChildSteps(t, k.h, j);
    return OfChild(j, ChildNext(t, c));
  }

  lemma CleanChildFits(k: Link, t: State, j: nat)
    requires Going(k, t) && k.h < |t.chans| && j < |t.chans[k.h].children|
    ensures var c := t.chans[k.h].children[j]; !c.failed && !c.phase.ChildReporting?
  {
    hide Inv, Fits, Deliverable, OnItsWay, EncodedAll, SomeOversize;
    ObservedInv(k, t);
    var c := t.chans[k.h];
    if c.config.UnorderedReliable? {
      assert ChildInv(c.id, c.config, c.children[j]);
      assert c.children[j].payload == Taken(c)[j] && Taken(c)[j] in c.accepted;
      assert FitsAndArrives(k, c.children[j].payload);
    }
  }

  /** A live task of a clean channel that has something to write goes on. */
  lemma TaskGoesOn(k: Link, t: State) returns (ts: TaskStep)
    requires Going(k, t) && k.h < |t.chans| && TaskLive(t.chans[k.h].phase)
    requires t.chans[k.h].queue != [] || t.chans[k.h].buffer != []
    ensures Enabled(t, Task(k.h, ts)) && !ts.Stops? && !Breaks(ts)
  {
    hide ChanInv, HeldByAll, QueueOk, AllArrive, NoChildFailed;
    var c := t.chans[k.h];
    ObservedInv(k, t);
    CleanNeverReports(k, c);
    NothingInHand(c);
    ts := TaskNext(t, c);
    LiveTaskSteps(t, k.h);
  }

  /** As long as something is to be written there is a step towards it. */
  lemma SomethingGoesOn(k: Link, t: State) returns (step: Step)
    requires Going(k, t) && !AllWritten(Observed(k, t))
    ensures Enabled(t, step) && Writing(k, step)
  {
    hide ChanInv, HeldByAll, ChanOk, AllArrive, NoChildFailed, ChildLive, TaskMay;
    var c := Observed(k, t);
    ObservedInv(k, t);
    NothingInHand(c);
    if c.phase.Unserved? {
      assert k.h in t.unserved;
      return SpawnsNext;
    }
    var ts: TaskStep;
    if j :| 0 <= j < |c.children| && ChildLive(c.children[j]) {
      ts := ChildGoesOn(k, t, j);
    } else {
      if !TaskLive(c.phase) {
        EndedIsEmpty(k, t);
      }
      ts := TaskGoesOn(k, t);
    }
    return Task(k.h, ts);
  }

  lemma StillGoing(k: Link, t: State, step: Step)
    requires Going(k, t) && Enabled(t, step) && Writing(k, step)
    ensures Going(k, Apply(t, step))
    ensures Observed(k, Apply(t, step)).accepted == Observed(k, t).accepted
  {
    hide ObservedOk, Clean;
    ObservedStep(k, t, step);
    CleanStep(k, t, step);
    SameAccepted(k, t, step);
  }

  lemma SameAccepted(k: Link, t: State, step: Step)
    requires ObservedOk(k, t) && Enabled(t, step) && Writing(k, step)
    ensures var c, d := Observed(k, t), Observed(k, Apply(t, step));
            && d.accepted == c.accepted
            && (d.phase.Unserved? ==> step.SpawnsNext?)
  {
    hide ChanInv, HeldByAll, TaskApply, TaskEnabled, KeepaliveChange, MayStop, MayReport;
    if step.Task? {
      TaskKeepsChan(t, t.chans[k.h], step.step);
      StepFrame(t.chans[k.h], step.step);
    }
  }

  /** So everything can be written, without another event. */
  lemma {:induction false} CanWriteAll(k: Link, t: State) returns (steps: seq<Step>, u: State)
    requires Going(k, t)
    ensures WritingRun(k, t, steps, u) && Going(k, u)
    ensures AllWritten(Observed(k, u)) && Observed(k, u).accepted == Observed(k, t).accepted
    decreases StepsLeft(t)
  {
    hide Going, AllWritten, Enabled, Apply, StepsLeft, Observed;
    if AllWritten(Observed(k, t)) {
      return [], t;
    }
    var step := SomethingGoesOn(k, t);
    StillGoing(k, t, step);
    GoingInv(k, t);
    StepDescends(t, step);
    steps, u := CanWriteAll(k, Apply(t, step));
    assert ([step] + steps)[1..] == steps;
    steps := [step] + steps;
  }

  lemma GoingInv(k: Link, t: State)
    requires Going(k, t)
    ensures Inv(t)
  {
  }

  // ---------------------------------------------------------------- a channel that goes on accepting

  /** The task is still to come, or in its send loop. */
  predicate BeforeStop(p: Phase) {
    p.Unserved? || p.Opening? || p.Selecting?
  }

  /** The channel is open for more. */
  predicate Ready(k: Link, t: State) {
    && t.syncAlive && t.spawner.Serving? && k.h < |t.chans|
    && t.chans[k.h].senderAlive && BeforeStop(t.chans[k.h].phase)
  }

  lemma ReadyIsCreated(k: Link, t: State)
    requires Ready(k, t)
    ensures k.h < |t.chans|
  {
  }

  lemma LoopGoesOn(c: Chan, ts: TaskStep)
    requires TaskEnabled(c, ts) && BeforeStop(c.phase) && !ts.Stops? && !Breaks(ts) && ts != Reported(false)
    ensures BeforeStop(TaskApply(c, ts).phase)
  {
    hide Consume, ChildApply, ChildEnabled;
    match ts
    case TakeNext(lost) => ConsumeFrame(c, true, lost);
    case _ =>
  }

  lemma StepStaysReady(k: Link, t: State, step: Step)
    requires Ready(k, t) && Enabled(t, step) && Writing(k, step)
    ensures Ready(k, Apply(t, step))
  {
    hide TaskApply, TaskEnabled, KeepaliveChange, MayStop;
    if step.Task? {
      LoopGoesOn(t.chans[k.h], step.step);
      StepFrame(t.chans[k.h], step.step);
    }
  }

  lemma {:induction false} WritingStaysReady(k: Link, t: State, steps: seq<Step>, u: State)
    requires Ready(k, t) && WritingRun(k, t, steps, u)
    ensures Ready(k, u)
    decreases |steps|
  {
    hide Ready, Enabled, Apply, Writing;
    if steps != [] {
      StepStaysReady(k, t, steps[0]);
      WritingStaysReady(k, Apply(t, steps[0]), steps[1..], u);
    }
  }

  /** It takes another payload once what came before is written. */
  lemma ReadyAccepts(k: Link, t: State, p: Bytes)
    requires Ready(k, t) && AllWritten(t.chans[k.h])
    ensures Enabled(t, Accepts(k.h, p)) && Ready(k, Apply(t, Accepts(k.h, p)))
    ensures Observed(k, Apply(t, Accepts(k.h, p))).accepted == Observed(k, t).accepted + [p]
    ensures FitsAndArrives(k, p) ==> !SenderEventLoses(k, t, Accepts(k.h, p))
    ensures WillBeServed(Apply(t, Accepts(k.h, p)), Observed(k, Apply(t, Accepts(k.h, p))))
  {
    hide FitsAndArrives;
  }

  /** Any number of other channels may have been created and served before. */
  predicate Started(t: State, n: nat) {
    |t.chans| == n && t.unserved == [] && t.spawner.Serving? && t.syncAlive
  }

  function OtherId(id: ChannelId): ChannelId {
    if id == 0 then 1 else 0
  }

  lemma OneMoreStarted(k: Link, t: State, n: nat)
    requires Started(t, n) && Inv(t) && n < k.h
    ensures var create := Create(OtherId(k.id), Unreliable);
            && Enabled(t, create) && CreatesObserved(k, t, create) && !SenderEventLoses(k, t, create)
            && Enabled(Apply(t, create), SpawnsNext) && !SenderEventLoses(k, Apply(t, create), SpawnsNext)
            && CreatesObserved(k, Apply(t, create), SpawnsNext)
            && Started(Apply(Apply(t, create), SpawnsNext), n + 1)
  {
    hide Inv;
  }

  lemma LastCreated(k: Link, t: State)
    requires Started(t, k.h)
    ensures var create := Create(k.id, k.config);
            && Enabled(t, create) && CreatesObserved(k, t, create) && !SenderEventLoses(k, t, create)
            && Ready(k, Apply(t, create))
            && Observed(k, Apply(t, create)) == NewChan(k.id, k.config)
  {
  }
}
