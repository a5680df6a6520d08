/** When a close of a connection completes: exactly when the waiting spawner is stuck, why every run of
    the background tasks ends, and what becomes of channels that were never served. */
module CloseProgress {
  import opened Prelude
  import opened Codec
  import opened ChannelTask
  import opened ConnectionTasks

  /** A step that needs nothing from the sync side. */
  predicate Background(step: Step) {
    step.SpawnsNext? || step.SpawnerStops? || step.ConnectionCloses? || step.Task?
  }

  /** The spawner waits for tasks, and nothing can happen until the sync side acts. */
  ghost predicate Stuck(s: State) {
    s.spawner.AwaitingTasks? && forall step :: Background(step) ==> !Enabled(s, step)
  }

  /** A report would be read but there is no room for it. */
  predicate ReportsFull(s: State) {
    s.syncAlive && s.reports >= DEFAULT_INTERNAL_MESSAGES_CHANNEL_SIZE
  }

  /** The task has received every close that was broadcast since it subscribed, and its channel and its
      connection still exist. */
  predicate NoSignal(s: State, c: Chan) {
    c.closePos == |s.closes| && !c.closeSignal && c.senderAlive && s.syncAlive
  }

  /** The task waits for a payload, or for room to report a lost connection, and has no signal to see. */
  predicate Deaf(s: State, c: Chan) {
    && NoSignal(s, c)
    && ((c.phase == Selecting(Waiting) && c.queue == []) || (c.phase == Selecting(Reporting) && ReportsFull(s)))
  }

  /** Every child that is left waits for room to report a lost connection. */
  predicate ChildrenWait(s: State, c: Chan) {
    forall k :: 0 <= k < |c.children| && ChildLive(c.children[k]) ==>
      c.children[k].phase.ChildReporting? && ReportsFull(s)
  }

  // ---------------------------------------------------------------- what can happen next

  /** The reason that a task would be given by the signals it can see. */
  function VisibleStop(s: State, c: Chan): CloseReason {
    if !c.closeSignal && c.senderAlive && c.closePos < |s.closes| <= c.closePos + CLOSE_BACKLOG
    then s.closes[c.closePos] else LocalOrder
  }

  /** What a live child does next when nothing fails. */
  function ChildNext(s: State, c: Child): ChildStep {
    match c.phase
    case ChildOpening => ChildOpened
    case ChildSending => if c.buffer == [] then ChildSent else ChildWrites(|c.buffer|)
    case _ => ChildReported(s.syncAlive)
  }

  /** What a live task does next when nothing fails that has not failed before. */
  function TaskNext(s: State, c: Chan): TaskStep {
    var flush := if c.failed then WriteFails else if c.buffer == [] then SendDone else Writes(|c.buffer|);
    match c.phase
    case Opening => Opened
    case Selecting(Waiting) => if c.queue != [] then TakeNext(false) else Stops(VisibleStop(s, c))
    case Selecting(Sending) => flush
    case Selecting(Reporting) => if ReportsFull(s) then Stops(VisibleStop(s, c)) else Reported(s.syncAlive)
    case Draining(sending) => if sending then flush else if c.queue != [] then DrainNext else DrainDone
    case _ => if c.buffer == [] then Finish else if c.failed then WriteFails else Writes(|c.buffer|)
  }

  lemma FlushingIsOrdered(c: Chan)
    requires ChanInv(c)
    ensures c.phase.Flushing? && c.buffer != [] ==> c.config.OrderedReliable?
  {
    hide Taken, EncodedAll, ChildInv, QueueIsRest, SomeOversize;
  }

  lemma NextEnabled(s: State, c: Chan)
    requires TaskLive(c.phase) && (c.phase.Flushing? && c.buffer != [] ==> c.config.OrderedReliable?)
    ensures TaskEnabled(c, TaskNext(s, c))
  {
    hide VisibleStop;
  }

  /** The signals and the report queue allow that step. */
  lemma SignalsAllow(s: State, c: Chan)
    requires c.closePos <= |s.closes| && !Deaf(s, c)
    ensures match TaskNext(s, c)
            case Stops(reason) => MayStop(s, c, reason)
            case Reported(heard) => MayReport(s, heard)
            case OfChild(_, _) => false
            case _ => true
  {
  }

  /** A live task that is not deaf has a step, whatever it was doing. */
  lemma LiveTaskSteps(s: State, h: nat)
    requires Inv(s) && h < |s.chans| && TaskLive(s.chans[h].phase) && !Deaf(s, s.chans[h])
    ensures Enabled(s, Task(h, TaskNext(s, s.chans[h])))
  {
    hide ChanInv, TaskEnabled, HeldByAll, TaskNext;
    var c := s.chans[h];
    assert ChanOk(s, c);
    FlushingIsOrdered(c);
    NextEnabled(s, c);
    SignalsAllow(s, c);
  }

  /** A live child has a step unless it waits for room to report. */
  lemma LiveChildSteps(s: State, h: nat, k: nat)
    requires h < |s.chans| && k < |s.chans[h].children| && ChildLive(s.chans[h].children[k])
    requires !(s.chans[h].children[k].phase.ChildReporting? && ReportsFull(s))
    ensures Enabled(s, Task(h, OfChild(k, ChildNext(s, s.chans[h].children[k]))))
  {
  }

  // ---------------------------------------------------------------- exactly when nothing can

  lemma {:induction false} DeadChildren(cs: seq<Child>)
    ensures LiveChildren(cs) == 0 <==> forall k :: 0 <= k < |cs| ==> !ChildLive(cs[k])
  {
    hide ChildLive;
    if cs != [] {
      DeadChildren(cs[1..]);
      assert forall k :: 0 <= k < |cs| - 1 ==> cs[1..][k] == cs[k + 1];
    }
  }

  /** A deaf or ended task whose children wait has no step. */
  lemma WaitingHasNoStep(s: State, c: Chan)
    requires TaskLive(c.phase) ==> Deaf(s, c)
    requires ChildrenWait(s, c)
    ensures forall ts :: !TaskMay(s, c, ts)
  {
  }

  /** Nobody but tasks without a signal and children without room is left on the channel. */
  predicate AllWait(s: State, c: Chan) {
    (TaskLive(c.phase) ==> Deaf(s, c)) && ChildrenWait(s, c)
  }

  /** Exactly when the waiting spawner is stuck: a task or a child is left, every child that is left waits for
      room in the full queue of reports, and every task that is left has no signal to see and waits for a
      payload or for that room. */
  lemma StuckExactly(steps: seq<Step>, s: State)
    requires Run(INITIAL, steps, s) && s.spawner.AwaitingTasks?
    ensures Stuck(s) <==>
            && (exists h :: 0 <= h < |s.chans| && Held(s.chans[h]) > 0)
            && (forall h :: 0 <= h < |s.chans| ==> AllWait(s, s.chans[h]))
  {
    hide Run, Inv, Stuck, AllWait, Held;
    ReachableInv(steps, s);
    if Stuck(s) {
      StuckWaits(s);
      StuckHolds(s);
    }
    if && (exists h :: 0 <= h < |s.chans| && Held(s.chans[h]) > 0)
       && (forall h :: 0 <= h < |s.chans| ==> AllWait(s, s.chans[h]))
    {
      var h :| 0 <= h < |s.chans| && Held(s.chans[h]) > 0;
      WaitersAreStuck(s, h);
    }
  }

  lemma WaitersAreStuck(s: State, live: nat)
    requires Inv(s) && s.spawner.AwaitingTasks? && live < |s.chans| && Held(s.chans[live]) > 0
    requires forall h :: 0 <= h < |s.chans| ==> AllWait(s, s.chans[h])
    ensures Stuck(s)
  {
    hide ChanInv, HeldByAll, Deaf, ChildrenWait, TaskMay, Held;
    if HeldByAll(s.chans) == 0 {
      HeldZero(s.chans, live);
    }
    forall h, ts | 0 <= h < |s.chans| ensures !TaskMay(s, s.chans[h], ts) {
      WaitingHasNoStep(s, s.chans[h]);
    }
  }

  /** The spawner is not stuck when nothing is left to wait for. */
  lemma StuckHolds(s: State)
    requires Inv(s) && Stuck(s)
    ensures exists h :: 0 <= h < |s.chans| && Held(s.chans[h]) > 0
  {
    hide ChanInv, HeldByAll, TaskMay, Held;
    if forall h :: 0 <= h < |s.chans| ==> Held(s.chans[h]) == 0 {
      HeldByNone(s.chans);
      MayClose(s);
    }
  }

  lemma MayClose(s: State)
    requires KeepaliveOk(s) && s.spawner.AwaitingTasks? && HeldByAll(s.chans) == 0
    ensures Enabled(s, ConnectionCloses)
  {
    hide HeldByAll;
  }

  lemma StuckWaits(s: State)
    requires Inv(s) && Stuck(s)
    ensures s.spawner.AwaitingTasks? && forall h :: 0 <= h < |s.chans| ==> AllWait(s, s.chans[h])
  {
    hide Inv, Enabled, Deaf, ChildLive, ReportsFull;
    forall h | 0 <= h < |s.chans| ensures AllWait(s, s.chans[h]) {
      forall k | 0 <= k < |s.chans[h].children| && ChildLive(s.chans[h].children[k])
        ensures s.chans[h].children[k].phase.ChildReporting? && ReportsFull(s)
      {
        if !(s.chans[h].children[k].phase.ChildReporting? && ReportsFull(s)) {
          LiveChildSteps(s, h, k);
        }
      }
      if TaskLive(s.chans[h].phase) && !Deaf(s, s.chans[h]) {
        LiveTaskSteps(s, h);
      }
    }
  }

  /** A live task that has a close still to see always has a step. */
  lemma UnseenCloseSteps(steps: seq<Step>, s: State, h: nat)
    requires Run(INITIAL, steps, s) && h < |s.chans| && TaskLive(s.chans[h].phase) && s.chans[h].closePos < |s.closes|
    ensures exists ts :: Enabled(s, Task(h, ts))
  {
    hide Run, Enabled, Inv;
    ReachableInv(steps, s);
    LiveTaskSteps(s, h);
  }

  /** Once the sync side has dropped the connection the spawner is never stuck. */
  lemma DroppedNeverStuck(s: State)
    requires Inv(s) && !s.syncAlive
    ensures !Stuck(s)
  {
    hide Inv, Held, ChildLive, Stuck;
    if Stuck(s) {
      StuckWaits(s);
      StuckHolds(s);
      var h :| 0 <= h < |s.chans| && Held(s.chans[h]) > 0;
      assert AllWait(s, s.chans[h]);
      DeadChildren(s.chans[h].children);
      HeldIsLive(s.chans[h]);
    }
  }

  lemma HeldIsLive(c: Chan)
    requires Held(c) > 0 && LiveChildren(c.children) == 0
    ensures TaskLive(c.phase)
  {
  }

  // ---------------------------------------------------------------- a close that every task can see

  /** A close has been broadcast that every live task can see, and no task will be spawned any more. */
  predicate Informed(s: State) {
    && s.closes != [] && (s.spawner.Serving? ==> s.unserved == [])
    && forall h :: 0 <= h < |s.chans| && TaskLive(s.chans[h].phase) ==> s.chans[h].closePos < |s.closes|
  }

  lemma OnlyLiveTasksStep(c: Chan, ts: TaskStep)
    requires TaskEnabled(c, ts)
    ensures TaskApply(c, ts).closePos == c.closePos
    ensures TaskLive(TaskApply(c, ts).phase) ==> TaskLive(c.phase)
  {
    StepFrame(c, ts);
    hide Consume, ChildApply, ChildEnabled;
  }

  lemma StepStaysInformed(s: State, step: Step)
    requires Informed(s) && Enabled(s, step) && !step.Create?
    ensures Informed(Apply(s, step))
  {
    hide TaskApply, TaskEnabled, KeepaliveChange, MayStop, ReceiverAlive;
    if step.Task? {
      OnlyLiveTasksStep(s.chans[step.h], step.step);
    }
  }

  predicate WithoutCreation(steps: seq<Step>) {
    forall i :: 0 <= i < |steps| ==> !steps[i].Create?
  }

  lemma {:induction false} RunStaysInformed(s: State, steps: seq<Step>, last: State)
    requires Informed(s) && Run(s, steps, last) && WithoutCreation(steps)
    ensures Informed(last)
    decreases |steps|
  {
    hide Informed, Enabled, Apply;
    if steps != [] {
      StepStaysInformed(s, steps[0]);
      RunStaysInformed(Apply(s, steps[0]), steps[1..], last);
    }
  }

  lemma InformedAfterClose(first: seq<Step>, mid: State, reason: CloseReason, second: seq<Step>, last: State)
    requires Run(INITIAL, first, mid) && mid.unserved == [] && Enabled(mid, ClosesConnection(reason))
    requires Run(Apply(mid, ClosesConnection(reason)), second, last) && WithoutCreation(second)
    ensures Inv(last) && Informed(last)
  {
    hide Run, HeldByAll, ChanInv;
    ReachableInv(first, mid);
    StepKeepsInv(mid, ClosesConnection(reason));
    var closed := Apply(mid, ClosesConnection(reason));
    assert Informed(closed);
    RunKeepsInv(closed, second, last);
    RunStaysInformed(closed, second, last);
  }

  /** What a caller can rely on that closes a connection while no creation message is queued, and creates no
      channel afterwards: no task misses the close, so the spawner is stuck exactly while nobody is left but
      children that wait for room in the full queue of reports, and one report read ends that. */
  lemma ServedBeforeCloseStuckExactly(
      first: seq<Step>, mid: State, reason: CloseReason, second: seq<Step>, last: State)
    requires Run(INITIAL, first, mid) && mid.unserved == [] && Enabled(mid, ClosesConnection(reason))
    requires Run(Apply(mid, ClosesConnection(reason)), second, last) && WithoutCreation(second)
    ensures Stuck(last) <==>
            && last.spawner.AwaitingTasks? && ReportsFull(last)
            && (exists h :: 0 <= h < |last.chans| && Held(last.chans[h]) > 0)
            && (forall h :: 0 <= h < |last.chans| ==>
                  !TaskLive(last.chans[h].phase) && ChildrenWait(last, last.chans[h]))
    ensures Stuck(last) ==> Enabled(last, SyncReads) && !Stuck(Apply(last, SyncReads))
  {
    hide Run, Inv, Stuck, Held, ReportsFull, ChildrenWait;
    InformedAfterClose(first, mid, reason, second, last);
    if Stuck(last) {
      StuckWaits(last);
      StuckHolds(last);
      InformedWaiters(last);
    }
    if && last.spawner.AwaitingTasks?
       && (exists h :: 0 <= h < |last.chans| && Held(last.chans[h]) > 0)
       && (forall h :: 0 <= h < |last.chans| ==>
             !TaskLive(last.chans[h].phase) && ChildrenWait(last, last.chans[h]))
    {
      var h :| 0 <= h < |last.chans| && Held(last.chans[h]) > 0;
      WaitersAreStuck(last, h);
    }
  }

  /** No task is deaf that has a close still to see, so only children wait, and one of them goes on when a
      report is read. */
  lemma InformedWaiters(s: State)
    requires Inv(s) && Informed(s) && s.spawner.AwaitingTasks?
    requires forall h :: 0 <= h < |s.chans| ==> AllWait(s, s.chans[h])
    requires exists h :: 0 <= h < |s.chans| && Held(s.chans[h]) > 0
    ensures forall h :: 0 <= h < |s.chans| ==> !TaskLive(s.chans[h].phase) && ChildrenWait(s, s.chans[h])
    ensures ReportsFull(s) && Enabled(s, SyncReads) && !Stuck(Apply(s, SyncReads))
  {
    hide ChanOk, Held, HeldByAll, ChildLive;
    forall h | 0 <= h < |s.chans| ensures !TaskLive(s.chans[h].phase) {
      assert AllWait(s, s.chans[h]);
    }
    var h :| 0 <= h < |s.chans| && Held(s.chans[h]) > 0;
    LiveChildHeld(s.chans[h]);
    var k :| 0 <= k < |s.chans[h].children| && ChildLive(s.chans[h].children[k]);
    assert AllWait(s, s.chans[h]);
    hide Inv, Enabled;
    assert Enabled(s, SyncReads) by { FullMayRead(s); }
    ReadingLetsReport(s, h, k);
  }

  lemma FullMayRead(s: State)
    requires ReportsFull(s)
    ensures Enabled(s, SyncReads)
  {
  }

  lemma LiveChildHeld(c: Chan)
    requires Held(c) > 0 && !TaskLive(c.phase)
    ensures exists k :: 0 <= k < |c.children| && ChildLive(c.children[k])
  {
    DeadChildren(c.children);
    hide LiveChildren, ChildLive;
  }

  lemma ReadingLetsReport(s: State, h: nat, k: nat)
    requires Inv(s) && Enabled(s, SyncReads) && h < |s.chans| && k < |s.chans[h].children|
    requires ChildLive(s.chans[h].children[k])
    ensures !Stuck(Apply(s, SyncReads))
  {
    hide ChanOk, HeldByAll, QueueOk;
    var t := Apply(s, SyncReads);
    assert !ReportsFull(t);
    LiveChildSteps(t, h, k);
    hide Enabled;
    assert Background(Task(h, OfChild(k, ChildNext(t, t.chans[h].children[k]))));
  }

  // ---------------------------------------------------------------- every run of the tasks ends

  function Sum<T>(xs: seq<T>, weight: T -> nat): nat {
    if xs == [] then 0 else weight(xs[0]) + Sum(xs[1..], weight)
  }

  lemma {:induction false} SumUpdate<T>(xs: seq<T>, weight: T -> nat, k: nat, y: T)
    requires k < |xs|
    ensures Sum(xs[k := y], weight) == Sum(xs, weight) - weight(xs[k]) + weight(y)
  {
    if k > 0 {
      SumUpdate(xs[1..], weight, k - 1, y);
      assert xs[k := y][1..] == xs[1..][k - 1 := y];
    } else {
      assert xs[0 := y][1..] == xs[1..];
    }
  }

  lemma {:induction false} SumAppend<T>(xs: seq<T>, weight: T -> nat, y: T)
    ensures Sum(xs + [y], weight) == Sum(xs, weight) + weight(y)
  {
    if xs == [] {
      assert xs + [y] == [y] && [y][1..] == [];
    } else {
      SumAppend(xs[1..], weight, y);
      assert (xs + [y])[1..] == xs[1..] + [y];
    }
  }

  lemma SumSplits<T>(xs: seq<T>, weight: T -> nat)
    requires xs != []
    ensures Sum(xs, weight) == weight(xs[0]) + Sum(xs[1..], weight)
  {
  }

  /** Bounds on the steps that are still to come: of a child, for a queued payload, in a phase. */
  function ChildWeight(c: Child): nat {
    match c.phase
    case ChildOpening => |c.payload| + 9
    case ChildSending => |c.buffer| + 3
    case ChildReporting => 2
    case _ => 0
  }

  function PayloadWeight(p: Bytes): nat {
    |p| + 20
  }

  function PhaseWeight(p: Phase): nat {
    match p
    case Unserved => 9
    case Opening => 8
    case Selecting(Sending) => 7
    case Selecting(Reporting) => 6
    case Selecting(Waiting) => 4
    case Draining(sending) => if sending then 3 else 2
    case Flushing => 1
    case _ => 0
  }

  function ChanWeight(c: Chan): nat {
    PhaseWeight(c.phase) + |c.buffer| + Sum(c.queue, PayloadWeight) + Sum(c.children, ChildWeight)
  }

  function SpawnerWeight(s: Spawner): nat {
    match s
    case Serving => 2
    case AwaitingTasks => 1
    case ConnectionClosed => 0
  }

  /** A bound on the steps that can follow without the sync side doing anything but reading reports. */
  function StepsLeft(s: State): nat {
    SpawnerWeight(s.spawner) + s.reports + Sum(s.chans, ChanWeight)
  }

  lemma ChildDescends(id: ChannelId, config: ChannelConfig, c: Child, step: ChildStep)
    requires ChildEnabled(c, step)
    ensures ChildWeight(ChildApply(id, config, c, step)) + (if step == ChildReported(true) then 1 else 0) <
            ChildWeight(c)
  {
    hide Fits;
  }

  lemma ConsumeDescends(c: Chan, inLoop: bool, lost: bool)
    requires c.queue != [] && c.phase == if inLoop then Selecting(Waiting) else Draining(false)
    ensures ChanWeight(Consume(c, inLoop, lost)) < ChanWeight(c)
  {
    hide Fits, Frame, Sum;
    SumSplits(c.queue, PayloadWeight);
    SumAppend(c.children, ChildWeight, Child(c.queue[0], !inLoop, ChildOpening, [], [], false));
    match c.config
    case OrderedReliable(_) =>
    case UnorderedReliable(_) =>
    case Unreliable =>
  }

  /** Every step of a task, reports included, uses up some of its weight. */
  lemma TaskDescends(c: Chan, ts: TaskStep)
    requires TaskEnabled(c, ts)
    ensures ChanWeight(TaskApply(c, ts)) + ReportsOf(ts) < ChanWeight(c)
  {
    hide Consume, ChildApply, ChildEnabled, ChildWeight;
    match ts
    case TakeNext(lost) => ConsumeDescends(c, true, lost);
    case DrainNext => ConsumeDescends(c, false, false);
    case OfChild(k, step) =>
      ChildDescends(c.id, c.config, c.children[k], step);
      SumUpdate(c.children, ChildWeight, k, ChildApply(c.id, c.config, c.children[k], step));
    case _ =>
  }

  /** A step that needs nothing from the sync side, or the reading of one report. */
  predicate Inner(step: Step) {
    Background(step) || step.SyncReads?
  }

  lemma StepDescends(s: State, step: Step)
    requires Inv(s) && Enabled(s, step) && Inner(step)
    ensures StepsLeft(Apply(s, step)) < StepsLeft(s)
  {
    hide ChanOk, HeldByAll, TaskApply, TaskEnabled, KeepaliveChange, ChanWeight, MayStop, ReportsOf, MayReport;
    match step
    case Task(h, ts) =>
      TaskDescends(s.chans[h], ts);
      SumUpdate(s.chans, ChanWeight, h, TaskApply(s.chans[h], ts));
    case SpawnsNext =>
      var h := s.unserved[0];
      SpawnedDescends(s.chans[h], |s.closes|);
      SumUpdate(s.chans, ChanWeight, h, Spawned(s.chans[h], |s.closes|));
    case _ =>
  }

  lemma SpawnedDescends(c: Chan, closes: nat)
    requires c.phase.Unserved?
    ensures ChanWeight(Spawned(c, closes)) < ChanWeight(c)
  {
  }

  /** `steps` leads from `a` to `b` without the sync side doing anything but reading reports. */
  predicate InnerRun(a: State, steps: seq<Step>, b: State) {
    Run(a, steps, b) && forall i :: 0 <= i < |steps| ==> Inner(steps[i])
  }

  /** Nothing can happen until the sync side does something else. */
  ghost predicate Quiet(s: State) {
    forall step :: Inner(step) ==> !Enabled(s, step)
  }

  /** Such runs are finite, with a bound that can be told beforehand. */
  lemma {:induction false} InnerRunsEnd(a: State, steps: seq<Step>, b: State)
    requires Inv(a) && InnerRun(a, steps, b)
    ensures |steps| + StepsLeft(b) <= StepsLeft(a)
    decreases |steps|
  {
    hide Inv, Enabled, Apply, Inner, StepsLeft;
    if steps != [] {
      StepKeepsInv(a, steps[0]);
      StepDescends(a, steps[0]);
      assert forall i :: 0 <= i < |steps| - 1 ==> steps[1..][i] == steps[i + 1];
      InnerRunsEnd(Apply(a, steps[0]), steps[1..], b);
    }
  }

  /** And one of them goes on until nothing more can happen. */
  lemma {:induction false} InnerRunExists(a: State)
    requires Inv(a)
    ensures exists steps, b :: InnerRun(a, steps, b) && Quiet(b)
    decreases StepsLeft(a)
  {
    hide Inv, Enabled, Apply, Inner, StepsLeft, Quiet;
    if Quiet(a) {
      assert InnerRun(a, [], a);
    } else {
      var step := NotQuiet(a);
      var next := Apply(a, step);
      StepKeepsInv(a, step);
      StepDescends(a, step);
      InnerRunExists(next);
      var steps, b :| InnerRun(next, steps, b) && Quiet(b);
      assert ([step] + steps)[1..] == steps;
      assert InnerRun(a, [step] + steps, b);
    }
  }

  lemma NotQuiet(s: State) returns (step: Step)
    requires !Quiet(s)
    ensures Inner(step) && Enabled(s, step)
  {
    hide Enabled, Inner;
    step :| Inner(step) && Enabled(s, step);
  }

  // ---------------------------------------------------------------- so a close completes

  lemma QuietIsClosedOrStuck(s: State)
    requires Quiet(s) && !s.spawner.Serving?
    ensures s.spawner.ConnectionClosed? || Stuck(s)
  {
    hide Enabled, Background;
  }

  lemma OrderedSpawnerStops(s: State)
    requires s.spawner.Serving? && (s.closes != [] || !s.syncAlive)
    ensures !Quiet(s)
  {
    assert Enabled(s, SpawnerStops);
    hide Enabled;
  }

  lemma InformedIsClosed(s: State)
    requires Inv(s) && Informed(s) && Quiet(s)
    ensures s.spawner.ConnectionClosed?
  {
    hide Inv, Enabled, Quiet, Stuck;
    if s.spawner.Serving? {
      OrderedSpawnerStops(s);
    } else {
      QuietIsClosedOrStuck(s);
      if Stuck(s) {
        StuckWaits(s);
        StuckHolds(s);
        InformedWaiters(s);
        assert Inner(SyncReads);
        MayGoOn(s, SyncReads);
      }
    }
  }

  lemma MayGoOn(s: State, step: Step)
    requires Enabled(s, step) && Inner(step)
    ensures !Quiet(s)
  {
    hide Enabled, Inner;
  }

  lemma DroppedIsClosed(s: State)
    requires Inv(s) && !s.syncAlive && Quiet(s)
    ensures s.spawner.ConnectionClosed?
  {
    hide Inv, Quiet, Stuck;
    if s.spawner.Serving? {
      OrderedSpawnerStops(s);
    } else {
      QuietIsClosedOrStuck(s);
      DroppedNeverStuck(s);
    }
  }

  lemma InnerRunKeeps(a: State, steps: seq<Step>, b: State)
    requires Inv(a) && InnerRun(a, steps, b)
    ensures Inv(b)
    ensures Informed(a) ==> Informed(b)
    ensures !a.syncAlive ==> !b.syncAlive
    ensures !a.spawner.Serving? ==> !b.spawner.Serving?
  {
    hide Inv, Run, Informed;
    RunKeepsInv(a, steps, b);
    RunStaysDown(a, steps, b);
    assert WithoutCreation(steps);
    if Informed(a) {
      RunStaysInformed(a, steps, b);
    }
  }

  lemma {:induction false} RunStaysDown(a: State, steps: seq<Step>, b: State)
    requires Run(a, steps, b)
    ensures !a.syncAlive ==> !b.syncAlive
    ensures !a.spawner.Serving? ==> !b.spawner.Serving?
    decreases |steps|
  {
    if steps != [] {
      assert !a.syncAlive ==> !Apply(a, steps[0]).syncAlive;
      assert !a.spawner.Serving? ==> !Apply(a, steps[0]).spawner.Serving?;
      hide Enabled, Apply;
      RunStaysDown(Apply(a, steps[0]), steps[1..], b);
    }
  }

  /** Whatever was broadcast and missed: the background tasks of a connection that waits for them do only
      finitely many steps more, and then it is closed or stuck. */
  lemma WaitingEnds(first: seq<Step>, s: State, steps: seq<Step>, last: State)
    requires Run(INITIAL, first, s) && s.spawner.AwaitingTasks? && InnerRun(s, steps, last)
    ensures |steps| <= StepsLeft(s)
    ensures Quiet(last) ==> last.spawner.ConnectionClosed? || Stuck(last)
  {
    hide Inv, Run, InnerRun, Quiet, Stuck, StepsLeft;
    ReachableInv(first, s);
    InnerRunsEnd(s, steps, last);
    InnerRunKeeps(s, steps, last);
    if Quiet(last) {
      QuietIsClosedOrStuck(last);
    }
  }

  /** A close that is broadcast while no creation message is queued completes: from every state reached without
      a creation afterwards, every run of background steps and report reads is finite, the connection is closed
      when nothing more can happen, and there is such a run. */
  lemma SeenCloseCompletes(first: seq<Step>, mid: State, reason: CloseReason, second: seq<Step>, s: State)
    requires Run(INITIAL, first, mid) && mid.unserved == [] && Enabled(mid, ClosesConnection(reason))
    requires Run(Apply(mid, ClosesConnection(reason)), second, s) && WithoutCreation(second)
    ensures forall steps, last :: InnerRun(s, steps, last) ==>
              |steps| <= StepsLeft(s) && (Quiet(last) ==> last.spawner.ConnectionClosed?)
    ensures exists steps, last :: InnerRun(s, steps, last) && last.spawner.ConnectionClosed?
  {
    hide Run, Inv, InnerRun, Quiet, Informed, StepsLeft;
    InformedAfterClose(first, mid, reason, second, s);
    InformedCompletes(s);
  }

  lemma InformedCompletes(s: State)
    requires Inv(s) && Informed(s)
    ensures forall steps, last :: InnerRun(s, steps, last) ==>
              |steps| <= StepsLeft(s) && (Quiet(last) ==> last.spawner.ConnectionClosed?)
    ensures exists steps, last :: InnerRun(s, steps, last) && last.spawner.ConnectionClosed?
  {
    hide Inv, InnerRun, Quiet, Informed, StepsLeft;
    InnerRunExists(s);
    forall steps, last | InnerRun(s, steps, last)
      ensures |steps| <= StepsLeft(s) && (Quiet(last) ==> last.spawner.ConnectionClosed?)
    {
      InnerRunsEnd(s, steps, last);
      InnerRunKeeps(s, steps, last);
      if Quiet(last) {
        InformedIsClosed(last);
      }
    }
  }

  /** The same once the sync side has dropped the connection, also when creation messages are still queued. */
  lemma DroppedCloseCompletes(first: seq<Step>, s: State)
    requires Run(INITIAL, first, s) && !s.syncAlive
    ensures forall steps, last :: InnerRun(s, steps, last) ==>
              |steps| <= StepsLeft(s) && (Quiet(last) ==> last.spawner.ConnectionClosed?)
    ensures exists steps, last :: InnerRun(s, steps, last) && last.spawner.ConnectionClosed?
  {
    hide Run, Inv, InnerRun, Quiet, StepsLeft;
    ReachableInv(first, s);
    InnerRunExists(s);
    forall steps, last | InnerRun(s, steps, last)
      ensures |steps| <= StepsLeft(s) && (Quiet(last) ==> last.spawner.ConnectionClosed?)
    {
      InnerRunsEnd(s, steps, last);
      InnerRunKeeps(s, steps, last);
      if Quiet(last) {
        DroppedIsClosed(last);
      }
    }
  }

  /** So dropping a connection is always the way out: from every reachable state its tasks can then come to an end
      without the sync side, whatever they missed and however full the queue of reports is. */
  lemma DropEndsAll(first: seq<Step>, s: State)
    requires Run(INITIAL, first, s) && s.syncAlive
    ensures Enabled(s, DropsConnection)
    ensures exists steps, last ::
              && InnerRun(Apply(s, DropsConnection), steps, last) && last.spawner.ConnectionClosed?
              && forall h :: 0 <= h < |last.chans| ==> Held(last.chans[h]) == 0
  {
    var dropped := Apply(s, DropsConnection);
    assert !dropped.syncAlive;
    OneStep(s, DropsConnection);
    hide Run, Inv, InnerRun, Enabled, Apply, Held;
    RunAppend(INITIAL, first, s, [DropsConnection], dropped);
    DroppedCloseCompletes(first + [DropsConnection], dropped);
    var steps, last :| InnerRun(dropped, steps, last) && last.spawner.ConnectionClosed?;
    RunOfInner(dropped, steps, last);
    ReachableInv(first + [DropsConnection], dropped);
    InnerRunKeeps(dropped, steps, last);
    ClosedHoldsNothing(last);
  }

  lemma RunOfInner(a: State, steps: seq<Step>, b: State)
    requires InnerRun(a, steps, b)
    ensures Run(a, steps, b)
  {
  }

  lemma ClosedHoldsNothing(s: State)
    requires Inv(s) && s.spawner.ConnectionClosed?
    ensures forall h :: 0 <= h < |s.chans| ==> Held(s.chans[h]) == 0
  {
    hide ChanOk, HeldByAll, Held, QueueOk;
    forall h | 0 <= h < |s.chans| ensures Held(s.chans[h]) == 0 {
      HeldZero(s.chans, h);
    }
  }

  // ---------------------------------------------------------------- the queue of reports

  /** The reports that the steps put into the queue. */
  function ReportsIn(steps: seq<Step>): nat {
    if steps == [] then 0
    else
      (match steps[0]
       case Task(_, ts) => ReportsOf(ts)
       case OtherReports => 1
       case _ => 0) + ReportsIn(steps[1..])
  }

  function ReportsRead(steps: seq<Step>): nat {
    if steps == [] then 0 else (if steps[0].SyncReads? then 1 else 0) + ReportsRead(steps[1..])
  }

  /** No report is lost or counted twice while the connection exists. */
  lemma {:induction false} ReportsConserved(s: State, steps: seq<Step>, last: State)
    requires Run(s, steps, last)
    ensures last.reports + ReportsRead(steps) == s.reports + ReportsIn(steps)
    decreases |steps|
  {
    if steps != [] {
      ReportsConserved(Apply(s, steps[0]), steps[1..], last);
      hide Enabled, TaskApply, ReportsOf, KeepaliveChange;
    }
  }

  // ---------------------------------------------------------------- channels that are never served

  lemma {:induction false} UnservedStays(s: State, steps: seq<Step>, last: State, h: nat)
    requires Inv(s) && Run(s, steps, last) && !s.spawner.Serving? && h < |s.chans| && s.chans[h].phase.Unserved?
    ensures h < |last.chans| && last.chans[h].phase.Unserved?
    decreases |steps|
  {
    hide Inv, Enabled, Apply;
    if steps != [] {
      StepKeepsInv(s, steps[0]);
      UnservedStaysOnce(s, steps[0], h);
      UnservedStays(Apply(s, steps[0]), steps[1..], last, h);
    }
  }

  lemma UnservedStaysOnce(s: State, step: Step, h: nat)
    requires Inv(s) && Enabled(s, step) && !s.spawner.Serving? && h < |s.chans| && s.chans[h].phase.Unserved?
    ensures var t := Apply(s, step);
            !t.spawner.Serving? && h < |t.chans| && t.chans[h].phase.Unserved?
  {
    hide ChanInv, HeldByAll, TaskMay, TaskApply, KeepaliveChange, ReceiverAlive;
    if step.Task? && step.h == h {
      TaskKeepsChan(s, s.chans[h], step.step);
    }
  }

  /** A local order, unless the connection is dropped already: every task that is there can see it. */
  lemma OrdersStop(s: State) returns (steps: seq<Step>, t: State)
    requires Inv(s)
    ensures Run(s, steps, t) && Inv(t) && t.spawner == s.spawner
    ensures |t.chans| == |s.chans| && forall h :: 0 <= h < |s.chans| ==> t.chans[h].phase == s.chans[h].phase
    ensures !t.syncAlive || (t.closes != [] && AllBehind(t))
  {
    hide ChanInv, HeldByAll, QueueOk;
    if s.syncAlive {
      steps, t := [ClosesConnection(LocalOrder)], Apply(s, ClosesConnection(LocalOrder));
      StepKeepsInv(s, ClosesConnection(LocalOrder));
      OneStep(s, ClosesConnection(LocalOrder));
    } else {
      steps, t := [], s;
    }
  }

  predicate AllBehind(s: State) {
    forall h :: 0 <= h < |s.chans| ==> s.chans[h].closePos < |s.closes|
  }

  /** The spawner leaves its loop on that order. */
  lemma StopsServing(s: State) returns (steps: seq<Step>, t: State)
    requires Inv(s) && !s.spawner.ConnectionClosed?
    ensures Run(s, steps, t) && Inv(t) && !t.spawner.Serving?
    ensures |t.chans| == |s.chans| && forall h :: 0 <= h < |s.chans| ==> t.chans[h].phase == s.chans[h].phase
    ensures Informed(t) || !t.syncAlive
  {
    hide Inv, Run;
    steps, t := OrdersStop(s);
    if s.spawner.Serving? {
      var ordered := t;
      t := Apply(ordered, SpawnerStops);
      StepKeepsInv(ordered, SpawnerStops);
      OneStep(ordered, SpawnerStops);
      RunAppend(s, steps, ordered, [SpawnerStops], t);
      steps := steps + [SpawnerStops];
    }
  }

  /** When a connection may be closed without ever serving a channel: exactly while the channel's creation
      message is still queued. A caller can tell beforehand, and a channel is safe once it has been served. */
  lemma NeverServedExactly(first: seq<Step>, s: State, h: nat)
    requires Run(INITIAL, first, s) && h < |s.chans|
    ensures h in s.unserved <==>
            exists steps, last ::
              && Run(s, steps, last) && last.spawner.ConnectionClosed?
              && h < |last.chans| && last.chans[h].phase.Unserved?
  {
    hide Run, Inv;
    ReachableInv(first, s);
    if h in s.unserved {
      QueuedIsUnserved(s, h);
      MayNeverServe(s, h);
    } else {
      forall steps, last | Run(s, steps, last)
        ensures h < |last.chans| && !last.chans[h].phase.Unserved?
      {
        ServedStays(s, steps, last, h);
      }
    }
  }

  lemma QueuedIsUnserved(s: State, h: nat)
    requires Inv(s) && h in s.unserved
    ensures h < |s.chans| && s.chans[h].phase.Unserved?
  {
    hide ChanOk, HeldByAll;
  }

  lemma MayNeverServe(s: State, h: nat)
    requires Inv(s) && h < |s.chans| && s.chans[h].phase.Unserved?
    ensures exists steps, last ::
              && Run(s, steps, last) && last.spawner.ConnectionClosed?
              && h < |last.chans| && last.chans[h].phase.Unserved?
  {
    hide Inv, Informed, Quiet, Run;
    if s.spawner.ConnectionClosed? {
      assert Run(s, [], s) by { NoStep(s); }
    } else {
      var steps, t := StopsServing(s);
      InnerRunExists(t);
      var more, last :| InnerRun(t, more, last) && Quiet(last);
      InnerRunKeeps(t, more, last);
      if Informed(t) {
        InformedIsClosed(last);
      } else {
        DroppedIsClosed(last);
      }
      UnservedStays(t, more, last, h);
      RunAppend(s, steps, t, more, last);
    }
  }

  lemma NoStep(s: State)
    ensures Run(s, [], s)
  {
  }

  // ---------------------------------------------------------------- instances

  lemma LateSubscriber()
    ensures Reachable(Single(NewChan(0, ORDERED).(phase := Opening, closePos := 1), [], Serving, [LocalOrder], 2))
  {
    hide Run, Reachable, ReceiverAlive, MayStop, MayReport, TaskEnabled, TaskApply;
    StartIsReachable();
    var c := NewChan(0, ORDERED);
    var s1 := Single(c, [0], Serving, [], 1);
    var s2 := s1.(closes := [LocalOrder]);
    ReachNext(INITIAL, Create(0, ORDERED), s1);
    ReachNext(s1, ClosesConnection(LocalOrder), s2);
    ReachNext(s2, SpawnsNext, Single(c.(phase := Opening, closePos := 1), [], Serving, [LocalOrder], 2));
  }

  /** An instance: a task that subscribes after the close was broadcast misses it. */
  lemma CloseCanBeMissed()
    ensures exists s :: Reachable(s) && Stuck(s) && s.closes == [LocalOrder]
  {
    LateSubscriber();
    hide Run, Reachable, Frame;
    var d := NewChan(0, ORDERED).(phase := Opening, closePos := 1);
    var s3 := Single(d, [], Serving, [LocalOrder], 2);
    var s4 := s3.(spawner := AwaitingTasks, keepalive := 1);
    var s5 := Single(d.(phase := Selecting(Waiting)), [], AwaitingTasks, [LocalOrder], 1);
    ReachNext(s3, SpawnerStops, s4);
    ReachNext(s4, Task(0, Opened), s5);
    WaitsForever(s5);
  }

  lemma WaitsForever(s: State)
    requires |s.chans| == 1 && s.syncAlive
    requires var c := s.chans[0];
             c.phase == Selecting(Waiting) && c.queue == [] && c.children == []
             && c.senderAlive && !c.closeSignal && c.closePos == |s.closes|
    ensures forall h, ts :: !Enabled(s, Task(h, ts))
  {
    hide ChildEnabled;
  }

  const UNORDERED: ChannelConfig := UnorderedReliable(0)

  /** A payload over the limit of that channel: its child reports a lost connection. */
  const TOO_LONG: Bytes := [0]

  function TooLong(n: nat): (ps: seq<Bytes>)
    ensures |ps| == n && forall k :: 0 <= k < n ==> ps[k] == TOO_LONG
  {
    seq(n, _ => TOO_LONG)
  }

  function Reporters(n: nat, phase: ChildPhase): (cs: seq<Child>)
    ensures |cs| == n && forall k :: 0 <= k < n ==> cs[k] == Child(TOO_LONG, false, phase, [], [], false)
  {
    seq(n, _ => Child(TOO_LONG, false, phase, [], [], false))
  }

  /** One unordered channel on which `n` payloads over the limit were sent and reported. */
  function PiledUp(n: nat): State {
    State([NewChan(0, UNORDERED).(phase := Selecting(Waiting), accepted := TooLong(n),
           children := Reporters(n, ChildDone))], [], Serving, [], true, 2, n)
  }

  /** The same channel with one more child, which waits to report. */
  function OneWaits(n: nat): State {
    var s := PiledUp(n);
    var c := s.chans[0].(accepted := TooLong(n + 1),
                         children := Reporters(n, ChildDone) + Reporters(1, ChildReporting));
    s.(chans := [c], keepalive := 3)
  }

  lemma OneMoreReporting(n: nat)
    requires Reachable(PiledUp(n))
    ensures Reachable(OneWaits(n))
  {
    hide Run, Reachable, Frame;
    var s := PiledUp(n);
    var c := s.chans[0];
    var done := Reporters(n, ChildDone);
    var s1 := s.(chans := [c.(queue := [TOO_LONG], accepted := TooLong(n + 1))]);
    var s2 := s.(chans := [c.(accepted := TooLong(n + 1), children := done + Reporters(1, ChildOpening))],
                 keepalive := 3);
    assert TooLong(n + 1) == TooLong(n) + [TOO_LONG];
    ReachNext(s, Accepts(0, TOO_LONG), s1);
    assert Reporters(1, ChildOpening) == [Child(TOO_LONG, false, ChildOpening, [], [], false)];
    ReachNext(s1, Task(0, TakeNext(false)), s2);
    assert (done + Reporters(1, ChildOpening))[n := Reporters(1, ChildReporting)[0]] ==
           done + Reporters(1, ChildReporting);
    ReachNext(s2, Task(0, OfChild(n, ChildOpened)), OneWaits(n));
  }

  lemma {:induction false} ReportsPileUp(n: nat)
    requires n <= DEFAULT_INTERNAL_MESSAGES_CHANNEL_SIZE
    ensures Reachable(PiledUp(n))
  {
    hide Run, Reachable, Frame;
    if n == 0 {
      StartIsReachable();
      var c := NewChan(0, UNORDERED);
      var s1 := Single(c, [0], Serving, [], 1);
      ReachNext(INITIAL, Create(0, UNORDERED), s1);
      ReachNext(s1, SpawnsNext, PiledUp(0));
    } else {
      ReportsPileUp(n - 1);
      OneMoreReporting(n - 1);
      assert (Reporters(n - 1, ChildDone) + Reporters(1, ChildReporting))[n - 1 := Reporters(1, ChildDone)[0]] ==
             Reporters(n, ChildDone);
      ReachNext(OneWaits(n - 1), Task(0, OfChild(n - 1, ChildReported(true))), PiledUp(n));
    }
  }

  /** The same state after a close, in a later phase of the task. */
  function ClosingWith(n: nat, phase: Phase, spawner: Spawner, keepalive: int): State {
    var s := OneWaits(n);
    s.(chans := [s.chans[0].(phase := phase)], spawner := spawner, closes := [LocalOrder], keepalive := keepalive)
  }

  lemma TaskDrainsMeanwhile(n: nat)
    requires Reachable(OneWaits(n))
    ensures Reachable(ClosingWith(n, Draining(false), Serving, 3))
  {
    hide Run, Reachable, Frame, Reporters, TooLong;
    var s1 := ClosingWith(n, Selecting(Waiting), Serving, 3);
    ReachNext(OneWaits(n), ClosesConnection(LocalOrder), s1);
    ReachNext(s1, Task(0, Stops(LocalOrder)), ClosingWith(n, Draining(false), Serving, 3));
  }

  lemma TaskEndsMeanwhile(n: nat)
    requires Reachable(OneWaits(n))
    ensures Reachable(ClosingWith(n, Ended(LocalOrder), AwaitingTasks, 1))
  {
    TaskDrainsMeanwhile(n);
    hide Run, Reachable, Frame, Reporters, TooLong, OneWaits, MayStop;
    var s2 := ClosingWith(n, Draining(false), Serving, 3);
    var s3 := ClosingWith(n, Flushing, Serving, 3);
    var s4 := ClosingWith(n, Ended(LocalOrder), Serving, 2);
    OneChannelWaits(n);
    ReachNext(s2, Task(0, DrainDone), s3);
    ReachNext(s3, Task(0, Finish), s4);
    ReachNext(s4, SpawnerStops, ClosingWith(n, Ended(LocalOrder), AwaitingTasks, 1));
  }

  lemma OneChannelWaits(n: nat)
    ensures var s := OneWaits(n); |s.chans| == 1 && s.chans[0].queue == [] && s.chans[0].buffer == []
  {
  }

  /** An instance: every channel was served when the connection was closed, no stream failed, and yet the close
      waits for the sync side, because a child has no room for its report. */
  lemma FullQueueHoldsTheClose()
    ensures exists s ::
              && Reachable(s) && Stuck(s) && s.closes == [LocalOrder] && s.unserved == [] && ReportsFull(s)
              && forall h :: 0 <= h < |s.chans| ==>
                   s.chans[h].phase == Ended(LocalOrder) && NoChildFailed(s.chans[h])
  {
    hide Run, Reachable;
    var n := DEFAULT_INTERNAL_MESSAGES_CHANNEL_SIZE;
    ReportsPileUp(n);
    OneMoreReporting(n);
    TaskEndsMeanwhile(n);
    var s := ClosingWith(n, Ended(LocalOrder), AwaitingTasks, 1);
    assert WaitsForRoom(s, s.chans[0]);
    RoomNeverComes(s);
  }

  predicate WaitsForRoom(s: State, c: Chan) {
    && c.phase.Ended? && ReportsFull(s)
    && forall k :: 0 <= k < |c.children| ==> c.children[k].phase.ChildDone? || c.children[k].phase.ChildReporting?
  }

  lemma RoomNeverComes(s: State)
    requires s.spawner.AwaitingTasks? && s.keepalive > 0 && |s.chans| == 1 && WaitsForRoom(s, s.chans[0])
    ensures Stuck(s)
  {
    forall step | Background(step) ensures !Enabled(s, step) {
    }
  }
}
