/** The background tasks of one connection as a machine of atomic steps: the sync side, the spawner of
    the send tasks, every channel's task with its children, both kinds of close signal, and the
    keepalive handles that hold back the close of the connection. */
module ConnectionTasks {
  import opened Prelude
  import opened ChannelTask
  import opened Codec

  /** Close messages kept for a slow receiver: `DEFAULT_KILL_MESSAGE_QUEUE_SIZE` rounded up to a power of two. */
  const CLOSE_BACKLOG: nat := 16

  datatype Spawner = Serving | AwaitingTasks | ConnectionClosed

  /** A handle is the position of a channel in `chans`, in the order of creation; `unserved` is the
      queue of creation messages; `closes` is all that was broadcast since the spawner subscribed;
      `syncAlive` tells whether the connection object still exists on the sync side, and `reports` counts
      the lost connections that were reported to it and that it has not read yet. */
  datatype State = State(
    chans: seq<Chan>,
    unserved: seq<nat>,
    spawner: Spawner,
    closes: seq<CloseReason>,
    syncAlive: bool,
    keepalive: int,
    reports: nat)

  const INITIAL: State := State([], [], Serving, [], true, 1, 0)

  datatype Step =
    | Create(id: ChannelId, config: ChannelConfig)
    | Accepts(h: nat, payload: Bytes)
    | ClosesChannel(h: nat)
    | ClosesConnection(reason: CloseReason)
    | DropsConnection
    | SyncReads
    | OtherReports
    | SpawnsNext
    | SpawnerStops
    | ConnectionCloses
    | Task(h: nat, step: TaskStep)

  // ---------------------------------------------------------------- steps

  /** The queue of a channel has a receiver: its task, or the creation message that carries it. */
  predicate ReceiverAlive(s: State, c: Chan) {
    TaskLive(c.phase) || (c.phase.Unserved? && !s.spawner.ConnectionClosed?)
  }

  /** What the `select` of a task may see of the broadcast close signal and of its own channel's. */
  predicate MayStop(s: State, c: Chan, reason: CloseReason) {
    || (reason.LocalOrder? && (c.closeSignal || !c.senderAlive))
    || (c.closePos < |s.closes| &&
        if |s.closes| - c.closePos > CLOSE_BACKLOG then reason.LocalOrder? else reason == s.closes[c.closePos])
    || (reason.LocalOrder? && !s.syncAlive && c.closePos == |s.closes|)
  }

  /** A report waits for room in the queue as long as somebody may read it. */
  predicate MayReport(s: State, heard: bool) {
    heard == s.syncAlive && (heard ==> s.reports < DEFAULT_INTERNAL_MESSAGES_CHANNEL_SIZE)
  }

  predicate TaskMay(s: State, c: Chan, step: TaskStep) {
    && TaskEnabled(c, step)
    && match step
       case Stops(reason) => MayStop(s, c, reason)
       case Reported(heard) => MayReport(s, heard)
       case OfChild(_, ChildReported(heard)) => MayReport(s, heard)
       case _ => true
  }

  /** The reports that a step of a task puts into the queue. */
  function ReportsOf(step: TaskStep): nat {
    match step
    case Reported(heard) => if heard then 1 else 0
    case OfChild(_, ChildReported(heard)) => if heard then 1 else 0
    case _ => 0
  }

  predicate Enabled(s: State, step: Step) {
    match step
    case Create(_, _) => s.syncAlive && !s.spawner.ConnectionClosed?
        && |s.unserved| < DEFAULT_QCHANNEL_MESSAGES_CHANNEL_SIZE
    case Accepts(h, _) =>
      && s.syncAlive && h < |s.chans|
      && s.chans[h].senderAlive && ReceiverAlive(s, s.chans[h]) && |s.chans[h].queue| < DEFAULT_MESSAGE_QUEUE_SIZE
    case ClosesChannel(h) => s.syncAlive && h < |s.chans| && s.chans[h].senderAlive
    case ClosesConnection(_) => s.syncAlive
    case DropsConnection => s.syncAlive
    case SyncReads => s.syncAlive && s.reports > 0
    case OtherReports => MayReport(s, true)
    case SpawnsNext => s.spawner.Serving? && s.unserved != [] && s.unserved[0] < |s.chans|
    case SpawnerStops => s.spawner.Serving? && (s.closes != [] || !s.syncAlive)
    case ConnectionCloses => s.spawner.AwaitingTasks? && s.keepalive == 0
    case Task(h, ts) => h < |s.chans| && TaskMay(s, s.chans[h], ts)
  }

  /** A new task subscribes to the closes that are still to come. */
  function Spawned(c: Chan, closes: nat): Chan {
    c.(phase := if c.config.OrderedReliable? then Opening else Selecting(Waiting), closePos := closes)
  }

  function Orphaned(c: Chan): Chan {
    c.(senderAlive := false)
  }

  function OrphanAll(cs: seq<Chan>): (ds: seq<Chan>)
    ensures |ds| == |cs| && forall k :: 0 <= k < |cs| ==> ds[k] == Orphaned(cs[k])
  {
    seq(|cs|, k requires 0 <= k < |cs| => Orphaned(cs[k]))
  }

  function Apply(s: State, step: Step): State
    requires Enabled(s, step)
  {
    match step
    case Create(id, config) => s.(chans := s.chans + [NewChan(id, config)], unserved := s.unserved + [|s.chans|])
    case Accepts(h, p) => s.(chans := s.chans[h := Accept(s.chans[h], p)])
    case ClosesChannel(h) => s.(chans := s.chans[h := s.chans[h].(closeSignal := true, senderAlive := false)])
    case ClosesConnection(reason) => s.(closes := s.closes + [reason])
    case DropsConnection => s.(syncAlive := false, chans := OrphanAll(s.chans))
    case SyncReads => s.(reports := s.reports - 1)
    case OtherReports => s.(reports := s.reports + 1)
    case SpawnsNext =>
      var h := s.unserved[0];
      s.(unserved := s.unserved[1..], chans := s.chans[h := Spawned(s.chans[h], |s.closes|)],
          keepalive := s.keepalive + 1)
    case SpawnerStops => s.(spawner := AwaitingTasks, keepalive := s.keepalive - 1)
    case ConnectionCloses => s.(spawner := ConnectionClosed)
    case Task(h, ts) =>
      s.(chans := s.chans[h := TaskApply(s.chans[h], ts)], keepalive := s.keepalive + KeepaliveChange(s.chans[h], ts),
          reports := s.reports + ReportsOf(ts))
  }

  /** A task that is more than the backlog behind is only told that it lags, and takes that for a local order. */
  lemma LaggardsDrain(s: State, c: Chan, reason: CloseReason)
    requires c.closePos + CLOSE_BACKLOG < |s.closes|
    ensures MayStop(s, c, reason) <==> reason.LocalOrder?
  {
  }

  /** What the tasks cannot prevent: the sync side may close for any reason, be dropped or read a report whenever it
      is there, others may report while there is room, and a stream may fail whenever it is in use. */
  lemma OutsideIsFree(s: State)
    ensures s.syncAlive ==>
              && Enabled(s, DropsConnection) && (forall r :: Enabled(s, ClosesConnection(r)))
              && (s.reports > 0 ==> Enabled(s, SyncReads))
              && (s.reports < DEFAULT_INTERNAL_MESSAGES_CHANNEL_SIZE ==> Enabled(s, OtherReports))
    ensures forall h :: 0 <= h < |s.chans| && OnStream(s.chans[h]) ==> Enabled(s, Task(h, WriteFails))
    ensures forall h :: 0 <= h < |s.chans| && s.chans[h].phase.Opening? ==> Enabled(s, Task(h, OpenFails))
    ensures forall h, j :: 0 <= h < |s.chans| && 0 <= j < |s.chans[h].children| ==>
              && (s.chans[h].children[j].phase.ChildOpening? ==> Enabled(s, Task(h, OfChild(j, ChildOpenFails))))
              && (s.chans[h].children[j].phase.ChildSending? ==> Enabled(s, Task(h, OfChild(j, ChildWriteFails))))
  {
  }

  /** The queues between the sync side and the tasks never hold more than they were made for. */
  predicate QueuesBounded(s: State) {
    && |s.unserved| <= DEFAULT_QCHANNEL_MESSAGES_CHANNEL_SIZE
    && s.reports <= DEFAULT_INTERNAL_MESSAGES_CHANNEL_SIZE
    && forall h :: 0 <= h < |s.chans| ==> |s.chans[h].queue| <= DEFAULT_MESSAGE_QUEUE_SIZE
  }

  lemma TaskShortens(c: Chan, ts: TaskStep)
    requires TaskEnabled(c, ts)
    ensures |TaskApply(c, ts).queue| <= |c.queue|
  {
    hide ChildApply, ChildEnabled, Frame, Fits;
  }

  lemma StepKeepsBounds(s: State, step: Step)
    requires QueuesBounded(s) && Enabled(s, step)
    ensures QueuesBounded(Apply(s, step))
  {
    hide TaskApply, TaskEnabled, KeepaliveChange, MayStop, ReceiverAlive;
    if step.Task? {
      TaskShortens(s.chans[step.h], step.step);
    }
  }

  /** `steps` leads from `a` to `b`. */
  predicate Run(a: State, steps: seq<Step>, b: State)
    decreases |steps|
  {
    if steps == [] then a == b
    else Enabled(a, steps[0]) && Run(Apply(a, steps[0]), steps[1..], b)
  }

  lemma {:induction false} RunKeepsBounds(s: State, steps: seq<Step>, last: State)
    requires QueuesBounded(s) && Run(s, steps, last)
    ensures QueuesBounded(last)
    decreases |steps|
  {
    hide QueuesBounded, Enabled, Apply;
    if steps != [] {
      StepKeepsBounds(s, steps[0]);
      RunKeepsBounds(Apply(s, steps[0]), steps[1..], last);
    }
  }

  // ---------------------------------------------------------------- invariant

  function HeldByAll(cs: seq<Chan>): nat {
    if cs == [] then 0 else Held(cs[0]) + HeldByAll(cs[1..])
  }

  /** A stop order has been given that the task of `c` can see. */
  predicate Ordered(s: State, c: Chan) {
    c.closeSignal || !c.senderAlive || !s.syncAlive || s.closes != []
  }

  ghost predicate ChanOk(s: State, c: Chan) {
    && ChanInv(c)
    && c.closePos <= |s.closes|
    && (Stopped(c.phase) ==> Ordered(s, c))
    && (c.phase == Ended(PeerClosed) ==> PeerClosed in s.closes)
    && (c.closeSignal ==> !c.senderAlive)
    && (Drained(c.phase) && c.queue != [] ==> s.closes != [] || !s.syncAlive)
  }

  /** The queue of creation messages holds the channels that are not served, each once. */
  predicate QueueOk(s: State) {
    && (forall i :: 0 <= i < |s.unserved| ==> s.unserved[i] < |s.chans| && s.chans[s.unserved[i]].phase.Unserved?)
    && (forall i, j :: 0 <= i < j < |s.unserved| ==> s.unserved[i] != s.unserved[j])
    && (forall h :: 0 <= h < |s.chans| && s.chans[h].phase.Unserved? ==> h in s.unserved)
  }

  predicate KeepaliveOk(s: State) {
    && s.keepalive == (if s.spawner.Serving? then 1 else 0) + HeldByAll(s.chans)
    && (s.spawner.ConnectionClosed? ==> s.keepalive == 0)
  }

  ghost predicate Inv(s: State) {
    && (forall h :: 0 <= h < |s.chans| ==> ChanOk(s, s.chans[h]))
    && QueueOk(s)
    && KeepaliveOk(s)
    && s.reports <= DEFAULT_INTERNAL_MESSAGES_CHANNEL_SIZE
  }

  lemma {:induction false} HeldUpdate(cs: seq<Chan>, h: nat, d: Chan)
    requires h < |cs|
    ensures HeldByAll(cs[h := d]) == HeldByAll(cs) - Held(cs[h]) + Held(d)
  {
    hide Held;
    if h > 0 {
      HeldUpdate(cs[1..], h - 1, d);
      assert cs[h := d][1..] == cs[1..][h - 1 := d];
    } else {
      assert cs[0 := d][1..] == cs[1..];
    }
  }

  lemma {:induction false} HeldAppend(cs: seq<Chan>, d: Chan)
    ensures HeldByAll(cs + [d]) == HeldByAll(cs) + Held(d)
  {
    hide Held;
    if cs == [] {
      assert cs + [d] == [d] && [d][1..] == [];
    } else {
      HeldAppend(cs[1..], d);
      assert (cs + [d])[1..] == cs[1..] + [d];
    }
  }

  lemma {:induction false} HeldOrphans(cs: seq<Chan>)
    ensures HeldByAll(OrphanAll(cs)) == HeldByAll(cs)
  {
    hide LiveChildren, OrphanAll;
    if cs != [] {
      HeldOrphans(cs[1..]);
      assert OrphanAll(cs)[1..] == OrphanAll(cs[1..]);
    }
  }

  lemma {:induction false} HeldZero(cs: seq<Chan>, h: nat)
    requires HeldByAll(cs) == 0 && h < |cs|
    ensures Held(cs[h]) == 0
  {
    hide Held;
    if h > 0 {
      HeldZero(cs[1..], h - 1);
    }
  }

  // ---------------------------------------------------------------- every step keeps the invariant

  /** Flags and positions are no part of a channel's own invariant. */
  lemma FlagsKeepInv(c: Chan, d: Chan)
    requires ChanInv(c)
    requires d == c.(senderAlive := d.senderAlive, closeSignal := d.closeSignal, closePos := d.closePos)
    ensures ChanInv(d) && Held(d) == Held(c)
  {
    SameQueue(c, d);
    hide QueueIsRest, Taken, SomeOversize, EncodedAll, ChildInv, Fits, LiveChildren;
  }

  lemma SpawnedInv(c: Chan, closes: nat)
    requires ChanInv(c) && c.phase.Unserved?
    ensures ChanInv(Spawned(c, closes)) && Held(c) == 0 && Held(Spawned(c, closes)) == 1
  {
    SameQueue(c, Spawned(c, closes));
    hide QueueIsRest, Taken, SomeOversize, EncodedAll, ChildInv, Fits;
    assert c.children == [];
  }

  lemma NewChanInv(id: ChannelId, config: ChannelConfig)
    ensures ChanInv(NewChan(id, config)) && Held(NewChan(id, config)) == 0
  {
    hide ChildInv, Fits, Encoded;
    assert Taken(NewChan(id, config)) == [];
  }

  lemma UnservedHasNoChildren(c: Chan)
    requires ChanInv(c)
    ensures c.phase.Unserved? ==> c.children == []
  {
    hide QueueIsRest, Taken, SomeOversize, EncodedAll, ChildInv, Fits;
  }

  /** One step of the task of a channel, for that channel. */
  lemma TaskKeepsChan(s: State, c: Chan, ts: TaskStep)
    requires ChanOk(s, c) && TaskMay(s, c, ts)
    ensures ChanOk(s, TaskApply(c, ts)) && !c.phase.Unserved? && !TaskApply(c, ts).phase.Unserved?
  {
    hide ChanInv, TaskApply, TaskEnabled;
    TaskKeepsInv(c, ts);
    if Drained(c.phase) ==> c.queue == [] {
      DrainEndsEmpty(c, ts);
    }
    UnservedHasNoChildren(c);
    if c.children == [] {
      NoChildStep(c, ts);
    }
    StepFrame(c, ts);
  }

  lemma NoChildStep(c: Chan, ts: TaskStep)
    requires TaskEnabled(c, ts) && c.children == []
    ensures !ts.OfChild?
  {
  }

  lemma TaskStepInv(s: State, h: nat, ts: TaskStep)
    requires Inv(s) && Enabled(s, Task(h, ts))
    ensures Inv(Apply(s, Task(h, ts)))
  {
    hide ChanInv, TaskEnabled, TaskApply, KeepaliveChange, Held, MayStop, HeldByAll;
    var c := s.chans[h];
    TaskKeepsChan(s, c, ts);
    HeldChanges(c, ts);
    HeldUpdate(s.chans, h, TaskApply(c, ts));
    EnabledIsLive(c, ts);
    if s.spawner.ConnectionClosed? {
      HeldZero(s.chans, h);
    }
  }

  /** One channel is replaced by one that holds as many handles and is as much unserved. */
  lemma ReplaceKeepsInv(s: State, h: nat, d: Chan)
    requires Inv(s) && h < |s.chans| && ChanOk(s, d)
    requires Held(d) == Held(s.chans[h]) && d.phase == s.chans[h].phase
    ensures Inv(s.(chans := s.chans[h := d]))
  {
    hide ChanInv, Held, HeldByAll;
    HeldUpdate(s.chans, h, d);
  }

  lemma SignalsKeepInv(s: State, step: Step)
    requires Inv(s) && Enabled(s, step)
        && (step.Accepts? || step.ClosesChannel? || step.ClosesConnection? || step.DropsConnection?
            || step.SyncReads? || step.OtherReports?)
    ensures Inv(Apply(s, step))
  {
    hide ChanInv, Held, HeldByAll, Taken, ReceiverAlive;
    match step
    case Accepts(h, p) =>
      AcceptKeepsInv(s.chans[h], p);
      ReplaceKeepsInv(s, h, Accept(s.chans[h], p));
    case ClosesChannel(h) =>
      var d := s.chans[h].(closeSignal := true, senderAlive := false);
      FlagsKeepInv(s.chans[h], d);
      ReplaceKeepsInv(s, h, d);
    case ClosesConnection(reason) =>
    case DropsConnection =>
      HeldOrphans(s.chans);
      forall h | 0 <= h < |s.chans| ensures ChanInv(Orphaned(s.chans[h])) {
        FlagsKeepInv(s.chans[h], Orphaned(s.chans[h]));
      }
    case SyncReads =>
    case OtherReports =>
  }

  lemma SpawnerKeepsInv(s: State, step: Step)
    requires Inv(s) && Enabled(s, step)
        && (step.Create? || step.SpawnsNext? || step.SpawnerStops? || step.ConnectionCloses?)
    ensures Inv(Apply(s, step))
  {
    hide ChanInv, Held, HeldByAll, NewChan;
    match step
    case Create(id, config) =>
      NewChanInv(id, config);
      HeldAppend(s.chans, NewChan(id, config));
      NewChanOk(s, id, config);
    case SpawnsNext => SpawningKeepsInv(s);
    case SpawnerStops =>
    case ConnectionCloses =>
  }

  lemma SpawningKeepsInv(s: State)
    requires Inv(s) && Enabled(s, SpawnsNext)
    ensures Inv(Apply(s, SpawnsNext))
  {
    hide ChanInv, Held, HeldByAll;
    var h := s.unserved[0];
    SpawnedInv(s.chans[h], |s.closes|);
    HeldUpdate(s.chans, h, Spawned(s.chans[h], |s.closes|));
  }

  lemma NewChanOk(s: State, id: ChannelId, config: ChannelConfig)
    ensures ChanOk(s, NewChan(id, config)) && NewChan(id, config).phase.Unserved?
  {
    NewChanInv(id, config);
    hide ChanInv;
  }

  lemma StepKeepsInv(s: State, step: Step)
    requires Inv(s) && Enabled(s, step)
    ensures Inv(Apply(s, step))
  {
    hide Inv, Enabled, Apply;
    match step
    case Task(h, ts) => TaskStepInv(s, h, ts);
    case Accepts(_, _) => SignalsKeepInv(s, step);
    case ClosesChannel(_) => SignalsKeepInv(s, step);
    case ClosesConnection(_) => SignalsKeepInv(s, step);
    case DropsConnection => SignalsKeepInv(s, step);
    case SyncReads => SignalsKeepInv(s, step);
    case OtherReports => SignalsKeepInv(s, step);
    case _ => SpawnerKeepsInv(s, step);
  }

  /** The keepalive handles are, in every reachable state, those of the spawner, of the live tasks and
      of the live children. */
  lemma {:induction false} RunKeepsInv(a: State, steps: seq<Step>, b: State)
    requires Inv(a) && Run(a, steps, b)
    ensures Inv(b)
    decreases |steps|
  {
    hide Inv, Enabled, Apply;
    if steps != [] {
      StepKeepsInv(a, steps[0]);
      RunKeepsInv(Apply(a, steps[0]), steps[1..], b);
    }
  }

  lemma ReachableInv(steps: seq<Step>, s: State)
    requires Run(INITIAL, steps, s)
    ensures Inv(s)
  {
    assert Inv(INITIAL);
    hide Inv, Enabled, Apply;
    RunKeepsInv(INITIAL, steps, s);
  }

  // ---------------------------------------------------------------- theorems

  lemma {:induction false} HeldByNone(cs: seq<Chan>)
    requires forall h :: 0 <= h < |cs| ==> Held(cs[h]) == 0
    ensures HeldByAll(cs) == 0
  {
    hide Held;
    if cs != [] {
      assert forall h :: 0 <= h < |cs[1..]| ==> cs[1..][h] == cs[h + 1];
      HeldByNone(cs[1..]);
    }
  }

  /** The keepalive handles are exactly those of the serving spawner, the live tasks and the live children;
      so the waiting spawner may close the connection if and only if no task and no child is left. */
  lemma KeepaliveCounts(steps: seq<Step>, s: State)
    requires Run(INITIAL, steps, s)
    ensures s.keepalive == (if s.spawner.Serving? then 1 else 0) + HeldByAll(s.chans)
    ensures Enabled(s, ConnectionCloses) <==>
            s.spawner.AwaitingTasks? && forall h :: 0 <= h < |s.chans| ==> Held(s.chans[h]) == 0
  {
    hide Run, Held, HeldByAll, ChanInv;
    ReachableInv(steps, s);
    if HeldByAll(s.chans) == 0 {
      forall h | 0 <= h < |s.chans| ensures Held(s.chans[h]) == 0 {
        HeldZero(s.chans, h);
      }
    } else if forall h :: 0 <= h < |s.chans| ==> Held(s.chans[h]) == 0 {
      HeldByNone(s.chans);
    }
  }

  /** When the connection is closed no task and no child is left, so nothing outlives the close. */
  lemma NothingOutlivesTheClose(steps: seq<Step>, s: State, h: nat)
    requires Run(INITIAL, steps, s) && s.spawner.ConnectionClosed? && h < |s.chans|
    ensures !TaskLive(s.chans[h].phase)
    ensures forall k :: 0 <= k < |s.chans[h].children| ==> !ChildLive(s.chans[h].children[k])
    ensures forall ts :: !Enabled(s, Task(h, ts))
  {
    hide ChanInv, TaskEnabled, LiveChildren, HeldByAll, Run;
    ReachableInv(steps, s);
    HeldZero(s.chans, h);
    NoLiveChildren(s.chans[h].children);
    forall ts ensures !TaskMay(s, s.chans[h], ts) {
      if TaskEnabled(s.chans[h], ts) {
        EnabledIsLive(s.chans[h], ts);
      }
    }
  }

  ghost predicate LaterAt(a: State, b: State, h: nat) {
    h < |a.chans| <= |b.chans| && LaterThan(a.chans[h], b.chans[h])
  }

  lemma StepStaysLater(a: State, b: State, h: nat, step: Step)
    requires Inv(b) && LaterAt(a, b, h) && Enabled(b, step)
    ensures LaterAt(a, Apply(b, step), h)
  {
    hide ChanInv, TaskEnabled, KeepaliveChange, Taken, HeldByAll, TaskApply, MayStop, ReceiverAlive;
    var c := b.chans[h];
    match step
    case Task(g, ts) =>
      if g == h {
        TaskStaysLater(a.chans[h], c, ts);
      }
    case Accepts(g, p) =>
      AcceptKeepsInv(c, p);
    case _ =>
      assert Taken(Apply(b, step).chans[h]) == Taken(c) by {
        SameQueueAt(b, step, h);
      }
  }

  lemma SameQueueAt(b: State, step: Step, h: nat)
    requires Enabled(b, step) && !step.Task? && !step.Accepts? && h < |b.chans|
    ensures Taken(Apply(b, step).chans[h]) == Taken(b.chans[h])
  {
    SameQueue(b.chans[h], Apply(b, step).chans[h]);
  }

  lemma {:induction false} RunStaysLater(a: State, b: State, steps: seq<Step>, c: State, h: nat)
    requires Inv(b) && LaterAt(a, b, h) && Run(b, steps, c)
    ensures LaterAt(a, c, h)
    decreases |steps|
  {
    hide Inv, Enabled, Apply, LaterAt;
    if steps != [] {
      StepKeepsInv(b, steps[0]);
      StepStaysLater(a, b, h, steps[0]);
      RunStaysLater(a, Apply(b, steps[0]), steps[1..], c, h);
    }
  }

  /** No order to stop that the task of channel `h` could see has been given. */
  predicate NoOrderYet(s: State, h: nat) {
    h < |s.chans| && !Ordered(s, s.chans[h])
  }

  /** The task of channel `h` has not yet looked at its queue for the last time. */
  predicate StillDrains(s: State, h: nat) {
    h < |s.chans| && !Drained(s.chans[h].phase)
  }

  /** Before any order the drain is not over: a caller that has given none may rely on `StillDrains`. */
  lemma DrainsBeforeOrder(steps: seq<Step>, s: State, h: nat)
    requires Run(INITIAL, steps, s) && NoOrderYet(s, h)
    ensures StillDrains(s, h)
  {
    hide Run, ChanInv, HeldByAll;
    ReachableInv(steps, s);
  }

  lemma DrainedStepTakesNothing(s: State, step: Step, h: nat)
    requires Inv(s) && Enabled(s, step) && h < |s.chans| && Drained(s.chans[h].phase)
    ensures var t := Apply(s, step);
            && h < |t.chans| && Drained(t.chans[h].phase) && Taken(t.chans[h]) == Taken(s.chans[h])
  {
    hide ChanInv, TaskEnabled, KeepaliveChange, Taken, HeldByAll, TaskApply, MayStop, ReceiverAlive;
    match step
    case Task(g, ts) =>
      if g == h {
        DrainedTakesNothing(s.chans[h], ts);
      }
    case Accepts(g, p) => AcceptKeepsInv(s.chans[h], p);
    case _ => SameQueueAt(s, step, h);
  }

  lemma {:induction false} DrainedRunTakesNothing(s: State, steps: seq<Step>, last: State, h: nat)
    requires Inv(s) && Run(s, steps, last) && h < |s.chans| && Drained(s.chans[h].phase)
    ensures h < |last.chans| && Taken(last.chans[h]) == Taken(s.chans[h])
    decreases |steps|
  {
    hide Inv, Enabled, Apply, Taken;
    if steps != [] {
      StepKeepsInv(s, steps[0]);
      DrainedStepTakesNothing(s, steps[0], h);
      DrainedRunTakesNothing(Apply(s, steps[0]), steps[1..], last, h);
    }
  }

  lemma LaterInRun(first: seq<Step>, mid: State, second: seq<Step>, last: State, h: nat)
    requires Run(INITIAL, first, mid) && StillDrains(mid, h) && Run(mid, second, last)
    ensures Inv(last) && LaterAt(mid, last, h)
  {
    hide Run, Inv, Taken;
    ReachableInv(first, mid);
    RunKeepsInv(mid, second, last);
    RunStaysLater(mid, mid, second, last, h);
  }

  /** What a task that ended on a local order has taken, in every interleaving: all that was accepted by the
      time of `mid`, if and only if the drain was not over then, or nothing was waiting. */
  lemma DrainCoversExactly(first: seq<Step>, mid: State, second: seq<Step>, last: State, h: nat)
    requires Run(INITIAL, first, mid) && h < |mid.chans| && Run(mid, second, last)
    requires h < |last.chans| && last.chans[h].phase == Ended(LocalOrder)
    ensures |mid.chans[h].accepted| <= |Taken(last.chans[h])|
            <==> !Drained(mid.chans[h].phase) || mid.chans[h].queue == []
  {
    hide Run, HeldByAll, ChanInv, Taken;
    ReachableInv(first, mid);
    if Drained(mid.chans[h].phase) {
      DrainedRunTakesNothing(mid, second, last, h);
      QueueLength(mid.chans[h]);
    } else {
      LaterInRun(first, mid, second, last, h);
    }
  }

  lemma QueueLength(c: Chan)
    requires ChanInv(c)
    ensures |Taken(c)| + |c.queue| == |c.accepted|
  {
    hide EncodedAll, ChildInv, Fits, SomeOversize, OnItsWay;
  }

  /** The fate of one accepted payload: a task that ends on a local order has taken it if and only if its
      drain was not over when the payload was accepted, whatever orders had been given by then; and without
      a stream error, what an ordered channel has taken is what is on its stream. */
  lemma AcceptedIsTakenExactly(
      first: seq<Step>, mid: State, p: Bytes, second: seq<Step>, last: State, h: nat)
    requires Run(INITIAL, first, mid) && Enabled(mid, Accepts(h, p))
    requires Run(Apply(mid, Accepts(h, p)), second, last)
    requires h < |last.chans| && last.chans[h].phase == Ended(LocalOrder)
    ensures var n, c := |mid.chans[h].accepted|, last.chans[h];
            && n < |c.accepted| && c.accepted[n] == p
            && (n < |Taken(c)| <==> !Drained(mid.chans[h].phase))
            && Taken(c) <= c.accepted
            && (c.config.OrderedReliable? && !c.failed ==> c.stream == EncodedAll(c.id, c.config, Taken(c)))
  {
    hide Run, HeldByAll, ChanInv, Taken, ReceiverAlive;
    var next := Apply(mid, Accepts(h, p));
    assert [Accepts(h, p)][1..] == [];
    assert Run(mid, [Accepts(h, p)], next) by { OneStep(mid, Accepts(h, p)); }
    RunAppend(INITIAL, first, mid, [Accepts(h, p)], next);
    DrainCoversExactly(first + [Accepts(h, p)], next, second, last, h);
    ReachableInv(first + [Accepts(h, p)], next);
    AcceptedGrows(next, second, last, h);
    RunKeepsInv(next, second, last);
    EndedStream(last.chans[h]);
  }

  lemma OneStep(s: State, step: Step)
    requires Enabled(s, step)
    ensures Run(s, [step], Apply(s, step))
  {
    hide Enabled, Apply;
    assert [step][1..] == [];
  }

  lemma {:induction false} AcceptedGrows(s: State, steps: seq<Step>, last: State, h: nat)
    requires Run(s, steps, last) && h < |s.chans|
    ensures h < |last.chans| && s.chans[h].accepted <= last.chans[h].accepted
    decreases |steps|
  {
    hide Enabled, Apply;
    if steps != [] {
      AcceptedGrowsOnce(s, steps[0], h);
      AcceptedGrows(Apply(s, steps[0]), steps[1..], last, h);
    }
  }

  lemma AcceptedGrowsOnce(s: State, step: Step, h: nat)
    requires Enabled(s, step) && h < |s.chans|
    ensures h < |Apply(s, step).chans| && s.chans[h].accepted <= Apply(s, step).chans[h].accepted
  {
    hide TaskEnabled, KeepaliveChange, TaskApply, MayStop, ReceiverAlive;
    if step.Task? {
      StepFrame(s.chans[step.h], step.step);
    }
  }

  /** The stream of an ordered channel whose task ended on a local order without a stream error: the
      frames of a prefix of the accepted payloads, in order, that covers all that was accepted until the
      last look at the queue. In every interleaving, also when the order cancels a send halfway. */
  lemma DrainBeforeClose(first: seq<Step>, mid: State, second: seq<Step>, last: State, h: nat)
    requires Run(INITIAL, first, mid) && StillDrains(mid, h) && Run(mid, second, last)
    requires h < |last.chans| && last.chans[h].config.OrderedReliable?
    requires last.chans[h].phase == Ended(LocalOrder) && !last.chans[h].failed
    ensures var a, c := mid.chans[h], last.chans[h];
            exists n :: |a.accepted| <= n <= |c.accepted|
                        && a.accepted == c.accepted[..|a.accepted|]
                        && c.stream == EncodedAll(c.id, c.config, c.accepted[..n])
    ensures EncodedAll(mid.chans[h].id, mid.chans[h].config, mid.chans[h].accepted) <= last.chans[h].stream
  {
    hide Run, HeldByAll, ChanInv, EncodedAll, Taken;
    LaterInRun(first, mid, second, last, h);
    OrderedDrained(mid.chans[h], last.chans[h]);
    var n := |Taken(last.chans[h])|;
    assert Taken(last.chans[h]) == last.chans[h].accepted[..n];
  }

  /** At every moment of every run an ordered stream carries a prefix of the frames of the accepted
      payloads, and an unordered channel has finished at most one stream for each of them. */
  lemma NeverInvents(steps: seq<Step>, s: State, h: nat)
    requires Run(INITIAL, steps, s) && h < |s.chans|
    ensures var c := s.chans[h];
            && (c.config.OrderedReliable? ==> c.stream <= EncodedAll(c.id, c.config, c.accepted))
            && (c.config.UnorderedReliable? ==>
                  multiset(Finished(c.children)) <= multiset(Frames(c.id, c.config, c.accepted)))
  {
    hide Run, HeldByAll, ChanInv, Frames, Finished, EncodedAll, Taken;
    ReachableInv(steps, s);
    var c := s.chans[h];
    match c.config
    case OrderedReliable(_) => OrderedNeverInvents(c);
    case UnorderedReliable(_) => UnorderedNeverInvents(c);
    case Unreliable =>
  }

  /** How a task ends: once the connection is closed, a task that was served, met no stream error, no
      oversize payload and no `PeerClosed`, ended on a local order. */
  lemma EndsOnLocalOrder(steps: seq<Step>, s: State, h: nat)
    requires Run(INITIAL, steps, s) && s.spawner.ConnectionClosed? && h < |s.chans|
    requires var c := s.chans[h];
             && !c.phase.Unserved? && !c.failed && !c.config.Unreliable?
             && (forall k :: 0 <= k < |c.accepted| ==> Fits(c.config, c.accepted[k]))
    requires PeerClosed !in s.closes
    ensures s.chans[h].phase == Ended(LocalOrder)
  {
    hide Run, HeldByAll, EncodedAll, ChanInv, Fits, TaskMay;
    NothingOutlivesTheClose(steps, s, h);
    ReachableInv(steps, s);
    NoPanic(s.chans[h]);
    var p := s.chans[h].phase;
    assert p.Ended?;
    assert p.reason.LocalOrder? || p == Ended(PeerClosed);
  }

  lemma NoPanic(c: Chan)
    requires ChanInv(c) && !c.failed && !c.config.Unreliable?
    requires forall k :: 0 <= k < |c.accepted| ==> Fits(c.config, c.accepted[k])
    ensures !c.phase.Panicked?
  {
    assert forall k :: 0 <= k < |Taken(c)| ==> Taken(c)[k] == c.accepted[k];
    assert !SomeOversize(c);
    hide EncodedAll, Taken, ChildInv, SomeOversize, Fits, QueueIsRest;
  }

  lemma {:induction false} RunAppend(a: State, first: seq<Step>, b: State, second: seq<Step>, c: State)
    requires Run(a, first, b) && Run(b, second, c)
    ensures Run(a, first + second, c)
    decreases |first|
  {
    hide Enabled, Apply;
    if first == [] {
      assert first + second == second;
    } else {
      RunAppend(Apply(a, first[0]), first[1..], b, second, c);
      assert (first + second)[1..] == first[1..] + second;
    }
  }

  lemma UnservedTookNothing(c: Chan)
    requires ChanInv(c) && c.phase.Unserved?
    ensures Taken(c) == [] && c.stream == [] && c.children == []
  {
    hide ChildInv, Fits, QueueIsRest, SomeOversize;
  }

  /** Nothing cost the channel a payload by the time of `s` but, perhaps, the order of events: no lost peer,
      no stream error, no payload that the channel cannot send. */
  predicate Unharmed(s: State, h: nat) {
    && h < |s.chans| && PeerClosed !in s.closes
    && var c := s.chans[h];
       && !c.failed && !c.config.Unreliable? && NoChildFailed(c)
       && forall k :: 0 <= k < |c.accepted| ==> Fits(c.config, c.accepted[k])
  }

  /** What an unharmed channel has written when the connection is closed: what its task took. */
  lemma WrittenAtClose(steps: seq<Step>, s: State, h: nat)
    requires Run(INITIAL, steps, s) && s.spawner.ConnectionClosed? && Unharmed(s, h)
    ensures var c := s.chans[h];
            && Taken(c) <= c.accepted
            && (c.config.OrderedReliable? ==> c.stream == EncodedAll(c.id, c.config, Taken(c)))
            && (c.config.UnorderedReliable? ==>
                  multiset(Streams(c.children)) == multiset(Frames(c.id, c.config, Taken(c))))
  {
    hide Run, HeldByAll, ChanInv, EncodedAll, Taken, Fits, Streams, Frames;
    ReachableInv(steps, s);
    HeldZero(s.chans, h);
    var c := s.chans[h];
    if c.phase.Unserved? {
      UnservedTookNothing(c);
      assert EncodedAll(c.id, c.config, []) == [] by { EncodedNone(c); }
      assert Streams(c.children) == [] && Frames(c.id, c.config, []) == [];
    } else {
      EndsOnLocalOrder(steps, s, h);
      EndedStream(c);
      if c.config.UnorderedReliable? {
        UnorderedEnded(c);
      }
    }
  }

  lemma EncodedNone(c: Chan)
    ensures EncodedAll(c.id, c.config, []) == []
  {
  }

  /** The fate of an accepted payload when the connection is closed, in every interleaving: on a channel that
      was not harmed otherwise it was taken, and so written, if and only if the drain was not over when it was
      accepted and the channel was served at all. */
  lemma FateAtClose(first: seq<Step>, mid: State, p: Bytes, second: seq<Step>, last: State, h: nat)
    requires Run(INITIAL, first, mid) && Enabled(mid, Accepts(h, p))
    requires Run(Apply(mid, Accepts(h, p)), second, last)
    requires last.spawner.ConnectionClosed? && Unharmed(last, h)
    ensures var n, c := |mid.chans[h].accepted|, last.chans[h];
            && n < |c.accepted| && c.accepted[n] == p
            && (n < |Taken(c)| <==> !Drained(mid.chans[h].phase) && !c.phase.Unserved?)
  {
    hide Run, HeldByAll, ChanInv, Taken, ReceiverAlive, NoChildFailed, Fits;
    var next := Apply(mid, Accepts(h, p));
    OneStep(mid, Accepts(h, p));
    RunAppend(INITIAL, first, mid, [Accepts(h, p)], next);
    RunAppend(INITIAL, first + [Accepts(h, p)], next, second, last);
    if last.chans[h].phase.Unserved? {
      ReachableInv(first + [Accepts(h, p)] + second, last);
      UnservedTookNothing(last.chans[h]);
      AcceptedGrows(next, second, last, h);
    } else {
      EndsOnLocalOrder(first + [Accepts(h, p)] + second, last, h);
      AcceptedIsTakenExactly(first, mid, p, second, last, h);
    }
  }

  /** The promise of a graceful close, for a channel whose creation message had left the queue before its
      drain was over: all that was accepted until then is on the stream, in order, when the connection is
      closed. */
  lemma NothingLostWhenClosed(first: seq<Step>, mid: State, second: seq<Step>, last: State, h: nat)
    requires Run(INITIAL, first, mid) && StillDrains(mid, h) && h !in mid.unserved && Run(mid, second, last)
    requires last.spawner.ConnectionClosed? && Unharmed(last, h) && last.chans[h].config.OrderedReliable?
    ensures EncodedAll(mid.chans[h].id, mid.chans[h].config, mid.chans[h].accepted) <= last.chans[h].stream
  {
    hide Run, Drained, EncodedAll, Fits, NoChildFailed, Inv;
    RunAppend(INITIAL, first, mid, second, last);
    ReachableInv(first, mid);
    ServedStays(mid, second, last, h);
    EndsOnLocalOrder(first + second, last, h);
    DrainBeforeClose(first, mid, second, last, h);
  }

  /** The same for an unordered channel: one frame stream for each payload of a prefix of the accepted ones
      that covers all that was accepted until then. */
  lemma NothingUnorderedLostWhenClosed(first: seq<Step>, mid: State, second: seq<Step>, last: State, h: nat)
    requires Run(INITIAL, first, mid) && StillDrains(mid, h) && h !in mid.unserved && Run(mid, second, last)
    requires last.spawner.ConnectionClosed? && Unharmed(last, h) && last.chans[h].config.UnorderedReliable?
    ensures var a, c := mid.chans[h], last.chans[h];
            exists n :: |a.accepted| <= n <= |c.accepted|
                        && a.accepted == c.accepted[..|a.accepted|]
                        && multiset(Streams(c.children)) == multiset(Frames(c.id, c.config, c.accepted[..n]))
  {
    hide Run, Drained, Fits, Streams, Frames, NoChildFailed, Inv;
    RunAppend(INITIAL, first, mid, second, last);
    ReachableInv(first, mid);
    ServedStays(mid, second, last, h);
    EndsOnLocalOrder(first + second, last, h);
    UnorderedDrainBeforeClose(first, mid, second, last, h);
  }

  /** The promise of `close` to its caller. Before any close every channel that has been served is safe: when
      the connection is closed, and unless the channel was harmed meanwhile, all that had been accepted on it
      is written, in order on an ordered channel. A channel on which a close signal ended the task earlier is
      no exception, since it accepts nothing any more. */
  lemma GracefulClose(first: seq<Step>, mid: State, second: seq<Step>, last: State, h: nat)
    requires Run(INITIAL, first, mid) && mid.closes == [] && mid.syncAlive && h < |mid.chans| && h !in mid.unserved
    requires Run(mid, second, last) && last.spawner.ConnectionClosed? && Unharmed(last, h)
    ensures var a, c := mid.chans[h], last.chans[h];
            && c.id == a.id && c.config == a.config && a.accepted <= Taken(c)
            && (c.config.OrderedReliable? ==> EncodedAll(a.id, a.config, a.accepted) <= c.stream)
            && (c.config.UnorderedReliable? ==>
                  multiset(Frames(a.id, a.config, a.accepted)) <= multiset(Streams(c.children)))
  {
    hide Run, Fits, Streams, Frames, NoChildFailed, ChanInv, HeldByAll, EncodedAll, Taken;
    RunAppend(INITIAL, first, mid, second, last);
    ReachableInv(first, mid);
    ServedStays(mid, second, last, h);
    EndsOnLocalOrder(first + second, last, h);
    WrittenAtClose(first + second, last, h);
    DrainCoversExactly(first, mid, second, last, h);
    AcceptedGrows(mid, second, last, h);
    NamesStay(mid, second, last, h);
    var a, c := mid.chans[h], last.chans[h];
    FrontIsWritten(c, a.accepted, Taken(c));
  }

  lemma FrontIsWritten(c: Chan, front: seq<Bytes>, all: seq<Bytes>)
    requires front <= all
    ensures EncodedAll(c.id, c.config, front) <= EncodedAll(c.id, c.config, all)
    ensures multiset(Frames(c.id, c.config, front)) <= multiset(Frames(c.id, c.config, all))
  {
    hide Encoded;
    var n := |front|;
    assert all == front + all[n..];
    EncodedAllAppend(c.id, c.config, front, all[n..]);
    var some, whole := Frames(c.id, c.config, front), Frames(c.id, c.config, all);
    assert whole == some + whole[n..];
  }

  lemma {:induction false} NamesStay(s: State, steps: seq<Step>, last: State, h: nat)
    requires Run(s, steps, last) && h < |s.chans|
    ensures h < |last.chans| && last.chans[h].id == s.chans[h].id && last.chans[h].config == s.chans[h].config
    decreases |steps|
  {
    hide Enabled, Apply;
    if steps != [] {
      NamesStayOnce(s, steps[0], h);
      NamesStay(Apply(s, steps[0]), steps[1..], last, h);
    }
  }

  lemma NamesStayOnce(s: State, step: Step, h: nat)
    requires Enabled(s, step) && h < |s.chans|
    ensures var c, t := s.chans[h], Apply(s, step);
            h < |t.chans| && t.chans[h].id == c.id && t.chans[h].config == c.config
  {
    hide TaskEnabled, KeepaliveChange, TaskApply, MayStop, ReceiverAlive;
    if step.Task? {
      StepFrame(s.chans[step.h], step.step);
    }
  }

  /** A channel whose creation message has left the queue has been served, and remains so. */
  lemma {:induction false} ServedStays(s: State, steps: seq<Step>, last: State, h: nat)
    requires Inv(s) && Run(s, steps, last) && h < |s.chans| && h !in s.unserved
    ensures h < |last.chans| && h !in last.unserved && !last.chans[h].phase.Unserved?
    decreases |steps|
  {
    if steps == [] {
      hide ChanInv, HeldByAll;
    } else {
      hide Inv, Enabled, Apply;
      StepKeepsInv(s, steps[0]);
      ServedStaysOnce(s, steps[0], h);
      ServedStays(Apply(s, steps[0]), steps[1..], last, h);
    }
  }

  lemma ServedStaysOnce(s: State, step: Step, h: nat)
    requires Enabled(s, step) && h < |s.chans| && h !in s.unserved
    ensures h < |Apply(s, step).chans| && h !in Apply(s, step).unserved
  {
    hide TaskApply, TaskEnabled, KeepaliveChange, MayStop, ReceiverAlive;
  }

  /** Closing one channel before its drain is over loses nothing at all: the stream is exactly the accepted
      payloads. */
  lemma ChannelCloseWritesExactly(first: seq<Step>, mid: State, second: seq<Step>, last: State, h: nat)
    requires Run(INITIAL, first, mid) && StillDrains(mid, h) && Enabled(mid, ClosesChannel(h))
    requires Run(Apply(mid, ClosesChannel(h)), second, last)
    requires h < |last.chans| && last.chans[h].config.OrderedReliable?
    requires last.chans[h].phase == Ended(LocalOrder) && !last.chans[h].failed
    ensures var c := last.chans[h];
            c.accepted == mid.chans[h].accepted && c.stream == EncodedAll(c.id, c.config, mid.chans[h].accepted)
  {
    hide Run, HeldByAll, ChanInv, EncodedAll, Taken, Enabled;
    AfterChannelClose(first, mid, second, last, h);
    var closed := Apply(mid, ClosesChannel(h));
    OrderedDrained(closed.chans[h], last.chans[h]);
  }

  lemma AfterChannelClose(first: seq<Step>, mid: State, second: seq<Step>, last: State, h: nat)
    requires Run(INITIAL, first, mid) && StillDrains(mid, h) && Enabled(mid, ClosesChannel(h))
    requires Run(Apply(mid, ClosesChannel(h)), second, last)
    ensures Inv(last) && LaterAt(Apply(mid, ClosesChannel(h)), last, h)
  {
    hide Run, HeldByAll, ChanInv, Taken, Enabled;
    ReachableInv(first, mid);
    StepKeepsInv(mid, ClosesChannel(h));
    var closed := Apply(mid, ClosesChannel(h));
    RunKeepsInv(closed, second, last);
    RunStaysLater(closed, closed, second, last, h);
  }

  /** An unordered channel, when the connection is closed after a local order without stream errors: its
      streams are, as multisets, one frame for each payload of a prefix of the accepted ones that covers
      all that was accepted until the last look at the queue. */
  lemma UnorderedDrainBeforeClose(first: seq<Step>, mid: State, second: seq<Step>, last: State, h: nat)
    requires Run(INITIAL, first, mid) && StillDrains(mid, h) && Run(mid, second, last)
    requires last.spawner.ConnectionClosed? && h < |last.chans| && last.chans[h].config.UnorderedReliable?
    requires last.chans[h].phase == Ended(LocalOrder) && NoChildFailed(last.chans[h])
    ensures var a, c := mid.chans[h], last.chans[h];
            exists n :: |a.accepted| <= n <= |c.accepted|
                        && a.accepted == c.accepted[..|a.accepted|]
                        && multiset(Streams(c.children)) == multiset(Frames(c.id, c.config, c.accepted[..n]))
  {
    hide Run, StillDrains, HeldByAll, ChanInv, Taken, Streams, Frames, NoChildFailed;
    LaterInRun(first, mid, second, last, h);
    HeldZero(last.chans, h);
    UnorderedDrained(mid.chans[h], last.chans[h]);
    var n := |Taken(last.chans[h])|;
    assert Taken(last.chans[h]) == last.chans[h].accepted[..n];
  }

  /** Closing an unordered channel before its drain is over: once its task and its children are gone, exactly
      one frame stream for each accepted payload. */
  lemma UnorderedCloseWritesExactly(first: seq<Step>, mid: State, second: seq<Step>, last: State, h: nat)
    requires Run(INITIAL, first, mid) && StillDrains(mid, h) && Enabled(mid, ClosesChannel(h))
    requires Run(Apply(mid, ClosesChannel(h)), second, last)
    requires h < |last.chans| && last.chans[h].config.UnorderedReliable?
    requires last.chans[h].phase == Ended(LocalOrder) && NoChildFailed(last.chans[h]) && Held(last.chans[h]) == 0
    ensures var c := last.chans[h];
            multiset(Streams(c.children)) == multiset(Frames(c.id, c.config, mid.chans[h].accepted))
  {
    hide Run, HeldByAll, ChanInv, Taken, Enabled, Streams, Frames, NoChildFailed;
    AfterChannelClose(first, mid, second, last, h);
    var closed := Apply(mid, ClosesChannel(h));
    UnorderedDrained(closed.chans[h], last.chans[h]);
  }

  // ---------------------------------------------------------------- where the promise stops

  ghost predicate Reachable(s: State) {
    exists steps :: Run(INITIAL, steps, s)
  }

  lemma StartIsReachable()
    ensures Reachable(INITIAL)
  {
    assert Run(INITIAL, [], INITIAL);
  }

  /** `t` is the state that `step` leads to. */
  lemma ReachNext(s: State, step: Step, t: State)
    requires Reachable(s) && Enabled(s, step)
    requires |t.chans| == |Apply(s, step).chans| && forall k :: 0 <= k < |t.chans| ==>
        t.chans[k] == Apply(s, step).chans[k]
    requires t == Apply(s, step).(chans := t.chans)
    ensures Reachable(t)
  {
    assert t.chans == Apply(s, step).chans;
    hide Enabled, Apply;
    var steps :| Run(INITIAL, steps, s);
    assert Run(s, [step], Apply(s, step));
    RunAppend(INITIAL, steps, s, [step], Apply(s, step));
  }

  const ORDERED: ChannelConfig := OrderedReliable(10)

  /** One ordered channel and nothing else. */
  function Single(c: Chan, unserved: seq<nat>, spawner: Spawner, closes: seq<CloseReason>, keepalive: int): State {
    State([c], unserved, spawner, closes, true, keepalive, 0)
  }

  lemma OneServed()
    ensures Reachable(Single(NewChan(0, ORDERED).(phase := Opening), [], Serving, [], 2))
  {
    hide Run, Reachable, ReceiverAlive, MayStop, MayReport, TaskEnabled, TaskApply;
    StartIsReachable();
    var c := NewChan(0, ORDERED);
    var s1 := Single(c, [0], Serving, [], 1);
    ReachNext(INITIAL, Create(0, ORDERED), s1);
    ReachNext(s1, SpawnsNext, Single(c.(phase := Opening), [], Serving, [], 2));
  }

  lemma OneOpened()
    ensures Reachable(Single(NewChan(0, ORDERED).(phase := Selecting(Waiting)), [], Serving, [], 2))
  {
    hide Run, Reachable, ReceiverAlive, MayStop, MayReport;
    OneServed();
    var c := NewChan(0, ORDERED);
    var s2 := Single(c.(phase := Opening), [], Serving, [], 2);
    ReachNext(s2, Task(0, Opened), Single(c.(phase := Selecting(Waiting)), [], Serving, [], 2));
  }

  lemma OneFlushing()
    ensures Reachable(Single(NewChan(0, ORDERED).(phase := Flushing), [], Serving, [LocalOrder], 2))
  {
    OneOpened();
    hide Run, Reachable, Frame;
    var c := NewChan(0, ORDERED);
    var s1 := Single(c.(phase := Selecting(Waiting)), [], Serving, [], 2);
    var s2 := s1.(closes := [LocalOrder]);
    var s3 := Single(c.(phase := Draining(false)), [], Serving, [LocalOrder], 2);
    ReachNext(s1, ClosesConnection(LocalOrder), s2);
    ReachNext(s2, Task(0, Stops(LocalOrder)), s3);
    ReachNext(s3, Task(0, DrainDone), Single(c.(phase := Flushing), [], Serving, [LocalOrder], 2));
  }

  /** An instance: a connection closed before its channel was served loses the payloads on it, although
      nothing failed. */
  lemma UnservedAtCloseIsLost(p: Bytes)
    ensures exists s ::
              && Reachable(s) && s.spawner.ConnectionClosed? && s.closes == [LocalOrder] && |s.chans| == 1
              && s.chans[0].phase.Unserved? && !s.chans[0].failed
              && s.chans[0].accepted == [p] && s.chans[0].stream == []
  {
    hide Run, Reachable, Frame;
    StartIsReachable();
    var c := NewChan(0, ORDERED);
    var d := c.(queue := [p], accepted := [p]);
    var s1 := Single(c, [0], Serving, [], 1);
    var s2 := Single(d, [0], Serving, [], 1);
    var s3 := Single(d, [0], Serving, [LocalOrder], 1);
    var s4 := Single(d, [0], AwaitingTasks, [LocalOrder], 0);
    ReachNext(INITIAL, Create(0, ORDERED), s1);
    ReachNext(s1, Accepts(0, p), s2);
    ReachNext(s2, ClosesConnection(LocalOrder), s3);
    ReachNext(s3, SpawnerStops, s4);
    ReachNext(s4, ConnectionCloses, Single(d, [0], ConnectionClosed, [LocalOrder], 0));
  }

  /** An instance: a payload accepted after the drain's last look at the queue, although nothing failed: the
      sync side was told that it was queued, and the connection closes without it. */
  lemma AcceptedAfterTheLastLookIsLost(p: Bytes)
    ensures exists s ::
              && Reachable(s) && s.spawner.ConnectionClosed? && |s.chans| == 1
              && s.chans[0].phase == Ended(LocalOrder) && !s.chans[0].failed
              && s.chans[0].accepted == [p] && s.chans[0].stream == []
  {
    OneFlushing();
    hide Run, Reachable, Frame;
    var c := NewChan(0, ORDERED).(phase := Flushing);
    var d := c.(queue := [p], accepted := [p]);
    var e := d.(phase := Ended(LocalOrder));
    var s1 := Single(c, [], Serving, [LocalOrder], 2);
    var s2 := Single(d, [], Serving, [LocalOrder], 2);
    var s3 := Single(e, [], Serving, [LocalOrder], 1);
    var s4 := s3.(spawner := AwaitingTasks, keepalive := 0);
    ReachNext(s1, Accepts(0, p), s2);
    ReachNext(s2, Task(0, Finish), s3);
    ReachNext(s3, SpawnerStops, s4);
    ReachNext(s4, ConnectionCloses, s4.(spawner := ConnectionClosed));
  }
}
