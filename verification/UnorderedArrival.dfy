/** What is accepted on an unordered channel can arrive: from every state that no losing event has touched,
    the tasks can write all that is accepted, each payload on its own stream, and the receiving tasks can
    hand all of it to the application. */
module UnorderedArrival {
  import opened Prelude
  import opened Codec
  import opened StreamReceive
  import opened RecvChannels
  import opened ChannelTask
  import opened ConnectionTasks
  import opened CloseProgress
  import opened Receivers
  import opened Inboxes
  import opened Links
  import opened UnorderedDelivery
  import opened WriteProgress

  /** What the receiving side does on its own. */
  predicate Receiving(k: Link, m: Move) {
    m.BytesArrive? || m.DecodeNext? || m.DispatchNext? || m == AppReads(k.id)
  }

  /** What both sides do on their own, without an event from outside. */
  predicate Forward(k: Link, m: Move) {
    Receiving(k, m) || (m.Sender? && Writing(k, m.step))
  }

  predicate AllForward(k: Link, ms: seq<Move>) {
    forall i :: 0 <= i < |ms| ==> Forward(k, ms[i])
  }

  lemma {:induction false} EventfreeAppend(k: Link, a: System, first: seq<Move>, b: System, second: seq<Move>,
                                           c: System)
    requires EventfreeMoves(k, a, first, b) && EventfreeMoves(k, b, second, c)
    ensures EventfreeMoves(k, a, first + second, c)
    decreases |first|
  {
    hide MoveEnabled, Moved, EventLoses;
    if first == [] {
      assert first + second == second;
    } else {
      EventfreeAppend(k, Moved(k, a, first[0]), first[1..], b, second, c);
      assert (first + second)[1..] == first[1..] + second;
    }
  }

  lemma {:induction false} EventfreeCons(k: Link, s: System, m: Move, ms: seq<Move>, t: System)
    requires MoveEnabled(k, s, m) && !EventLoses(k, s, m) && EventfreeMoves(k, Moved(k, s, m), ms, t)
    ensures EventfreeMoves(k, s, [m] + ms, t)
  {
    hide MoveEnabled, Moved, EventLoses;
    assert ([m] + ms)[1..] == ms;
  }

  // ---------------------------------------------------------------- the send side

  lemma {:induction false} WritingMoves(k: Link, s: System, steps: seq<Step>, u: State)
    returns (ms: seq<Move>, t: System)
    requires WritingRun(k, s.tasks, steps, u)
    ensures EventfreeMoves(k, s, ms, t) && AllForward(k, ms)
    ensures t.tasks == u && t.inbox == s.inbox
    decreases |steps|
  {
    hide Enabled, Apply, Breaks, Children;
    if steps == [] {
      return [], s;
    }
    var m := Sender(steps[0]);
    ms, t := WritingMoves(k, Moved(k, s, m), steps[1..], u);
    EventfreeCons(k, s, m, ms, t);
    ms := [m] + ms;
  }

  // ---------------------------------------------------------------- the receiving side

  predicate ChildReceived(k: Link, c: Child, r: Receiver) {
    r.listening ==> r.arrived == |c.stream| && !DecodeOnce(r.dec, k.decoderMax).0.Got?
  }

  /** Nothing that has been written is still on its way to the application. */
  predicate AllReceived(k: Link, s: System) {
    && s.inbox.incoming == [] && BufferOf(s.inbox.buffers, k.id) == []
    && |s.rxs| == |Children(k, s.tasks)|
    && forall j :: 0 <= j < |s.rxs| ==> ChildReceived(k, Children(k, s.tasks)[j], s.rxs[j])
  }

  /** The move works something off. */
  predicate Works(k: Link, s: System, m: Move)
    requires MoveEnabled(k, s, m)
  {
    match m
    case AppReads(c) => c == k.id && BufferOf(s.inbox.buffers, k.id) != []
    case DispatchNext => true
    case BytesArrive(j, n) => n == |Children(k, s.tasks)[j].stream| - s.rxs[j].arrived > 0
    case DecodeNext(j) => j < |Children(k, s.tasks)| && DecodeOnce(s.rxs[j].dec, k.decoderMax).0.Got?
    case _ => false
  }

  /** As long as something is on its way there is a move towards the application. */
  lemma SomethingArrives(k: Link, s: System) returns (m: Move)
    requires Exact(k, s) && Holds(k) && !AllReceived(k, s)
    ensures Receiving(k, m) && MoveEnabled(k, s, m) && Works(k, s, m) && !EventLoses(k, s, m)
  {
    hide ObservedOk, Clean, Delivered, Observed, DecodeOnce, EncodeStream, Pending, Resumable, Enabled, Handed,
      SenderEventLoses, Sendable, Messages;
    if BufferOf(s.inbox.buffers, k.id) != [] {
      return AppReads(k.id);
    }
    if s.inbox.incoming != [] {
      assert !NoRoom(s.inbox.buffers, k.cfg, k.id);
      return DispatchNext;
    }
    assert |s.rxs| == |Children(k, s.tasks)|;
    var j :| 0 <= j < |s.rxs| && !ChildReceived(k, Children(k, s.tasks)[j], s.rxs[j]);
    assert ChildOk(k, Children(k, s.tasks)[j], s.rxs[j]);
    if s.rxs[j].arrived < |Children(k, s.tasks)[j].stream| {
      return BytesArrive(j, |Children(k, s.tasks)[j].stream| - s.rxs[j].arrived);
    }
    return DecodeNext(j);
  }

  /** How much is still on its way, in the order in which it is worked off. */
  function ChildBytes(c: Child, r: Receiver): nat {
    if r.listening && r.arrived <= |c.stream| then |c.stream| - r.arrived else 0
  }

  function BytesLeft(cs: seq<Child>, rxs: seq<Receiver>): nat {
    if cs == [] || rxs == [] then 0 else ChildBytes(cs[0], rxs[0]) + BytesLeft(cs[1..], rxs[1..])
  }

  function PayloadsLeft(k: Link, cs: seq<Child>, rxs: seq<Receiver>): nat {
    if cs == [] || rxs == [] then 0
    else |Ahead(rxs[0], Sendable(k, cs[0].payload))| + PayloadsLeft(k, cs[1..], rxs[1..])
  }

  function PacketsLeft(k: Link, s: System): nat {
    2 * |s.inbox.incoming| + |BufferOf(s.inbox.buffers, k.id)|
  }

  lemma {:induction false} LeftUpdate(k: Link, cs: seq<Child>, rxs: seq<Receiver>, j: nat, r: Receiver)
    requires |cs| == |rxs| && j < |rxs|
    ensures BytesLeft(cs, rxs[j := r]) == BytesLeft(cs, rxs) - ChildBytes(cs[j], rxs[j]) + ChildBytes(cs[j], r)
    ensures PayloadsLeft(k, cs, rxs[j := r]) ==
            PayloadsLeft(k, cs, rxs) - |Ahead(rxs[j], Sendable(k, cs[j].payload))|
                + |Ahead(r, Sendable(k, cs[j].payload))|
  {
    hide ChildBytes, Ahead, Sendable;
    if j > 0 {
      LeftUpdate(k, cs[1..], rxs[1..], j - 1, r);
      assert rxs[j := r][1..] == rxs[1..][j - 1 := r];
    } else {
      assert rxs[0 := r][1..] == rxs[1..];
    }
  }

  predicate Less(k: Link, t: System, s: System) {
    var ds, cs := Children(k, t.tasks), Children(k, s.tasks);
    || BytesLeft(ds, t.rxs) < BytesLeft(cs, s.rxs)
    || (BytesLeft(ds, t.rxs) == BytesLeft(cs, s.rxs)
        && (PayloadsLeft(k, ds, t.rxs) < PayloadsLeft(k, cs, s.rxs)
            || (PayloadsLeft(k, ds, t.rxs) == PayloadsLeft(k, cs, s.rxs) && PacketsLeft(k, t) < PacketsLeft(k, s))))
  }

  lemma InboxDescends(k: Link, s: System, m: Move)
    requires MoveEnabled(k, s, m) && Works(k, s, m) && (m.AppReads? || m.DispatchNext?)
    ensures Moved(k, s, m).tasks == s.tasks && Less(k, Moved(k, s, m), s)
  {
    hide BufferOf, Dispatched, AppRead, Children, BytesLeft, PayloadsLeft, Enabled, Apply;
    InboxShrinks(s.inbox, k.cfg, k.id);
  }

  lemma BytesDescend(k: Link, s: System, j: nat, n: nat)
    requires Exact(k, s) && MoveEnabled(k, s, BytesArrive(j, n)) && Works(k, s, BytesArrive(j, n))
    ensures Moved(k, s, BytesArrive(j, n)).tasks == s.tasks && Less(k, Moved(k, s, BytesArrive(j, n)), s)
  {
    hide ObservedOk, Clean, Delivered, Observed, DecodeOnce, Enabled, Apply, BytesLeft, PayloadsLeft, HandOnNext,
      InStep, Dispatched, AppRead, Handed, PayloadsOn, Sendable, BufferOf;
    var cs := Children(k, s.tasks);
    var c, r := cs[j], s.rxs[j];
    assert ChildOk(k, c, r);
    LeftUpdate(k, cs, s.rxs, j, ReadBytes(r, c.stream[r.arrived..r.arrived + n]));
  }

  lemma OneLess(k: Link, s: System, j: nat)
    requires Exact(k, s) && k.config.UnorderedReliable? && j < |s.rxs| && s.rxs[j].listening
    requires DecodeOnce(s.rxs[j].dec, k.decoderMax).0.Got?
    ensures var c, r, t := Children(k, s.tasks)[j], s.rxs[j], HandOnNext(s.rxs[j], k.decoderMax).0;
            && ChildBytes(c, t) == ChildBytes(c, r)
            && |Ahead(t, Sendable(k, c.payload))| < |Ahead(r, Sendable(k, c.payload))|
  {
    hide ObservedOk, Clean, Delivered, Observed, DecodeOnce, HandOnNext, InStep, Handed, Unwritten, ChildInv,
      NoneWraps, Short, Fits, Deliverable, EncodeStream, Messages;
    var c, r := Children(k, s.tasks)[j], s.rxs[j];
    assert ChildOk(k, c, r);
    CleanNeverWraps(k, s.tasks);
    ObservedChild(k, s.tasks, j);
    ChildIsShort(k, s.tasks, j);
    ChildReads(k, c, r);
    HandOnKeeps(k.id, k.decoderMax, r, c.stream, Unwritten(k, c), Sendable(k, c.payload));
    HandOnMovesOnly(r, k.decoderMax);
  }

  lemma DecodeDescends(k: Link, s: System, j: nat)
    requires Exact(k, s) && k.config.UnorderedReliable?
    requires MoveEnabled(k, s, DecodeNext(j)) && Works(k, s, DecodeNext(j))
    ensures Moved(k, s, DecodeNext(j)).tasks == s.tasks && Less(k, Moved(k, s, DecodeNext(j)), s)
  {
    hide ObservedOk, Clean, Delivered, Observed, DecodeOnce, Enabled, Apply, BytesLeft, PayloadsLeft, HandOnNext,
      ChildOk, Dispatched, AppRead, Handed, PayloadsOn, Sendable, BufferOf, ChildBytes, Ahead;
    var cs := Children(k, s.tasks);
    OneLess(k, s, j);
    LeftUpdate(k, cs, s.rxs, j, HandOnNext(s.rxs[j], k.decoderMax).0);
  }

  /** So all that has been written can reach the application, by the moves of the receiving side alone. */
  lemma {:induction false} CanReceiveAll(k: Link, s: System) returns (ms: seq<Move>, t: System)
    requires Exact(k, s) && k.config.UnorderedReliable? && Holds(k)
    ensures EventfreeMoves(k, s, ms, t) && AllForward(k, ms)
    ensures t.tasks == s.tasks && Exact(k, t) && AllReceived(k, t)
    decreases BytesLeft(Children(k, s.tasks), s.rxs), PayloadsLeft(k, Children(k, s.tasks), s.rxs), PacketsLeft(k, s)
  {
    hide Exact, MoveEnabled, Moved, EventLoses, AllReceived, BytesLeft, PayloadsLeft, PacketsLeft, Works, Children;
    if AllReceived(k, s) {
      return [], s;
    }
    var m := SomethingArrives(k, s);
    match m {
      case BytesArrive(j, n) => BytesDescend(k, s, j, n);
      case DecodeNext(j) => DecodeDescends(k, s, j);
      case _ => InboxDescends(k, s, m);
    }
    MoveStaysExact(k, s, m);
    ms, t := CanReceiveAll(k, Moved(k, s, m));
    EventfreeCons(k, s, m, ms, t);
    ms := [m] + ms;
  }

  // ---------------------------------------------------------------- what has then arrived

  lemma ChildHandsOn(k: Link, s: System, j: nat)
    requires Exact(k, s) && k.config.UnorderedReliable? && AllReceived(k, s) && j < |s.rxs|
    requires !ChildLive(Children(k, s.tasks)[j])
    ensures s.rxs[j].handed == [Children(k, s.tasks)[j].payload]
  {
    hide ObservedOk, Clean, Delivered, Observed, DecodeOnce, InStep, Handed, ChildInv, Fits, Deliverable, EncodeStream,
      Messages, ChildOk;
    var c, r := Children(k, s.tasks)[j], s.rxs[j];
    assert ChildReceived(k, c, r) && ChildOk(k, c, r);
    CleanChild(k, s.tasks, j);
    ObservedChild(k, s.tasks, j);
    ChildReads(k, c, r);
    if r.listening {
      assert Unwritten(k, c) == [] && c.stream + [] == c.stream;
      AllHandedOn(k.id, k.decoderMax, r, c.stream, Sendable(k, c.payload));
    }
  }

  lemma {:induction false} HandedIsAll(rxs: seq<Receiver>, ps: seq<Bytes>)
    requires |rxs| == |ps| && forall j :: 0 <= j < |rxs| ==> rxs[j].handed == [ps[j]]
    ensures Handed(rxs) == multiset(ps)
  {
    if rxs != [] {
      HandedIsAll(rxs[1..], ps[1..]);
      assert ps == [ps[0]] + ps[1..];
    }
  }

  /** When everything is written and everything on the way has been handled, the application has read exactly
      the accepted payloads. */
  lemma ReceivedIsAccepted(k: Link, s: System)
    requires Exact(k, s) && k.config.UnorderedReliable? && AllReceived(k, s) && AllWritten(Observed(k, s.tasks))
    ensures multiset(s.inbox.received) == multiset(Observed(k, s.tasks).accepted)
  {
    hide ObservedOk, Clean, Observed, ChildReceived, PathsOk, Handed, Taken, ChildLive;
    var c := Observed(k, s.tasks);
    SystemChildren(k, s);
    forall j | 0 <= j < |s.rxs| ensures s.rxs[j].handed == [Taken(c)[j]] {
      ChildHandsOn(k, s, j);
    }
    HandedIsAll(s.rxs, Taken(c));
    NoPackets(k.id);
    assert s.inbox.received + [] + [] == s.inbox.received;
    assert multiset(c.queue) == multiset{};
  }

  lemma SystemChildren(k: Link, s: System)
    requires SystemInv(k, s) && k.config.UnorderedReliable?
    ensures var c := Observed(k, s.tasks);
            && |c.children| == |Taken(c)|
            && (forall j :: 0 <= j < |c.children| ==> c.children[j].payload == Taken(c)[j])
            && multiset(c.accepted) == multiset(Taken(c)) + multiset(c.queue)
  {
    hide ObservedOk, Observed, PathsOk, Handed, Taken;
    ChildrenArePayloads(k, s.tasks);
  }

  // ---------------------------------------------------------------- theorems

  lemma ReachedIsExact(k: Link, ms: seq<Move>, s: System)
    requires k.config.UnorderedReliable? && EventfreeMoves(k, START, ms, s)
    ensures Exact(k, s)
  {
    StartInv(k);
    StartIsClean(k);
    hide EventfreeMoves, SystemInv, Clean, Delivered;
    MovesStayExact(k, START, ms, s);
  }

  lemma ExactIsGoing(k: Link, s: System)
    requires Exact(k, s) && k.config.UnorderedReliable?
    ensures Inv(s.tasks) && ObservedOk(k, s.tasks) && Clean(k, s.tasks)
    ensures WillBeServed(s.tasks, Observed(k, s.tasks)) ==> Going(k, s.tasks)
  {
    hide Inv, Clean, Observed, PathsOk, Delivered;
  }

  lemma AcceptedCanArrive(k: Link, s: System) returns (ms: seq<Move>, t: System)
    requires Exact(k, s) && k.config.UnorderedReliable? && Holds(k) && WillBeServed(s.tasks, Observed(k, s.tasks))
    ensures EventfreeMoves(k, s, ms, t) && AllForward(k, ms)
    ensures Exact(k, t) && AllWritten(Observed(k, t.tasks))
    ensures Observed(k, t.tasks).accepted == Observed(k, s.tasks).accepted
    ensures multiset(t.inbox.received) == multiset(Observed(k, s.tasks).accepted)
    ensures exists steps :: WritingRun(k, s.tasks, steps, t.tasks)
  {
    hide EventfreeMoves, Exact, Forward, Writing, Observed, WillBeServed, AllReceived, WritingRun, Going, AllWritten;
    ExactIsGoing(k, s);
    var steps, u := CanWriteAll(k, s.tasks);
    var first, mid := WritingMoves(k, s, steps, u);
    MovesStayExact(k, s, first, mid);
    var more, last := CanReceiveAll(k, mid);
    EventfreeAppend(k, s, first, mid, more, last);
    ReceivedIsAccepted(k, last);
    return first + more, last;
  }

  lemma {:induction false} NeverServed(k: Link, s: System, ms: seq<Move>, t: System)
    requires EventfreeMoves(k, s, ms, t) && Inv(s.tasks)
    requires !s.tasks.spawner.Serving? && k.h < |s.tasks.chans| && s.tasks.chans[k.h].phase.Unserved?
    ensures Observed(k, t.tasks).phase.Unserved? && Observed(k, s.tasks).accepted <= Observed(k, t.tasks).accepted
    decreases |ms|
  {
    hide Inv, Enabled, Apply, EventLoses, HandOnNext, Dispatched, AppRead, ReadBytes, Children;
    if ms != [] {
      if ms[0].Sender? {
        StepKeepsInv(s.tasks, ms[0].step);
        UnservedStaysOnce(s.tasks, ms[0].step, k.h);
        AcceptedStays(k, s.tasks, ms[0].step);
      }
      NeverServed(k, Moved(k, s, ms[0]), ms[1..], t);
    }
  }

  lemma NeverArrives(k: Link, s: System, ms: seq<Move>, t: System)
    requires Exact(k, s) && k.config.UnorderedReliable? && !WillBeServed(s.tasks, Observed(k, s.tasks))
    requires EventfreeMoves(k, s, ms, t)
    ensures t.inbox.received == [] && Observed(k, s.tasks).accepted != []
  {
    hide EventfreeMoves, Clean, PathsOk, Inv;
    MovesStayExact(k, s, ms, t);
    ExactIsGoing(k, s);
    NeverServed(k, s, ms, t);
    ObservedInv(k, s.tasks);
    TakenAndQueue(Observed(k, s.tasks));
    ObservedInv(k, t.tasks);
    UnservedTookNothing(Observed(k, t.tasks));
    hide ChanInv, PayloadsOn, BufferOf, Taken;
    PathsLength(k, Children(k, t.tasks), t.rxs);
    assert |t.inbox.received| <= |Delivered(t.inbox, k.id)|;
    assert |multiset(Delivered(t.inbox, k.id))| == |Delivered(t.inbox, k.id)|;
  }

  /** Progress of both sides: from every state that no losing event has touched, every accepted payload can arrive
      without another event, each exactly once, if and only if somebody still serves the channel in case its
      payloads wait for that. */
  lemma AcceptedCanArriveExactly(k: Link, ms: seq<Move>, s: System)
    requires k.config.UnorderedReliable? && Holds(k) && EventfreeMoves(k, START, ms, s)
    ensures WillBeServed(s.tasks, Observed(k, s.tasks)) <==>
            exists more, t ::
              && EventfreeMoves(k, s, more, t) && AllForward(k, more)
              && multiset(t.inbox.received) == multiset(Observed(k, s.tasks).accepted)
  {
    hide EventfreeMoves, Exact, Forward, Observed, WillBeServed;
    ReachedIsExact(k, ms, s);
    if WillBeServed(s.tasks, Observed(k, s.tasks)) {
      var more, t := AcceptedCanArrive(k, s);
    } else {
      forall more, t | EventfreeMoves(k, s, more, t)
        ensures multiset(t.inbox.received) != multiset(Observed(k, s.tasks).accepted)
      {
        NeverArrives(k, s, more, t);
        assert |multiset(Observed(k, s.tasks).accepted)| == |Observed(k, s.tasks).accepted|;
      }
    }
  }

  // ---------------------------------------------------------------- whole lists of payloads

  /** A state from which any further payload can arrive. */
  ghost predicate Flowing(k: Link, s: System) {
    && Exact(k, s) && Ready(k, s.tasks) && AllWritten(Observed(k, s.tasks))
    && multiset(s.inbox.received) == multiset(Observed(k, s.tasks).accepted)
  }

  lemma OneMoreArrives(k: Link, s: System, p: Bytes) returns (ms: seq<Move>, t: System)
    requires Flowing(k, s) && k.config.UnorderedReliable? && Holds(k) && FitsAndArrives(k, p)
    ensures EventfreeMoves(k, s, ms, t) && Flowing(k, t)
    ensures Observed(k, t.tasks).accepted == Observed(k, s.tasks).accepted + [p]
  {
    hide Exact, Ready, AllWritten, Enabled, Apply, Forward, WillBeServed, FitsAndArrives, SenderEventLoses, Children,
      EventfreeMoves;
    assert k.h < |s.tasks.chans| by { ReadyIsCreated(k, s.tasks); }
    ReadyAccepts(k, s.tasks, p);
    var accept := Sender(Accepts(k.h, p));
    MoveStaysExact(k, s, accept);
    var next := Moved(k, s, accept);
    var more, last := AcceptedCanArrive(k, next);
    var steps :| WritingRun(k, next.tasks, steps, last.tasks);
    WritingStaysReady(k, next.tasks, steps, last.tasks);
    EventfreeCons(k, s, accept, more, last);
    return [accept] + more, last;
  }

  lemma OneSenderMove(k: Link, s: System, a: Step)
    requires Enabled(s.tasks, a) && CreatesObserved(k, s.tasks, a) && !SenderEventLoses(k, s.tasks, a)
    ensures MoveEnabled(k, s, Sender(a)) && EventfreeMoves(k, s, [Sender(a)], Moved(k, s, Sender(a)))
    ensures Moved(k, s, Sender(a)).tasks == Apply(s.tasks, a) && Moved(k, s, Sender(a)).inbox == s.inbox
  {
    hide Enabled, Apply, CreatesObserved, SenderEventLoses, Children;
    var t := Moved(k, s, Sender(a));
    assert EventfreeMoves(k, t, [], t);
    EventfreeCons(k, s, Sender(a), [], t);
    assert [Sender(a)] + [] == [Sender(a)];
  }

  lemma {:induction false} OthersFirst(k: Link, n: nat) returns (ms: seq<Move>, s: System)
    requires n <= k.h
    ensures EventfreeMoves(k, START, ms, s) && Started(s.tasks, n) && Inv(s.tasks) && s.inbox == EMPTY
  {
    if n == 0 {
      assert Inv(INITIAL);
      return [], START;
    }
    hide Started, Enabled, Apply, Inv, CreatesObserved, SenderEventLoses, EventfreeMoves, Moved, MoveEnabled;
    var first, t := OthersFirst(k, n - 1);
    OneMoreStarted(k, t.tasks, n - 1);
    var create := Create(OtherId(k.id), Unreliable);
    OneSenderMove(k, t, create);
    var mid := Moved(k, t, Sender(create));
    StepKeepsInv(t.tasks, create);
    OneSenderMove(k, mid, SpawnsNext);
    StepKeepsInv(mid.tasks, SpawnsNext);
    s := Moved(k, mid, Sender(SpawnsNext));
    EventfreeAppend(k, t, [Sender(create)], mid, [Sender(SpawnsNext)], s);
    EventfreeAppend(k, START, first, t, [Sender(create)] + [Sender(SpawnsNext)], s);
    ms := first + ([Sender(create)] + [Sender(SpawnsNext)]);
  }

  lemma JustCreated(k: Link) returns (ms: seq<Move>, s: System)
    requires k.config.UnorderedReliable?
    ensures EventfreeMoves(k, START, ms, s) && Flowing(k, s) && Observed(k, s.tasks).accepted == []
  {
    var first, t := OthersFirst(k, k.h);
    hide EventfreeMoves, Enabled, Apply, Inv, CreatesObserved, SenderEventLoses, Exact, Ready, Started, Moved,
      MoveEnabled;
    LastCreated(k, t.tasks);
    var create := Create(k.id, k.config);
    OneSenderMove(k, t, create);
    s := Moved(k, t, Sender(create));
    EventfreeAppend(k, START, first, t, [Sender(create)], s);
    ms := first + [Sender(create)];
    ReachedIsExact(k, ms, s);
  }

  lemma {:induction false} ListArrives(k: Link, ps: seq<Bytes>) returns (ms: seq<Move>, s: System)
    requires k.config.UnorderedReliable? && Holds(k) && AllArrive(k, ps)
    ensures EventfreeMoves(k, START, ms, s) && Flowing(k, s) && Observed(k, s.tasks).accepted == ps
    decreases |ps|
  {
    hide EventfreeMoves, FitsAndArrives, Holds, Flowing, Observed;
    if ps == [] {
      ms, s := JustCreated(k);
    } else {
      var n := |ps| - 1;
      assert ps == ps[..n] + [ps[n]];
      var first, mid := ListArrives(k, ps[..n]);
      var more, last := OneMoreArrives(k, mid, ps[n]);
      EventfreeAppend(k, START, first, mid, more, last);
      return first + more, last;
    }
  }

  /** Every list of payloads that the channel can send and the receiver can take does arrive in some run, whichever
      channel of its connection it is: the application reads exactly the payloads that were accepted. */
  lemma EveryListCanArrive(k: Link, ps: seq<Bytes>)
    requires k.config.UnorderedReliable? && Holds(k) && AllArrive(k, ps)
    ensures exists ms, s ::
              && EventfreeMoves(k, START, ms, s)
              && Observed(k, s.tasks).accepted == ps && multiset(s.inbox.received) == multiset(ps)
  {
    hide EventfreeMoves, AllArrive, Holds, Exact, Ready, AllWritten, Observed;
    var ms, s := ListArrives(k, ps);
  }
}
