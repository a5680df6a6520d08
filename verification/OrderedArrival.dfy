/** What is accepted on an ordered channel can arrive: from every state that no losing event has touched, the
    tasks can write all that is accepted, and the receiving side can hand all that is on the stream to the
    application. */
module OrderedArrival {
  import opened Prelude
  import opened Codec
  import opened StreamReceive
  import opened RecvChannels
  import opened ChannelTask
  import opened ConnectionTasks
  import opened CloseProgress
  import opened Subsequences
  import opened Receivers
  import opened Inboxes
  import opened Links
  import opened Delivery
  import opened ExactDelivery
  import opened WriteProgress

  /** What the receiving side does on its own. */
  predicate Receiving(k: Link, m: Move) {
    m.BytesArrive? || m.DecodeNext? || m.DispatchNext? || m == AppReads(k.id)
  }

  /** What both sides do on their own, without an event from outside. */
  predicate Forward(k: Link, m: Move) {
    Receiving(k, m) || (m.Sender? && Writing(k, m.step))
  }

  lemma {:induction false} EventfreeAppend(k: Link, a: System, first: seq<Move>, b: System, second: seq<Move>,
                                           c: System)
    requires EventfreeMoves(k, a, first, b) && EventfreeMoves(k, b, second, c)
    ensures EventfreeMoves(k, a, first + second, c)
    decreases |first|
  {
    hide MoveEnabled, Moved, EventLoses;
    if first == [] {
      assert first + second == second;
    } else {
      EventfreeAppend(k, Moved(k, a, first[0]), first[1..], b, second, c);
      assert (first + second)[1..] == first[1..] + second;
    }
  }

  // ---------------------------------------------------------------- the send side

  function AsMoves(steps: seq<Step>): (ms: seq<Move>)
    ensures |ms| == |steps| && forall i :: 0 <= i < |ms| ==> ms[i] == Sender(steps[i])
  {
    seq(|steps|, i requires 0 <= i < |steps| => Sender(steps[i]))
  }

  lemma {:induction false} WritingMoves(k: Link, s: System, steps: seq<Step>, u: State)
    requires WritingRun(k, s.tasks, steps, u)
    ensures EventfreeMoves(k, s, AsMoves(steps), s.(tasks := u))
    ensures forall i :: 0 <= i < |steps| ==> Forward(k, AsMoves(steps)[i])
    decreases |steps|
  {
    hide Enabled, Apply, Breaks;
    if steps != [] {
      var next := s.(tasks := Apply(s.tasks, steps[0]));
      WritingMoves(k, next, steps[1..], u);
      assert AsMoves(steps)[1..] == AsMoves(steps[1..]);
      assert Moved(k, s, Sender(steps[0])) == next;
      forall i | 0 <= i < |steps| ensures Forward(k, AsMoves(steps)[i]) {
        if i > 0 {
          assert AsMoves(steps[1..])[i - 1] == AsMoves(steps)[i];
        }
      }
    }
  }

  // ---------------------------------------------------------------- the receiving side

  /** Nothing that has been written is still on its way to the application. */
  predicate AllReceived(k: Link, s: System) {
    && s.inbox.incoming == [] && BufferOf(s.inbox.buffers, k.id) == []
    && (s.rx.listening ==>
          s.rx.arrived == |Observed(k, s.tasks).stream| && !DecodeOnce(s.rx.dec, k.decoderMax).0.Got?)
  }

  /** As long as something is on its way there is a move towards the application. */
  lemma SomethingArrives(k: Link, s: System) returns (m: Move)
    requires Exact(k, s) && Holds(k) && !AllReceived(k, s)
    ensures Receiving(k, m) && MoveEnabled(k, s, m) && !EventLoses(k, s, m)
    ensures m == AppReads(k.id) ==> BufferOf(s.inbox.buffers, k.id) != []
    ensures m.BytesArrive? ==> s.rx.listening && m.n == |Observed(k, s.tasks).stream| - s.rx.arrived > 0
    ensures m.DecodeNext? ==> s.rx.listening && DecodeOnce(s.rx.dec, k.decoderMax).0.Got?
  {
    hide SenderExact, ObservedOk, Sent, Delivered, Subsequence, Observed, DecodeOnce, EncodeStream, Pending,
      Resumable, Ahead, Enabled, SenderEventLoses;
    if BufferOf(s.inbox.buffers, k.id) != [] {
      return AppReads(k.id);
    }
    if s.inbox.incoming != [] {
      assert !NoRoom(s.inbox.buffers, k.cfg, k.id);
      return DispatchNext;
    }
    if s.rx.arrived < |Observed(k, s.tasks).stream| {
      return BytesArrive(|Observed(k, s.tasks).stream| - s.rx.arrived);
    }
    return DecodeNext;
  }

  /** How much is still on its way, in the order in which it is worked off. */
  function BytesLeft(k: Link, s: System): nat {
    if s.rx.listening && s.rx.arrived <= |Observed(k, s.tasks).stream|
    then |Observed(k, s.tasks).stream| - s.rx.arrived else 0
  }

  function PacketsLeft(k: Link, s: System): nat {
    2 * |s.inbox.incoming| + |BufferOf(s.inbox.buffers, k.id)|
  }

  /** Each such move works something off. */
  lemma ArrivalDescends(k: Link, s: System, m: Move)
    requires Exact(k, s) && MoveEnabled(k, s, m) && Receiving(k, m) && NoneWraps(k, s.tasks)
    requires m == AppReads(k.id) ==> BufferOf(s.inbox.buffers, k.id) != []
    requires m.BytesArrive? ==> s.rx.listening && m.n == |Observed(k, s.tasks).stream| - s.rx.arrived > 0
    requires m.DecodeNext? ==> s.rx.listening && DecodeOnce(s.rx.dec, k.decoderMax).0.Got?
    ensures var t := Moved(k, s, m);
            var before, after := Ahead(s.rx, Sent(k, s.tasks)), Ahead(t.rx, Sent(k, t.tasks));
            && t.tasks == s.tasks
            && (BytesLeft(k, t) < BytesLeft(k, s)
                || (BytesLeft(k, t) == BytesLeft(k, s)
                    && (|after| < |before| || (|after| == |before| && PacketsLeft(k, t) < PacketsLeft(k, s)))))
  {
    hide SenderExact, ObservedOk, Delivered, Subsequence, Observed, DecodeOnce, EncodeStream, Pending, Resumable,
      Enabled, BufferOf, Dispatched, AppRead, NoneWraps, Sent, PayloadsOn, Messages;
    InboxShrinks(s.inbox, k.cfg, k.id);
    if m.DecodeNext? {
      SystemReads(k, s);
      SentIsShort(k, s);
      var c := Observed(k, s.tasks);
      HandOnKeeps(k.id, k.decoderMax, s.rx, c.stream, c.buffer, Sent(k, s.tasks));
      HandOnMovesOnly(s.rx, k.decoderMax);
      hide HandOnNext, Reads, InStep;
    }
  }

  lemma OneMove(k: Link, s: System, m: Move)
    requires Exact(k, s) && Clean(k, s.tasks) && MoveEnabled(k, s, m) && !EventLoses(k, s, m)
    ensures Exact(k, Moved(k, s, m)) && Clean(k, Moved(k, s, m).tasks)
  {
    hide Exact, Clean, MoveEnabled, Moved, EventLoses, Loses, NoneWraps;
    CleanNeverWraps(k, s.tasks);
    NothingLost(k, s, m);
    MoveStaysExact(k, s, m);
  }

  /** So all that has been written can reach the application, by the moves of the receiving side alone. */
  lemma {:induction false} CanReceiveAll(k: Link, s: System) returns (ms: seq<Move>, t: System)
    requires Exact(k, s) && Clean(k, s.tasks) && Holds(k)
    ensures EventfreeMoves(k, s, ms, t) && forall i :: 0 <= i < |ms| ==> Receiving(k, ms[i])
    ensures t.tasks == s.tasks && Exact(k, t) && AllReceived(k, t)
    decreases BytesLeft(k, s), |Ahead(s.rx, Sent(k, s.tasks))|, PacketsLeft(k, s)
  {
    hide Exact, Clean, MoveEnabled, Moved, EventLoses, AllReceived, BytesLeft, PacketsLeft, Ahead, Sent, Receiving,
      NoneWraps, Observed, BufferOf, DecodeOnce;
    if AllReceived(k, s) {
      return [], s;
    }
    var m := SomethingArrives(k, s);
    CleanNeverWraps(k, s.tasks);
    ArrivalDescends(k, s, m);
    OneMove(k, s, m);
    ms, t := CanReceiveAll(k, Moved(k, s, m));
    assert ([m] + ms)[1..] == ms;
    ms := [m] + ms;
  }

  // ---------------------------------------------------------------- what has then arrived

  /** The receiver of frames that hold no more than `rest` behind what was handed on. */
  lemma {:induction false} HandedIsReceived(id: ChannelId, ps: seq<Bytes>, rest: Bytes, max: nat)
    requires forall p :: p in ps ==> Deliverable(p, max)
    requires FirstFrame(rest, max).NeedMore?
    ensures Receive(EncodeStream(Messages(id, ps)) + rest, max).packets == Messages(id, ps)
  {
    hide FirstFrame, Frame, Receive, Deliverable;
    if ps == [] {
      assert EncodeStream([]) + rest == rest;
      NothingToParse(rest, max);
    } else {
      var m, more := Packet(id, ps[0]), EncodeStream(Messages(id, ps[1..]));
      assert Messages(id, ps)[1..] == Messages(id, ps[1..]);
      assert (Frame(id, ps[0]) + more) + rest == Frame(id, ps[0]) + (more + rest);
      HandedIsReceived(id, ps[1..], rest, max);
      DeliverFirst(m, more + rest, max);
    }
  }

  lemma NothingToParse(rest: Bytes, max: nat)
    requires FirstFrame(rest, max).NeedMore?
    ensures Receive(rest, max).packets == []
  {
  }

  lemma SentArrives(k: Link, s: System)
    requires k.config.OrderedReliable? && SystemInv(k, s) && Clean(k, s.tasks)
    ensures forall p :: p in Sent(k, s.tasks) ==> Deliverable(p, k.decoderMax)
  {
    hide InStep, Kept, Taken, Observed, Deliverable, Fits, ChanInv, Subsequence, Delivered;
    ObservedInv(k, s.tasks);
    TakenAndQueue(Observed(k, s.tasks));
    CleanArrives(k, s.tasks);
    var c, sent := Observed(k, s.tasks), Sent(k, s.tasks);
    forall p | p in sent ensures Deliverable(p, k.decoderMax) {
      var i :| 0 <= i < |sent| && sent[i] == p;
      KeptMember(k.config, Taken(c), i);
      assert p in c.accepted;
    }
  }

  /** When everything on the way has been handled, the application has read what one parse of the whole stream
      gives, and that is all that was sent once no byte is left in the sender's buffer. */
  lemma ReceivedIsStream(k: Link, s: System)
    requires Exact(k, s) && Clean(k, s.tasks) && AllReceived(k, s)
    ensures var c := Observed(k, s.tasks);
            && s.inbox.received == PayloadsOn(Receive(c.stream, k.decoderMax).packets, k.id)
            && (c.buffer == [] ==> s.inbox.received == Sent(k, s.tasks))
  {
    hide Clean, ObservedOk, SenderUp, Fits, Kept, Observed, EncodeStream, Pending, Resumable, DecodeOnce, Receive,
      Taken, ReceiverAlive, Deliverable, FirstFrame, PayloadsOn;
    var c, handed := Observed(k, s.tasks), s.rx.handed;
    SentArrives(k, s);
    assert s.inbox.received == handed by {
      NoPackets(k.id);
      assert s.inbox.received + [] + [] == s.inbox.received;
    }
    assert forall p :: p in handed ==> p in Sent(k, s.tasks);
    hide Sent;
    MessagesPayloads(k.id, handed);
    if s.rx.listening {
      RestIsNoFrame(k, s);
      assert c.stream[..s.rx.arrived] == c.stream;
      HandedIsReceived(k.id, handed, Pending(s.rx.dec), k.decoderMax);
      if c.buffer == [] {
        NothingAhead(k, s);
      }
    } else {
      StreamIsHanded(k, s);
      NoFrame(k.decoderMax);
      HandedIsReceived(k.id, handed, [], k.decoderMax);
      assert c.stream + [] == c.stream;
    }
  }

  lemma RestIsNoFrame(k: Link, s: System)
    requires Exact(k, s) && Clean(k, s.tasks) && AllReceived(k, s) && s.rx.listening
    ensures FirstFrame(Pending(s.rx.dec), k.decoderMax).NeedMore?
  {
    CleanIsNeverDeaf(k, s);
    DecodeOnceTakesFirst(s.rx.dec, k.decoderMax);
    hide SenderExact, Clean, Observed, Sent, Delivered, Pending, FirstFrame, DecodeOnce, EncodeStream;
  }

  /** With no byte missing, what is pending would be the next frame. */
  lemma NothingAhead(k: Link, s: System)
    requires Exact(k, s) && Clean(k, s.tasks) && AllReceived(k, s) && s.rx.listening
    requires Observed(k, s.tasks).buffer == []
    ensures s.rx.handed == Sent(k, s.tasks)
  {
    SystemReads(k, s);
    SentIsWritten(k, s.tasks);
    SentArrives(k, s);
    RestIsNoFrame(k, s);
    hide SystemInv, Clean, Observed, Delivered, Pending, FirstFrame, DecodeOnce, EncodeStream, Messages, Sent,
      Deliverable, EncodedAll, Fits, Taken, ReceiverAlive;
    var c, sent := Observed(k, s.tasks), Sent(k, s.tasks);
    FramesAhead(k.id, k.decoderMax, s.rx, c.stream, c.buffer, sent);
    assert c.stream[s.rx.arrived..] == [] && Pending(s.rx.dec) + [] + [] == Pending(s.rx.dec);
    var ahead := Ahead(s.rx, sent);
    assert s.rx.handed + ahead == sent;
    if ahead != [] {
      assert ahead[0] in sent;
      FirstIsFrame(k.id, ahead, k.decoderMax);
    }
  }

  lemma StreamIsHanded(k: Link, s: System)
    requires Exact(k, s) && !s.rx.listening
    ensures s.rx.handed == Sent(k, s.tasks)
    ensures Observed(k, s.tasks).stream == EncodeStream(Messages(k.id, s.rx.handed))
  {
    SentIsWritten(k, s.tasks);
    hide InStep, ObservedOk, Observed, Delivered, Subsequence, Sent, EncodeStream, Messages, EncodedAll, Taken, Fits;
    var c := Observed(k, s.tasks);
    assert s.rx.handed + Ahead(s.rx, Sent(k, s.tasks)) == Sent(k, s.tasks);
    assert c.stream + [] == c.stream;
  }

  lemma WrittenIsAccepted(k: Link, s: System)
    requires Exact(k, s) && Observed(k, s.tasks).queue == []
    ensures Sent(k, s.tasks) == Observed(k, s.tasks).accepted
  {
    ObservedInv(k, s.tasks);
    TakenAndQueue(Observed(k, s.tasks));
    KeptSubsequence(k.config, Taken(Observed(k, s.tasks)));
    hide ObservedOk, InStep, Delivered, Subsequence, Observed, Taken, Fits, EncodedAll, ReceiverAlive, Kept;
    var c := Observed(k, s.tasks);
    assert Taken(c) + [] == Taken(c);
  }

  // ---------------------------------------------------------------- theorems

  lemma ReachedIsExact(k: Link, ms: seq<Move>, s: System)
    requires k.config.OrderedReliable? && EventfreeMoves(k, START, ms, s)
    ensures Exact(k, s) && Clean(k, s.tasks) && ObservedOk(k, s.tasks)
  {
    hide EventfreeMoves, Clean;
    StartIsExact(k);
    StartIsClean(k);
    hide Exact;
    EventfreeStaysExact(k, START, ms, s);
    SystemOfExact(k, s);
    SystemObserved(k, s);
  }

  lemma SystemOfExact(k: Link, s: System)
    requires Exact(k, s)
    ensures SystemInv(k, s)
  {
  }

  /** Progress of the receiving side: from every state that no losing event has touched, the arrival of bytes,
      decoding, dispatch and reading alone bring everything that is on the stream to the application. */
  lemma WrittenCanArrive(k: Link, ms: seq<Move>, s: System)
    requires k.config.OrderedReliable? && Holds(k) && EventfreeMoves(k, START, ms, s)
    ensures exists more, t ::
              && EventfreeMoves(k, s, more, t) && (forall i :: 0 <= i < |more| ==> Receiving(k, more[i]))
              && t.tasks == s.tasks
              && t.inbox.received ==
                   PayloadsOn(Receive(Observed(k, s.tasks).stream, k.decoderMax).packets, k.id)
  {
    hide EventfreeMoves, Exact, Clean, Receiving, Receive, PayloadsOn, Observed, Sent, AllReceived;
    ReachedIsExact(k, ms, s);
    var more, t := CanReceiveAll(k, s);
    ReceivedIsStream(k, t);
  }

  /** Progress of both sides: from every state that no losing event has touched, everything that was accepted can
      arrive without another event, one for one and in order, if and only if somebody still serves the channel in
      case its payloads wait for that. */
  lemma AcceptedCanArriveExactly(k: Link, ms: seq<Move>, s: System)
    requires k.config.OrderedReliable? && Holds(k) && EventfreeMoves(k, START, ms, s)
    ensures WillBeServed(s.tasks, Observed(k, s.tasks)) <==>
            exists more, t ::
              && EventfreeMoves(k, s, more, t) && (forall i :: 0 <= i < |more| ==> Forward(k, more[i]))
              && t.inbox.received == Observed(k, s.tasks).accepted
  {
    hide EventfreeMoves, Exact, Clean, Forward, Observed, WillBeServed;
    ReachedIsExact(k, ms, s);
    if WillBeServed(s.tasks, Observed(k, s.tasks)) {
      var more, t := AcceptedCanArrive(k, s);
    } else {
      forall more, t | EventfreeMoves(k, s, more, t) ensures t.inbox.received != Observed(k, s.tasks).accepted {
        NeverArrives(k, s, more, t);
      }
    }
  }

  lemma AcceptedCanArrive(k: Link, s: System) returns (ms: seq<Move>, t: System)
    requires Exact(k, s) && Clean(k, s.tasks) && Holds(k) && WillBeServed(s.tasks, Observed(k, s.tasks))
    ensures EventfreeMoves(k, s, ms, t) && forall i :: 0 <= i < |ms| ==> Forward(k, ms[i])
    ensures Exact(k, t) && Clean(k, t.tasks) && AllWritten(Observed(k, t.tasks))
    ensures t.inbox.received == Observed(k, t.tasks).accepted == Observed(k, s.tasks).accepted
    ensures exists steps :: WritingRun(k, s.tasks, steps, t.tasks)
  {
    hide EventfreeMoves, Clean, Receiving, Writing, Observed, WillBeServed, Sent, AllReceived, SystemInv, SenderExact,
      Delivered, WritingRun, Receive, PayloadsOn, Ahead, SenderUp;
    SystemObserved(k, s);
    assert Going(k, s.tasks) by { ExactIsGoing(k, s); }
    var steps, u := CanWriteAll(k, s.tasks);
    WritingMoves(k, s, steps, u);
    var mid := s.(tasks := u);
    EventfreeStaysExact(k, s, AsMoves(steps), mid);
    var more, last := CanReceiveAll(k, mid);
    EventfreeAppend(k, s, AsMoves(steps), mid, more, last);
    ReceivedIsStream(k, last);
    WrittenIsAccepted(k, last);
    return AsMoves(steps) + more, last;
  }

  lemma ExactIsGoing(k: Link, s: System)
    requires Exact(k, s) && Clean(k, s.tasks) && WillBeServed(s.tasks, Observed(k, s.tasks))
    ensures Going(k, s.tasks)
  {
    hide Clean, ObservedOk, Observed, InStep, Delivered;
  }

  lemma {:induction false} NeverServed(k: Link, s: System, ms: seq<Move>, t: System)
    requires EventfreeMoves(k, s, ms, t) && Inv(s.tasks)
    requires !s.tasks.spawner.Serving? && k.h < |s.tasks.chans| && s.tasks.chans[k.h].phase.Unserved?
    ensures Observed(k, t.tasks).phase.Unserved? && Observed(k, s.tasks).accepted <= Observed(k, t.tasks).accepted
    decreases |ms|
  {
    hide Inv, Enabled, Apply, EventLoses, HandOnNext, Dispatched, AppRead, ReadBytes;
    if ms != [] {
      if ms[0].Sender? {
        StepKeepsInv(s.tasks, ms[0].step);
        UnservedStaysOnce(s.tasks, ms[0].step, k.h);
        AcceptedStays(k, s.tasks, ms[0].step);
      }
      NeverServed(k, Moved(k, s, ms[0]), ms[1..], t);
    }
  }

  lemma NeverArrives(k: Link, s: System, ms: seq<Move>, t: System)
    requires Exact(k, s) && Clean(k, s.tasks) && !WillBeServed(s.tasks, Observed(k, s.tasks))
    requires EventfreeMoves(k, s, ms, t)
    ensures t.inbox.received == [] && Observed(k, s.tasks).accepted != []
  {
    hide EventfreeMoves, Clean, Fits;
    EventfreeStaysExact(k, s, ms, t);
    NeverServed(k, s, ms, t);
    ObservedInv(k, s.tasks);
    TakenAndQueue(Observed(k, s.tasks));
    ObservedInv(k, t.tasks);
    UnservedTookNothing(Observed(k, t.tasks));
    hide ChanInv, Inv, InStep, SenderExact, SenderUp, Ahead, PayloadsOn, BufferOf;
    assert Sent(k, t.tasks) == [];
    assert |t.inbox.received| <= |Delivered(t.inbox, k.id)|;
  }

  // ---------------------------------------------------------------- whole lists of payloads

  /** A state from which any further payload can arrive. */
  ghost predicate Flowing(k: Link, s: System) {
    && Exact(k, s) && Clean(k, s.tasks) && Ready(k, s.tasks) && AllWritten(Observed(k, s.tasks))
    && s.inbox.received == Observed(k, s.tasks).accepted
  }

  lemma OneMoreArrives(k: Link, s: System, p: Bytes) returns (ms: seq<Move>, t: System)
    requires Flowing(k, s) && Holds(k) && FitsAndArrives(k, p)
    ensures EventfreeMoves(k, s, ms, t) && Flowing(k, t)
    ensures t.inbox.received == s.inbox.received + [p]
  {
    hide Exact, Clean, Ready, AllWritten, Enabled, Apply, Forward, WillBeServed, FitsAndArrives, SenderEventLoses;
    assert k.h < |s.tasks.chans| by { ReadyIsCreated(k, s.tasks); }
    ReadyAccepts(k, s.tasks, p);
    var accept := Sender(Accepts(k.h, p));
    OneMove(k, s, accept);
    var next := Moved(k, s, accept);
    ms, t := AcceptedCanArrive(k, next);
    var steps :| WritingRun(k, next.tasks, steps, t.tasks);
    WritingStaysReady(k, next.tasks, steps, t.tasks);
    assert ([accept] + ms)[1..] == ms;
    ms := [accept] + ms;
  }

  lemma {:induction false} OthersFirst(k: Link, n: nat) returns (ms: seq<Move>, t: State)
    requires n <= k.h
    ensures EventfreeMoves(k, START, ms, START.(tasks := t)) && Started(t, n) && Inv(t)
  {
    if n == 0 {
      assert Inv(INITIAL);
      return [], INITIAL;
    }
    hide Started, Enabled, Apply, Inv, CreatesObserved, SenderEventLoses;
    var first, u := OthersFirst(k, n - 1);
    OneMoreStarted(k, u, n - 1);
    var create := Create(OtherId(k.id), Unreliable);
    var mid := Apply(u, create);
    StepKeepsInv(u, create);
    StepKeepsInv(mid, SpawnsNext);
    t := Apply(mid, SpawnsNext);
    TwoSenderMoves(k, START.(tasks := u), create, SpawnsNext);
    EventfreeAppend(k, START, first, START.(tasks := u), [Sender(create), Sender(SpawnsNext)], START.(tasks := t));
    ms := first + [Sender(create), Sender(SpawnsNext)];
  }

  lemma TwoSenderMoves(k: Link, s: System, a: Step, b: Step)
    requires Enabled(s.tasks, a) && CreatesObserved(k, s.tasks, a) && !SenderEventLoses(k, s.tasks, a)
    requires Enabled(Apply(s.tasks, a), b) && CreatesObserved(k, Apply(s.tasks, a), b)
    requires !SenderEventLoses(k, Apply(s.tasks, a), b)
    ensures EventfreeMoves(k, s, [Sender(a), Sender(b)], s.(tasks := Apply(Apply(s.tasks, a), b)))
  {
    hide Enabled, Apply, CreatesObserved, SenderEventLoses;
    var mid, last := s.(tasks := Apply(s.tasks, a)), s.(tasks := Apply(Apply(s.tasks, a), b));
    assert [Sender(a), Sender(b)][1..] == [Sender(b)] && [Sender(b)][1..] == [];
    assert EventfreeMoves(k, last, [], last);
    assert EventfreeMoves(k, mid, [Sender(b)], last);
  }

  lemma OneSenderMove(k: Link, s: System, a: Step)
    requires Enabled(s.tasks, a) && CreatesObserved(k, s.tasks, a) && !SenderEventLoses(k, s.tasks, a)
    ensures EventfreeMoves(k, s, [Sender(a)], s.(tasks := Apply(s.tasks, a)))
  {
    hide Enabled, Apply, CreatesObserved, SenderEventLoses;
    assert [Sender(a)][1..] == [];
    assert EventfreeMoves(k, s.(tasks := Apply(s.tasks, a)), [], s.(tasks := Apply(s.tasks, a)));
  }

  lemma JustCreated(k: Link) returns (ms: seq<Move>, s: System)
    requires k.config.OrderedReliable?
    ensures EventfreeMoves(k, START, ms, s) && Flowing(k, s) && s.inbox.received == []
  {
    var first, t := OthersFirst(k, k.h);
    hide EventfreeMoves, Enabled, Apply, Inv, CreatesObserved, SenderEventLoses, Exact, Clean, Ready, ObservedOk,
      Started;
    LastCreated(k, t);
    var create := Create(k.id, k.config);
    s := START.(tasks := Apply(t, create));
    OneSenderMove(k, START.(tasks := t), create);
    EventfreeAppend(k, START, first, START.(tasks := t), [Sender(create)], s);
    ms := first + [Sender(create)];
    ReachedIsExact(k, ms, s);
  }

  lemma {:induction false} ListArrives(k: Link, ps: seq<Bytes>) returns (ms: seq<Move>, s: System)
    requires k.config.OrderedReliable? && Holds(k) && AllArrive(k, ps)
    ensures EventfreeMoves(k, START, ms, s) && Flowing(k, s) && s.inbox.received == ps
    decreases |ps|
  {
    hide EventfreeMoves, FitsAndArrives, Holds, Flowing;
    if ps == [] {
      ms, s := JustCreated(k);
    } else {
      var n := |ps| - 1;
      assert ps == ps[..n] + [ps[n]];
      var first, mid := ListArrives(k, ps[..n]);
      var more, last := OneMoreArrives(k, mid, ps[n]);
      EventfreeAppend(k, START, first, mid, more, last);
      return first + more, last;
    }
  }

  /** Every list of payloads that the channel can send and the receiver can take does arrive in some run, whichever
      channel of its connection it is: the application reads exactly the payloads that were accepted, in order. */
  lemma EveryListCanArrive(k: Link, ps: seq<Bytes>)
    requires k.config.OrderedReliable? && Holds(k) && AllArrive(k, ps)
    ensures exists ms, s ::
              && EventfreeMoves(k, START, ms, s)
              && Observed(k, s.tasks).accepted == ps && s.inbox.received == ps
  {
    hide EventfreeMoves, AllArrive, Holds, Exact, Clean, Ready, AllWritten, Observed;
    var ms, s := ListArrives(k, ps);
  }
}
