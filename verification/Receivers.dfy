/** The receiving task of one stream as a value, and the stream it reads: arbitrary read boundaries, a
    resumable decoder, and what it has handed on. */
module Receivers {
  import opened Prelude
  import opened Codec
  import opened StreamReceive
  import opened RecvChannels

  /** `arrived` bytes of the stream have reached the task, `dec` is its decoder, `listening` tells whether
      the task still runs, `handed` is the history of the payloads it handed on. */
  datatype Receiver = Receiver(arrived: nat, dec: Decoding, listening: bool, handed: seq<Bytes>)

  const FRESH: Receiver := Receiver(0, Decoding(Head, []), true, [])

  function ReadBytes(r: Receiver, chunk: Bytes): Receiver {
    r.(arrived := r.arrived + |chunk|, dec := Decoding(r.dec.state, r.dec.buffer + chunk))
  }

  /** One decoded frame is split and handed on; a frame over the limit ends the task. */
  function HandOnNext(r: Receiver, max: nat): (Receiver, seq<Packet>) {
    var (d, e) := DecodeOnce(r.dec, max);
    match d
    case Got(f) =>
      (match DecodeIncoming(f)
       case Some(p) => (r.(dec := e, handed := r.handed + [p.payload]), [p])
       case None => (r.(listening := false), []))
    case NeedMore => (r.(dec := e), [])
    case TooBig => (r.(listening := false), [])
  }

  // ---------------------------------------------------------------- messages on the stream

  function Messages(id: ChannelId, ps: seq<Bytes>): seq<Packet> {
    if ps == [] then [] else [Packet(id, ps[0])] + Messages(id, ps[1..])
  }

  lemma {:induction false} MessagesAppend(id: ChannelId, ps: seq<Bytes>, qs: seq<Bytes>)
    ensures Messages(id, ps + qs) == Messages(id, ps) + Messages(id, qs)
  {
    if ps == [] {
      assert ps + qs == qs;
    } else {
      MessagesAppend(id, ps[1..], qs);
      assert (ps + qs)[1..] == ps[1..] + qs;
    }
  }

  lemma {:induction false} EncodeStreamAppend(ms: seq<Packet>, ns: seq<Packet>)
    ensures EncodeStream(ms + ns) == EncodeStream(ms) + EncodeStream(ns)
  {
    hide Frame;
    if ms == [] {
      assert ms + ns == ns;
    } else {
      EncodeStreamAppend(ms[1..], ns);
      assert (ms + ns)[1..] == ms[1..] + ns;
    }
  }

  lemma {:induction false} MessagesPayloads(id: ChannelId, ps: seq<Bytes>)
    ensures PayloadsOn(Messages(id, ps), id) == ps
    ensures forall m :: m in Messages(id, ps) ==> m.payload in ps
  {
    if ps != [] {
      MessagesPayloads(id, ps[1..]);
      assert Messages(id, ps)[1..] == Messages(id, ps[1..]);
    }
  }

  lemma SentGrows(id: ChannelId, handed: seq<Bytes>, p: Bytes)
    ensures EncodeStream(Messages(id, handed + [p])) == EncodeStream(Messages(id, handed)) + Frame(id, p)
  {
    MessagesAppend(id, handed, [p]);
    EncodeStreamAppend(Messages(id, handed), Messages(id, [p]));
    hide Frame;
    assert [p][1..] == [] && Messages(id, [p]) == [Packet(id, p)];
    assert EncodeStream([Packet(id, p)]) == Frame(id, p) + EncodeStream([Packet(id, p)][1..]);
  }

  // ---------------------------------------------------------------- in step with the stream

  /** What arrived is the frames of what was handed on, and the bytes pending in the decoder. */
  predicate InStep(id: ChannelId, max: nat, r: Receiver, stream: Bytes) {
    && r.arrived <= |stream|
    && (r.listening ==>
          && Resumable(r.dec, max)
          && stream[..r.arrived] == EncodeStream(Messages(id, r.handed)) + Pending(r.dec))
  }

  /** The bytes written, and those that the sender can still write, are the frames of a front of `ps`; what
      was handed on is the front of it. */
  ghost predicate Reads(id: ChannelId, max: nat, r: Receiver, stream: Bytes, buffer: Bytes, ps: seq<Bytes>) {
    && InStep(id, max, r, stream)
    && r.handed <= ps
    && stream + buffer <= EncodeStream(Messages(id, ps))
  }

  /** No length of these payloads wraps. */
  predicate Short(ps: seq<Bytes>) {
    forall i :: 0 <= i < |ps| ==> PROTOCOL_HEADER_LEN + |ps[i]| < LENGTH_FIELD_RANGE
  }

  /** The payloads that have not been handed on. */
  function Ahead(r: Receiver, ps: seq<Bytes>): seq<Bytes> {
    if |r.handed| <= |ps| then ps[|r.handed|..] else []
  }

  lemma FrontOfFront(a: Bytes, b: Bytes, n: nat)
    requires a <= b && n <= |a|
    ensures b[..n] == a[..n]
  {
  }

  lemma PendingGrows(d: Decoding, chunk: Bytes)
    ensures Pending(Decoding(d.state, d.buffer + chunk)) == Pending(d) + chunk
  {
    hide PutUint;
  }

  /** What the decoder finds at the front of a stream of frames, whole or cut short. */
  lemma NextFrame(id: ChannelId, rest: seq<Bytes>, s: Bytes, max: nat)
    requires s <= EncodeStream(Messages(id, rest)) && FirstFrame(s, max).Got?
    requires forall i :: 0 <= i < |rest| ==> PROTOCOL_HEADER_LEN + |rest[i]| < LENGTH_FIELD_RANGE
    ensures rest != [] && FirstFrame(s, max) == Got([id] + rest[0])
  {
    hide FirstFrame, Frame;
    var all := EncodeStream(Messages(id, rest));
    assert all == s + all[|s|..];
    FirstFrameAppend(s, all[|s|..], max);
    NoFrame(max);
    if rest != [] {
      var m := Packet(id, rest[0]);
      var later := EncodeStream(Messages(id, rest[1..]));
      assert Messages(id, rest)[1..] == Messages(id, rest[1..]);
      assert all == Frame(id, rest[0]) + later;
      EncodedFront(m, later, max);
      var body := [id] + rest[0];
      assert body[..|body|] == body;
    }
  }

  lemma NoFrame(max: nat)
    ensures FirstFrame([], max) == NeedMore
  {
  }

  lemma CutFront(a: Bytes, b: Bytes, whole: Bytes, x: Bytes)
    requires a + x <= whole && whole == a + b
    ensures x <= b && (a + x == whole <==> x == b)
  {
    assert (a + x)[|a|..] == x && whole[|a|..] == b;
    assert x == whole[|a|..][..|x|];
  }

  lemma Regroup(done: Bytes, pending: Bytes, stream: Bytes, arrived: nat, buffer: Bytes)
    requires arrived <= |stream| && stream[..arrived] == done + pending
    ensures stream + buffer == done + (pending + stream[arrived..] + buffer)
  {
    assert stream == stream[..arrived] + stream[arrived..];
  }

  lemma FrameIs(id: ChannelId, p: Bytes)
    ensures Frame(id, p) == PutUint(|[id] + p|, LENGTH_FIELD_LEN) + ([id] + p)
  {
    hide PutUint;
  }

  /** The frame that one decode takes, in the pending bytes. */
  lemma FrameOf(d: Decoding, max: nat)
    requires Resumable(d, max)
    ensures var (r, e) := DecodeOnce(d, max);
            && r == FirstFrame(Pending(d), max)
            && (r.Got? ==>
                  Pending(d) == PutUint(|r.frame|, LENGTH_FIELD_LEN) + r.frame + Pending(e) && Resumable(e, max))
  {
    DecodeOnceTakesFirst(d, max);
    DecodeOnceParses(d, max);
    hide Parse, FirstFrame, PutUint;
  }

  lemma FreshInStep(id: ChannelId, max: nat, stream: Bytes)
    ensures InStep(id, max, FRESH, stream)
  {
    assert Messages(id, []) == [] && EncodeStream([]) == [];
  }

  lemma InStepGrows(id: ChannelId, max: nat, r: Receiver, a: Bytes, b: Bytes)
    requires InStep(id, max, r, a) && a <= b
    ensures InStep(id, max, r, b)
  {
    hide EncodeStream, Pending, Resumable;
    FrontOfFront(a, b, r.arrived);
  }

  lemma ReadStaysInStep(id: ChannelId, max: nat, r: Receiver, stream: Bytes, n: nat)
    requires InStep(id, max, r, stream) && r.listening && r.arrived + n <= |stream|
    ensures InStep(id, max, ReadBytes(r, stream[r.arrived..r.arrived + n]), stream)
  {
    hide EncodeStream, PutUint, Messages;
    var chunk := stream[r.arrived..r.arrived + n];
    var sent := EncodeStream(Messages(id, r.handed));
    PendingGrows(r.dec, chunk);
    assert stream[..r.arrived + n] == stream[..r.arrived] + chunk;
    hide Pending;
    assert sent + (Pending(r.dec) + chunk) == (sent + Pending(r.dec)) + chunk;
  }

  /** Decoder, stream and send buffer hold the frames of the payloads ahead, in order; they may be cut short. */
  lemma FramesAhead(id: ChannelId, max: nat, r: Receiver, stream: Bytes, buffer: Bytes, ps: seq<Bytes>)
    requires Reads(id, max, r, stream, buffer, ps) && r.listening
    ensures var left := Pending(r.dec) + stream[r.arrived..] + buffer;
            && left <= EncodeStream(Messages(id, Ahead(r, ps)))
            && (stream + buffer == EncodeStream(Messages(id, ps)) <==> left == EncodeStream(Messages(id, Ahead(r, ps))))
  {
    hide EncodeStream, PutUint, Pending, Messages, Resumable;
    var done, ahead := EncodeStream(Messages(id, r.handed)), EncodeStream(Messages(id, Ahead(r, ps)));
    assert ps == r.handed + Ahead(r, ps);
    MessagesAppend(id, r.handed, Ahead(r, ps));
    EncodeStreamAppend(Messages(id, r.handed), Messages(id, Ahead(r, ps)));
    hide Ahead;
    Regroup(done, Pending(r.dec), stream, r.arrived, buffer);
    CutFront(done, ahead, done + ahead, Pending(r.dec) + stream[r.arrived..] + buffer);
  }

  lemma PrefixOfConcat(a: Bytes, b: Bytes, c: Bytes)
    ensures a <= a + b + c
  {
  }

  /** What one decode hands on is the next payload ahead. */
  lemma NextHandedOn(id: ChannelId, max: nat, r: Receiver, stream: Bytes, buffer: Bytes, ps: seq<Bytes>)
    requires Reads(id, max, r, stream, buffer, ps) && r.listening && Short(ps) && DecodeOnce(r.dec, max).0.Got?
    ensures Ahead(r, ps) != [] && DecodeOnce(r.dec, max).0 == Got([id] + Ahead(r, ps)[0])
    ensures Pending(r.dec) == Frame(id, Ahead(r, ps)[0]) + Pending(DecodeOnce(r.dec, max).1)
    ensures Resumable(DecodeOnce(r.dec, max).1, max)
  {
    FramesAhead(id, max, r, stream, buffer, ps);
    hide EncodeStream, PutUint, Pending, Messages, FirstFrame, DecodeOnce, Parse, Resumable;
    FrameOf(r.dec, max);
    PrefixOfConcat(Pending(r.dec), stream[r.arrived..], buffer);
    NextFrame(id, Ahead(r, ps), Pending(r.dec), max);
    FrameIs(id, Ahead(r, ps)[0]);
  }

  /** The task with one more payload handed on. */
  function HandedOn(r: Receiver, dec: Decoding, p: Bytes): Receiver {
    r.(dec := dec, handed := r.handed + [p])
  }

  lemma HandOnIs(id: ChannelId, max: nat, r: Receiver, p: Bytes)
    requires DecodeOnce(r.dec, max).0 == Got([id] + p)
    ensures HandOnNext(r, max) == (HandedOn(r, DecodeOnce(r.dec, max).1, p), [Packet(id, p)])
  {
    hide DecodeOnce;
    assert ([id] + p)[1..] == p;
  }

  lemma HandedOnInStep(id: ChannelId, max: nat, r: Receiver, stream: Bytes, dec: Decoding, p: Bytes)
    requires InStep(id, max, r, stream) && r.listening && Resumable(dec, max)
    requires Pending(r.dec) == Frame(id, p) + Pending(dec)
    ensures InStep(id, max, HandedOn(r, dec, p), stream)
  {
    SentGrows(id, r.handed, p);
    hide EncodeStream, Pending, Frame, Resumable, Messages;
    var sent, frame := EncodeStream(Messages(id, r.handed)), Frame(id, p);
    assert sent + (frame + Pending(dec)) == (sent + frame) + Pending(dec);
  }

  /** One decode keeps the task in step, and hands on the next payload ahead or nothing. */
  lemma HandOnKeeps(id: ChannelId, max: nat, r: Receiver, stream: Bytes, buffer: Bytes, ps: seq<Bytes>)
    requires Reads(id, max, r, stream, buffer, ps) && r.listening && Short(ps)
    ensures var (t, packets) := HandOnNext(r, max);
            && Reads(id, max, t, stream, buffer, ps)
            && (if DecodeOnce(r.dec, max).0.Got? then
                  && Ahead(r, ps) != [] && t.listening
                  && t.handed == r.handed + [Ahead(r, ps)[0]] && packets == [Packet(id, Ahead(r, ps)[0])]
                else t.handed == r.handed && packets == [])
  {
    if DecodeOnce(r.dec, max).0.Got? {
      NextHandedOn(id, max, r, stream, buffer, ps);
      hide EncodeStream, Pending, Frame, DecodeOnce, HandOnNext, Resumable, Messages;
      var e, p := DecodeOnce(r.dec, max).1, Ahead(r, ps)[0];
      HandOnIs(id, max, r, p);
      HandedOnInStep(id, max, r, stream, e, p);
    } else {
      DecodeOnceParses(r.dec, max);
      hide EncodeStream, Pending, DecodeOnce, Messages, Parse;
    }
  }

  lemma HandOnMovesOnly(r: Receiver, max: nat)
    ensures HandOnNext(r, max).0.arrived == r.arrived
  {
    hide DecodeOnce;
  }

  // ---------------------------------------------------------------- what can still be received

  /** The bytes that can still become payloads: in the decoder, in the stream, in the sender's buffer. */
  function BytesOnTheWay(r: Receiver, stream: Bytes, buffer: Bytes): Bytes {
    if !r.listening || r.arrived > |stream| then [] else Pending(r.dec) + stream[r.arrived..] + buffer
  }

  /** The payloads that one parse of these bytes gives. */
  function OnTheWay(id: ChannelId, r: Receiver, stream: Bytes, buffer: Bytes): seq<Bytes> {
    PayloadsOn(Receive(BytesOnTheWay(r, stream, buffer), LENGTH_FIELD_RANGE).packets, id)
  }

  lemma {:induction false} HandOnPrefix(fs: seq<Bytes>, e: Ending, gs: seq<Bytes>, e2: Ending)
    ensures HandOn(fs, e).packets <= HandOn(fs + gs, e2).packets
  {
    if fs != [] {
      HandOnPrefix(fs[1..], e, gs, e2);
      assert (fs + gs)[1..] == fs[1..] + gs;
    }
  }

  /** A stream that is cut short gives a prefix of the packets. */
  lemma ReceivePrefix(s: Bytes, t: Bytes, max: nat)
    ensures Receive(s, max).packets <= Receive(s + t, max).packets
  {
    ParseAppend(s, t, max);
    hide Parse;
    var p, q := Parse(s, max), Parse(s + t, max);
    assert p.frames <= q.frames;
    assert q.frames == p.frames + q.frames[|p.frames|..];
    HandOnPrefix(p.frames, EndingOf(p), q.frames[|p.frames|..], EndingOf(q));
  }

  /** Parsing a front of the frames of `ps` gives back a front of `ps`, and all of it for all of them. */
  lemma ParseBack(id: ChannelId, ps: seq<Bytes>, s: Bytes)
    requires s <= EncodeStream(Messages(id, ps))
    requires forall i :: 0 <= i < |ps| ==> PROTOCOL_HEADER_LEN + |ps[i]| < LENGTH_FIELD_RANGE
    ensures var r := PayloadsOn(Receive(s, LENGTH_FIELD_RANGE).packets, id);
            r <= ps && (s == EncodeStream(Messages(id, ps)) ==> r == ps)
  {
    hide EncodeStream, Receive;
    var ms := Messages(id, ps);
    MessagesPayloads(id, ps);
    RoundTrip(ms, LENGTH_FIELD_RANGE);
    var all := EncodeStream(ms);
    assert all == s + all[|s|..];
    ReceivePrefix(s, all[|s|..], LENGTH_FIELD_RANGE);
    var front := Receive(s, LENGTH_FIELD_RANGE).packets;
    assert ms == front + ms[|front|..];
    PayloadsOnAppend(front, ms[|front|..], id);
  }

  lemma NothingToReceive(id: ChannelId)
    ensures PayloadsOn(Receive([], LENGTH_FIELD_RANGE).packets, id) == []
  {
    NoFrame(LENGTH_FIELD_RANGE);
  }

  /** What can still be received is a front of what is ahead, and all of it when no byte is missing. */
  lemma WayIsAhead(id: ChannelId, max: nat, r: Receiver, stream: Bytes, buffer: Bytes, ps: seq<Bytes>)
    requires Reads(id, max, r, stream, buffer, ps) && Short(ps)
    ensures OnTheWay(id, r, stream, buffer) <= Ahead(r, ps)
    ensures r.listening && stream + buffer == EncodeStream(Messages(id, ps)) ==>
              OnTheWay(id, r, stream, buffer) == Ahead(r, ps)
    ensures !r.listening ==> OnTheWay(id, r, stream, buffer) == []
  {
    if r.listening {
      FramesAhead(id, max, r, stream, buffer, ps);
      hide EncodeStream, Pending, Messages, Receive, PayloadsOn;
      ParseBack(id, Ahead(r, ps), BytesOnTheWay(r, stream, buffer));
    } else {
      NothingToReceive(id);
    }
  }

  /** A receiver whose pending bytes are the front of deliverable frames meets none over its limit. */
  lemma NeverTooBig(id: ChannelId, rest: seq<Bytes>, s: Bytes, max: nat)
    requires s <= EncodeStream(Messages(id, rest))
    requires forall i :: 0 <= i < |rest| ==> Deliverable(rest[i], max)
    ensures !FirstFrame(s, max).TooBig?
  {
    hide FirstFrame, Frame;
    var all := EncodeStream(Messages(id, rest));
    assert all == s + all[|s|..];
    NoFrame(max);
    if FirstFrame(s, max).TooBig? {
      FirstFrameAppend(s, all[|s|..], max);
      if rest != [] {
        assert Messages(id, rest)[1..] == Messages(id, rest[1..]);
        EncodedFront(Packet(id, rest[0]), EncodeStream(Messages(id, rest[1..])), max);
      }
    }
  }

  predicate AllDeliverable(ps: seq<Bytes>, max: nat) {
    forall p :: p in ps ==> Deliverable(p, max)
  }

  lemma DeliverableIsShort(ps: seq<Bytes>, max: nat)
    requires AllDeliverable(ps, max)
    ensures Short(ps)
  {
    assert forall i :: 0 <= i < |ps| ==> ps[i] in ps;
  }

  lemma FirstIsFrame(id: ChannelId, ps: seq<Bytes>, max: nat)
    requires ps != [] && Deliverable(ps[0], max)
    ensures FirstFrame(EncodeStream(Messages(id, ps)), max).Got?
  {
    hide FirstFrame, Frame;
    assert Messages(id, ps)[1..] == Messages(id, ps[1..]);
    EncodedFront(Packet(id, ps[0]), EncodeStream(Messages(id, ps[1..])), max);
  }

  /** A task that has all bytes of these frames and finds no frame has handed on all of them. */
  lemma AllHandedOn(id: ChannelId, max: nat, r: Receiver, stream: Bytes, ps: seq<Bytes>)
    requires Reads(id, max, r, stream, [], ps) && r.listening && AllDeliverable(ps, max)
    requires stream == EncodeStream(Messages(id, ps)) && r.arrived == |stream|
    requires !DecodeOnce(r.dec, max).0.Got?
    ensures r.handed == ps
  {
    FramesAhead(id, max, r, stream, [], ps);
    DecodeOnceTakesFirst(r.dec, max);
    hide EncodeStream, Pending, Messages, FirstFrame, DecodeOnce, Deliverable;
    assert stream[r.arrived..] == [] && Pending(r.dec) + [] + [] == Pending(r.dec) && stream + [] == stream;
    var ahead := Ahead(r, ps);
    assert r.handed + ahead == ps;
    if ahead != [] {
      assert ahead[0] in ps;
      FirstIsFrame(id, ahead, max);
    }
  }

  /** Decoding deliverable payloads never ends the task. */
  lemma NeverDeaf(id: ChannelId, max: nat, r: Receiver, stream: Bytes, buffer: Bytes, ps: seq<Bytes>)
    requires Reads(id, max, r, stream, buffer, ps) && r.listening && AllDeliverable(ps, max)
    ensures HandOnNext(r, max).0.listening
  {
    DeliverableIsShort(ps, max);
    HandOnKeeps(id, max, r, stream, buffer, ps);
    FramesAhead(id, max, r, stream, buffer, ps);
    DecodeOnceTakesFirst(r.dec, max);
    hide EncodeStream, Pending, Messages, FirstFrame, DecodeOnce;
    PrefixOfConcat(Pending(r.dec), stream[r.arrived..], buffer);
    NeverTooBig(id, Ahead(r, ps), Pending(r.dec), max);
  }
}
