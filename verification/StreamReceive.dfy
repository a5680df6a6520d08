/** The receiving end of one reliable stream: read a chunk, decode until nothing more comes out,
    split each frame into channel id and payload, and hand it on. */
module StreamReceive {
  import opened Prelude
  import opened Codec

  /** How the receiving task of a stream ends. `Panicked`: reading the id of an empty frame. `Stopped`: by a
      close signal. `Unheard`: it panics because nobody takes the packets any more. */
  datatype Ending = EndOfStream | BytesRemaining | Oversize | Panicked | Stopped | Unheard

  /** What cuts the task short from outside, and when: a close signal before a read, or a close signal or the
      loss of the queue while the task waits to hand on a packet. */
  datatype Cut = Never | BeforeRead(read: nat) | AtPacket(packet: nat, unheard: bool)

  datatype Received = Received(packets: seq<Packet>, ending: Ending)

  /** `decode_incoming_reliable_message`: `get_u8`, then `split_off`. An empty frame panics. */
  function DecodeIncoming(frame: Bytes): (r: Option<Packet>)
    ensures r.None? <==> frame == []
    ensures r.Some? ==> frame == [r.value.channel] + r.value.payload
  {
    if |frame| < CHANNEL_ID_LEN then None else Some(Packet(frame[0], frame[CHANNEL_ID_LEN..]))
  }

  /** What a stream means to its receiver, from one parse of all its bytes. */
  function Receive(s: Bytes, max: nat): Received {
    HandOnAll(Parse(s, max))
  }

  function HandOnAll(p: Parsed): Received {
    HandOn(p.frames, EndingOf(p))
  }

  function EndingOf(p: Parsed): Ending {
    if p.tooBig then Oversize else if p.rest == [] then EndOfStream else BytesRemaining
  }

  function HandOn(frames: seq<Bytes>, ending: Ending): Received {
    if frames == [] then Received([], ending)
    else
      match DecodeIncoming(frames[0])
      case None => Received([], Panicked)
      case Some(packet) => Prepend([packet], HandOn(frames[1..], ending))
  }

  function Prepend(packets: seq<Packet>, r: Received): Received {
    Received(packets + r.packets, r.ending)
  }

  function Flatten(chunks: seq<Bytes>): Bytes {
    if chunks == [] then [] else chunks[0] + Flatten(chunks[1..])
  }

  /** One decode step of a buffer that will be followed by `later` bytes takes the first frame of
      the whole parse. */
  lemma ParseOnce(d: Decoding, later: Bytes, max: nat)
    requires Resumable(d, max)
    ensures var (r, e) := DecodeOnce(d, max);
            var all, next := Parse(Pending(d) + later, max), Parse(Pending(e) + later, max);
            match r
            case Got(f) => all == ConsFrame(f, next)
            case NeedMore => Pending(e) == Pending(d)
            case TooBig => all == Parsed([], Pending(d) + later, true)
  {
    DecodeOnceParses(d, max);
    ParseAppend(Pending(d), later, max);
    var (r, e) := DecodeOnce(d, max);
    if r.Got? {
      ParseAppend(Pending(e), later, max);
      ContinueCons(r.frame, Parse(Pending(e), max), later, max);
    }
    hide Parse, DecodeOnce, Pending;
  }

  lemma ReceiveOnce(d: Decoding, later: Bytes, max: nat)
    requires Resumable(d, max)
    ensures var (r, e) := DecodeOnce(d, max);
            var all := Receive(Pending(d) + later, max);
            match r
            case Got(f) =>
              all == (match DecodeIncoming(f)
                      case None => Received([], Panicked)
                      case Some(packet) => Prepend([packet], Receive(Pending(e) + later, max)))
            case NeedMore => Pending(e) == Pending(d)
            case TooBig => all == Received([], Oversize)
  {
    ParseOnce(d, later, max);
    var (r, e) := DecodeOnce(d, max);
    if r.Got? {
      ReceiveCons(r.frame, Parse(Pending(e) + later, max));
    }
    hide Parse, DecodeOnce, Pending;
  }

  lemma ReceiveCons(frame: Bytes, p: Parsed)
    ensures HandOnAll(ConsFrame(frame, p)) ==
            (match DecodeIncoming(frame)
             case None => Received([], Panicked)
             case Some(packet) => Prepend([packet], HandOnAll(p)))
  {
    assert ([frame] + p.frames)[1..] == p.frames;
  }

  /** A suspended decoder resumes with the bytes of the next read behind its own. */
  lemma ReadChunk(d: Decoding, chunk: Bytes, later: Bytes, max: nat)
    requires Suspended(d, max)
    ensures var e := Decoding(d.state, d.buffer + chunk);
            && Resumable(e, max)
            && Pending(e) + later == Pending(d) + (chunk + later)
  {
    assert Pending(Decoding(d.state, d.buffer + chunk)) == Pending(d) + chunk;
  }

  /** Decodes what the buffer holds. Whatever bytes follow, this takes exactly the front of what
      the receiver makes of the whole stream. Handing on a packet waits while the queue is full: at most
      `allowed` packets are handed on before the task is cut short. */
  method DrainBuffer(decoder: Decoder, buffer: BytesMut, allowed: Option<nat>, cut: Ending, ghost later: Bytes)
    returns (packets: seq<Packet>, stopped: Option<Ending>)
    requires Resumable(decoder.Value(buffer), decoder.maxFrameLen)
    modifies decoder, buffer
    ensures allowed.Some? ==> |packets| <= allowed.value
    ensures var all := old(Receive(Pending(decoder.Value(buffer)) + later, decoder.maxFrameLen));
            match stopped
            case Some(ending) =>
              || ((ending.Panicked? || ending.Oversize?) && all == Received(packets, ending))
              || (allowed == Some(|packets|) && ending == cut && packets < all.packets)
            case None =>
              && Suspended(decoder.Value(buffer), decoder.maxFrameLen)
              && all == Prepend(packets, Receive(Pending(decoder.Value(buffer)) + later, decoder.maxFrameLen))
  {
    hide Parse, DecodeOnce, Pending, PutUint, GetUint, Receive;
    ghost var max := decoder.maxFrameLen;
    ghost var all := Receive(Pending(decoder.Value(buffer)) + later, max);
    packets := [];
    while true
      invariant Resumable(decoder.Value(buffer), max)
      invariant allowed.Some? ==> |packets| <= allowed.value
      invariant all == Prepend(packets, Receive(Pending(decoder.Value(buffer)) + later, max))
      decreases |buffer.data|
    {
      ghost var d := decoder.Value(buffer);
      ReceiveOnce(d, later, max);
      DecodeOnceParses(d, max);
      var decoded := decoder.Decode(buffer);
      match decoded {
        case Got(frame) =>
          var packet := DecodeIncoming(frame);
          if packet.None? {
            return packets, Some(Panicked);
          }
          PrependTwice(packets, [packet.value], Receive(Pending(decoder.Value(buffer)) + later, max));
          if allowed == Some(|packets|) {
            return packets, Some(cut);
          }
          packets := packets + [packet.value];
        case NeedMore =>
          return packets, None;
        case TooBig =>
          return packets, Some(Oversize);
      }
    }
  }

  lemma PrependTwice(a: seq<Packet>, b: seq<Packet>, r: Received)
    ensures Prepend(a, Prepend(b, r)) == Prepend(a + b, r)
  {
    assert a + (b + r.packets) == (a + b) + r.packets;
  }

  /** What the task makes of a stream that arrives in these reads: of all its bytes, of those before the close
      signal, or the front of the packets up to the one that it cannot hand on. */
  function CutReceive(chunks: seq<Bytes>, cut: Cut, max: nat): Received {
    var all := Receive(Flatten(chunks), max);
    match cut
    case Never => all
    case BeforeRead(n) =>
      if n > |chunks| then all
      else
        var front := Receive(Flatten(chunks[..n]), max);
        if front.ending.EndOfStream? || front.ending.BytesRemaining? then Received(front.packets, Stopped) else front
    case AtPacket(n, unheard) =>
      if n < |all.packets| then Received(all.packets[..n], if unheard then Unheard else Stopped) else all
  }

  /** The reads before a close signal. */
  function ReadsBefore(chunks: seq<Bytes>, cut: Cut): seq<Bytes> {
    if cut.BeforeRead? && cut.read <= |chunks| then chunks[..cut.read] else chunks
  }

  /** The task of one stream. Whatever way the bytes are cut into reads, the packets handed on and the way the
      task ends are those of a single parse of the bytes; wherever it is cut short from outside, exactly the
      packets before that. */
  method ReliableStreamReceiver(chunks: seq<Bytes>, cut: Cut) returns (r: Received)
    ensures r == CutReceive(chunks, cut, DEFAULT_MAX_RELIABLE_FRAME_LEN)
  {
    hide Parse, Pending, Suspended, Resumable, Receive;
    var decoder := new Decoder(DEFAULT_MAX_RELIABLE_FRAME_LEN);
    var buffer := new BytesMut();
    var packets: seq<Packet> := [];
    var allowed := if cut.AtPacket? then Some(cut.packet) else None;
    ghost var max, before := decoder.maxFrameLen, ReadsBefore(chunks, cut);
    ghost var all := Receive(Flatten(before), max);
    FreshDecoder(max);
    assert before[0..] == before && [] + Flatten(before) == Flatten(before);
    for i := 0 to |chunks|
      invariant i <= |before|
      invariant allowed.Some? ==> |packets| <= allowed.value
      invariant Suspended(decoder.Value(buffer), max)
      invariant all == Prepend(packets, Receive(Pending(decoder.Value(buffer)) + Flatten(before[i..]), max))
    {
      if cut == BeforeRead(i) {
        EndOfReads(decoder.Value(buffer), max, before, all, packets);
        return Received(packets, Stopped);
      }
      assert before[i..][1..] == before[i + 1..] && before[i] == chunks[i];
      ReadChunk(decoder.Value(buffer), chunks[i], Flatten(before[i + 1..]), max);
      buffer.Extend(chunks[i]);
      var left := if allowed.Some? then Some(allowed.value - |packets|) else None;
      var more, stopped := DrainBuffer(decoder, buffer, left,
                                       if cut.AtPacket? && cut.unheard then Unheard else Stopped,
                                       Flatten(before[i + 1..]));
      if stopped.Some? {
        assert packets + more <= all.packets;
        return Received(packets + more, stopped.value);
      }
      PrependTwice(packets, more, Receive(Pending(decoder.Value(buffer)) + Flatten(before[i + 1..]), max));
      packets := packets + more;
    }
    EndOfReads(decoder.Value(buffer), max, before, all, packets);
    if cut == BeforeRead(|chunks|) {
      return Received(packets, Stopped);
    }
    return Received(packets, if buffer.data == [] then EndOfStream else BytesRemaining);
  }

  lemma FreshDecoder(max: nat)
    ensures Suspended(Decoding(Head, []), max) && Pending(Decoding(Head, [])) == []
  {
  }

  lemma EndOfReads(d: Decoding, max: nat, before: seq<Bytes>, all: Received, packets: seq<Packet>)
    requires Suspended(d, max)
    requires all == Prepend(packets, Receive(Pending(d) + Flatten(before[|before|..]), max))
    ensures all == Received(packets, if d.buffer == [] then EndOfStream else BytesRemaining)
  {
    EndOfChunks(d, max);
    hide Receive, Pending;
    assert Pending(d) + Flatten(before[|before|..]) == Pending(d) && packets + [] == packets;
  }

  lemma EndOfChunks(d: Decoding, max: nat)
    requires Suspended(d, max)
    ensures Receive(Pending(d), max) == Received([], if d.buffer == [] then EndOfStream else BytesRemaining)
  {
    SuspendedIsStuck(d, max);
  }

  // ---------------------------------------------------------------- round trip

  /** The bytes the encoders put on one stream for these messages, in order. */
  function EncodeStream(msgs: seq<Packet>): Bytes {
    if msgs == [] then [] else Frame(msgs[0].channel, msgs[0].payload) + EncodeStream(msgs[1..])
  }

  /** A payload survives a decoder with this limit. */
  predicate Deliverable(payload: Bytes, max: nat) {
    PROTOCOL_HEADER_LEN + |payload| <= max && PROTOCOL_HEADER_LEN + |payload| < LENGTH_FIELD_RANGE
  }

  lemma FrameParts(id: ChannelId, payload: Bytes, rest: Bytes)
    ensures var s := Frame(id, payload) + rest;
            && s[..LENGTH_FIELD_LEN] == PutUint(PROTOCOL_HEADER_LEN + |payload|, LENGTH_FIELD_LEN)
            && s[LENGTH_FIELD_LEN..] == [id] + payload + rest
            && GetUint(s[..LENGTH_FIELD_LEN]) == (PROTOCOL_HEADER_LEN + |payload|) % LENGTH_FIELD_RANGE
  {
    hide PutUint, GetUint;
    var header := PutUint(PROTOCOL_HEADER_LEN + |payload|, LENGTH_FIELD_LEN);
    SplitAfter(header, [id], payload, rest);
    LengthField(PROTOCOL_HEADER_LEN + |payload|);
  }

  lemma SplitAfter(a: Bytes, b: Bytes, c: Bytes, d: Bytes)
    ensures (a + b + c + d)[..|a|] == a
    ensures (a + b + c + d)[|a|..] == b + c + d
  {
    assert a + b + c + d == a + (b + c + d);
  }

  /** The frame that a decoder reads at the front of an encoded message. */
  lemma EncodedFront(m: Packet, rest: Bytes, max: nat)
    ensures var s := Frame(m.channel, m.payload) + rest;
            var n := (PROTOCOL_HEADER_LEN + |m.payload|) % LENGTH_FIELD_RANGE;
            && FirstFrame(s, max) == (if n > max then TooBig else Got(([m.channel] + m.payload)[..n]))
            && s[LENGTH_FIELD_LEN + n..] == ([m.channel] + m.payload)[n..] + rest
  {
    var s := Frame(m.channel, m.payload) + rest;
    FrameParts(m.channel, m.payload, rest);
    hide GetUint, PutUint, Frame;
    var body := [m.channel] + m.payload;
    var n := (PROTOCOL_HEADER_LEN + |m.payload|) % LENGTH_FIELD_RANGE;
    assert s[LENGTH_FIELD_LEN..] == body + rest;
    SliceTwice(s, LENGTH_FIELD_LEN, n);
    assert (body + rest)[..n] == body[..n] && (body + rest)[n..] == body[n..] + rest;
  }

  /** The first packet comes from the first frame. */
  lemma ReceiveFirst(s: Bytes, max: nat)
    ensures match FirstFrame(s, max)
            case Got(f) =>
              Receive(s, max) == (match DecodeIncoming(f)
                                  case None => Received([], Panicked)
                                  case Some(packet) => Prepend([packet], Receive(s[LENGTH_FIELD_LEN + |f|..], max)))
            case TooBig => Receive(s, max) == Received([], Oversize)
            case NeedMore => true
  {
    hide FirstFrame;
    match FirstFrame(s, max)
    case Got(f) => ReceiveCons(f, Parse(s[LENGTH_FIELD_LEN + |f|..], max));
    case _ =>
  }

  /** A deliverable message at the head of an encoded stream is handed on, and the rest follows. */
  lemma DeliverFirst(m: Packet, rest: Bytes, max: nat)
    requires Deliverable(m.payload, max)
    ensures Receive(Frame(m.channel, m.payload) + rest, max) == Prepend([m], Receive(rest, max))
  {
    hide Frame, FirstFrame, Receive, Prepend, Parse;
    var body := [m.channel] + m.payload;
    EncodedFront(m, rest, max);
    assert body[..|body|] == body && body[|body|..] + rest == rest && body[CHANNEL_ID_LEN..] == m.payload;
    ReceiveFirst(Frame(m.channel, m.payload) + rest, max);
  }

  /** Any other message at the head is lost: the first packet is not it. */
  lemma LoseFirst(m: Packet, rest: Bytes, max: nat)
    requires !Deliverable(m.payload, max)
    ensures var r := Receive(Frame(m.channel, m.payload) + rest, max);
            r.packets == [] || r.packets[0] != m
  {
    hide Frame, FirstFrame, Receive, Parse;
    var body := [m.channel] + m.payload;
    var n := (PROTOCOL_HEADER_LEN + |m.payload|) % LENGTH_FIELD_RANGE;
    EncodedFront(m, rest, max);
    ReceiveFirst(Frame(m.channel, m.payload) + rest, max);
    if 0 < n <= max {
      assert n < |body| && |body[..n][CHANNEL_ID_LEN..]| == n - CHANNEL_ID_LEN;
    }
  }

  /** Encoding then decoding gives back exactly the list that was sent, whatever the chunking, if
      and only if every payload plus its id byte is within the decoder's limit and the length
      field. */
  lemma {:induction false} RoundTrip(msgs: seq<Packet>, max: nat)
    ensures Receive(EncodeStream(msgs), max) == Received(msgs, EndOfStream)
            <==> forall m :: m in msgs ==> Deliverable(m.payload, max)
  {
    if msgs != [] {
      hide Frame, Receive;
      var m, rest := msgs[0], msgs[1..];
      RoundTrip(rest, max);
      assert msgs == [m] + rest;
      if Deliverable(m.payload, max) {
        DeliverFirst(m, EncodeStream(rest), max);
        var r := Receive(EncodeStream(rest), max);
        assert ([m] + r.packets)[1..] == r.packets && ([m] + rest)[1..] == rest;
      } else {
        LoseFirst(m, EncodeStream(rest), max);
      }
    }
  }

  /** What one channel may send: its encoder accepts the payload. */
  predicate Accepted(payload: Bytes, encoderMax: nat) {
    |payload| <= encoderMax
  }

  /** Everything an encoder accepts round-trips if and only if the encoder's limit is strictly
      below the decoder's limit and below what the length field holds. */
  lemma LimitsAgree(encoderMax: nat, max: nat)
    ensures (forall payload: Bytes :: Accepted(payload, encoderMax) ==> Deliverable(payload, max))
            <==> encoderMax < max && encoderMax + PROTOCOL_HEADER_LEN < LENGTH_FIELD_RANGE
  {
    var longest: Bytes := seq(encoderMax, _ => 0);
    assert Accepted(longest, encoderMax);
  }

  /** The default configuration is one byte too generous: a payload of exactly the default maximum
      is accepted by the encoder of a default channel and kills the receiving stream. */
  lemma DefaultMaximumIsNotDelivered(id: ChannelId, payload: Bytes, later: seq<Packet>)
    requires |payload| == DEFAULT_MAX_RELIABLE_FRAME_LEN
    ensures Accepted(payload, DEFAULT_MAX_RELIABLE_FRAME_LEN)
    ensures Receive(EncodeStream([Packet(id, payload)] + later), DEFAULT_MAX_RELIABLE_FRAME_LEN) ==
        Received([], Oversize)
  {
    hide Frame, FirstFrame, Receive;
    var msgs := [Packet(id, payload)] + later;
    assert msgs[1..] == later;
    EncodedFront(msgs[0], EncodeStream(later), DEFAULT_MAX_RELIABLE_FRAME_LEN);
    ReceiveFirst(EncodeStream(msgs), DEFAULT_MAX_RELIABLE_FRAME_LEN);
  }

  /** A payload of 2^32 - 1 bytes wraps the length field to zero: the receiver panics. */
  lemma WrappedLengthPanics(id: ChannelId, payload: Bytes, later: seq<Packet>, max: nat)
    requires |payload| == LENGTH_FIELD_RANGE - 1
    ensures Receive(EncodeStream([Packet(id, payload)] + later), max) == Received([], Panicked)
  {
    hide Frame, FirstFrame, Receive;
    var msgs := [Packet(id, payload)] + later;
    assert msgs[1..] == later;
    EncodedFront(msgs[0], EncodeStream(later), max);
    ReceiveFirst(EncodeStream(msgs), max);
  }
}
