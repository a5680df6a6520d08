/** The framing codec of the reliable channels: a 4-byte big-endian length (channel id plus
    payload), the channel id, the payload. The decoder is a resumable two-state machine over a
    buffer that grows as the stream is read. */
module Codec {
  import opened Prelude

  const CHANNEL_ID_LEN: nat := 1
  const PROTOCOL_HEADER_LEN: nat := CHANNEL_ID_LEN
  const LENGTH_FIELD_LEN: nat := 4
  const TOTAL_HEADER_LEN: nat := LENGTH_FIELD_LEN + PROTOCOL_HEADER_LEN
  const DEFAULT_MAX_RELIABLE_FRAME_LEN: nat := 8 * 1024 * 1024
  /** The first length that does not fit the length field. */
  const LENGTH_FIELD_RANGE: nat := 0x1_0000_0000

  // ---------------------------------------------------------------- big-endian integers

  function Pow256(k: nat): (p: nat)
    ensures p > 0
  {
    if k == 0 then 1 else 256 * Pow256(k - 1)
  }

  /** `put_uint(n, nbytes)`: the low `nbytes` bytes of `n`, most significant first. */
  function PutUint(n: nat, nbytes: nat): (s: Bytes)
    ensures |s| == nbytes
  {
    if nbytes == 0 then [] else PutUint(n / 256, nbytes - 1) + [n % 256]
  }

  /** `get_uint`. */
  function GetUint(s: Bytes): nat {
    if s == [] then 0 else GetUint(s[..|s| - 1]) * 256 + s[|s| - 1]
  }

  lemma ModSplit(n: nat, p: nat)
    requires p > 0
    ensures n / 256 % p * 256 + n % 256 == n % (256 * p)
  {
    var q := n / 256;
    var a, b := q / p, q % p;
    var r := b * 256 + n % 256;
    assert q == a * p + b;
    assert n == q * 256 + n % 256;
    assert n == (a * p) * 256 + r;
    assert (a * p) * 256 == a * (256 * p);
    assert 0 <= r < 256 * p by {
      assert (b + 1) * 256 <= p * 256;
    }
    ModUnique(n, a, 256 * p, r);
  }

  lemma ModUnique(n: nat, a: nat, m: nat, r: nat)
    requires m > 0 && n == a * m + r && r < m
    ensures n % m == r
  {
    var d := n / m - a;
    assert n == m * (n / m) + n % m;
    assert m * (n / m) - a * m == m * d;
    assert m * d == r - n % m;
    MultipleOrZero(m, d);
  }

  lemma MultipleOrZero(m: nat, d: int)
    ensures d == 0 || m * d >= m || m * d + m <= 0
  {
    if d >= 1 {
      assert m * d == m + m * (d - 1);
    } else if d <= -1 {
      assert m * d + m == m * (d + 1);
    }
  }

  /** Reading back what was written gives the integer modulo the width of the field. */
  lemma {:induction false} GetPutUint(n: nat, nbytes: nat)
    ensures GetUint(PutUint(n, nbytes)) == n % Pow256(nbytes)
  {
    if nbytes > 0 {
      GetPutUint(n / 256, nbytes - 1);
      var s := PutUint(n, nbytes);
      assert s[..|s| - 1] == PutUint(n / 256, nbytes - 1);
      ModSplit(n, Pow256(nbytes - 1));
    }
  }

  lemma {:induction false} PutGetUint(s: Bytes)
    ensures PutUint(GetUint(s), |s|) == s
  {
    if s != [] {
      PutGetUint(s[..|s| - 1]);
      assert GetUint(s) / 256 == GetUint(s[..|s| - 1]);
      assert s == s[..|s| - 1] + [s[|s| - 1]];
    }
  }

  lemma {:induction false} GetUintBound(s: Bytes)
    ensures GetUint(s) < Pow256(|s|)
  {
    if s != [] {
      GetUintBound(s[..|s| - 1]);
      assert (GetUint(s[..|s| - 1]) + 1) * 256 <= Pow256(|s| - 1) * 256;
    }
  }

  /** The bytes of a field are the base-256 digits of the integer, the most significant first. */
  lemma {:induction false} PutUintBytes(n: nat, nbytes: nat, i: nat)
    requires i < nbytes
    ensures PutUint(n, nbytes)[i] == n / Pow256(nbytes - 1 - i) % 256
  {
    if i < nbytes - 1 {
      PutUintBytes(n / 256, nbytes - 1, i);
      DivTwice(n, Pow256(nbytes - 2 - i));
    } else {
      assert Pow256(0) == 1;
    }
  }

  lemma DivTwice(n: nat, p: nat)
    requires p > 0
    ensures n / 256 / p == n / (256 * p)
  {
    var a := n / 256 / p;
    var m, r := 256 * p, n / 256 % p * 256 + n % 256;
    ModSplit(n, p);
    assert n / 256 == p * a + n / 256 % p;
    assert n == (p * a) * 256 + r;
    assert (p * a) * 256 == m * a;
    assert n == m * (n / m) + n % m;
    assert m * (n / m - a) == m * (n / m) - m * a;
    MultipleOrZero(m, n / m - a);
  }

  /** Read from the front, each byte weighs as much as all that follow can hold. */
  lemma {:induction false} GetUintFront(b: byte, s: Bytes)
    ensures GetUint([b] + s) == b * Pow256(|s|) + GetUint(s)
    decreases |s|
  {
    if s == [] {
      assert [b] + s == [b] && [b][..0] == [] && GetUint([b]) == GetUint([]) * 256 + b;
    } else {
      var front, last := s[..|s| - 1], s[|s| - 1];
      GetUintFront(b, front);
      assert ([b] + s)[..|s|] == [b] + front;
      assert GetUint([b] + s) == GetUint([b] + front) * 256 + last;
      assert (b * Pow256(|front|)) * 256 == b * Pow256(|s|);
    }
  }

  /** The four bytes of the length field. */
  lemma LengthBytes(n: nat)
    ensures PutUint(n, LENGTH_FIELD_LEN) ==
            [n / 0x100_0000 % 256, n / 0x1_0000 % 256, n / 0x100 % 256, n % 256]
  {
    assert Pow256(0) == 1 && Pow256(1) == 0x100 && Pow256(2) == 0x1_0000 && Pow256(3) == 0x100_0000;
    PutUintBytes(n, 4, 0);
    PutUintBytes(n, 4, 1);
    PutUintBytes(n, 4, 2);
    PutUintBytes(n, 4, 3);
  }

  lemma LengthField(n: nat)
    ensures GetUint(PutUint(n, LENGTH_FIELD_LEN)) == n % LENGTH_FIELD_RANGE
  {
    GetPutUint(n, LENGTH_FIELD_LEN);
    assert Pow256(4) == 256 * Pow256(3) == 65536 * Pow256(2) == LENGTH_FIELD_RANGE;
  }

  lemma HeaderValue(s: Bytes)
    requires |s| == LENGTH_FIELD_LEN
    ensures GetUint(s) < LENGTH_FIELD_RANGE
    ensures PutUint(GetUint(s), LENGTH_FIELD_LEN) == s
  {
    GetUintBound(s);
    PutGetUint(s);
    assert Pow256(4) == 256 * Pow256(3) == 65536 * Pow256(2) == LENGTH_FIELD_RANGE;
  }

  // ---------------------------------------------------------------- buffers and encoder

  /** A growable byte buffer that is advanced, split and appended in place. */
  class BytesMut {
    var data: Bytes

    constructor ()
      ensures data == []
    {
      data := [];
    }

    method Extend(s: Bytes)
      modifies this
      ensures data == old(data) + s
    {
      data := data + s;
    }

    method SplitTo(n: nat) returns (front: Bytes)
      requires n <= |data|
      modifies this
      ensures front == old(data)[..n] && data == old(data)[n..]
    {
      front, data := data[..n], data[n..];
    }
  }

  /** The bytes that carry one payload on a stream of channel `id`. */
  function Frame(id: ChannelId, payload: Bytes): (s: Bytes)
    ensures |s| == TOTAL_HEADER_LEN + |payload|
  {
    PutUint(PROTOCOL_HEADER_LEN + |payload|, LENGTH_FIELD_LEN) + [id] + payload
  }

  datatype CodecError = FrameTooBig

  class Encoder {
    const rawChannelId: ChannelId
    const maxFrameLen: nat

    constructor (rawChannelId: ChannelId, maxFrameLen: nat)
      ensures this.rawChannelId == rawChannelId && this.maxFrameLen == maxFrameLen
    {
      this.rawChannelId, this.maxFrameLen := rawChannelId, maxFrameLen;
    }

    /** Refuses a payload over the limit and leaves the buffer alone; otherwise appends a frame. */
    method Encode(frame: Bytes, dst: BytesMut) returns (r: Result<(), CodecError>)
      modifies dst
      ensures r.Ok? <==> |frame| <= maxFrameLen
      ensures dst.data == old(dst.data) + if r.Ok? then Frame(rawChannelId, frame) else []
      ensures var n := PROTOCOL_HEADER_LEN + |frame|;
              r.Ok? ==>
                dst.data == old(dst.data) +
                            [n / 0x100_0000 % 256, n / 0x1_0000 % 256, n / 0x100 % 256, n % 256, rawChannelId] + frame
    {
      if |frame| > maxFrameLen {
        return Err(FrameTooBig);
      }
      dst.Extend(PutUint(PROTOCOL_HEADER_LEN + |frame|, LENGTH_FIELD_LEN));
      dst.Extend([rawChannelId]);
      dst.Extend(frame);
      LengthBytes(PROTOCOL_HEADER_LEN + |frame|);
      return Ok(());
    }
  }

  // ---------------------------------------------------------------- reference parser

  /** The frames at the front of a byte stream, what is left, and whether the rest starts with a
      header over the limit. */
  datatype Parsed = Parsed(frames: seq<Bytes>, rest: Bytes, tooBig: bool)

  datatype Decoded = Got(frame: Bytes) | NeedMore | TooBig

  /** The frame at the very front of a stream, if it is complete and within the limit. */
  function FirstFrame(s: Bytes, max: nat): (r: Decoded)
    ensures r.Got? ==> LENGTH_FIELD_LEN + |r.frame| <= |s|
  {
    if |s| < TOTAL_HEADER_LEN then NeedMore
    else
      var n := GetUint(s[..LENGTH_FIELD_LEN]);
      if n > max then TooBig
      else if |s| - LENGTH_FIELD_LEN < n then NeedMore
      else Got(s[LENGTH_FIELD_LEN..LENGTH_FIELD_LEN + n])
  }

  /** One recursive parse of a whole stream: the meaning of the resumable decoder. */
  function Parse(s: Bytes, max: nat): Parsed
    decreases |s|
  {
    match FirstFrame(s, max)
    case NeedMore => Parsed([], s, false)
    case TooBig => Parsed([], s, true)
    case Got(f) => ConsFrame(f, Parse(s[LENGTH_FIELD_LEN + |f|..], max))
  }

  function ConsFrame(frame: Bytes, p: Parsed): Parsed {
    Parsed([frame] + p.frames, p.rest, p.tooBig)
  }

  lemma FirstFrameAppend(s: Bytes, t: Bytes, max: nat)
    requires !FirstFrame(s, max).NeedMore?
    ensures FirstFrame(s + t, max) == FirstFrame(s, max)
  {
    assert (s + t)[..LENGTH_FIELD_LEN] == s[..LENGTH_FIELD_LEN];
    hide GetUint;
    var n := GetUint(s[..LENGTH_FIELD_LEN]);
    if FirstFrame(s, max).Got? {
      assert (s + t)[LENGTH_FIELD_LEN..LENGTH_FIELD_LEN + n] == s[LENGTH_FIELD_LEN..LENGTH_FIELD_LEN + n];
    }
  }

  /** What parsing a prefix leaves open: how the result goes on with the bytes behind it. */
  function Continue(p: Parsed, t: Bytes, max: nat): Parsed {
    if p.tooBig then Parsed(p.frames, p.rest + t, true)
    else var q := Parse(p.rest + t, max); Parsed(p.frames + q.frames, q.rest, q.tooBig)
  }

  lemma ContinueCons(frame: Bytes, p: Parsed, t: Bytes, max: nat)
    ensures Continue(ConsFrame(frame, p), t, max) == ConsFrame(frame, Continue(p, t, max))
  {
    hide Parse;
    var q := Parse(p.rest + t, max);
    assert ([frame] + p.frames) + q.frames == [frame] + (p.frames + q.frames);
  }

  /** Parsing may stop at any byte: more bytes only extend the result. */
  lemma {:induction false} ParseAppend(s: Bytes, t: Bytes, max: nat)
    ensures Parse(s + t, max) == Continue(Parse(s, max), t, max)
    decreases |s|
  {
    hide FirstFrame, GetUint;
    match FirstFrame(s, max) {
      case NeedMore =>
        assert Continue(Parsed([], s, false), t, max) == Parse(s + t, max);
      case TooBig =>
        FirstFrameAppend(s, t, max);
      case Got(f) =>
        var k := LENGTH_FIELD_LEN + |f|;
        FirstFrameAppend(s, t, max);
        assert (s + t)[k..] == s[k..] + t;
        ParseAppend(s[k..], t, max);
        ContinueCons(f, Parse(s[k..], max), t, max);
    }
  }

  // ---------------------------------------------------------------- resumable decoder

  datatype DecodeState = Head | Data(length: nat)

  /** The decoder's state and its buffer, as a value. */
  datatype Decoding = Decoding(state: DecodeState, buffer: Bytes)

  /** The bytes not yet turned into frames: a header that was already consumed is put back. */
  function Pending(d: Decoding): Bytes {
    match d.state
    case Head => d.buffer
    case Data(n) => PutUint(n, LENGTH_FIELD_LEN) + d.buffer
  }

  /** Between two reads a suspended payload always misses at least one byte, and its header was
      only consumed once a byte after it had arrived. */
  predicate Suspended(d: Decoding, max: nat) {
    match d.state
    case Head => |d.buffer| < TOTAL_HEADER_LEN
    case Data(n) => 1 <= |d.buffer| < n <= max && n < LENGTH_FIELD_RANGE
  }

  /** As `Suspended`, but the buffer may have grown since. */
  predicate Resumable(d: Decoding, max: nat) {
    d.state.Data? ==> 1 <= d.state.length <= max && d.state.length < LENGTH_FIELD_RANGE && 1 <= |d.buffer|
  }

  /** One call of `decode`, as a function. */
  function DecodeOnce(d: Decoding, max: nat): (r: (Decoded, Decoding)) {
    match d.state
    case Head =>
      if |d.buffer| < TOTAL_HEADER_LEN then (NeedMore, d)
      else
        var n := GetUint(d.buffer[..LENGTH_FIELD_LEN]);
        if n > max then (TooBig, d)
        else DecodeBody(n, d.buffer[LENGTH_FIELD_LEN..])
    case Data(n) => DecodeBody(n, d.buffer)
  }

  function DecodeBody(n: nat, buffer: Bytes): (Decoded, Decoding) {
    if |buffer| < n then (NeedMore, Decoding(Data(n), buffer))
    else (Got(buffer[..n]), Decoding(Head, buffer[n..]))
  }

  /** One call of `decode` takes the first frame of the bytes that are pending, and only that. */
  lemma DecodeOnceTakesFirst(d: Decoding, max: nat)
    requires Resumable(d, max)
    ensures var (r, e) := DecodeOnce(d, max);
            var s := Pending(d);
            && r == FirstFrame(s, max)
            && |e.buffer| <= |d.buffer|
            && match r
               case Got(f) =>
                 && e.state.Head? && |e.buffer| < |d.buffer|
                 && e.buffer == s[LENGTH_FIELD_LEN + |f|..]
                 && s[..LENGTH_FIELD_LEN] == PutUint(|f|, LENGTH_FIELD_LEN)
               case NeedMore => Pending(e) == s && Suspended(e, max)
               case TooBig => e == d
  {
    if d.state.Head? {
      HeadTakesFirst(d.buffer, max);
    } else {
      DataTakesFirst(d.state.length, d.buffer, max);
    }
    hide FirstFrame, GetUint, PutUint;
  }

  lemma HeadTakesFirst(s: Bytes, max: nat)
    ensures var (r, e) := DecodeOnce(Decoding(Head, s), max);
            && r == FirstFrame(s, max)
            && match r
               case Got(f) => e == Decoding(Head, s[LENGTH_FIELD_LEN + |f|..])
                   && s[..LENGTH_FIELD_LEN] == PutUint(|f|, LENGTH_FIELD_LEN)
               case NeedMore => Pending(e) == s && Suspended(e, max) && |e.buffer| <= |s|
               case TooBig => e == Decoding(Head, s)
  {
    if |s| >= TOTAL_HEADER_LEN {
      HeaderValue(s[..LENGTH_FIELD_LEN]);
      hide PutUint, GetUint;
      var n := GetUint(s[..LENGTH_FIELD_LEN]);
      assert s == s[..LENGTH_FIELD_LEN] + s[LENGTH_FIELD_LEN..];
      if n <= |s| - LENGTH_FIELD_LEN {
        SliceTwice(s, LENGTH_FIELD_LEN, n);
      }
    }
  }

  lemma DataTakesFirst(n: nat, buffer: Bytes, max: nat)
    requires Resumable(Decoding(Data(n), buffer), max)
    ensures var s := PutUint(n, LENGTH_FIELD_LEN) + buffer;
            FirstFrame(s, max) == (if n <= |buffer| then Got(buffer[..n]) else NeedMore)
            && s[..LENGTH_FIELD_LEN] == PutUint(n, LENGTH_FIELD_LEN)
            && (n <= |buffer| ==> s[LENGTH_FIELD_LEN + n..] == buffer[n..])
  {
    var s := PutUint(n, LENGTH_FIELD_LEN) + buffer;
    LengthField(n);
    hide PutUint, GetUint;
    assert s[..LENGTH_FIELD_LEN] == PutUint(n, LENGTH_FIELD_LEN) && s[LENGTH_FIELD_LEN..] == buffer;
    if n <= |buffer| {
      SliceTwice(s, LENGTH_FIELD_LEN, n);
    }
  }

  lemma SliceTwice(s: Bytes, k: nat, n: nat)
    requires |s| >= k + n
    ensures s[k..][..n] == s[k..k + n] && s[k..][n..] == s[k + n..]
  {
  }

  /** One call of `decode` against the reference parse; each frame shrinks the buffer. */
  lemma DecodeOnceParses(d: Decoding, max: nat)
    requires Resumable(d, max)
    ensures var (r, e) := DecodeOnce(d, max);
            && |e.buffer| <= |d.buffer|
            && match r
               case Got(f) =>
                 && e.state.Head? && |e.buffer| < |d.buffer|
                 && Pending(d) == PutUint(|f|, LENGTH_FIELD_LEN) + f + Pending(e)
                 && Parse(Pending(d), max) == ConsFrame(f, Parse(Pending(e), max))
               case NeedMore => Parse(Pending(d), max) == Parsed([], Pending(d), false) && Pending(e) == Pending(d)
                   && Suspended(e, max)
               case TooBig => Parse(Pending(d), max) == Parsed([], Pending(d), true) && e == d
  {
    DecodeOnceTakesFirst(d, max);
    var s := Pending(d);
    var (r, e) := DecodeOnce(d, max);
    if r.Got? {
      FrontIsFrame(s, r.frame, max);
      assert Pending(e) == s[LENGTH_FIELD_LEN + |r.frame|..];
    }
    hide DecodeOnce, FirstFrame, PutUint, Suspended;
  }

  lemma FrontIsFrame(s: Bytes, frame: Bytes, max: nat)
    requires FirstFrame(s, max) == Got(frame)
    requires s[..LENGTH_FIELD_LEN] == PutUint(|frame|, LENGTH_FIELD_LEN)
    ensures s == PutUint(|frame|, LENGTH_FIELD_LEN) + frame + s[LENGTH_FIELD_LEN + |frame|..]
  {
    hide PutUint, GetUint;
    var k := LENGTH_FIELD_LEN + |frame|;
    assert s == s[..LENGTH_FIELD_LEN] + s[LENGTH_FIELD_LEN..k] + s[k..];
  }

  /** A suspended decoder holds no frame, and is at the end of the stream only with no bytes left. */
  lemma SuspendedIsStuck(d: Decoding, max: nat)
    requires Suspended(d, max)
    ensures DecodeOnce(d, max) == (NeedMore, d)
    ensures Parse(Pending(d), max) == Parsed([], Pending(d), false)
    ensures Pending(d) == [] <==> d.buffer == []
  {
    DecodeOnceParses(d, max);
  }

  class Decoder {
    var state: DecodeState
    const maxFrameLen: nat

    constructor (maxFrameLen: nat)
      ensures state == Head && this.maxFrameLen == maxFrameLen
    {
      this.state, this.maxFrameLen := Head, maxFrameLen;
    }

    ghost function Value(src: BytesMut): Decoding
      reads this, src
    {
      Decoding(state, src.data)
    }

    /** Reads the length without moving, checks it, and only then advances past it. */
    method DecodeHead(src: BytesMut) returns (r: Result<Option<nat>, CodecError>)
      modifies src
      ensures if |old(src.data)| < TOTAL_HEADER_LEN then r == Ok(None) && src.data == old(src.data)
              else
                var n := GetUint(old(src.data)[..LENGTH_FIELD_LEN]);
                if n > maxFrameLen then r == Err(FrameTooBig) && src.data == old(src.data)
                else r == Ok(Some(n)) && src.data == old(src.data)[LENGTH_FIELD_LEN..]
    {
      if |src.data| < TOTAL_HEADER_LEN {
        return Ok(None);
      }
      var payloadLength := GetUint(src.data[..LENGTH_FIELD_LEN]);
      if payloadLength > maxFrameLen {
        return Err(FrameTooBig);
      }
      var _ := src.SplitTo(LENGTH_FIELD_LEN);
      return Ok(Some(payloadLength));
    }

    method DecodeData(payloadLength: nat, src: BytesMut) returns (data: Option<Bytes>)
      modifies src
      ensures if |old(src.data)| < payloadLength then data == None && src.data == old(src.data)
              else data == Some(old(src.data)[..payloadLength]) && src.data == old(src.data)[payloadLength..]
    {
      if |src.data| < payloadLength {
        return None;
      }
      var front := src.SplitTo(payloadLength);
      return Some(front);
    }

    method Decode(src: BytesMut) returns (r: Decoded)
      modifies this, src
      ensures (r, Value(src)) == DecodeOnce(old(Value(src)), maxFrameLen)
    {
      var payloadLength: nat;
      match state {
        case Head =>
          var head := DecodeHead(src);
          if head.Err? {
            return TooBig;
          }
          if head.value.None? {
            return NeedMore;
          }
          payloadLength := head.value.value;
          state := Data(payloadLength);
        case Data(n) =>
          payloadLength := n;
      }
      var data := DecodeData(payloadLength, src);
      if data.None? {
        return NeedMore;
      }
      state := Head;
      return Got(data.value);
    }
  }
}
