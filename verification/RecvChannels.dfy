/** Receive buffers: one bounded queue of payloads per channel, in a vector that grows with the
    largest channel seen. */
module RecvChannels {
  import opened Prelude

  datatype RecvConfig = RecvConfig(maxBufferedPayloads: nat, maxReceiveChannels: nat, clearStale: bool)

  datatype RecvError =
    | RecvChannelFull(id: ChannelId)
    | MaxRecvChannelCountReached(id: ChannelId)

  type Buffers = seq<seq<Bytes>>

  /** The payloads waiting on one channel: the vector read as a map of queues. */
  function BufferOf(b: Buffers, c: ChannelId): seq<Bytes> {
    if c < |b| then b[c] else []
  }

  /** Empty slots up to the given length. */
  function Grow(b: Buffers, n: nat): (r: Buffers)
    ensures |r| == if |b| < n then n else |b|
    ensures forall c: ChannelId :: BufferOf(r, c) == BufferOf(b, c)
  {
    if |b| < n then b + seq(n - |b|, _ => []) else b
  }

  /** What the loop does with one received payload. */
  function DispatchOne(b: Buffers, cfg: RecvConfig, p: Packet): (Buffers, Option<RecvError>) {
    var c := p.channel;
    if c < |b| then
      if |b[c]| < cfg.maxBufferedPayloads then (b[c := b[c] + [p.payload]], None)
      else (b, Some(RecvChannelFull(c)))
    else if c < cfg.maxReceiveChannels then (Grow(b, c) + [[p.payload]], None)
    else (b, Some(MaxRecvChannelCountReached(c)))
  }

  function AsSeq<T>(o: Option<T>): seq<T> {
    match o case None => [] case Some(x) => [x]
  }

  /** The whole loop: the new buffers and the errors. */
  function Dispatch(b: Buffers, cfg: RecvConfig, q: seq<Packet>): (Buffers, seq<RecvError>)
    decreases |q|
  {
    if q == [] then (b, [])
    else
      var (b1, e) := DispatchOne(b, cfg, q[0]);
      var (b2, es) := Dispatch(b1, cfg, q[1..]);
      (b2, AsSeq(e) + es)
  }

  /** `internal_receive_payload`: the oldest payload waiting on a channel. */
  function PopFront(b: Buffers, c: ChannelId): (r: (Option<Bytes>, Buffers))
    ensures r.0.None? <==> BufferOf(b, c) == []
    ensures AsSeq(r.0) + BufferOf(r.1, c) == BufferOf(b, c)
    ensures forall d: ChannelId :: d != c ==> BufferOf(r.1, d) == BufferOf(b, d)
  {
    if c < |b| && b[c] != [] then (Some(b[c][0]), b[c := b[c][1..]]) else (None, b)
  }

  /** `clear_received_payloads`: every slot stays and is empty. */
  function Cleared(b: Buffers): (r: Buffers)
    ensures |r| == |b| && forall c: ChannelId :: BufferOf(r, c) == []
  {
    seq(|b|, _ => [])
  }

  // ---------------------------------------------------------------- what dispatching means

  function PayloadsOn(q: seq<Packet>, c: ChannelId): seq<Bytes> {
    if q == [] then []
    else (if q[0].channel == c then [q[0].payload] else []) + PayloadsOn(q[1..], c)
  }

  lemma {:induction false} PayloadsOnAppend(q: seq<Packet>, r: seq<Packet>, c: ChannelId)
    ensures PayloadsOn(q + r, c) == PayloadsOn(q, c) + PayloadsOn(r, c)
  {
    if q == [] {
      assert q + r == r;
    } else {
      PayloadsOnAppend(q[1..], r, c);
      assert (q + r)[1..] == q[1..] + r;
    }
  }

  function First<T>(s: seq<T>, n: nat): seq<T> {
    if |s| <= n then s else s[..n]
  }

  /** No buffer is over its cap and the vector is no longer than the channel limit. */
  predicate Bounded(b: Buffers, cfg: RecvConfig) {
    && |b| <= cfg.maxReceiveChannels
    && forall i :: 0 <= i < |b| ==> |b[i]| <= cfg.maxBufferedPayloads
  }

  /** Dispatching in two goes is dispatching the concatenation. */
  lemma {:induction false} DispatchAppend(b: Buffers, cfg: RecvConfig, q: seq<Packet>, r: seq<Packet>)
    ensures var (b1, e1) := Dispatch(b, cfg, q);
            var (b2, e2) := Dispatch(b1, cfg, r);
            Dispatch(b, cfg, q + r) == (b2, e1 + e2)
    decreases |q|
  {
    hide DispatchOne;
    if q == [] {
      assert q + r == r && [] + Dispatch(b, cfg, r).1 == Dispatch(b, cfg, r).1;
    } else {
      var (b1, e) := DispatchOne(b, cfg, q[0]);
      DispatchAppend(b1, cfg, q[1..], r);
      assert (q + r)[1..] == q[1..] + r;
      var (b2, e2) := Dispatch(b1, cfg, q[1..]);
      var e3 := Dispatch(b2, cfg, r).1;
      assert AsSeq(e) + (e2 + e3) == (AsSeq(e) + e2) + e3;
    }
  }

  /** One payload reaches its own channel's queue if that has room, and no other queue. */
  lemma DispatchOneIsEnqueue(b: Buffers, cfg: RecvConfig, p: Packet, c: ChannelId)
    requires cfg.maxBufferedPayloads >= 1 && Bounded(b, cfg)
    ensures Bounded(DispatchOne(b, cfg, p).0, cfg)
    ensures BufferOf(DispatchOne(b, cfg, p).0, c) ==
            if p.channel == c && c < cfg.maxReceiveChannels
            then First(BufferOf(b, c) + [p.payload], cfg.maxBufferedPayloads) else BufferOf(b, c)
  {
    if p.channel < |b| {
      assert First(b[p.channel] + [p.payload], cfg.maxBufferedPayloads) ==
             if |b[p.channel]| < cfg.maxBufferedPayloads then b[p.channel] + [p.payload] else b[p.channel];
    } else if p.channel < cfg.maxReceiveChannels {
      assert BufferOf(b, p.channel) + [p.payload] == [p.payload];
      var g := Grow(b, p.channel);
      assert forall d: ChannelId :: d < |g| ==> BufferOf(b, d) == g[d];
    }
  }

  /** Dispatch refines a map of bounded queues: with a cap of at least one, the new buffer of every
      channel under the limit is the front of the old buffer followed by what arrived for it. */
  lemma {:induction false} DispatchRefinesQueues(b: Buffers, cfg: RecvConfig, q: seq<Packet>, c: ChannelId)
    requires cfg.maxBufferedPayloads >= 1 && Bounded(b, cfg)
    ensures Bounded(Dispatch(b, cfg, q).0, cfg)
    ensures BufferOf(Dispatch(b, cfg, q).0, c) ==
            if c < cfg.maxReceiveChannels
            then First(BufferOf(b, c) + PayloadsOn(q, c), cfg.maxBufferedPayloads) else []
    decreases |q|
  {
    hide DispatchOne;
    if q == [] {
      assert BufferOf(b, c) + [] == BufferOf(b, c);
    } else {
      var b1 := DispatchOne(b, cfg, q[0]).0;
      DispatchOneIsEnqueue(b, cfg, q[0], c);
      DispatchRefinesQueues(b1, cfg, q[1..], c);
      var head := if q[0].channel == c then [q[0].payload] else [];
      FirstTwice(BufferOf(b, c), head, PayloadsOn(q[1..], c), cfg.maxBufferedPayloads);
    }
  }

  lemma FirstTwice<T>(a: seq<T>, b: seq<T>, c: seq<T>, n: nat)
    requires |a| <= n
    ensures First(First(a + b, n) + c, n) == First(a + (b + c), n)
    ensures First(a, n) == a && a + [] == a && [] + c == c
  {
    assert a + (b + c) == (a + b) + c;
    if |a + b| > n {
      assert ((a + b) + c)[..n] == (a + b)[..n];
      assert ((a + b)[..n] + c)[..n] == (a + b)[..n];
    }
  }

  /** The fate of the k-th payload, told from the start of the queue: rejected because of its
      channel number, rejected because its channel is full by then, or stored. */
  function Verdict(b: Buffers, cfg: RecvConfig, q: seq<Packet>, k: nat): Option<RecvError>
    requires k < |q|
  {
    var c := q[k].channel;
    if c >= cfg.maxReceiveChannels then Some(MaxRecvChannelCountReached(c))
    else if |BufferOf(b, c)| + |PayloadsOn(q[..k], c)| >= cfg.maxBufferedPayloads then Some(RecvChannelFull(c))
    else None
  }

  function Verdicts(b: Buffers, cfg: RecvConfig, q: seq<Packet>, n: nat): seq<RecvError>
    requires n <= |q|
  {
    if n == 0 then [] else Verdicts(b, cfg, q, n - 1) + AsSeq(Verdict(b, cfg, q, n - 1))
  }

  /** The errors are exactly the rejected payloads, in order. */
  lemma {:induction false} ErrorsAreRejections(b: Buffers, cfg: RecvConfig, q: seq<Packet>, n: nat)
    requires cfg.maxBufferedPayloads >= 1 && Bounded(b, cfg) && n <= |q|
    ensures Dispatch(b, cfg, q[..n]).1 == Verdicts(b, cfg, q, n)
  {
    if n > 0 {
      var p := q[n - 1];
      ErrorsAreRejections(b, cfg, q, n - 1);
      DispatchRefinesQueues(b, cfg, q[..n - 1], p.channel);
      assert q[..n] == q[..n - 1] + [p];
      DispatchAppend(b, cfg, q[..n - 1], [p]);
      var b1 := Dispatch(b, cfg, q[..n - 1]).0;
      assert Dispatch(b1, cfg, [p]).1 == AsSeq(DispatchOne(b1, cfg, p).1);
    }
  }

  function Total(b: Buffers): nat {
    if b == [] then 0 else |b[0]| + Total(b[1..])
  }

  lemma {:induction false} TotalAppend(b: Buffers, c: Buffers)
    ensures Total(b + c) == Total(b) + Total(c)
  {
    if b == [] {
      assert b + c == c;
    } else {
      TotalAppend(b[1..], c);
      assert (b + c)[1..] == b[1..] + c;
    }
  }

  lemma {:induction false} TotalEmpty(n: nat)
    ensures Total(seq(n, _ => [])) == 0
  {
    if n > 0 {
      TotalEmpty(n - 1);
      var all: Buffers := seq(n, _ => []);
      assert all[1..] == seq(n - 1, _ => []);
    }
  }

  lemma TotalUpdate(b: Buffers, i: nat, x: seq<Bytes>)
    requires i < |b|
    ensures Total(b[i := x]) + |b[i]| == Total(b) + |x|
  {
    if i > 0 {
      TotalUpdate(b[1..], i - 1, x);
      assert b[i := x][1..] == b[1..][i - 1 := x];
    }
  }

  lemma DispatchOneCounts(b: Buffers, cfg: RecvConfig, p: Packet)
    ensures var (b1, e) := DispatchOne(b, cfg, p); Total(b1) + |AsSeq(e)| == Total(b) + 1
  {
    var c := p.channel;
    if c < |b| {
      TotalUpdate(b, c, b[c] + [p.payload]);
    } else if c < cfg.maxReceiveChannels {
      TotalAppend(b, seq(c - |b|, _ => []));
      TotalEmpty(c - |b|);
      TotalAppend(Grow(b, c), [[p.payload]]);
    }
  }

  /** Every payload is either stored or reported. */
  lemma {:induction false} DispatchConserves(b: Buffers, cfg: RecvConfig, q: seq<Packet>)
    ensures var (b1, es) := Dispatch(b, cfg, q); Total(b1) + |es| == Total(b) + |q|
    decreases |q|
  {
    hide DispatchOne;
    if q != [] {
      DispatchOneCounts(b, cfg, q[0]);
      DispatchConserves(DispatchOne(b, cfg, q[0]).0, cfg, q[1..]);
    }
  }

  /** A cap of zero is not kept: the payload that opens a slot is stored all the same. Buffers stay
      within their bounds on every queue exactly when the cap is at least one or no receive channel
      is allowed at all. */
  lemma CapHolds(cfg: RecvConfig)
    ensures (forall q :: Bounded(Dispatch([], cfg, q).0, cfg))
            <==> cfg.maxBufferedPayloads >= 1 || cfg.maxReceiveChannels == 0
  {
    if cfg.maxReceiveChannels == 0 {
      forall q ensures Bounded(Dispatch([], cfg, q).0, cfg) { NoChannels(cfg, q); }
    } else if cfg.maxBufferedPayloads >= 1 {
      forall q ensures Bounded(Dispatch([], cfg, q).0, cfg) { DispatchRefinesQueues([], cfg, q, 0); }
    } else {
      var q := [Packet(0, [])];
      var b: Buffers := [[[]]];
      assert q[1..] == [] && DispatchOne([], cfg, q[0]).0 == b;
      assert |b[0]| == 1 && !Bounded(b, cfg);
      assert Dispatch([], cfg, q).0 == b;
      assert !Bounded(Dispatch([], cfg, q).0, cfg);
    }
  }

  lemma {:induction false} NoChannels(cfg: RecvConfig, q: seq<Packet>)
    requires cfg.maxReceiveChannels == 0
    ensures Dispatch([], cfg, q).0 == []
  {
    if q != [] {
      NoChannels(cfg, q[1..]);
    }
  }
}
