/** Vocabulary shared by every module of the model. */
module Prelude {
  type byte = b: nat | b < 256
  type Bytes = seq<byte>

  /** Id of an opened channel: a `u8`. */
  type ChannelId = c: nat | c < MAX_CHANNEL_COUNT

  const MAX_CHANNEL_COUNT: nat := 256

  /** Bounds of the queues between the sync side and the async side. */
  const DEFAULT_MESSAGE_QUEUE_SIZE: nat := 150
  const DEFAULT_INTERNAL_MESSAGES_CHANNEL_SIZE: nat := 100
  const DEFAULT_KILL_MESSAGE_QUEUE_SIZE: nat := 10
  const DEFAULT_QCHANNEL_MESSAGES_CHANNEL_SIZE: nat := 2 * MAX_CHANNEL_COUNT

  datatype Option<+T> = None | Some(value: T)

  datatype Result<+T, +E> = Ok(value: T) | Err(error: E)

  /** What a stream or a datagram hands to the sync side: a channel id and a payload. */
  datatype Packet = Packet(channel: ChannelId, payload: Bytes)

  datatype ChannelConfig =
    | OrderedReliable(maxFrameSize: nat)
    | UnorderedReliable(maxFrameSize: nat)
    | Unreliable

  /** Why a connection's background tasks are told to stop. */
  datatype CloseReason = LocalOrder | PeerClosed
}

/** Bounded FIFO queue between the sync side and the async tasks (a tokio `mpsc`). */
module Mpsc {
  import opened Prelude

  datatype TrySendError = Full | Closed

  datatype Queue<T> = Queue(items: seq<T>, capacity: nat, receiverOpen: bool) {
    /** `try_send`: a dropped receiver is reported before a full queue. */
    function TrySend(x: T): (r: Result<Queue<T>, TrySendError>)
      ensures r.Ok? <==> receiverOpen && |items| < capacity
      ensures r.Ok? ==>
                r.value.items == items + [x] && r.value.capacity == capacity && r.value.receiverOpen == receiverOpen
      ensures r.Err? ==> r.error == if receiverOpen then Full else Closed
    {
      if !receiverOpen then Err(Closed)
      else if |items| >= capacity then Err(Full)
      else Ok(this.(items := items + [x]))
    }
  }
}
