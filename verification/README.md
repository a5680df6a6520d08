# A verified model of bevy_iroh's channels, connections and events

A Dafny model of the message layer that `bevy_iroh` builds over QUIC: how payloads are framed,
queued, sent, received, dispatched and read; how channel ids, connection tables and the server-wide
channel set stay consistent; and which connection events a server and a client raise. Objects that the
program updates in place are classes whose methods are proved against functions of the state; the
properties over whole runs are proved about those functions. The background work of a connection, which
is concurrent, is a machine of atomic steps.

Modules, bottom up:

- `Prelude`, `Mpsc`, `Subsequences`: bytes, ids, bounded queues, subsequences.
- `Codec`, `StreamReceive`: the framing codec, its resumable decoder and the receiving end of a stream.
- `ChannelTask`, `OrderedTask`, `ConnectionTasks`, `CloseProgress`: one send channel as atomic steps, the
  ordered channel's task as a program that refines them, all background tasks of a connection with their close
  signals, keepalive handles and the queue of reports, and when a close completes.
- `Receivers`, `RecvChannels`, `Inboxes`: the receiving task of one stream, receive buffers, and the receiving
  side behind the streams.
- `Links`, `Delivery`, `ExactDelivery`, `UnorderedDelivery`: the whole path of an ordered and of an unordered
  channel: nothing is reordered, duplicated or invented, and nothing is lost without a losing event.
- `WriteProgress`, `OrderedArrival`, `UnorderedArrival`: that what is accepted can arrive, and exactly when not.
- `ChannelIds`, `Peers`, `Endpoint`, `EndpointEffects`, `EndpointRuns`, `ServerEvents`, `ServerLosses`,
  `ServerLifecycle`: the server.
- `ClientConnection`, `ClientRuns`, `Clients`, `ClientEffects`, `ClientsRuns`, `ClientIdHandshake`: the client,
  and the client id handshake between both.

Assumptions about what is not part of the repository: a QUIC stream is a reliable ordered byte stream with
arbitrary read boundaries (RFC 9000, section 2.2) whose errors are permanent; a tokio `mpsc` is a bounded
FIFO queue; receiving from the keepalive channel returns only when every sender has been dropped; a
broadcast receiver sees what was sent after it subscribed and is told when it lags. "Written" means handed
to the QUIC stack; what an immediate close does to unacknowledged data (RFC 9000, section 10.2) is outside
the model. A hash map is walked in an arbitrary order, which is a parameter or is returned. The network,
the clock and the scheduler are the choice of steps.

The history of closes of a connection starts in the model when its spawner subscribes. A client subscribes the
spawner only after it has connected (src/client/connection.rs:459-464), so a disconnect while it is connecting
comes before that history: the spawner itself misses it, with or without channels.

Findings, each stated as a lemma beside the condition under which the code keeps its promise:

- The default channel limit equals the receiver's limit, but the receiver counts the id byte: a payload of
  exactly the default maximum is accepted and ends the receiving stream (`DefaultMaximumIsNotDelivered`,
  `LimitsAgree`, `RoundTrip`).
- `PeerConnection::close` is documented to wait for all buffered messages of all opened channels. It does so for
  every channel that was served before the close (`GracefulClose`). On a channel without stream error, oversize
  payload or lost peer an accepted payload is lost if and only if it was accepted after the drain's last look at
  the queue, or the channel was never served (`FateAtClose`, `AcceptedIsTakenExactly`). Both happen although the
  caller was told that the payload was queued (`AcceptedAfterTheLastLookIsLost`, `UnservedAtCloseIsLost`). A channel
  can go unserved exactly while its creation message is queued (`NeverServedExactly`), and opening a channel does
  not wait for it to be taken.
- A task that is spawned after the close was broadcast does not see it, and the connection can stay open until
  the sync side acts again (`CloseCanBeMissed`). Children of an unordered channel that report a lost connection
  wait for room in a queue of 100 reports and hold the close while it is full (`FullQueueHoldsTheClose`).
  `StuckExactly` says when nothing can happen. If every channel had been served when the connection was closed and
  none is created afterwards, only the full queue can hold the close, one report read ends that
  (`ServedBeforeCloseStuckExactly`), and the close completes as long as the sync side reads its reports
  (`SeenCloseCompletes`); it always completes once the connection is dropped (`DroppedCloseCompletes`).
- With a cap of zero a receive channel still stores the payload that opens it (`CapHolds`).
- A failing close, and on the client a failing open, leaves an id that is neither free nor open
  (`LostIdIsReachable`, `LostIdsAreReachable`), exactly when a queue has no receiver or no room beforehand
  (`CloseFails`, `OpenFails`, `StepStrands`, `StepKeepsIds`); only a client's reconnection recovers it
  (`ReconnectIsFreshOpen`).
- A queued connection message overwrites a local disconnect (`QueuedConnectionWins`), exactly when it is the last
  message and no channel has reported a loss (`DisconnectedSurvives`).

## Model

| member | source | states |
|---|---|---|
| Mpsc.Queue.TrySend | src/shared/channels.rs:116-124 | A bounded queue accepts exactly when its receiver is alive and it has room, appends in order and stays otherwise as it was; a dropped receiver is reported before a full queue |
| Codec.GetPutUint | src/shared/channels/reliable/codec.rs:67-70 | Reading back a big-endian field gives the integer modulo the width of the field, for every integer and every width |
| Codec.PutUintBytes | src/shared/channels/reliable/codec.rs:67-70 | The bytes of a field are the base-256 digits of the integer, the most significant first |
| Codec.GetUintFront | src/shared/channels/reliable/codec.rs:105-110 | Reading is big-endian: the first byte of a field weighs as much as all that follow can hold |
| Codec.Encoder.Encode | src/shared/channels/reliable/codec.rs:56-77 | Refuses exactly the payloads over its limit and then leaves the buffer alone; otherwise appends one frame: the four bytes of the length in big-endian order, the id, the payload |
| Codec.Decoder.DecodeHead | src/shared/channels/reliable/codec.rs:96-126 | Moves past the length field only after a byte behind it has arrived and the length is within the limit |
| Codec.Decoder.DecodeData | src/shared/channels/reliable/codec.rs:128-136 | Splits off a whole payload or leaves the buffer alone |
| Codec.Decoder.Decode | src/shared/channels/reliable/codec.rs:143-167 | One call in place is one step of the decoder as a function of state and buffer |
| Codec.DecodeOnceTakesFirst | src/shared/channels/reliable/codec.rs:143-167 | Whatever the suspended state, one call yields the first frame of the pending bytes, with a consumed header put back, and leaves exactly the bytes behind it |
| Codec.DecodeOnceParses | src/shared/channels/reliable/codec.rs:143-167 | Each frame strictly shrinks the buffer, so the read loop ends on every buffer; one call agrees with a recursive parse of the pending bytes in all three outcomes |
| Codec.SuspendedIsStuck | src/shared/channels/reliable/codec.rs:128-134 | A suspended decoder always misses a byte: calling it again without new bytes changes nothing, and only an empty buffer is a clean end |
| Codec.ParseAppend | src/shared/channels/reliable/codec.rs:143-167 | Parsing may stop at any byte: the parse of a longer stream continues the parse of its front |
| StreamReceive.DrainBuffer | src/shared/channels/reliable/recv.rs:52-57 | Decoding a buffer until nothing more comes out takes exactly the front of what the whole stream means, whatever bytes follow; it is cut short at a given packet and not before |
| StreamReceive.ReliableStreamReceiver | src/shared/channels/reliable/recv.rs:43-61 | Chunk independence: for every way of cutting the stream into reads, packets and ending are those of one parse of all the bytes; with a close signal before any given read they are those of the bytes before, and cut short at any given packet exactly the packets before it are handed on |
| StreamReceive.DecodeIncoming | src/shared/channels/reliable/recv.rs:63-68 | The id and payload are the first byte and the rest; an empty frame panics |
| StreamReceive.RoundTrip | src/shared/channels/reliable/codec.rs:56-167 | A list of messages decodes back to exactly itself if and only if every payload plus one byte is within the decoder's limit and the length field |
| StreamReceive.LimitsAgree | src/shared/channels/reliable/codec.rs:57-107 | Everything an encoder accepts is deliverable if and only if the encoder's limit is strictly below the decoder's and below what the length field holds |
| StreamReceive.DefaultMaximumIsNotDelivered | src/shared/channels/reliable/recv.rs:51 | A payload of exactly the default maximum is accepted by a default channel's encoder and ends the receiving stream |
| StreamReceive.WrappedLengthPanics | src/shared/channels/reliable/recv.rs:63-68 | A payload of 2^32 - 1 bytes wraps the length field to zero and panics the receiver |
| ChannelTask.HeldChanges | src/shared/channels/reliable/send.rs:104-150 | Every clone and drop of a keepalive handle is accounted for by a live task or a live child |
| ChannelTask.TaskKeepsInv | src/shared/channels/reliable/send.rs:27-85 | Every step of a task, also the cancellation in the middle of a send, keeps stream plus buffer equal to the frames of what it took, in order, until a stream error cuts it short |
| ChannelTask.StepFrame | src/shared/channels/reliable/send.rs:34-61 | Only a stop signal ends the send loop, and only a lost peer skips the drain |
| ChannelTask.TurningPoints | src/shared/channels/reliable/send.rs:46-62 | Exactly when a task starts to report a lost connection (an error of its send loop, never one of the drain), panics, and gives up on a lost peer without touching its queue |
| ChannelTask.ChildTurningPoints | src/shared/channels/reliable/send.rs:109-148 | Exactly when a child reports: after an error, unless the drain has spawned it |
| ChannelTask.Spawns | src/shared/channels/reliable/send.rs:103-148 | One child for each payload that the task of an unordered channel takes, and the drain's children are told apart; nothing else spawns children |
| ChannelTask.TaskGrows | src/shared/channels/reliable/send.rs:48-84 | A task never takes back a byte of its stream or a payload it has taken |
| ChannelTask.OrderedDrained | src/shared/channels/reliable/send.rs:62-84 | A task that ended on a local order has written the frames of a prefix of the accepted payloads that covers all accepted before |
| ChannelTask.UnorderedDrained | src/shared/channels/reliable/send.rs:128-150 | Once the task and its children are gone, the streams are as multisets one frame per payload taken |
| ChannelTask.UnorderedNeverInvents | src/shared/channels/reliable/send.rs:104-122 | At every moment the complete streams are a sub-multiset of the frames of the accepted payloads |
| OrderedTask.Task.SendNext | src/shared/channels/reliable/send.rs:48-56 | Encoding a payload behind what is buffered and flushing it is a sequence of machine steps that takes exactly the oldest payload, while others may arrive |
| OrderedTask.Task.Flush | src/shared/channels/reliable/send.rs:49 | Writing until the buffer is empty, cancelled or broken between any two writes |
| OrderedTask.Task.SendLoop | src/shared/channels/reliable/send.rs:46-57 | The loop inside the select, with payloads arriving at any moment, ends on a stop signal wherever it is, or when an error cannot be reported |
| OrderedTask.Task.Drain | src/shared/channels/reliable/send.rs:64-71 | The drain goes on until the queue is found empty, also of what arrives meanwhile |
| OrderedTask.Task.RunToEnd | src/shared/channels/reliable/send.rs:27-85 | Every execution of the task, with payloads arriving at any moment, is a run of the step machine; on a local order without stream error its stream is the frames of what it took, which covers all accepted before it started |
| ConnectionTasks.StepKeepsInv | src/shared/channels/tasks.rs:46-100 | Every step of sync side, spawner, tasks and children keeps the invariant: keepalive count, queue of creations, and each channel's bytes |
| ConnectionTasks.RunKeepsBounds | src/shared.rs:16-31 | In every run no queue between the sync side and the tasks holds more than it was made for: 512 creation messages, 150 payloads, 100 reports |
| ConnectionTasks.LaggardsDrain | src/shared/channels/reliable/send.rs:35-41 | A task that lags behind by more than the kept closes drains as on a local order, whatever was broadcast |
| ConnectionTasks.KeepaliveCounts | src/shared/channels/tasks.rs:52-99 | In every reachable state the handles are those of the serving spawner, the live tasks and the live children, and the close is possible if and only if no task and no child is left |
| ConnectionTasks.NothingOutlivesTheClose | src/shared/channels/tasks.rs:96-99 | When the connection is closed no task and no child is live and none can take a step |
| ConnectionTasks.DrainCoversExactly | src/shared/channels/reliable/send.rs:62-71 | In every interleaving a task that ends on a local order has taken all that was accepted by a given moment, if and only if its drain was not over then or nothing was waiting |
| ConnectionTasks.AcceptedIsTakenExactly | src/shared/channels/reliable/send.rs:62-71 | The fate of one accepted payload on a channel whose task ends on a local order, whatever orders were given by then: taken, and on an error-free ordered stream written, if and only if the drain was not over when it was accepted |
| ConnectionTasks.FateAtClose | src/shared/channels/tasks.rs:54-99 | The fate of one accepted payload when the connection is closed, in every interleaving: on a channel without stream error, oversize payload or lost peer it was taken if and only if the drain was not over when it was accepted and the channel was served at all |
| ConnectionTasks.WrittenAtClose | src/shared/channels/reliable/send.rs:62-150 | What such a channel has written when the connection is closed is exactly what its task took: in order on one stream, or one stream per payload; nothing on a channel that was never served |
| ConnectionTasks.DrainsBeforeOrder | src/shared/channels/reliable/send.rs:34-61 | Before any order the drain is not over, so a caller that has given none may rely on it |
| ConnectionTasks.DrainBeforeClose | src/shared/channels/reliable/send.rs:34-84 | In every interleaving, the stream of an ordered channel that ended on a local order without stream error is the frames of a prefix of the accepted payloads that covers all accepted until the last look at the queue |
| ConnectionTasks.GracefulClose | src/shared/peer_connection.rs:233-242 | The documented promise to the caller of close: for every channel that was served before any close was given, and unless it meets a stream error, an oversize payload or a lost peer, all that had been accepted is written when the connection is closed, in order on an ordered channel and one stream each on an unordered one |
| ConnectionTasks.NothingLostWhenClosed | src/shared/peer_connection.rs:233-242 | The same at any later moment: once the creation message of a channel has left the queue, all that was accepted until the last look at its queue is on its stream, in order, when the connection is closed; a channel that was never served is `FateAtClose` |
| ConnectionTasks.NothingUnorderedLostWhenClosed | src/shared/peer_connection.rs:233-242 | The same for an unordered channel: exactly one frame stream for each payload of a prefix of the accepted ones that covers all accepted until the last look |
| ConnectionTasks.UnservedAtCloseIsLost | src/shared/channels/tasks.rs:54-72 | An instance: a channel is opened, a payload accepted and the connection closed before the spawner takes the creation message; nothing fails and the payload is lost |
| CloseProgress.NeverServedExactly | src/shared/channels/tasks.rs:54-72 | Over all reachable states: the connection can still close without ever serving a channel if and only if its creation message is still queued |
| ConnectionTasks.EndsOnLocalOrder | src/shared/channels/reliable/send.rs:34-61 | Under the same conditions every served task has ended on a local order when the connection is closed |
| ConnectionTasks.ChannelCloseWritesExactly | src/shared/peer_connection.rs:169-184 | Closing one channel writes exactly the accepted payloads and accepts none after |
| ConnectionTasks.UnorderedDrainBeforeClose | src/shared/channels/reliable/send.rs:87-152 | Unordered channels: after the close the streams are as multisets the frames of a prefix of the accepted payloads that covers all accepted until the last look at the queue |
| ConnectionTasks.UnorderedCloseWritesExactly | src/shared/channels/reliable/send.rs:99-152 | Closing an unordered channel writes exactly one frame stream per accepted payload |
| ConnectionTasks.NeverInvents | src/shared/channels/reliable/send.rs:48-52 | At every moment of every run an ordered stream is a prefix of the frames of the accepted payloads, and no unordered payload is written twice |
| ConnectionTasks.AcceptedAfterTheLastLookIsLost | src/shared/channels/reliable/send.rs:64-77 | An instance of the other half: a run in which a payload accepted after the last look at the queue is lost although nothing failed |
| CloseProgress.StuckExactly | src/shared/channels/tasks.rs:54-99 | Over all reachable states: the waiting spawner is stuck if and only if some task or child is left, every child that is left waits for room in the full queue of reports, and every task that is left has no signal to see and waits for a payload or for that room |
| CloseProgress.UnseenCloseSteps | src/shared/channels/reliable/send.rs:34-61 | A live task that has a close still to see always has a step, also while it waits to report |
| CloseProgress.ServedBeforeCloseStuckExactly | src/shared/channels/reliable/send.rs:104-122 | A connection closed while no creation message is queued, and on which no channel is created afterwards, is stuck if and only if nobody is left but children that wait for room in the full queue of 100 reports; reading one report ends that |
| CloseProgress.SeenCloseCompletes | src/shared/channels/tasks.rs:54-99 | Such a close completes: from every state after it every run of background steps and report reads is finite, with a bound told from the state, the connection is closed when nothing more can happen, and there is such a run |
| CloseProgress.DroppedCloseCompletes | src/shared/channels/tasks.rs:54-99 | The same for every connection that the sync side has dropped, whatever is queued |
| CloseProgress.DropEndsAll | src/shared/channels/tasks.rs:54-99 | Dropping a connection is always the way out: from every reachable state there is a run of the tasks alone after which it is closed and nobody is left |
| CloseProgress.ReportsConserved | src/shared/channels/reliable/send.rs:49-55 | Over every run the reports that were made are those that were read and those still queued |
| CloseProgress.WaitingEnds | src/shared/channels/tasks.rs:96-99 | Whatever was missed, the tasks of a connection that waits for them do finitely many steps more, and then it is closed or stuck |
| CloseProgress.TaskDescends | src/shared/channels/reliable/send.rs:27-152 | Every step of a task or a child uses up some of the channel's weight: queued payloads, unwritten bytes, phases and reports |
| CloseProgress.CloseCanBeMissed | src/shared/channels/tasks.rs:54-72 | An instance: a reachable stuck state after a close was broadcast, through the window of resubscribe |
| CloseProgress.FullQueueHoldsTheClose | src/shared/channels/reliable/send.rs:104-122 | An instance: 101 payloads over the limit on a channel that was served, and the close waits although no stream failed, because the queue of reports is full |
| RecvChannels.DispatchRefinesQueues | src/shared/peer_connection/recv_channels.rs:71-103 | Dispatch refines a map of bounded queues: the new buffer of a channel under the limit is the front of its old buffer followed by what arrived for it |
| RecvChannels.DispatchAppend | src/shared/peer_connection/recv_channels.rs:78-103 | Dispatching two queues in turn is dispatching their concatenation |
| RecvChannels.ErrorsAreRejections | src/shared/peer_connection/recv_channels.rs:87-99 | The errors are exactly the rejected payloads, in order, told from the start of the queue |
| RecvChannels.DispatchConserves | src/shared/peer_connection/recv_channels.rs:78-103 | Every payload is either stored or reported, for every configuration |
| RecvChannels.CapHolds | src/shared/peer_connection/recv_channels.rs:81-97 | Buffers stay within their bounds on every queue if and only if the cap is at least one or no receive channel is allowed: with a cap of zero the payload that opens a slot is stored |
| RecvChannels.PopFront | src/shared/peer_connection/recv_channels.rs:51-56 | Reading takes the oldest payload of the channel, if there is one, and leaves every other channel alone |
| RecvChannels.Cleared | src/shared/peer_connection/recv_channels.rs:65-69 | Clearing empties every channel |
| Receivers.HandOnKeeps | src/shared/channels/reliable/recv.rs:52-57 | One decode keeps a receiving task in step with its stream, whatever the read boundaries, and hands on the next payload ahead or nothing |
| Receivers.NextHandedOn | src/shared/channels/reliable/recv.rs:52-57 | What one decode hands on is the next payload on the stream, never another and never from the middle of a frame |
| Receivers.WayIsAhead | src/shared/channels/reliable/recv.rs:43-61 | One parse of the bytes in the decoder, in the stream and in the send buffer gives a front of the payloads not yet handed on, and all of them as long as no byte is missing |
| Receivers.NeverDeaf | src/shared/channels/reliable/recv.rs:51-52 | On a stream of deliverable payloads no decode ever ends the receiver |
| Delivery.MoveKeeps | src/shared/channels/reliable/recv.rs:43-61 | Every move of sender, stream, decoder, dispatch and application keeps the receiver in step with the stream |
| Delivery.NothingAfterStop | src/shared/channels/reliable/recv.rs:34-47 | After its stop a receiving task hands on nothing more, in every run |
| Delivery.OrderedDelivery | src/shared/channels/reliable/send.rs:48-56 | End to end, in every reachable state and whatever is lost: read, buffered, queued, on the way and unsent payloads together are the accepted ones with some left out, never reordered, duplicated or invented, as long as no accepted payload wraps the length field |
| Delivery.OrderedWithinLimit | src/shared/channels/reliable/codec.rs:57-70 | The same told from the configuration: a channel limit that fits the length field is enough |
| ExactDelivery.ExactInEveryState | src/shared/peer_connection/recv_channels.rs:78-103 | In every state reached without a losing move the same chain is exactly the accepted payloads, one for one and in order |
| ExactDelivery.ExactWithoutEvents | src/shared/channels/reliable/send.rs:34-84 | The same told from events alone: nothing over a limit and nothing after the last look at the queue is accepted, no stream error, no lost peer, no close before the channel was served, the receiver reads to the end, there is room, nothing is cleared |
| WriteProgress.CanWriteAll | src/shared/channels/reliable/send.rs:27-152 | From every state of a channel that no losing event has touched and that is served or will be, its task and children have steps, without another event, after which everything accepted is written |
| OrderedArrival.WrittenCanArrive | src/shared/channels/reliable/recv.rs:43-61 | From every state reached without a losing event, the arrival of bytes, decoding, dispatch and reading alone bring to the application what one parse of the whole stream gives |
| OrderedArrival.AcceptedCanArriveExactly | src/shared/channels/reliable/send.rs:27-85 | From every state reached without a losing event, everything accepted can arrive, one for one and in order and without another event, if and only if the channel's payloads do not wait for a spawner that has stopped |
| OrderedArrival.EveryListCanArrive | src/shared/peer_connection/recv_channels.rs:78-103 | Every list of payloads that fits is, in some run from the start and on whichever channel of the connection, accepted and read by the application exactly as it is |
| Links.FittingIsDeliverable | src/shared/channels/reliable/codec.rs:57-107 | A channel limit strictly below the receiver's and within the length field makes every fitting payload deliverable |
| Links.CleanStep | src/shared/channels/reliable/send.rs:27-152 | As long as no payload over a limit and none after the last look is accepted, no stream fails, no peer is lost and no close overtakes the spawner, every step keeps the send side of a channel free of failures and of payloads left behind |
| UnorderedDelivery.MoveKeeps | src/shared/channels/reliable/recv.rs:20-61 | Every move of senders, streams, receivers, dispatch and application keeps each of the many receiving tasks of an unordered channel in step with its own stream, and what was delivered among what they handed on |
| UnorderedDelivery.UnorderedArrivesOnce | src/shared/channels/reliable/send.rs:99-152 | End to end, in every reachable state and whatever is lost: the payloads read, buffered, queued, on the way on their own streams and unsent are a sub-multiset of the accepted ones: none twice, none invented |
| UnorderedDelivery.UnorderedArriveAll | src/shared/channels/reliable/send.rs:99-152 | Without the losing events they are exactly the accepted ones, as multisets |
| UnorderedArrival.AcceptedCanArriveExactly | src/shared/channels/reliable/send.rs:87-152 | From every state reached without a losing event, every accepted payload can arrive, each exactly once and without another event, under exactly the same condition |
| UnorderedArrival.EveryListCanArrive | src/shared/channels/reliable/send.rs:87-152 | Every list of payloads that fits is, in some run from the start, accepted and read by the application, as a multiset |
| ChannelIds.TakeThenRelease | src/shared/peer_connection.rs:58-76 | Taking an id and giving it back restores the pool, default included, if and only if that free id had not been made the default by hand |
| ChannelIds.TakesInOrder | src/shared/peer_connection.rs:47-68 | A fresh pool gives out 0, 1, 2, ... and its first id stays the default |
| ChannelIds.ChannelsIdsPool.TakeId | src/shared/peer_connection.rs:58-68 | Smallest id first, in place; an exhausted pool is an error and changes nothing |
| ChannelIds.ChannelsIdsPool.ReleaseId | src/shared/peer_connection.rs:71-76 | The id is free again and no longer the default |
| Peers.RegisterIsUpdate | src/shared/peer_connection.rs:222-231 | The gap-filled table refines a map, and is just long enough |
| Peers.RegisterAllIsUpdate | src/shared/peer_connection.rs:222-231 | After any sequence of registrations each channel is found under its id and the length is the largest id plus one |
| Peers.RegisterAnyOrder | src/server/endpoint.rs:384-389 | Registering the same channels in any order gives the same table |
| Peers.SendMeans | src/shared/peer_connection.rs:140-153 | A send is accepted if and only if the channel is there, its task takes payloads and its queue has room, and then the payload is the last in that queue and nothing else changes; each of the three failures exactly on its own guard, and the bytes are counted also when the queue refuses |
| Peers.PeerConnection.InternalSendPayload | src/shared/peer_connection.rs:140-153 | The same in place: the method is the function that `SendMeans` describes |
| Peers.CreateMeans | src/shared/peer_connection.rs:186-221 | A channel is created if and only if its creation message finds a receiver and room; the message carries the channel's own id and configuration, the channel starts empty, and nothing else changes |
| Peers.CloseChannelMeans | src/shared/peer_connection.rs:169-184 | A channel leaves the table whatever its task answers, and closing succeeds if and only if the task still listens |
| Peers.CloseMeans | src/shared/peer_connection.rs:233-242 | Everybody who listens is told the given reason, once |
| Peers.PeerConnection.InternalCloseChannel | src/shared/peer_connection.rs:172-184 | The channel leaves the table before its close signal can fail |
| Peers.PeerConnection.RegisterConnectionChannel | src/shared/peer_connection.rs:222-231 | Registration in place, with the gap filled |
| Peers.DispatchMeans | src/shared/peer_connection/recv_channels.rs:71-108 | Dispatching empties the queue behind what the buffers hold: each buffer under the limit is the front of its old content followed by what was queued for it, the errors are the payloads without room, every payload and byte is counted, and nothing else changes |
| Peers.PeerConnection.DispatchReceivedPayloads | src/shared/peer_connection/recv_channels.rs:71-108 | The whole in-place loop is the dispatch that `DispatchMeans` describes |
| Peers.ReceiveMeans | src/shared/peer_connection/recv_channels.rs:51-56 | Reading gives the oldest payload of the channel, takes it out of the buffer, and touches nothing else |
| Peers.PeerConnection.InternalReset | src/shared/peer_connection.rs:266-283 | A reset connection is a new one over the new queues |
| Endpoint.ServerEndpoint.CreateChannel | src/server/endpoint.rs:313-334 | First create on every client, then register on every client; on failure the id goes back to the pool |
| EndpointEffects.OpenTellsClients | src/server/endpoint.rs:297-334 | Opening a channel succeeds if and only if every client can take the creation message, and then each has got exactly one more, with the new id and the configuration |
| EndpointEffects.CreatesInTurn | src/server/endpoint.rs:313-325 | The creation messages go to the clients in turn until the first that cannot take one, and to nobody behind it |
| Endpoint.ServerEndpoint.CloseChannelOnClients | src/server/endpoint.rs:350-361 | The clients in turn until the first error, which leaves the id out of pool and open set |
| EndpointEffects.ClosesInTurn | src/server/endpoint.rs:350-361 | The channel leaves the clients in turn up to and including the first that cannot close it; those behind keep it |
| Endpoint.ServerEndpoint.AcceptConnection | src/server/endpoint.rs:380-407 | Every open channel, then a new id, which the acknowledgement carries; an acknowledgement that cannot be sent burns the id and adds no client; a refused connection is told to close |
| EndpointEffects.CreateAllMeans | src/server/endpoint.rs:380-390 | A new connection gets all open channels if and only if its queue has room for them, each message with the configuration under which the channel was opened |
| EndpointEffects.NewConnectionMeans | src/server/endpoint.rs:380-407 | Without room nothing changes, not even the generator; with room the next id is used up, and the connection becomes a client if and only if the acknowledgement can be sent |
| Endpoint.ServerEndpoint.InternalDisconnectClient | src/server/endpoint.rs:232-246 | The client is removed and its tasks are told, whatever they answer; no other client changes |
| EndpointEffects.DisconnectMeans | src/server/endpoint.rs:232-246 | Exactly that client is gone and counted, whatever its tasks answer |
| Endpoint.ServerEndpoint.DisconnectAllClients | src/server/endpoint.rs:273-277 | Every client is told to close and forgotten, and nothing else changes, the counters included |
| Endpoint.ServerEndpoint.BroadcastPayloadOn | src/server/endpoint.rs:153-171 | The loop over the clients in place is the broadcast function |
| Endpoint.ServerEndpoint.SendGroupPayloadOn | src/server/endpoint.rs:100-125 | The loop over the recipients in place is the group send function |
| Endpoint.GroupReachesAll | src/server/endpoint.rs:100-125 | Every recipient of a group sends the payload exactly once whatever happens on the others, nobody else is touched, and the errors are those of the recipients that refuse it, in order |
| EndpointEffects.GroupQueues | src/server/endpoint.rs:100-125 | Told from the queues: the payload is the last in the channel's queue of every recipient that can take it, and the failures are exactly those that cannot, also those that are no clients |
| Endpoint.BroadcastReachesAll | src/server/endpoint.rs:153-171 | Every client sends the payload exactly once whatever happens on the others, and an error is listed for exactly the clients that refuse it |
| EndpointEffects.BroadcastQueues | src/server/endpoint.rs:153-171 | Told from the queues: the payload is the last in the channel's queue of every client that can take it, and the failures are exactly those that cannot |
| Endpoint.RegisterOnClientsEach | src/server/endpoint.rs:326-331 | Registering walks each client once, in whatever order |
| EndpointRuns.ChannelAgreement | src/server/endpoint.rs:297-407 | In every reachable state every open channel is registered on every client under its own id, and no free id is, whatever the order of opens, failing closes, connects and disconnects |
| EndpointRuns.OpenChannelsAreUsable | src/server/endpoint.rs:200-211 | So sending to a known client on an open channel can only fail because that channel's queue is full or its task has ended |
| EndpointRuns.OpenAllOrNothing | src/server/endpoint.rs:313-334 | If creating the channel fails on any client, no table and no open channel changes and the pool is restored unless its default had been set by hand to that id |
| EndpointRuns.CloseFails | src/server/endpoint.rs:350-361 | Closing fails if and only if the channel is not open, or some client has no channel under the id or one whose task listens no more, whatever the order of the walk |
| EndpointRuns.StepStrands | src/server/endpoint.rs:350-361 | An action strands an id exactly when it closes an open channel that some client cannot close, told beforehand, and never frees a stranded one |
| EndpointRuns.CloseCanStrand | src/server/endpoint.rs:350-361 | From every state of agreement with a client: once the task of an open channel has ended there, closing the channel fails and its id is lost |
| EndpointRuns.LostIdIsReachable | src/server/endpoint.rs:350-361 | A run from a new endpoint on that loses an id |
| EndpointRuns.IdOwnership | src/shared/peer_connection.rs:58-76 | Over every run each of the 256 ids is free, open or stranded, and only one of them; the stranded ones are exactly those whose close failed |
| EndpointRuns.DefaultNeverFree | src/shared/peer_connection.rs:61-75 | A default channel never set by hand is never a free id |
| EndpointRuns.NewClientAnyOrder | src/server/endpoint.rs:384-389 | A new client ends with the same table in whatever order the hash map is walked |
| EndpointRuns.NewClientIsNeverRefused | src/server/endpoint.rs:384-405 | A new connection's creation queue takes all open channels, so an acknowledged connection is admitted |
| EndpointRuns.ConfiguredChannelsOpenInOrder | src/server.rs:182-184 | Opening any configuration on a new endpoint gives the ids 0, 1, 2, ... in order, each with its own configuration, without an error, and the unwrap never panics |
| ServerEvents.HandleServerEvents | src/server.rs:336-384 | The event system in place: messages, then channel losses, then removals |
| ServerLosses.ClientLostExactly | src/server.rs:346-383 | Told from the state before the call: a client is reported lost if and only if its connection was closed or one of its channels has reported a loss; then it is gone, otherwise it stays with the same table and queues |
| ServerLosses.LossesExactly | src/server.rs:367-383 | The same after the messages, also for clients that they admitted and whatever the ids: losses reported by channels are raised and removed, and only those |
| ServerLosses.ConnectedMeans | src/server.rs:348-358 | A new connection is reported under the next id if and only if its channels have room and the acknowledgement can be sent |
| ServerLosses.OnMessagesAppend | src/server.rs:346-365 | The messages are handled one after the other, none twice and none left out |
| EndpointEffects.ActionsMean | src/server/endpoint.rs:92-407 | Each action of a run does to the endpoint what its operation means |
| ServerEvents.CollectLost | src/server.rs:367-379 | Each client that reports a loss is listed once, however many reports it queued |
| ServerLifecycle.EventLifecycle | src/server.rs:346-383 | Every run goes on keeping the log: no event twice, losses after connections, the present clients connected and not lost |
| ServerLifecycle.EventsAtMostOnce | src/server.rs:346-383 | From an endpoint without clients on there is at most one connection and one loss event per id, the loss after the connection, and whoever was reported lost is gone from the map |
| ServerLifecycle.GoneStaysGone | src/server/endpoint.rs:232-246 | A client that is gone, also one removed by local order, raises no further event and never comes back |
| ServerLifecycle.LeavesExactlyWhenLost | src/server.rs:346-383 | Over every run: a client that the application does not remove leaves the map if and only if it is reported lost |
| ServerLifecycle.RemovedIsNeverReported | src/server/endpoint.rs:232-246 | What the application does raises no event by itself, and a client that it removes is never reported lost afterwards and never comes back |
| ServerLifecycle.SystemKeepsChannels | src/server.rs:336-384 | The event system keeps the channel agreement |
| ClientConnection.ClientSideConnection.OpenChannel | src/client/connection.rs:194-201 | An id whose creation fails is not given back |
| ClientEffects.OpenOneMeans | src/client/connection.rs:194-201 | A channel that is opened is announced with its id and configuration, and nothing else is sent |
| ClientConnection.ClientSideConnection.CloseChannel | src/client/connection.rs:203-207 | An id whose close fails is not given back |
| ClientConnection.ClientSideConnection.OpenConfiguredChannels | src/client/connection.rs:209-224 | The configured channels in order until the first failure, which gives its id back |
| ClientEffects.OpenNextMeans | src/client/connection.rs:209-224 | A configured channel is announced with the smallest free id if the queue takes it; otherwise the id is given back and nothing is sent |
| ClientEffects.ClientSendMeans | src/client/connection.rs:156-166 | A disconnected client sends nothing; otherwise a send does to the queue what `SendMeans` says |
| ClientConnection.ClientSideConnection.InternalDisconnect | src/client/connection.rs:226-237 | Disconnected first, then the tasks are told; nothing happens twice |
| ClientEffects.DisconnectMeans | src/client/connection.rs:226-237 | The first disconnection tells the tasks its reason, a second one changes nothing |
| ClientConnection.ClientSideConnection.ReconnectToServer | src/client/connection.rs:239-285 | The in-place reset and reopening is the reconnection of the state as a value |
| ClientConnection.ClientSideConnection.HandleClientEvents | src/client.rs:321-363 | Both message loops in place, with the events they raise |
| ClientEffects.EventsExactly | src/client.rs:321-363 | Exactly the events of one run, told from the two queues and the state beforehand: each message raises its own, a closed connection only if the message before has not left it disconnected, the channels at most one loss; the state afterwards, and one reason told to the tasks per loss |
| ClientEffects.ActionsMean | src/client/connection.rs:156-285 | Each action of a run does to the connection what its operation means, and leaves exactly its events |
| ClientRuns.SendChannelsConfiguration.FromConfigs | src/shared/channels.rs:185-195 | Refuses exactly the lists longer than the number of channel ids |
| ClientRuns.SendChannelsConfiguration.Add | src/shared/channels.rs:200-207 | Appends and gives the id that the channel will be opened under, up to the number of ids |
| ClientRuns.ConfiguredChannelsOpen | src/client/connection.rs:209-224 | Every configuration of the public interface opens: ids 0 to n - 1 in order, no panic, no full queue |
| ClientRuns.ReconnectIsFreshOpen | src/client/connection.rs:239-285 | After whatever history a reconnection leaves the connection exactly as a newly opened one |
| ClientRuns.OpenNeverOverwrites | src/client/connection.rs:194-201 | Opening takes the smallest free id, which has no channel, and touches no other entry |
| ClientRuns.OpenFails | src/client/connection.rs:194-201 | With a free id, opening fails if and only if the creation queue has no receiver or no room |
| ClientRuns.CloseFails | src/client/connection.rs:203-207 | Closing fails if and only if there is no channel under the id or its task listens no more |
| ClientRuns.StepKeepsIds | src/client/connection.rs:194-285 | Ids are stranded by opening and closing under exactly these conditions, told beforehand, and by nothing else, and a reconnection recovers them all |
| ClientRuns.LostIdsAreReachable | src/client/connection.rs:194-207 | Both happen: runs of a newly opened connection that lose an id by a failing open and by a failing close |
| ClientRuns.IdOwnership | src/shared/peer_connection.rs:58-76 | Over every run of a connection each id is free, open or stranded, and only one of them |
| ClientRuns.DefaultNeverFree | src/shared/peer_connection.rs:61-75 | A connection's default channel never set by hand is never a free id, also across reconnections |
| ClientRuns.LossesAlternate | src/client.rs:321-363 | Between two loss events of a connection there was a connection event or a reconnection, in every interleaving |
| ClientRuns.DisconnectedSurvives | src/client.rs:322-362 | A disconnected connection is still disconnected after the event system if and only if a channel has reported a loss, or nothing is queued, or the last queued message is no connection message |
| ClientRuns.QueuedConnectionWins | src/client.rs:324-333 | An instance: a queued connection message wins over a local disconnect |
| Clients.IrohClient.OpenNewConnection | src/client.rs:200-266 | The new connection under the next local id, and the default if there was none; a failed opening still uses up the id |
| ClientEffects.OpenConnectionMeans | src/client.rs:200-266 | Every legal configuration opens under the next local id with all its channels; a default that is set stays, and no other connection changes |
| Clients.IrohClient.CloseOneConnection | src/client.rs:282-297 | The connection is forgotten and disconnected whatever its tasks answer, and is no longer the default |
| ClientEffects.CloseConnectionMeans | src/client.rs:282-297 | Exactly that connection is forgotten, whatever its tasks answer, and the default is cleared only if it was that one |
| Clients.IrohClient.HandleAllEvents | src/client.rs:315-364 | The event system over all connections in place, in some order of the hash map |
| Clients.HandleAllEach | src/client.rs:321-363 | Whatever the order of the walk, each connection's state and events are those of its own two loops |
| Clients.CloseAllLeavesNone | src/client.rs:300-309 | Closing all connections leaves none, and no default unless it was dangling |
| ClientsRuns.ConnectionsAreIndependent | src/client.rs:200-364 | In every run of a client, what each connection went through is a run of that connection alone from its own opening, and loss events alternate on every connection, also a closed one |
| ClientsRuns.StepsMean | src/client.rs:200-364 | Each step of a client does to each connection what it does to that connection alone, and raises exactly its events under its id |
| ClientsRuns.ClosedStaysSilent | src/client.rs:207-208 | A closed connection's local id is never given out again and nothing more is raised under it |
| ClientsRuns.DefaultDangles | src/client.rs:268-291 | The default connection starts to dangle if and only if it is set by hand to an id without connection |
| ClientIdHandshake.EncodeClientId | src/server/client_id.rs:22-24 | Four length bytes 0, 0, 0, 8 and the eight base-256 digits of the id, the most significant first |
| ClientIdHandshake.ReceiveClientId | src/client/connection/client_id.rs:29-38 | Whatever the chunking and whenever the close signal comes, the outcome is that of the bytes before it: the id, a frame too short, no frame, or interrupted |
| ClientIdHandshake.ReadSentId | src/client/connection/client_id.rs:32-37 | A sent id is read back modulo 2^64, and no proper front of its frame is read as anything |
| ClientIdHandshake.ReadAnyFrame | src/client/connection/client_id.rs:29-38 | Whatever a peer sends: a length over the limit fails, a frame too short for an id is invalid, and of a longer one the first eight bytes are the id |
| ClientIdHandshake.AdmitsNextId | src/server/endpoint.rs:391-405 | An admitted connection gets the next id, and the generator moves by at most one, also when the acknowledgement fails |
| ClientIdHandshake.IdAgreement | src/server.rs:280-293 | In every reachable state of one endpoint and many clients, a connected client holds the id granted to that very connection, and no two hold the same |
| ClientIdHandshake.WaitingCanConnect | src/client/connection/client_id.rs:18-38 | From every state in which a client waits for its id and nothing has failed, it can become connected under the id granted to it |
| ClientIdHandshake.FirstClientCanConnect | src/server.rs:280-293 | Such states are reached: the first client of a server can become connected under id 1, whatever channels are open |
| ClientIdHandshake.ComesOverNewLink | src/client/connection.rs:239-285 | Opening and reconnecting use a connection of their own, with every configured channel announced on it, and leave everybody else alone |
| ClientIdHandshake.DecisionIsHeard | src/client/connection.rs:471-488 | The task that waits for the id decides once, and the next run of the event system raises exactly that id or that error; an interrupted task says nothing |
| ClientIdHandshake.GoneIsNoticed | src/client/connection.rs:438-450 | A connection that is gone leaves its client disconnected after the next run of its event system, whatever was queued before |

## Left out

- Endpoint binding, relay discovery, TLS, connecting and accepting: foreign calls without logic of this repository.
- The Bevy plugins, run conditions, resources and logging: each event system is one atomic method with its list of events.
- The `try_*` wrappers, the default-channel wrappers and the message files: thin forwarding, and a serializer that is not part of this model.
- The two queries `is_connecting` and `is_connected` and their kin on client and server: plain reads.
- Unreliable channels beyond their place in the task machine: a one-byte header and delivery that may lose anything.
- The spawner, the unordered and the unreliable task are modelled on values, as steps, not as programs with in-place state: they are concurrent, and a program per task would only add single-threaded runs of the same steps.
- Fairness: that the scheduler goes on at all, that a stream on which bytes wait can take some, and that the sync side reads its reports, are assumptions; `SeenCloseCompletes` says that nothing else is needed.
- The subscription of a client's spawner while it is still connecting: the machine starts with the subscription.
- The sender of the client id reports over the same queue at most once; here it may report at any time (`OtherReports`), which only adds states.
- A channel id that is closed and opened again on one connection has two streams: `OrderedDelivery` and `UnorderedArrivesOnce` are about an id that no other channel of the connection uses.
- OrderedDelivery: requires that no accepted payload wraps the 4-byte length field, because one that does is split at the wrong place or panics the receiver (`WrappedLengthPanics`, `RoundTrip`); `UnorderedArrivesOnce` requires the same.
- FateAtClose: about channels without stream error, oversize payload or lost peer; what an error cuts short is `NeverInvents`.
- IdAgreement: requires fewer than 2^64 admissions, because the generator is a `u64`; `EventsAtMostOnce` and `GoneStaysGone` require the same.
- Overflow of the statistics counters and of the client's local ids, which are unbounded here.
- Two connections of one client share nothing in the model but the client's map; the QUIC endpoint they share is foreign.
