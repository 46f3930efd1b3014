# Proofs about the messaging system

A Dafny model of the protocols and data structures that the instant-messaging
system (gateway, Logic service, agent and the geeRPC library) relies on, with
proofs of what they guarantee and of where those guarantees end. `dafny verify
dfyconfig.toml` checks everything.

Concurrent code is modelled as a transition system: a `State`, an `Event` for
each critical section or message, `Enabled` and `Step`. Theorems speak of every
run, `Run(events) == Some(s)`. Code that changes an object in place is a class
whose methods are tied to functions on values; the transition systems use the
same functions as their steps. Proofs by induction call themselves, with Dafny's
automatic induction switched off.

## The parts

**geeRPC.** `RpcTable` has the client's table of pending calls, as functions and
as a class. `RpcClient` interleaves senders, the receiver, `terminateCalls`,
`Close` and cancelled callers, lock by lock. `RpcServer` has the reader, and for
each request a main goroutine racing a timer against a worker on an unbuffered
channel. `RpcOutcomes` and `RpcAnswers` say, from the events of a run alone, what
each call is completed with and what each request is answered, and `RpcProgress`
that neither side can get stuck. `RpcSystem` joins both over two first-in-first-out
streams, and `RpcRuns` has runs of it in which a caller is misled. `Framing` is the
protobuf codec: length prefixes, the buffered writer, and what the server makes of
the frames; `RpcHeader` has the bytes of a request header.

**Messages.** `Messages` is the message table with its guarded updates. `Uploads`
is the upload queue with its consumers, under crashes and redelivery, and
`Redelivery` what becomes of an upload in the long run. `UploadConsumer` has the
handlers themselves as methods, with all their effects, and `UploadRuns` shows
that these handlers are runs of `Uploads`. `Outbox` is a client's bounded channel
with its one writer, and `Sessions` the gateway's session table with logins,
kicks and logouts, each connection with such a channel; `Gateway` has the
gateway's handlers as methods. `Delivery` joins uploads and logins: the handoff
between a worker that stores a message and then looks for a route, and a login
that writes a route and then reads the messages. `Loss` says which messages can
still be shown, and `LossRuns` has runs that lose one. `Sequences` has the
conversation keys and their counters.

**The rest.** `Ring` is the consistent-hash ring and `Discovery` the server list
that owns one; `Snowflake` the message numbers; `RateLimit` the sliding window.
`Decimal`, `IntSets` and `Wrappers` are shared.

## What turned out not to hold

The model follows the code. Where the code falls short of what its comments or
documentation say, or of what one would expect, one lemma gives an input on which
it does, and another says exactly when.

- A message that a login marks as read may never have been sent to anybody,
  contrary to `README.md:199` and `README.md:201`. It takes a publish down that
  fails (`LossRuns.MessageLostInSilence`), or just two logins of one user
  (`LossRuns.TwoLoginsLoseAMessage`). In any reachable state a stored message that
  was never shown can still be shown if and only if it is unread, on its way down,
  still to be published, or held or about to be offered by a live connection
  (`Loss.MessageCanBeShownIff`).
- The unread messages of a login do not all get into the client's channel. One is
  refused if and only if the channel is full, or the client is closed and the
  sender notices that first (`Sessions.OfferIsRefusedIff`); none is as long as the
  client is open and was not sent more than 1024 messages, whoever else sends
  (`Sessions.SyncIsCompleteWithinRoom`).
- The delivered notification is sent even if the client's channel did not take
  the message, although `apps/gateway/ws/mq_consumer.go:73` says it was written
  (`LossRuns.DeliveredButDropped`, `Loss.NotifiedThoughDroppedIff`).
- An upload that was acknowledged to its sender can be lost, because the publish
  is not confirmed (`Uploads.AcknowledgedUploadCanBeLost`); it is kept if and only
  if it reached the queue (`Uploads.AcknowledgedIsKeptIffItArrived`).
- A single or AI chat that is stored can go round for ever
  (`Redelivery.UploadCanBeStranded`): it can be settled if and only if it is not
  stored yet, or a worker that saw its own insert succeed still holds its delivery
  (`Redelivery.UploadCanBeSettledIff`).
- A group message can be stored twice for any member
  (`Redelivery.GroupMessageIsDoubled`), if and only if its delivery is not settled
  or some worker of it still has the member before it
  (`Redelivery.GroupMessageCanBeDoubledIff`).
- A connection can miss a message and get a later one: a client that is being
  closed may drop the first and accept the second (`Outbox.GapAfterKick`,
  `Outbox.NoGapWithoutLateAcceptance`, `Outbox.LateAcceptanceCanReachAGap`).
- A handler that fails can look like success to its caller
  (`RpcRuns.EmptyErrorReadsAsSuccess`), if and only if its error text is empty
  and it beat the timer (`RpcSystem.FailureReadsAsSuccessIff`).
- The body of an unknown method is left unread, and so is that of a known one
  whose argument is no protobuf message. The server takes it for a header and
  answers more often than it was asked: whole requests are served one for one if
  and only if every method is known and takes a message
  (`Framing.ServedOneForOneIffAllTaken`).
- A call whose arguments cannot be encoded leaves its header for the next request,
  and a later call can then be given the result for somebody else's arguments
  (`RpcRuns.StrayHeaderMixesUpArguments`). What a client writes is served request
  for request if and only if no header that was left alone went out, with a later
  write or from a full buffer, and the methods are as above
  (`Framing.WritesServedOneForOneIff`).
- A reply that cannot be encoded leaves its header on the connection
  (`RpcServer.HeaderIsLeftAlone`); the connection holds whole responses if and
  only if that never happened (`RpcServer.WireHoldsWholeResponses`,
  `Framing.StreamIsPairsIffNoHeaderLeft`).
- After 2^64 registrations on one connection a waiting call loses its place
  (`RpcClient.WrapAroundLosesACall`): a registration displaces a call if and only
  if its number is in use (`RpcTable.RemoveUndoesRegister`).
- Calls that share a completion channel can block the client for ever
  (`RpcClient.SharedChannelCanBlock`). With nobody receiving, a termination gets
  through the table if and only if every channel has room for what it holds and
  for all the calls still to be completed on it (`RpcClient.TerminationFinishesIff`,
  `RpcTable.Client.TerminateCalls`); a channel with room for all calls outstanding
  on it never blocks (`RpcClient.SharedCompletionNeverBlocks`).
- The limiter can forget admissions of the last minute. An admission is retained
  until a request comes with a time a minute later, or finds the stored set
  expired. In every run, whatever the order, a request counts exactly the minute
  before it if and only if it finds the set alive or nothing recent, and all that
  is recent is retained (`RateLimit.CountsTheLastMinuteIff`). It is refused only if
  there are five admission times in that minute
  (`RateLimit.RefusedIffFiveTimesInTheLastMinute`), and admitted in spite of five if
  and only if the set has expired or fewer than five are retained
  (`RateLimit.AdmittedTooSoonIffForgotten`). Inputs are a request overtaken by one
  with a later time (`RateLimit.OvertakenRequestCountsTooFew`), and one that comes
  after an expiry (`RateLimit.ExpiryIsFeltLater`). For whole runs see
  `RateLimit.FaithfulIff`; simultaneous admissions count once
  (`RateLimit.SameTimeIsNeverRefused`).
- With the protobuf codec the server never notices that a client has gone: it
  answers number 0 for ever (`Framing.ClosedStreamIsServedForEver`), because its
  reader stops if and only if the codec reports an error for a header
  (`RpcServer.ReaderStopsIffReadFailed`), which `ReadHeader` never does.
- A caller of the server list that goes on writing to its slice makes the ring
  answer with a server that the list no longer has
  (`Discovery.RingOutlivesTheList`); the answer is always one that was handed over
  (`Discovery.MultiServersDiscovery.Get`).

## Model

| member | source | states |
|---|---|---|
| RpcTable.RemoveUndoesRegister | apps/pkg/geeRPC/client.go:91-113 | Removing the number just handed out returns that call, and the table is as before if and only if the number was not in use |
| RpcTable.Client.constructor | apps/pkg/geeRPC/client.go:177-188 | A new client starts with number 1, no pending call and neither flag set |
| RpcTable.Client.Close | apps/pkg/geeRPC/client.go:73-81 | Sets the closing flag and nothing else; fails the second time, and the first time as the codec does |
| RpcTable.Client.RegisterCall | apps/pkg/geeRPC/client.go:91-104 | Refuses, without any change, if and only if the client is closing or shut down; otherwise hands out the next number, under which the call now is in the table, and counts on modulo 2^64 |
| RpcTable.Client.RemoveCall | apps/pkg/geeRPC/client.go:107-113 | Returns what the number stood for, if anything, and removes nothing else |
| RpcTable.Client.TerminateCalls | apps/pkg/geeRPC/client.go:116-126 | Sets the shutdown flag and finishes if and only if every channel, which calls may share, has room for what it holds and for all the pending calls on it; then every pending call has one error and one completion on its channel, behind what was there, and all stay in the table |
| RpcClient.InvPreserved | apps/pkg/geeRPC/client.go:91-158 | Each step of senders, receiver, cancelling callers and close keeps the invariant that accounts for every call: pending under its own number, in one goroutine's hand, completed, or given up |
| RpcClient.CompletedAtMostOnce | apps/pkg/geeRPC/client.go:254-281 | In every interleaving a call is completed at most once, although terminated calls stay pending |
| RpcClient.CompletionNeverBlocks | apps/pkg/geeRPC/client.go:36-38 | Whoever is about to complete a call finds that nothing was ever sent for it, so with a channel of its own nobody blocks there with a mutex held |
| RpcClient.SharedCompletionNeverBlocks | apps/pkg/geeRPC/client.go:284-290 | However calls share channels, a completion finds room if the channel has room for every call outstanding on it |
| RpcClient.TerminationFinishesIff | apps/pkg/geeRPC/client.go:116-126 | For a termination in progress, in any order of the table and with nobody receiving: every completion finds room if and only if every channel has room for what it holds and all the completions still to go to it |
| RpcClient.SharedChannelCanBlock | apps/pkg/geeRPC/client.go:116-126 | A run on which two calls share a channel of capacity one and the terminating receiver finds it full, with both mutexes held |
| RpcClient.NoCallIsLost | apps/pkg/geeRPC/client.go:129-158 | A submitted call that is neither completed nor given up is pending under its own number or in the receiver's hand, and never both |
| RpcClient.ShutdownCompletesEveryCall | apps/pkg/geeRPC/client.go:116-158 | When the receiver has exited, every submitted call that was not given up has been completed exactly once |
| RpcClient.BacklogIsReachable | apps/pkg/geeRPC/client.go:91-104 | Any number of calls can be under way at once, the first still waiting |
| RpcClient.WrapAroundLosesACall | apps/pkg/geeRPC/client.go:98-102 | After 2^64 registrations a waiting call is nowhere in the table and in nobody's hand |
| RpcOutcomes.CompletionHasItsCause | apps/pkg/geeRPC/client.go:129-158 | In every interleaving a call that was answered holds the error text of its response if that is not empty, else the body if it was read, else an error; a call that was refused, not written or terminated holds an error |
| RpcOutcomes.LocalErrorIff | apps/pkg/geeRPC/client.go:116-158 | A call fails on the client's own side if and only if it was refused, its request could not be written, it was terminated, or its body could not be read after an empty error text |
| RpcOutcomes.ReceiverStopsIff | apps/pkg/geeRPC/client.go:129-158 | The receiver goes on to terminate all calls if and only if a header or a body could not be read |
| RpcOutcomes.NothingIsAddedAfterClose | apps/pkg/geeRPC/client.go:91-104 | Once the client is closed or shut down, no later event issues a number or adds to the table |
| RpcOutcomes.LateCallsAreRefused | apps/pkg/geeRPC/client.go:254-270 | A call made, or about to be registered, when the client is already closed or shut down never gets a number and is completed with an error |
| RpcOutcomes.ClosingIff | apps/pkg/geeRPC/client.go:73-81 | The client is closing if and only if it has been closed |
| RpcProgress.CanShutDown | apps/pkg/geeRPC/client.go:116-158 | From every reachable state, whoever holds a mutex, the receiver can terminate all calls and exit |
| RpcProgress.EveryCallCanBeCompleted | apps/pkg/geeRPC/client.go:254-281 | In every reachable state every call that was not given up is completed or can still be |
| RpcProgress.GivenUpIsForgotten | apps/pkg/geeRPC/client.go:317-327 | A call whose caller has given up is not in the table |
| RpcProgress.CallersCanGoOn | apps/pkg/geeRPC/client.go:317-327 | In every reachable state a caller whose call is completed can take it, and one that is giving up can do so, if need be after a termination under way |
| RpcServer.InvPreserved | apps/pkg/geeRPC/server.go:108-133 | Each step of the reader, the main goroutines and the workers keeps the server's invariant, including that the wait group counts the requests still at work |
| RpcServer.AnsweredAtMostOnce | apps/pkg/geeRPC/server.go:211-273 | Every request read gets at most one response, with its own number, and the response is the handler's result, the handler's error or the timeout according to who won the race; it has none exactly as long as its answer is due |
| RpcServer.WrittenResponsesAreDistinctAnswers | apps/pkg/geeRPC/server.go:198-206 | Two responses on the connection answer different requests, each with the one response that request got |
| RpcServer.ClosedAfterEveryAnswer | apps/pkg/geeRPC/server.go:113-133 | The codec is closed only when every request has had its response attempted and no goroutine can write any more |
| RpcServer.ReaderStopsIffReadFailed | apps/pkg/geeRPC/server.go:113-133 | In every interleaving the reader has stopped, so that the connection can be closed, if and only if the codec has reported an error for some header |
| RpcServer.WireHoldsWholeResponses | apps/pkg/geeRPC/server.go:198-206 | In every interleaving, while no write fails, the connection parses between two responses as whole header-and-body pairs if and only if no body failed to be encoded |
| RpcServer.HeaderIsLeftAlone | apps/pkg/geeRPC/codec/protobuf.go:74-92 | A run on which a reply that cannot be encoded leaves its header on the connection |
| RpcAnswers.RequestsBecomeJobs | apps/pkg/geeRPC/server.go:108-133 | Every request read is one job, in the order of reading, with its own number, method and arguments; a request for an unknown method gets no response but its own number with the text of the refusal and no body |
| RpcAnswers.UnknownIsAnswered | apps/pkg/geeRPC/server.go:118-124 | For every method name and every text of a refusal there is a run on which that text is the response that reaches the connection |
| RpcAnswers.AnswerIsDecided | apps/pkg/geeRPC/server.go:211-273 | An accepted request's one response bears its number and the reply that its handler returned, or the handler's error, if the handler was heard before the timer, and the timeout otherwise |
| RpcProgress.EveryRequestCanBeAnswered | apps/pkg/geeRPC/server.go:198-273 | From every reachable state in which no write has failed, every request without a response can be given one that reaches the connection whole |
| RpcProgress.ConnectionCanBeClosed | apps/pkg/geeRPC/server.go:113-133 | From every reachable state the server can deal with every request it has read and close the connection |
| RpcSystem.InvPreserved | apps/pkg/geeRPC/client.go:129-158 | Each step of client, server and network keeps the joint invariant; as long as no header left alone has gone out, requests sent, requests served and responses read belong to the same calls |
| RpcSystem.SentIsCounted | apps/pkg/geeRPC/client.go:273-279 | The connection has the requests whose writing succeeded, or failed after they had arrived, two frames each, and otherwise headers left alone |
| RpcSystem.WritesAreSends | apps/pkg/geeRPC/client.go:273-279 | The client reports as many writes, good and failed, as the system has sends: nothing is sent unless a call is being written |
| RpcSystem.OneTokenPerNumber | apps/pkg/geeRPC/server.go:108-133 | As long as no header left alone has gone out: for every number, requests under way, requests owed an answer and responses under way are together at most one |
| RpcSystem.CallGetsItsOwnResult | apps/pkg/geeRPC/client.go:129-158 | As long as no header left alone has gone out, a call completed by the server holds what the handler made of that call's own method and arguments, or the handler's error, or the timeout, from the only job that ran for it |
| RpcSystem.SidesRun | apps/pkg/geeRPC/client.go:129-158 | Either side of a run of the system is a run of that side alone |
| RpcSystem.LocalErrorIff | apps/pkg/geeRPC/client.go:116-158 | In the whole system, too, a completion is an error of the client's own if and only if the call was refused, not written or terminated, or its body could not be read after an empty error text |
| RpcSystem.FailureReadsAsSuccessIff | apps/pkg/geeRPC/client.go:143-153 | A call whose handler failed, and whose response was read whole, looks like success if and only if the error text is empty and the worker, not the timer, answered; otherwise it holds the text, or the timeout |
| RpcRuns.EmptyErrorReadsAsSuccess | apps/pkg/geeRPC/client.go:143-153 | There is a run in which a handler fails with an empty text and its caller sees success |
| RpcRuns.StrayHeaderMixesUpArguments | apps/pkg/geeRPC/client.go:273-279 | A run of three calls: the first fails with its header left in the buffer, and the second is completed with the result for other arguments than its own |
| RpcRuns.FullBufferHandsOn | apps/pkg/geeRPC/codec/protobuf.go:65-98 | A run on which a header left alone goes out without any later write |
| RpcRuns.FailedWriteMayHaveArrived | apps/pkg/geeRPC/client.go:273-281 | In every reachable state a caller that is told its request could not be written may have had it arrive whole, or not at all |
| RpcRuns.SwallowedErrorStopsTheClient | apps/pkg/geeRPC/client.go:131-141 | In every reachable state a header that could not be read, whose error the codec swallows, lets the client stop, when the body that is not there cannot be read either; nothing else has changed |
| RpcHeader.HeaderRoundTrip | apps/pkg/geeRPC/codec/protobuf.go:65-72 | The bytes of a request header give back its method and its number |
| Framing.LengthRoundTrip | apps/pkg/geeRPC/codec/protobuf.go:104-107 | The four length bytes give back the length modulo 2^32 |
| Framing.LengthIsBigEndian | apps/pkg/geeRPC/codec/protobuf.go:129-133 | The most significant byte comes first: the length bytes are ordered as the lengths are |
| Framing.FrameRoundTrip | apps/pkg/geeRPC/codec/protobuf.go:101-138 | A message survives the trip, whatever follows it, if and only if its length fits 32 bits |
| Framing.CutFrameIsNoticedOnlyWithoutLength | apps/pkg/geeRPC/codec/protobuf.go:104-113 | A frame cut off anywhere is reported only if fewer than four bytes of it arrived |
| Framing.ListRoundTrip | apps/pkg/geeRPC/codec/protobuf.go:101-146 | Any list of messages survives the trip if and only if all their lengths fit 32 bits |
| Framing.StreamIsPairsIffNoHeaderLeft | apps/pkg/geeRPC/codec/protobuf.go:65-98 | The connection parses as the pairs of the successful writes if and only if no write stopped between header and body |
| Framing.ProtobufCodec.Flush | apps/pkg/geeRPC/codec/protobuf.go:97-97 | Hands the buffer to the connection; after one failure, which may come in the middle, it fails for good and writes nothing more |
| Framing.ProtobufCodec.Append | apps/pkg/geeRPC/codec/protobuf.go:130-137 | Appends bytes to the buffered writer, of which a full buffer may hand some on early; if that fails only a first part of them was appended, and the writer refuses everything from then on |
| Framing.ProtobufCodec.WriteMessage | apps/pkg/geeRPC/codec/protobuf.go:122-138 | Appends one frame, or nothing if the message cannot be marshalled or the writer has failed, or a first part of the frame if the writer fails meanwhile |
| Framing.ProtobufCodec.WriteEmptyBody | apps/pkg/geeRPC/codec/protobuf.go:141-146 | Appends one empty frame and flushes, unless the writer has failed or fails meanwhile |
| Framing.ProtobufCodec.WriteBody | apps/pkg/geeRPC/codec/protobuf.go:78-97 | Appends the body's frame and flushes, or leaves everything as it is if the body cannot be marshalled; a writer that fails meanwhile has taken a first part of the frame |
| Framing.ProtobufCodec.Write | apps/pkg/geeRPC/codec/protobuf.go:65-98 | Succeeds if and only if both parts can be marshalled, the writer neither has failed nor fails meanwhile and the connection takes the bytes; appends the frames of header and body, or a first part of them if the writer fails, and on success nothing stays in the buffer |
| Framing.ProtobufCodec.NextMessage | apps/pkg/geeRPC/codec/protobuf.go:101-120 | Reads one whole frame and fails if it is wanted and cannot be parsed; a frame cut short uses up the stream and is an error only if the length is missing |
| Framing.ProtobufCodec.ReadHeader | apps/pkg/geeRPC/codec/protobuf.go:38-51 | Never reports an error: without a whole frame that can be parsed the header stays blank |
| Framing.ProtobufCodec.ReadBody | apps/pkg/geeRPC/codec/protobuf.go:53-63 | Reads one frame and drops it if nothing is to be filled, or parses it into a message; fails and reads nothing if the target is no message |
| Framing.ServedOneForOneIffAllTaken | apps/pkg/geeRPC/server.go:171-196 | On a connection that stays open, the server answers request for request, each with its own body, if and only if every method is known and takes a protobuf message; otherwise it answers more often than it was asked |
| Framing.WritesServedOneForOneIff | apps/pkg/geeRPC/codec/protobuf.go:65-98 | Whatever a client writes, its whole requests are served one for one if and only if no header left alone went out, flushed by a later write or handed on by a full buffer, and every method is known and takes a message |
| Framing.WrittenUpToLastFlush | apps/pkg/geeRPC/codec/protobuf.go:65-98 | The connection has the frames of all writes up to the last one that succeeded, and the buffer those of the rest |
| Framing.ClosedStreamIsServedForEver | apps/pkg/geeRPC/codec/protobuf.go:38-51 | When the peer has closed the connection the server answers what it got, and then number 0 for as many rounds as one likes |
| Messages.RowDependsOnReceiptsGot | apps/logic/dao/messages.go:19-46 | What a row becomes depends only on whether it was ever marked read and whether it was ever marked delivered |
| Messages.ReceiptsCommute | apps/logic/dao/messages.go:19-46 | Two lists with the same receipts, in any order and any number, leave the same table |
| Messages.ReceiptsOnlyAdvance | apps/logic/models/messages.go:9-38 | Status and read flag never go back, a confirmed row is read, in a single or group chat read and confirmed are the same, and nothing else of the row changes |
| Messages.MessageStore.InsertMessage | apps/logic/dao/messages.go:8-11 | Stores the row and succeeds, or fails: without effect if the key is taken or the database is down, or after the row was stored |
| Messages.MessageStore.GetUnreadMessages | apps/logic/dao/messages.go:13-17 | Returns exactly the receiver's unread rows, or an error |
| Messages.MessageStore.MarkMessagesAsRead | apps/logic/dao/messages.go:19-27 | Leaves the receiver no unread row and other rows as they are, which it may have done even if it fails |
| Messages.MessageStore.MarkMessageAsRead | apps/logic/dao/messages.go:29-38 | Marks one unread row as read and confirmed, which it may have done even if it fails |
| Messages.MessageStore.MarkSendTransportDelivered | apps/logic/dao/messages.go:41-46 | Moves one row from unsent to handed on, and from no other status, which it may have done even if it fails |
| Uploads.InvPreserved | apps/logic/service/upload_consumer.go:45-191 | Each step of broker and workers, crashes, redeliveries and inserts that take effect but report an error included, keeps the invariant on queue, holders, rows and fates |
| Uploads.AcknowledgedIsKeptIffItArrived | apps/pkg/mq/rabbitmq.go:142-155 | In every reachable state an acknowledged single or AI chat is queued, with a worker or stored if and only if it reached the queue; what is stored under its number has its sequence number, sender, receiver, group and content |
| Uploads.AcknowledgedUploadCanBeLost | apps/gateway/ws/chat.go:88-97 | A run on which a message is acknowledged to its sender and kept nowhere, then or later |
| Uploads.StoredOnce | apps/logic/service/upload_consumer.go:83-89 | A message is stored once and for all: whatever happens later, its row stays and only receipts change it |
| Uploads.PublishedDownAtMostOnce | apps/logic/service/upload_consumer.go:102-121 | A message is published down at most once in a whole run, and only when it is stored |
| Uploads.RoutedIsPublished | apps/logic/service/upload_consumer.go:102-120 | In every reachable state a worker that has found a route goes on to publish its message, unless it crashes |
| Redelivery.StoredUploadGoesRoundInCircles | apps/logic/service/upload_consumer.go:58-62 | A redelivered upload that is already stored can only be sent back, and can then be delivered once more |
| Redelivery.UploadCanBeSettledIff | apps/logic/service/upload_consumer.go:45-76 | In any reachable state an upload that is queued or held can still be settled if and only if it is not stranded: stored, and waiting or with a worker that has not seen its own insert succeed |
| Redelivery.UploadCanBeStranded | apps/logic/service/upload_consumer.go:58-62 | Runs on which any single or AI chat ends up stranded: its delivery is taken back too early, or its insert takes effect and reports an error |
| Redelivery.OneRowPerMemberAndDelivery | apps/logic/service/upload_consumer.go:134-147 | Crashes in the middle included, one delivery of a group message to one worker stores at most one row for each member of a list without duplicates |
| Redelivery.GroupRowIsTheMessage | apps/logic/service/upload_consumer.go:134-147 | Whatever is stored for a group message has its sequence number, sender, group and content, and is addressed to the member at one place of the list that a delivery fetched |
| Redelivery.GroupMessageCanBeDoubledIff | apps/logic/service/upload_consumer.go:124-179 | In any reachable state a group message with one row for a member can get a second if and only if its delivery is unsettled or some worker of it still has the member before it |
| Redelivery.GroupMessageIsDoubled | apps/logic/service/upload_consumer.go:140-143 | A run on which any group message is stored twice for any member but its sender, after a crash in the middle of the fan-out |
| UploadConsumer.Consumer.InsertMessage | apps/logic/dao/messages.go:8-11 | Succeeds exactly if the database is up and the number is free; the row is stored, and recorded as an effect, also if only the answer is an error |
| UploadConsumer.Consumer.HandleSingleChat | apps/logic/service/upload_consumer.go:79-121 | Stores an unread row with the upload's sequence number, sender, receiver, group and content, and only then publishes the same message, without a group, to the gateway of its receiver's route; fails exactly if the insert or the look-up fails, and the row stays in the second case, or if the insert took effect all the same |
| UploadConsumer.Consumer.HandleGroupChat | apps/logic/service/upload_consumer.go:124-179 | Fails without any effect if the members cannot be fetched, and otherwise succeeds with exactly the effects of the fan-out |
| UploadConsumer.Consumer.HandleAIChat | apps/logic/service/upload_consumer.go:182-191 | Stores one row with the upload's sequence number, sender, receiver, group and content, already read, and publishes nothing |
| UploadConsumer.Consumer.HandleUploadDelivery | apps/logic/service/upload_consumer.go:45-76 | Dropped exactly if unreadable; acknowledged without effect if of unknown type; otherwise stored and published as the message it is, and acknowledged or sent back according to its handler |
| UploadConsumer.KeysAfter | apps/logic/service/upload_consumer.go:134-147 | After any number of members the table holds the old numbers and those of the members written to, no others |
| UploadConsumer.RowsAfter | apps/logic/service/upload_consumer.go:134-147 | Each member written to has its own row with the message's contents, and no older row is touched |
| UploadConsumer.NewRowsOfAMember | apps/logic/service/upload_consumer.go:134-147 | A user gets one new row for each place in the member list, unless it is the sender or the insert has no effect, and nobody else gets any |
| UploadConsumer.OneRowForEachMember | apps/logic/service/upload_consumer.go:124-179 | Without duplicates each member but the sender whose insert takes effect has exactly one new row, all with one sequence number and one group |
| UploadConsumer.PublishedAfterStored | apps/logic/service/upload_consumer.go:144-176 | Every publish, successful or not, announces a row stored before it with the same contents |
| UploadConsumer.PublishedIffOnline | apps/logic/service/upload_consumer.go:149-176 | There is a publish for exactly those members whose insert succeeded and whose route was found |
| UploadConsumer.RedeliveredGroupMessageIsDoubled | apps/logic/service/upload_consumer.go:140-143 | After two fan-outs of one message a member has exactly the rows of the passes that wrote to it: two equal ones under different numbers if and only if both did |
| UploadRuns.NotifyIsARun | apps/logic/service/upload_consumer.go:91-121 | Look-up and publish, whatever the outcome, are steps of a worker and leave what the handler promises |
| UploadRuns.UploadIsARun | apps/logic/service/upload_consumer.go:45-76 | Handling a single or AI chat is a run of one worker, ending ready to acknowledge or to send back as the handler's contract says |
| UploadRuns.MemberIsARun | apps/logic/service/upload_consumer.go:134-177 | The fan-out's part for one member is a run of one worker |
| UploadRuns.FanOutIsARun | apps/logic/service/upload_consumer.go:124-179 | The whole fan-out is a run of one worker, with the same rows and the same publishes in the same order |
| UploadRuns.RedeliveredGroupIsStoredTwice | apps/logic/service/upload_consumer.go:64-68 | The system has a run from the first delivery of a group message, taken back after its fan-out, to a state in which each member has exactly the rows of both passes |
| Outbox.Client.constructor | apps/gateway/ws/client.go:26-33 | A new client has an empty channel and is open |
| Outbox.Client.Close | apps/gateway/ws/client.go:74-86 | Only the first call has an effect |
| Outbox.Client.SendMessage | apps/gateway/ws/client.go:38-71 | Appends to the channel, or drops the message and leaves the client closed; which, depends on room and on the branch taken when both are ready |
| Outbox.InvPreserved | apps/gateway/ws/client.go:38-115 | Each step of senders, closers and the writer keeps the channel's invariant |
| Outbox.NoDropWithinRoom | apps/gateway/ws/client.go:38-71 | However slow the writer, nothing is dropped as long as the client is open and was not sent more than the channel holds |
| Outbox.SendsAreCounted | apps/gateway/ws/client.go:52-70 | Messages are numbered in the order of their sends, and the first one dropped is the first that found the channel full, or the client closed and noticed that first |
| Outbox.WriterStopsIff | apps/gateway/ws/client.go:88-115 | The writer stops if and only if a write fails, and then a message was lost with it, or it notices that the client was closed |
| Outbox.NothingIsWrittenAfterwards | apps/gateway/ws/client.go:88-115 | A writer that has stopped writes nothing more |
| Outbox.NoGapWithoutLateAcceptance | apps/gateway/ws/client.go:38-115 | The channel stays within 1024, the close body runs at most once, and what is written is a prefix of what was sent unless a message was accepted after a drop on an open connection |
| Outbox.WriterCanStop | apps/gateway/ws/client.go:88-115 | From every reachable state the writer can fail at what is left to write, even on an open connection, or stop because the client is closed, with nothing more written |
| Outbox.Drain | apps/gateway/ws/client.go:88-115 | A living writer on an open connection can write out everything accepted, in order |
| Outbox.LateAcceptanceCanReachAGap | apps/gateway/ws/client.go:53-69 | From every point at which such an acceptance is possible the run can go on to a gap, so the condition is exact |
| Outbox.GapAfterKick | apps/gateway/ws/client.go:53-69 | A run of a closing client whose connection gets the second message but not the first |
| Sessions.CliMap.Register | apps/gateway/ws/manager.go:21-35 | Replaces the user's client; the former one is closed, after a kick message if its channel has room |
| Sessions.CliMap.Remove | apps/gateway/ws/manager.go:44-55 | Takes the entry away if and only if this very client is registered, and with it the route if that can be deleted |
| Sessions.InvPreserved | apps/gateway/ws/manager.go:21-55 | Each step of logins, logouts, senders, closers and writers keeps the invariant on sessions, routes and channels |
| Sessions.CurrencyIsNotRegained | apps/gateway/ws/manager.go:21-35 | A connection that has been replaced never becomes current again |
| Sessions.OneOpenConnectionAUser | apps/gateway/ws/manager.go:21-35 | In every interleaving, of two registered connections of one user that have not been torn down, one is closed |
| Sessions.TeardownTouchesOnlyItsOwnSession | apps/gateway/ws/client.go:117-124 | A teardown removes the entry of its own current session, and that user's route if the deletion succeeds, and otherwise nothing; no other user's route changes |
| Sessions.LateTeardownIsHarmless | apps/gateway/ws/manager.go:44-55 | However late, and whatever has happened since, the teardown of a replaced connection removes nobody's entry and nobody's route |
| Sessions.CurrentSessionIsRouted | apps/gateway/ws/handler.go:67-77 | In every interleaving a registered connection whose route was written has that route |
| Sessions.RouteWasWritten | apps/gateway/ws/handler.go:67-77 | A user has a route only if a login of that user has written it |
| Sessions.LoginCanEndEitherWay | apps/gateway/ws/handler.go:64-91 | From every reachable state a login that has not read its messages yet can come to its regular end, or get stuck without a reader |
| Sessions.LoginIsTold | apps/gateway/ws/handler.go:64-91 | A connection is served if and only if its synchronisation succeeded, or found nothing to send, and it has not been torn down; it is stuck if and only if its synchronisation failed; its route was written if and only if that write succeeded |
| Sessions.OverflowHoldsUpTheLogin | apps/gateway/ws/client.go:62-70 | A login that makes its client's channel overflow does not go on before that client is closed |
| Sessions.OfferIsRefusedIff | apps/gateway/ws/client.go:52-70 | A login's unread message is refused by the channel if and only if that is full, or the client is closed and the sender notices that first |
| Sessions.UnreadIsUnderWayUnlessRefused | apps/gateway/ws/handler.go:99-116 | In every interleaving with writer, other senders and closers, each unread message that a login has offered is written or on its way while the writer lives, unless it was refused |
| Sessions.SyncIsCompleteWithinRoom | apps/gateway/ws/handler.go:99-116 | None is refused as long as the client is open and was not sent more than 1024 messages in all |
| Sessions.UnreadCanBeCrowdedOut | apps/gateway/ws/client.go:52-70 | A run on which a login's only unread message is refused, because other senders have filled the channel |
| Gateway.Gateway.SyncMessage | apps/gateway/ws/handler.go:93-128 | Offers every unread message to the client once, then marks all the user's messages as read, which may take effect even if it fails; succeeds if both calls do or nothing was unread |
| Gateway.Gateway.Handler | apps/gateway/ws/handler.go:64-91 | A login closes the former client, registers the new one, writes the route if it can and then synchronises; without a successful synchronisation it stays registered but unserved |
| Gateway.Gateway.HandleMQDelivery | apps/gateway/ws/mq_consumer.go:45-82 | Acknowledged unless unreadable; notified exactly if the receiver has a client, whether or not its channel took the message |
| Gateway.Gateway.HandleChat | apps/gateway/ws/chat.go:51-190 | An upload is numbered, then published, then acknowledged to its sender. What is published names the sender, the chat's receiver (nobody for an AI chat), its group (for a group chat only) and its content, and the number after its sender's counter in that very conversation. An unreadable chat does nothing, no acknowledgement comes without a publish, a number once drawn is not given back, and without a manager all numbers are zero |
| Gateway.AckNamesItsMessage | apps/gateway/ws/chat.go:93-97 | Two acknowledgements are alike if and only if message number and sequence number are |
| Gateway.RoomDecides | apps/gateway/ws/client.go:52-70 | An open channel takes as many messages as it has room for, in order, and the first one too many closes it |
| Gateway.SyncIsCompleteIffItFits | apps/gateway/ws/handler.go:99-120 | While the writer does not run, a login's unread messages all get into the channel if and only if there are at most 1024; otherwise exactly the first 1024 do and the client is closed |
| Delivery.InvPreserved | apps/gateway/ws/handler.go:67-120 | Each step of uploads and logins together keeps the joint invariant, including that between snapshot and bulk update an unread row outside the snapshot was stored after the route was written |
| Delivery.LoginHandoff | apps/gateway/ws/handler.go:67-120 | A row that a current, routed session marked as read without having read it belongs to a worker that will find the route, has found it, has published or has failed in between; never to one that found the user offline |
| Delivery.ServedMeansRead | apps/gateway/ws/handler.go:99-128 | In every interleaving, once a login is served, all the unread messages that it found are its user's and are read |
| Delivery.StaysOnItsWay | apps/gateway/ws/mq_consumer.go:45-82 | A message on its way down stays so, whatever happens, until the gateway has taken it |
| Delivery.DeliveredMeansHandedOver | apps/gateway/ws/mq_consumer.go:71-81 | A row stands at "handed on, not confirmed" only if it was published down and sent to a client, whose channel may have dropped it |
| Loss.LossIsForEver | apps/gateway/ws/handler.go:117-120 | A message that is read, was never written to a connection and is not on its way to one stays so whatever happens |
| Loss.MessageCanBeShownIff | apps/gateway/ws/handler.go:93-128 | In any reachable state a stored message never written to a connection still can be if and only if it is unread, on its way down, still to be published, or held or about to be offered by an open connection with a living writer |
| Loss.NotifiedThoughDroppedIff | apps/gateway/ws/mq_consumer.go:71-81 | A delivery to a user with a client is notified in any case; the channel does not take it if and only if it is full, or the client is closed and the sender notices that first |
| LossRuns.MessageLostInSilence | README.md:190-202 | A run on which an acknowledged, stored message to a user who is online is shown to nobody, then or later, after a failed publish |
| LossRuns.TwoLoginsLoseAMessage | apps/gateway/ws/manager.go:27-34 | A run of one unread message and two logins on which the first login marks it as read, the second finds nothing, and nobody is ever shown it |
| LossRuns.DeliveredButDropped | apps/gateway/ws/mq_consumer.go:71-81 | A run that ends with a message noted as delivered that no connection was sent or holds |
| Sequences.ConvIDIdentifiesConversation | apps/gateway/ws/chat.go:33-38 | Two conversations of any kinds have the same string if and only if they are the same; a pair of users in either order is one conversation |
| Sequences.KeyIdentifiesParticipant | apps/gateway/ws/reliability.go:92-96 | Two counter keys coincide if and only if conversation and participant do |
| Sequences.ReliabilityManager.GetNextSeqID | apps/gateway/ws/reliability.go:92-96 | Counts up this key's counter by one and returns it, and touches no other; may fail without or after its effect, and fails at the largest 64-bit integer |
| Sequences.NumberIsRank | apps/gateway/ws/reliability.go:92-96 | A message's number is its rank among those of the same sender in the same conversation, whatever else was numbered in between |
| Sequences.NumbersIncrease | apps/gateway/ws/chat.go:111-120 | The numbers of one sender in one conversation increase strictly |
| Ring.RingsAgreeOutside | apps/pkg/geeRPC/xclient/consistent_hash.go:38-53 | Under every hash, the ring without some servers agrees with the full ring on every point that none of them owned |
| Ring.MinimalDisruption | apps/pkg/geeRPC/xclient/discovery.go:62-70 | Rebuilding the ring without some servers moves only keys that those servers owned, collisions included |
| Ring.AddingMovesKeysOnlyToTheNewServer | apps/pkg/geeRPC/xclient/consistent_hash.go:38-69 | Adding a server moves keys only to that server |
| Ring.LookupFindsAServer | apps/pkg/geeRPC/xclient/consistent_hash.go:56-69 | With at least one server and one replica every key belongs to one of the servers |
| Ring.CollisionForEveryHash | apps/pkg/geeRPC/xclient/consistent_hash.go:43-49 | Servers "a" and "1a" share a point under every hash, and the one added last owns it |
| Ring.Map.constructor | apps/pkg/geeRPC/xclient/consistent_hash.go:24-35 | A new ring is empty |
| Ring.Map.AddPoints | apps/pkg/geeRPC/xclient/consistent_hash.go:42-50 | Adds exactly one server's points, each owned by the server added last |
| Ring.Map.Add | apps/pkg/geeRPC/xclient/consistent_hash.go:38-53 | Leaves the sorted ring of all servers added so far |
| Ring.Map.Get | apps/pkg/geeRPC/xclient/consistent_hash.go:56-69 | The binary search with wrap-around returns the owner of the first point at or after the key's hash, or else of the first point of all |
| Ring.SearchFindsSuccessor | apps/pkg/geeRPC/xclient/consistent_hash.go:62-68 | The position where the sorted points stop being smaller, taken round, is the least point clockwise |
| Ring.BatchesDoNotMatter | apps/pkg/geeRPC/xclient/consistent_hash.go:38-53 | Adding servers in one batch or in several leaves the same ring |
| Discovery.MultiServersDiscovery.constructor | apps/pkg/geeRPC/xclient/discovery.go:41-53 | Keeps the caller's slice, and the ring holds exactly the servers in it |
| Discovery.MultiServersDiscovery.Update | apps/pkg/geeRPC/xclient/discovery.go:62-70 | Slice and ring are replaced together and agree again; the turn is kept |
| Discovery.MultiServersDiscovery.Get | apps/pkg/geeRPC/xclient/discovery.go:72-98 | Each mode's answer or error; a consistent-hash answer to a non-empty key is a server that was handed over, and in the list if its slice was left alone |
| Discovery.MultiServersDiscovery.GetAll | apps/pkg/geeRPC/xclient/discovery.go:99-107 | A copy of the list that shares no memory with it |
| Discovery.RingOutlivesTheList | apps/pkg/geeRPC/xclient/discovery.go:62-70 | Under every hash: after the caller has overwritten its slice, the ring still answers with the former server |
| Discovery.TurnIsConsecutive | apps/pkg/geeRPC/xclient/discovery.go:85-88 | The k-th turn is k places after the starting index, taken round |
| Discovery.CountIsExact | apps/pkg/geeRPC/xclient/discovery.go:85-88 | Exactly how often a position is chosen in m turns |
| Discovery.RoundRobinIsFair | apps/pkg/geeRPC/xclient/discovery.go:85-88 | Each of n positions is chosen floor(m/n) or ceil(m/n) times in m consecutive turns, from any starting index |
| Snowflake.OrIsSum | apps/pkg/utils/snowflake.go:88-88 | On 64 bits the or of the three shifted fields is their sum, and the masks read two of them back |
| Snowflake.ParsePack | apps/pkg/utils/snowflake.go:103-109 | Node and sequence can be read back from every number; the timestamp comes back later by an epoch that packing never subtracts |
| Snowflake.PackInjective | apps/pkg/utils/snowflake.go:88-88 | Below 2^41, numbers of different nodes, moments or sequences never collide |
| Snowflake.Generator.Generate | apps/pkg/utils/snowflake.go:58-89 | For any clock, also one that goes back: the new stamp follows the last one, the call waits only as long as it must, and it returns if the clock ever passes the last timestamp |
| Snowflake.GenerateExtendsRun | apps/pkg/utils/snowflake.go:58-89 | The stamp that Generate promises is the next step of a run, so that what follows holds of every number it hands out |
| Snowflake.RunAdvances | apps/pkg/utils/snowflake.go:58-89 | Along a run of one generator, later stamps have a later timestamp or the same one and a sequence larger by as many calls |
| Snowflake.AtMost4096PerMillisecond | apps/pkg/utils/snowflake.go:73-80 | At most 4096 numbers share a millisecond |
| Snowflake.IdsIncreaseWithin41Bits | apps/pkg/utils/snowflake.go:88-88 | The numbers of a run increase strictly if and only if it ends below 2^41 |
| RateLimit.RateLimiter.CheckRateLimit | apps/agent/middleware/rate_limit.go:39-68 | Prunes, counts, and admits or refuses as the script does, expiry included; an error of the cache, before or after the script took effect, refuses |
| RateLimit.PrunedIsRecentIff | apps/agent/middleware/rate_limit.go:40-41 | Pruning leaves exactly the recent part of the history if and only if the set has not expired while part of it was recent |
| RateLimit.StoredIffRetained | apps/agent/middleware/rate_limit.go:39-48 | In every run, the stored set is what was admitted and since then neither passed by a time a minute later nor found expired |
| RateLimit.RetainedIffUnpassed | apps/agent/middleware/rate_limit.go:39-48 | After requests that all found the set alive or nothing recent, callers' times alone decide what is retained |
| RateLimit.CountsTheLastMinuteIff | apps/agent/middleware/rate_limit.go:39-48 | After whatever requests: one more counts exactly the admissions of the minute before it if and only if it finds the set alive or nothing recent, and all that is recent is retained |
| RateLimit.FaithfulIff | apps/agent/middleware/rate_limit.go:39-48 | Over a whole run in any order: every request counts the last minute if and only if every one does so find the set and none was overtaken |
| RateLimit.FaithfulIffTimely | apps/agent/middleware/rate_limit.go:39-48 | If callers' times never go back: if and only if every request finds the set alive or nothing that it should still hold |
| RateLimit.OvertakenRequestCountsTooFew | apps/agent/middleware/rate_limit.go:53-59 | Three requests of which the last, overtaken by one with a later time, does not count an admission less than a minute old |
| RateLimit.StoredIsTheLastMinute | apps/agent/middleware/rate_limit.go:39-48 | After a timely run in which none was overtaken the stored set is the full admission history restricted to the last minute |
| RateLimit.RefusedIffFiveTimesInTheLastMinute | apps/agent/middleware/rate_limit.go:41-44 | In every run a request is refused only if the minute before it holds admissions at five different times; if it counts that minute, if and only if |
| RateLimit.RefusedIffFifthLastIsRecent | apps/agent/middleware/rate_limit.go:41-44 | If admission times increase, a request that counts the minute before it is refused if and only if the fifth last admission is less than a minute old |
| RateLimit.AdmittedTooSoonIffForgotten | apps/agent/middleware/rate_limit.go:46-46 | In every run a request with five admission times in the minute before it is admitted if and only if the set has expired when it arrives, or fewer than five of those times are retained |
| RateLimit.ExpiryIsFeltLater | apps/agent/middleware/rate_limit.go:46-46 | Seven requests, with increasing times, of which the sixth finds the set expired and the seventh finds it alive, and is admitted with six admissions in the minute before it |
| RateLimit.AtMostFiveInAnyMinute | apps/agent/middleware/rate_limit.go:51-68 | No minute of a timely run in which none was overtaken, wherever it starts, holds admissions at more than five times |
| RateLimit.AtMostFiveInAMinuteLessTheBand | apps/agent/middleware/rate_limit.go:51-68 | In any order of callers' times, equal ones included: if scripts run in the order of the server's clock and latency never exceeds an earlier one by more than a band, no stretch of a minute less that band holds admissions at more than five times |
| RateLimit.SettledRunsAreFaithful | apps/agent/middleware/rate_limit.go:51-68 | With such a clock and latency that never rises, every request counts exactly the last minute |
| RateLimit.SixAdmissionsTakeAMinuteLessTheBand | apps/agent/middleware/rate_limit.go:51-68 | With strictly increasing times and any clock of the server, six admissions in a row take at least a minute less the band |
| RateLimit.SteadyRunsAreTimely | apps/agent/middleware/rate_limit.go:51-68 | With strictly increasing times and latency that never rises, every request finds the set alive or nothing that it should still hold |
| RateLimit.SameTimeIsNeverRefused | apps/agent/middleware/rate_limit.go:45-45 | Any number of requests bearing one and the same time are all admitted |

## Left out

- Network, WebSocket, queue, cache and database libraries: only their effect is here, with failures as choices of the environment.
- Goroutines of client.go and server.go, and the login steps of Delivery, are events of a transition system; the same handlers as methods (RpcTable, Gateway, UploadConsumer) run to their end without others in between.
- Message payloads, gob and JSON codecs, reflection and interceptors: handlers are abstract, and bodies are byte sequences.
- RpcSystem assumes registered methods that take a protobuf message, replies that can be encoded, and connections that are not cut in the middle of a frame; RpcServer and Framing have what happens otherwise.
- RpcSystem.OneTokenPerNumber: assumes that no header left alone has gone out; RpcRuns.StrayHeaderMixesUpArguments shows what happens otherwise, and Framing.WritesServedOneForOneIff has the exact condition for the stream.
- RpcSystem.CallGetsItsOwnResult: likewise.
- RpcServer has no branch for a timeout of zero: the server always passes ten seconds.
- Route expiry and several gateways: a route names the one gateway or is absent.
- Uploads that are delivered again keep their numbers on redelivery; that numbers drawn by different gateways differ rests on their node numbers, as in Snowflake.PackInjective.
- RateLimit.RateLimiter.CheckRateLimit: does not model that the cache stores times as floating-point scores; they are exact integers.
- Gateway.Gateway.SyncMessage: runs to its end without others in between; Sessions, Delivery and Loss have the same steps interleaved.
- Gateway.Gateway.Handler: likewise.
- Gateway.SyncIsCompleteIffItFits: does not model the writer, other senders or a close during the login; Sessions.UnreadIsUnderWayUnlessRefused has them.
- A delivery's look-up of the client and its send to it are one step of Delivery; a send to a client that has just been replaced is the same as one right before the replacement.
- GeeRegistryDiscovery never rebuilds its ring, so list and ring do not agree there; it is not part of this model.
- Snowflake timestamps do not round-trip through ParseSnowflakeID, as Snowflake.ParsePack says; the unit of the clock and the sleep are not modelled.
- The commented-out retry loop, scheduled messages, tokens, passwords, configuration and the AI engine.
