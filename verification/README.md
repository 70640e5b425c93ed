# Verified model of the rmcp runtime

This Dafny 4.11 project models the stateful parts of the `rmcp` crate, the Rust SDK of the
Model Context Protocol, and proves what they promise.

* **Codec** (`Framing.dfy`, `Codec.dfy`): the resumable newline-delimited JSON codec as a class over a
  growing buffer, with its remembered offset, length limit and discard mode, proved equal to a
  one-shot split of the stream for every chunking. Parser and serializer are parameters.
* **Session** (`EventIds.dfy`, `Streams.dfy`, `Session.dfy`, `SessionWorker.dfy`, `SessionRuns.dfy`,
  `SessionTheorems.dfy`, `ChannelLife.dfy`): the streamable-HTTP session worker with a bounded replay cache per stream
  and two maps that index each other (Model Context Protocol 2025-03-26, Transports,
  "Resumability and Redelivery"). `Session` is a transition system, `SessionWorkers` the class that
  refines it, `SessionRuns`, `SessionTheorems` and `ChannelLife` are about all its runs.
* **Service loop** (`JsonRpc.dfy`, `ServiceLoop.dfy`, `ServeLoop.dfy`, `LoopRuns.dfy`): the event loop with
  its two pools and batch queue, among callers, handlers and a transport that race (JSON-RPC 2.0,
  sections 4 to 6).
* **SSE client** (`SseReconnect.dfy`): the reconnecting stream and its retry policies (WHATWG HTML
  Living Standard, section 9.2).
* **Delivery** (`Delivery.dfy`): one stream of the session composed with the reconnecting client.
* **Handshake** (`Handshake.dfy`): both sides of initialize, and their product over two FIFO channels
  (Model Context Protocol 2025-03-26, "Lifecycle").

`Sequences.dfy` has facts about sequences that several modules use.

Code that updates state in place is a class or a method with its loops, proved against a function
on values; the theorems over all runs are lemmas about those functions. A run is a list of steps; a
step that is not enabled changes nothing, so the theorems speak of every list. Histories (what was
sent, answered, lost) are ghost fields of the classes and ordinary fields of the specifications.

Check everything with `dafny verify dfyconfig.toml`.

## What the code does where its documentation says otherwise

* `sync` replays from the index it is given, inclusive (session.rs:127-145), though the comments at its
  call sites say "after". A client that resumes gets its last event again if and only if that is still
  cached: `Delivery.RepeatsIff`, `Delivery.DuplicatesExact`.
* The worker unregisters a request before it looks up the stream of its reply, so every response
  and error goes to the common stream, although `establish_request_wise_channel` is documented to
  carry the messages of its request (session.rs:489-491): `SessionTheorems.RepliesAreCommon`.
* The same comment says that the channel closes when the request is completed. It does not if a
  progress token was posted on it (tokens are never unregistered), if other requests of the same
  batch are open, or if another HTTP request posts one of its ids. `ChannelLife.CompletionCloses` says
  exactly which reply closes a channel, `ChannelLife.ClosedOnceCompleted` when a channel without stranded
  resources is gone, `ChannelLife.RebindLeaks` how long a stranded resource keeps one alive.
* A failed resume detaches a live listener: `Streams.InvalidResumeDetaches`.
* Posting a resource that is routed to another live HTTP request leaves it in the old channel
  without a route. No reply or cancellation closes that channel until the resource is posted under
  the old HTTP request again: `ChannelLife.StrandedIffTaken`, `ChannelLife.RebindLeaks`. When all are,
  `ChannelLife.ClosedOnceCompleted` applies to it again.
* A client that loses a request-wise stream before its first event is sent to the common stream and
  never gets the rest: `Delivery.StraysIff`, `Delivery.StrayedGetsNothing`.
* The default backoff has no limit, so its 32nd failure in a row overflows: `SseReconnect.OverflowsIff`.
* Ids wrap after 2^32; a request still waiting then loses its responder: `LoopRuns.WrappedIdDrops`, `LoopRuns.WrapReached`.
* The client does not check the version the server answers with: `Handshake.AnyVersionIsAccepted`.

Where such a promise fails only sometimes, the condition under which it holds is proved beside it, in both
directions: `ChannelLife.ClosedOnceCompleted`, `SessionTheorems.RegisterExact`, `Streams.ResumeExactly`,
`Delivery.RepeatsIff`, `Delivery.NothingLostIff`, `Delivery.StraysIff`, `SseReconnect.OverflowsIff`, `LoopRuns.DroppedIff`,
`LoopRuns.OrphanedByReuse`.

## Model

| member | source | states |
|---|---|---|
| `Framing.OneReading` | crates/rmcp/src/transport/async_rw.rs:207-235 | Every stream has exactly one reading as newline-free lines, each ended by a newline, and a newline-free tail: the one the split gives. |
| `CodecSpec.ScanSplits` | crates/rmcp/src/transport/async_rw.rs:198-256 | What a prefix determines is: one event per complete line (its parse, or one length error if it is longer than the limit, a trailing CR counted), and either the short tail or a single error for a tail already too long. |
| `CodecSpec.ScanResumes` | crates/rmcp/src/transport/async_rw.rs:202-255 | Scanning may stop after any prefix and go on from its pending bytes and discard flag: nothing is seen twice, missed or moved. |
| `Codec.JsonRpcMessageCodec.Search` | crates/rmcp/src/transport/async_rw.rs:203-209 | The search from the remembered offset finds the first newline inside the window or shows there is none, at a cost of the bytes not searched before. |
| `Codec.JsonRpcMessageCodec.Discard` | crates/rmcp/src/transport/async_rw.rs:212-229 | Dropping bytes of an oversize line changes nothing that is still to be yielded, and discarding ends exactly at its newline. |
| `Codec.JsonRpcMessageCodec.Decode` | crates/rmcp/src/transport/async_rw.rs:198-256 | One call yields the next event of the one-shot reading or says that nothing more is complete; offset and buffer stay valid, each event shrinks the backlog, no byte is looked at more than twice. |
| `Codec.JsonRpcMessageCodec.DecodeEof` | crates/rmcp/src/transport/async_rw.rs:258-275 | At the end of the stream the tail is parsed unless it is empty or a lone CR; repeated calls exhaust exactly what the end brings. |
| `Codec.DecodeAvailable` | crates/rmcp/src/transport/async_rw.rs:202-255 | Calling `decode` until it needs more yields all complete lines and leaves the buffer with no newline and no oversize line. |
| `Codec.DecodeChunks` | crates/rmcp/src/transport/async_rw.rs:202-255 | After any chunking, output, buffer, offset and discard flag depend on the bytes alone, and at most twice as many bytes were scanned as fed. |
| `Codec.DecodeStream` | crates/rmcp/src/transport/async_rw.rs:198-275 | Every limit, stream and chunking, read to the end, gives the one-shot reading: one event for each line and for the tail, as `Framing.StreamYields` says it of their bytes. |
| `CodecSpec.ToEndIsOneShot` | crates/rmcp/src/transport/async_rw.rs:258-275 | Prefix reading followed by the end equals splitting the whole stream at once. |
| `Framing.OneShotYields` | crates/rmcp/src/transport/async_rw.rs:230-247 | The one-shot reading yields a length error for each line over the limit, and for each other the parse of its bytes without the one carriage return it may end in; the tail likewise, and nothing for an empty one or a lone carriage return. |
| `CodecSpec.CrlfLines` | crates/rmcp/src/transport/async_rw.rs:163-169 | Lines ended by carriage return and newline are parsed without either. |
| `Codec.DecodeCrlf` | crates/rmcp/src/transport/async_rw.rs:198-256 | The same for the decoder under any chunking, which leaves the buffer empty. |
| `Codec.EncodeAll` | crates/rmcp/src/transport/async_rw.rs:281-285 | Encoding a list appends each serialization and one newline, in order. |
| `CodecSpec.RoundTrip` | crates/rmcp/src/transport/async_rw.rs:198-286 | The stream of a list of items whose serializations have no newline, end in no CR and fit the limit reads back as that list, with nothing pending. |
| `Codec.DecodeEncoded` | crates/rmcp/src/transport/async_rw.rs:198-286 | The same for the decoder itself under any chunking: the items come back and the buffer is empty. |
| `Codec.Encode` | crates/rmcp/src/transport/async_rw.rs:281-285 | Appends the serialization and a newline; a failed serialization leaves its partial output without one. |
| `EventIds.ParseU64IsValue` | crates/rmcp/src/transport/streamable_http_server/session.rs:65-79 | The single-pass parser accepts exactly the decimal numerals below 2^64, with an optional plus sign and leading zeros, and yields their value. |
| `EventIds.FromIndex` | crates/rmcp/src/transport/streamable_http_server/session.rs:74-79 | A text without a slash is an index: accepted exactly if it is a numeral in range. |
| `EventIds.FromPair` | crates/rmcp/src/transport/streamable_http_server/session.rs:66-73 | Otherwise the index stands before the first slash and the request number behind it; a fault of the index is reported first. |
| `EventIds.WrittenIds` | crates/rmcp/src/transport/streamable_http_server/session.rs:41-81 | Ids as they are written. |
| `EventIds.NotIds` | crates/rmcp/src/transport/streamable_http_server/session.rs:63-81 | Two texts that are no ids, and the error each gives. |
| `EventIds.RoundTrip` | crates/rmcp/src/transport/streamable_http_server/session.rs:41-81 | Parsing undoes printing if and only if both numbers fit 64 bits; otherwise the text is rejected. |
| `EventIds.Injective` | crates/rmcp/src/transport/streamable_http_server/session.rs:41-49 | Two ids print alike only if they are equal. |
| `EventIds.Reprints` | crates/rmcp/src/transport/streamable_http_server/session.rs:41-81 | Printing undoes parsing if and only if the text has no plus sign and no leading zeros. |
| `Streams.AcceptBounded` | crates/rmcp/src/transport/streamable_http_server/session.rs:120 | A bounded channel never holds more than its capacity. |
| `Streams.SendReaches` | crates/rmcp/src/transport/streamable_http_server/session.rs:120-123 | A send appends to a channel with room, and on a full one waits until the receiver has taken enough from the front and then appends, or until it is gone: a live receiver never misses a message. |
| `Streams.SendIsHeard` | crates/rmcp/src/transport/streamable_http_server/session.rs:105-125 | So a listener finds each message sent at the end of its channel under the next index. |
| `Streams.ReceiveTakes` | crates/rmcp/src/transport/streamable_http_server/session.rs:210-213 | A receiver takes messages from the front, in order, or goes away with all of them. |
| `Streams.CacheIsSuffix` | crates/rmcp/src/transport/streamable_http_server/session.rs:105-125 | After n sends the cache is the last min(n, capacity) messages with consecutive indices, the k-th message carrying index k. |
| `Streams.ReplayIsHistory` | crates/rmcp/src/transport/streamable_http_server/session.rs:127-145 | A replay is the history from max(index, oldest cached) on, inclusive, with its original ids. |
| `Streams.ResumeExactly` | crates/rmcp/src/transport/streamable_http_server/session.rs:382-417 | Resuming fails exactly when something was sent and the index is beyond its end; otherwise a fresh channel holds exactly the replay. |
| `Streams.InvalidResumeDetaches` | crates/rmcp/src/transport/streamable_http_server/session.rs:391-398 | A failed resume has already replaced the old channel: later messages reach nobody. |
| `Streams.ReplayNeverWaits` | crates/rmcp/src/transport/streamable_http_server/session.rs:136-142 | No send of a replay can wait on the receiver that has not been handed out yet. |
| `CachedStreams.CachedTx.Send` | crates/rmcp/src/transport/streamable_http_server/session.rs:105-125 | The deque with its arithmetic on the last index is the cached part of the whole history, before and after. |
| `CachedStreams.CachedTx.Sync` | crates/rmcp/src/transport/streamable_http_server/session.rs:127-145 | The offset computed from the front of the deque replays exactly what the history says, with the same errors. |
| `SessionWorkers.SessionWorker.UnregisterResource` | crates/rmcp/src/transport/streamable_http_server/session.rs:216-227 | The two maps and the channels change as the pure worker does, each channel keeping its own cache object. |
| `SessionWorkers.SessionWorker.RegisterRequest` | crates/rmcp/src/transport/streamable_http_server/session.rs:235-251 | Registers the request id, and the progress token if there is one, with the HTTP request. |
| `SessionWorkers.SessionWorker.HandleServerMessage` | crates/rmcp/src/transport/streamable_http_server/session.rs:362-381 | A handler message is put on the resolved stream and on no other, or refused. |
| `SessionWorkers.SessionWorker.Resume` | crates/rmcp/src/transport/streamable_http_server/session.rs:382-417 | Swaps the channel of the addressed stream and replays into it. |
| `SessionWorkers.SessionWorker.HandleEvent` | crates/rmcp/src/transport/streamable_http_server/session.rs:625-734 | Each event of the worker loop does to maps, caches and channels what one step of the transition system does. |
| `SessionRuns.ExecKeeps` | crates/rmcp/src/transport/streamable_http_server/session.rs:216-284 | Over every run of at most 2^64 channels: each route leads to a live channel owning the key or to one explicitly closed, ids are never reused, each live stream holds its share of the messages, and no queue exceeds its capacity. |
| `SessionTheorems.Partitioned` | crates/rmcp/src/transport/streamable_http_server/session.rs:362-381 | The accepted handler messages are partitioned among the streams; each live stream is its share in handler order. |
| `SessionTheorems.AcceptedHasPlace` | crates/rmcp/src/transport/streamable_http_server/session.rs:105-125 | Over every run each accepted message stands in its live stream under the event id whose index counts the earlier messages accepted for that stream. |
| `SessionTheorems.PlaceHasOrigin` | crates/rmcp/src/transport/streamable_http_server/session.rs:105-125 | Over every run each message of a live stream was accepted for it exactly once, as the message its index counts. |
| `SessionTheorems.StreamEvolves` | crates/rmcp/src/transport/streamable_http_server/session.rs:362-416 | Over every run, what an event does to a live stream is to send the message routed to it, to resume it under one of its own event ids, to let its receiver take messages or leave, or nothing; these are the steps of the streams in `Delivery`. |
| `SessionTheorems.GoneForGood` | crates/rmcp/src/transport/streamable_http_server/session.rs:216-284 | Over every run the stream of an HTTP request that is gone never comes back, as in `Delivery`. |
| `SessionTheorems.RefusedOnlyAfterClose` | crates/rmcp/src/transport/streamable_http_server/session.rs:368-377 | In every reachable state a handler message is refused only because its channel was explicitly closed. |
| `SessionTheorems.Lossless` | crates/rmcp/src/transport/streamable_http_server/session.rs:642-675 | Without explicit closes every handler message is accepted, in order. |
| `SessionTheorems.RepliesAreCommon` | crates/rmcp/src/transport/streamable_http_server/session.rs:642-675 | Responses and errors always land on the common stream, because their request is unregistered first. |
| `SessionTheorems.OthersAreCommon` | crates/rmcp/src/transport/streamable_http_server/session.rs:286-329 | So do requests to the client and notifications that concern no request. |
| `SessionTheorems.CommonUnheard` | crates/rmcp/src/transport/streamable_http_server/session.rs:760-767 | Over every run, until somebody listens to the common stream its channel is closed and empty, so no send waits there. |
| `SessionTheorems.ResumeAnswers` | crates/rmcp/src/transport/streamable_http_server/session.rs:382-417 | A resume is refused exactly for a stream that is gone or an index beyond what was sent, and changes no other stream. |
| `SessionTheorems.RequestWiseCarriesNotifications` | crates/rmcp/src/transport/streamable_http_server/session.rs:285-361 | Over every run the stream of an HTTP request carries only progress and cancellation notifications. |
| `SessionTheorems.RegisterExact` | crates/rmcp/src/transport/streamable_http_server/session.rs:228-234 | Registering keeps the two maps inverse if and only if the key is not taken from another channel. |
| `SessionTheorems.DroppedWithLastKey` | crates/rmcp/src/transport/streamable_http_server/session.rs:216-227 | While the maps are inverse a channel is dropped if and only if its last key is unregistered. |
| `SessionTheorems.RoutersExact` | crates/rmcp/src/transport/streamable_http_server/session.rs:216-261 | Over every run without rebinding and explicit close the two maps are exact inverses. |
| `SessionTheorems.OwnedAddUp` | crates/rmcp/src/transport/streamable_http_server/session.rs:148-151 | The resource sets of the channels then add up to the number of routes. |
| `SessionTheorems.OwnedDisjoint` | crates/rmcp/src/transport/streamable_http_server/session.rs:148-151 | No resource then belongs to two channels. |
| `ChannelLife.RunGoesOn` | crates/rmcp/src/transport/streamable_http_server/session.rs:625-734 | A run goes on from each state it reaches: what is proved below from any state that keeps the run invariant holds of every run. |
| `ChannelLife.StepDoesActs` | crates/rmcp/src/transport/streamable_http_server/session.rs:642-706 | Each event does to routes and resources exactly the postings, completions and cancellations it stands for, one after the other, batch items included. |
| `ChannelLife.CompletionCloses` | crates/rmcp/src/transport/streamable_http_server/session.rs:642-652 | In every reachable state a reply drops a live channel if and only if its request is routed there and is the last resource of the channel. |
| `ChannelLife.GoneIffSettled` | crates/rmcp/src/transport/streamable_http_server/session.rs:216-251 | Over every run from any point where a channel has no stranded resource: while it is not closed explicitly and loses no resource to another HTTP request, it is gone if and only if at some point there had been something to complete and nothing was owed a reply or cancellation any more. |
| `ChannelLife.ExactIffNoneStranded` | crates/rmcp/src/transport/streamable_http_server/session.rs:216-234 | In every reachable state a live channel holds exactly the keys routed to it if and only if none of its resources is stranded. |
| `ChannelLife.OpenedIsExact` | crates/rmcp/src/transport/streamable_http_server/session.rs:262-284 | A channel starts that way, with nothing to complete. |
| `ChannelLife.ClosedOnceCompleted` | crates/rmcp/src/transport/streamable_http_server/session.rs:489-491 | From such a point, once the posting on the channel is over, it is gone if and only if no progress token was held or posted and every request held or posted was replied to or cancelled later: for its whole life from its start, and again after a lost resource was posted back. |
| `ChannelLife.StrandedIffTaken` | crates/rmcp/src/transport/streamable_http_server/session.rs:228-234 | In a channel whose resources are exactly the keys routed to it, a resource is left without its route if and only if another live HTTP request posts it. |
| `ChannelLife.RebindLeaks` | crates/rmcp/src/transport/streamable_http_server/session.rs:216-234 | Over every run such a resource keeps its channel alive, out of reach of replies and cancellations, if and only if it is not posted under that HTTP request again and the channel is not closed explicitly. |
| `ChannelLife.PostingRoutes` | crates/rmcp/src/transport/streamable_http_server/session.rs:235-251 | Posting a request on a live channel routes its id and its progress token there, adds them to its resources and changes no other route. |
| `ChannelLife.TokenKeepsChannel` | crates/rmcp/src/transport/streamable_http_server/session.rs:252-261 | Over every run a channel that got a progress token stays until it is closed explicitly. |
| `ChannelLife.ProgressReachesRequest` | crates/rmcp/src/transport/streamable_http_server/session.rs:286-308 | Over every run, once an event posts a request with a progress token on a live channel, and until that is closed explicitly or another HTTP request posts the same token, every progress notification for it goes to its stream and nowhere else. |
| `ChannelLife.CancellationReachesRequest` | crates/rmcp/src/transport/streamable_http_server/session.rs:309-328 | Over every run, while a channel is not disturbed, a cancellation sent by the server goes to it if and only if the request it names is owed there. |
| `ChannelLife.FirstProgressArrives` | crates/rmcp/src/transport/streamable_http_server/session.rs:267-284 | The first progress notification for a request posted on a new channel is what the receiver of that channel finds, under index 0. |
| `ServeLoops.AtomicU32Provider.NextRequestId` | crates/rmcp/src/service.rs:208-212 | The k-th id drawn is k modulo 2^32. |
| `ServeLoops.ServeLoop.OnPeerMessage` | crates/rmcp/src/service.rs:712-804 | A message of the peer updates pools and queue as the pure core does. |
| `ServeLoops.ServeLoop.OnSendTaskResult` | crates/rmcp/src/service.rs:633-660 | A failed send answers its request; a finished cancellation answers the request it names. |
| `ServeLoops.ServeLoop.TakeTurn` | crates/rmcp/src/service.rs:581-805 | A turn pops the batch queue before it looks at anything else. |
| `ServeLoops.ServeLoop.Run` | crates/rmcp/src/service.rs:581-806 | The whole loop over any offered events, one queued item per turn, equals handling each event together with the batch it brought, up to the reason to stop. |
| `LoopRuns.RunFlattens` | crates/rmcp/src/service.rs:581-629 | Over every run the messages handled and queued are the flattening of those received, in order; no batch is queued or sent. |
| `LoopRuns.BatchDrained` | crates/rmcp/src/service.rs:582-584 | Queued batch items are handled with no other event in between, whatever is on offer. |
| `LoopRuns.RunSendsInOrder` | crates/rmcp/src/service.rs:679-711 | Over every run the requests and notifications passed to the transport are those that callers got into the peer queue, in order, each once; only the end of the loop drops queued ones. |
| `LoopRuns.RunAsAsked` | crates/rmcp/src/service.rs:375-404 | Over every run the peer queue got, in order, the requests callers asked for, under the ids they drew, and the notifications. |
| `LoopRuns.SentAsAsked` | crates/rmcp/src/service.rs:679-711 | So the k-th request or notification passed to the transport is the k-th of those. |
| `LoopRuns.RunKeepsSends` | crates/rmcp/src/service.rs:679-711 | Over every run each of them has one send, under way or ended, so each can still fail. |
| `LoopRuns.RequestsReachHandlers` | crates/rmcp/src/service.rs:581-629 | Over every run the requests received, from batches or not, are those given to handlers, in order, and then those still in the batch queue. |
| `LoopRuns.RunKeepsRequests` | crates/rmcp/src/service.rs:375-404 | Over every run each id drawn is with its caller, in the peer queue, in the pool, answered once under its own id, or dropped; dropped only at the end or by a wrapped id. |
| `LoopRuns.FirstVerdictAnswers` | crates/rmcp/src/service.rs:633-660 | A step answers a request if and only if it is a response, error, failed send or finished cancellation naming one that waits in the pool, with that outcome. |
| `LoopRuns.RunAnswersFirst` | crates/rmcp/src/service.rs:633-660 | Over every run a request is answered if and only if such a verdict named its id while it waited in the pool, and with the first one that did. |
| `LoopRuns.CallerHearsFirst` | crates/rmcp/src/service.rs:240-266 | Over every run its caller is told exactly that outcome. |
| `LoopRuns.RunResolves` | crates/rmcp/src/service.rs:771-790 | Over every run a caller has its answer if and only if its request was answered, waits if and only if its request is with it, queued or pooled, and after the end is told that the transport closed if and only if it was not answered; before, within 2^32 ids, none is told so. |
| `LoopRuns.DroppedIff` | crates/rmcp/src/service.rs:679-684 | While the loop runs a caller loses its responder if and only if the loop takes over a request whose id still waits, which takes more than 2^32 ids. |
| `LoopRuns.WrappedIdDrops` | crates/rmcp/src/service.rs:679-684 | The id drawn after 2^32 others displaces a request that still waits under it, whose caller is told that the transport closed while the loop goes on. |
| `LoopRuns.WrapReached` | crates/rmcp/src/service.rs:208-212 | A run gets there. |
| `LoopRuns.RunKeepsTokens` | crates/rmcp/src/service.rs:712-760 | Over every run each cancellation token is in the pool under its request id, cancelled by the peer or by the reply, or displaced by a reused id. |
| `LoopRuns.CancellationExact` | crates/rmcp/src/service.rs:745-760 | A cancellation by the peer cancels the token of a request if and only if it names that request while its reply is outstanding. |
| `LoopRuns.OrphanedByReuse` | crates/rmcp/src/service.rs:721 | A token is displaced if and only if a request arrives under an id still in the pool. |
| `LoopRuns.RunKeepsReplies` | crates/rmcp/src/service.rs:729-742 | Over every run each request handled has a running handler or exactly one reply under its own id, cancelled or not, and replies leave in the order they were made. |
| `LoopRuns.RunRepliesCarry` | crates/rmcp/src/service.rs:729-742 | Over every run the k-th handler to finish made the k-th reply, which is a response with its result or an error with its error, under the id of its request. |
| `LoopRuns.RepliesSentCarry` | crates/rmcp/src/service.rs:661-678 | And the replies passed to the transport are the first of these, in order. |
| `LoopRuns.RunKeepsPool` | crates/rmcp/src/service.rs:661-678 | Over every run in which the peer reuses no id before its reply, the pool holds exactly the requests neither cancelled nor replied to and no token is lost. |
| `JsonRpc.Message.Flattened` | crates/rmcp/src/model.rs:427-450 | The non-batch messages of a received message: the k-th is the message of item k, and a message that is no batch stands for itself. |
| `RetryPolicies.LimitedRetry` | crates/rmcp/src/transport/common/client_side_sse.rs:25-78 | A limited policy gives up exactly from its limit on and otherwise waits its interval, doubled per failure for the backoff, without overflow. |
| `RetryPolicies.FixedRetry` | crates/rmcp/src/transport/common/client_side_sse.rs:25-34 | A fixed interval answers itself, up to its limit if it has one. |
| `RetryPolicies.BackoffDoubles` | crates/rmcp/src/transport/common/client_side_sse.rs:68-77 | A backoff below its limit starts with its base and doubles with each failure while the interval fits. |
| `SseReconnect.RunMeansTrace` | crates/rmcp/src/transport/common/client_side_sse.rs:140-235 | State, items, `Last-Event-ID` of every reconnection and length of every sleep are what the results consumed mean, read off the trace alone: payloads that parse in order, the id of the latest event that had one, the larger of the policy and server intervals. |
| `SseReconnect.EachWaitIsLarger` | crates/rmcp/src/transport/common/client_side_sse.rs:199-208 | Over every run the k-th wait follows the k-th failure the policy answers with an interval, and is at least that, at least the latest retry value of the server, and one of the two. |
| `SseReconnect.YieldsPayloads` | crates/rmcp/src/transport/common/client_side_sse.rs:147-170 | Over every run the messages yielded are the payloads that parse, in arrival order, whatever ids or retry values their events carry. |
| `SseReconnect.UnlimitedNeverEnds` | crates/rmcp/src/transport/common/client_side_sse.rs:25-34 | With a fixed interval and no limit the stream never gives up. |
| `SseReconnect.ErrorComesLast` | crates/rmcp/src/transport/common/client_side_sse.rs:205-214 | An error is yielded exactly once, last, when the policy gives up, and it is the error of the last reconnection. |
| `SseReconnect.GivesUpAtLimit` | crates/rmcp/src/transport/common/client_side_sse.rs:191-214 | With limit m the stream gives up exactly after max(1, m) failures in a row; a success starts the count again. |
| `SseReconnect.TerminatedForever` | crates/rmcp/src/transport/common/client_side_sse.rs:228-230 | Nothing reaches the stream after that. |
| `SseReconnect.BackoffTotal` | crates/rmcp/src/transport/common/client_side_sse.rs:68-77 | Without a server interval an outage given up on with limit m slept m - 1 times, base * (2^m - 2) in all. |
| `SseReconnect.OverflowsIff` | crates/rmcp/src/transport/common/client_side_sse.rs:68-77 | Some run overflows the arithmetic of the backoff if and only if it has no limit, or a limit for which some interval does not fit (over 32 always). |
| `SseReconnect.PollIsRun` | crates/rmcp/src/transport/common/client_side_sse.rs:140-235 | Polls put together give the run, item by item; a poll returns nothing only when it has taken all it can, and finishes exactly if the stream had given up or the last result it took is the end of the inner stream. |
| `SseReconnect.SseAutoReconnectStream.PollNext` | crates/rmcp/src/transport/common/client_side_sse.rs:140-235 | The recursive poll on any finite supply ends and does what the specification of a poll says. |
| `Delivery.RunKeeps` | crates/rmcp/src/transport/streamable_http_server/session.rs:105-145 | Over every run of sends, also on a full channel, disconnections and reconnections what arrived is genuine, in order, and everything up to the last index except what was lost; what is under way is everything later. |
| `Delivery.ReceivedIsInitialSegment` | crates/rmcp/src/transport/streamable_http_server/session.rs:382-416 | If nothing was evicted at the start and each reconnection finds the oldest cached index at most one past the last received, the indices received are 0..k without a gap. |
| `Delivery.NothingLostIff` | crates/rmcp/src/transport/streamable_http_server/session.rs:110-118 | Nothing is lost if and only if that condition holds at every reconnection. |
| `Delivery.NoGapIff` | crates/rmcp/src/transport/streamable_http_server/session.rs:105-145 | A gap shows if and only if something lost lies below what was received since. |
| `Delivery.LostForever` | crates/rmcp/src/transport/streamable_http_server/session.rs:127-145 | What is lost at one reconnection is never received in any continuation. |
| `Delivery.NothingElseMissing` | crates/rmcp/src/transport/streamable_http_server/session.rs:105-145 | When nothing is under way the client has everything ever sent that was not lost. |
| `Delivery.EndIsComplete` | crates/rmcp/src/transport/streamable_http_server/session.rs:216-227 | A client that finds its stream ended, after the session dropped it, has everything ever sent on it that was not lost. |
| `Delivery.RepeatsIff` | crates/rmcp/src/transport/streamable_http_server/session.rs:131-136 | A reconnection of a client that has received something is about to repeat the last event if and only if that is still cached. |
| `Delivery.DuplicatesExact` | crates/rmcp/src/transport/streamable_http_server/session.rs:131-136 | Over every run an event is received again exactly when it arrives as such a repeat. |
| `Delivery.DuplicatesBounded` | crates/rmcp/src/transport/streamable_http_server/session.rs:131-136 | That happens at most once per successful reconnection. |
| `Delivery.LetBackIff` | crates/rmcp/src/transport/streamable_http_server/session.rs:382-399 | A client with an event id is let back if and only if its stream still exists; its own id is never invalid. |
| `Delivery.StraysIff` | crates/rmcp/src/transport/streamable_http_server/axum.rs:188-212 | A client is sent to the common stream if and only if it reconnects before the first event of a request-wise stream. |
| `Delivery.StrayedGetsNothing` | crates/rmcp/src/transport/streamable_http_server/axum.rs:188-212 | It never receives an event of that stream. |
| `Delivery.RunHandsOver` | crates/rmcp/src/transport/common/client_side_sse.rs:147-170 | The application is handed exactly the messages of the events received, in order. |
| `Versions.CompareIsLexicographic` | crates/rmcp/src/model.rs:113-115 | The comparison is the lexicographic order of strings: the smaller character at the first difference, or a proper prefix, comes first. |
| `Versions.NegotiateIsMinimum` | crates/rmcp/src/service/server.rs:185-194 | The version agreed on is one of the two offers and neither is older, whichever side made it. |
| `Versions.ReleasedVersions` | crates/rmcp/src/model.rs:129-133 | Of the released versions 2024-11-05 is agreed on whenever one side offers it. |
| `Versions.AtMostTransitive` | crates/rmcp/src/model.rs:113-115 | The derived order of versions is transitive. |
| `Versions.CompareFlips` | crates/rmcp/src/model.rs:113-115 | It is antisymmetric and total, with equality only for equal versions. |
| `Handshakes.ServeServer` | crates/rmcp/src/service/server.rs:138-216 | For every inbox and send failure the method ends, sends and leaves unread what the server machine does. |
| `Handshakes.ServeClient` | crates/rmcp/src/service/client.rs:119-179 | The same for the client, whose request takes the first id of the provider. |
| `Handshake.RunExact` | crates/rmcp/src/service/server.rs:138-216 | Over every run, with any injected messages, a side serves if and only if its handshake got and sent exactly its part of request, same-id result and notification; each failure says what was got and sent, a refusal by the handler reaching the client as an error under its id. |
| `Handshake.RunHonest` | crates/rmcp/src/service/client.rs:119-179 | Over every run without injected messages no side fails because of what the other sent, and the server serves only a client that serves. |
| `Handshake.VersionsAgree` | crates/rmcp/src/service/server.rs:185-206 | Over every honest run the version the client records is one of the two offers, and neither is older. |
| `Handshake.SmoothRunCompletes` | crates/rmcp/src/service/server.rs:138-216 | While nothing fails, an accepted handshake is stuck if and only if both sides serve. |
| `Handshake.AnyVersionIsAccepted` | crates/rmcp/src/service/client.rs:150-163 | The client accepts any version a server answers with. |
| `Handshakes.InitIdNotReused` | crates/rmcp/src/service/client.rs:131-146 | While fewer than 2^32 ids are drawn no later request waits, travels or is answered under the id of the initialize request. |

## Left out

- JSON text, serde and `Extensions`: `parse` and `ser` are parameters; ids are the values a `u32` or a string can hold, without the truncation of larger numbers on input (model.rs:203-206).
- The `FramedRead` around the codec and `AsyncRwTransport::receive`: one malformed line makes `receive` return nothing, which the service loop takes for a closed stream (async_rw.rs:110-119, service.rs:593-599); here the codec yields the error and goes on.
- HTTP, axum, reqwest, child processes, WebSocket, WASI and standard I/O: channels are bounded queues and futures are completions in any order.
- OAuth, the procedural macros, `tool_box!`, content, prompt, tool and schema types, handler dispatch tables and pagination: plain data or one-branch code.
- Batch responses from the handler in the session worker: excluded by `Admissible`, which the service loop guarantees (`LoopRuns.RunFlattens`: nothing it sends is a batch).
- The session before its initialize request and its `Close` event: they start and end the loop modelled here.
- Scheduling fairness: every enabled step may come next, none has to.
- Responders of notifications, and `handle_notification`: their outcome changes nothing in the loop.
- Cancellation of child tokens when the loop's own token is cancelled, and handlers that outlive the loop: a run ends with the loop's exit, at which callers are told.
- The timeout in `RequestHandle::await_response`: it is a cancellation notification sent at any time.
- Wrap-around of `usize` counters: message indices and retry counts stay below 2^64 (`Delivery.Enabled`, unbounded elsewhere).
- `2u32.pow` in a build without overflow checks: the model is the checked one, where overflow panics.
- Sleeping in real time and the rounding of timers: a sleep is its length.
- A second client on the same stream in `Delivery`: one client, its connections and the session. The end of the common stream with its session is not a step; that of a request-wise stream is (`End`), after which the client may still go on as if connected.
- `SseReconnect.Machine`: the end of the inner stream yields `None` and leaves the state connected, as the code does; what a finished inner stream answers to further polls is not fixed.
- `Handshake.Handled`: only the version of the request's parameters reaches the handler.
- `LoopRuns.RunKeepsPool`: assumes that the peer does not reuse an id before its reply; `LoopRuns.OrphanedByReuse` says exactly what happens otherwise.
- `SessionRuns.ExecKeeps`: assumes at most 2^64 established channels, since the id counter wraps there and would overwrite a live channel.
- `CodecSpec.RoundTrip`: the conditions on a serialization are hypotheses; JSON strings satisfy them because control characters are escaped (RFC 8259, section 7).
