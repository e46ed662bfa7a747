# A verified model of the token pipeline

The system answers one chat request twice: the browser reads a stream of tokens, and PostgreSQL keeps
a row. Both come from one generator, which writes every token to two Kafka topics. This project models
the code between the request and these two copies of the answer, and proves what holds in every
reachable state and over every run, for any number of requests and sessions and any interleaving.

Shared state is logs, queues, maps and a table. One atomic step is one locked region, one channel
operation, one compare-and-swap, one log append, one Redis command or one database statement. Each
concurrent component is a step machine (`Enabled`, `Apply`, `Legal`, `After`); beside it stands a class
whose methods are the code's own atomic regions and loops, proved to move the machine by exactly the step
they stand for, or proved against a specification function.

## The parts

| files | what they hold |
|---|---|
| `Types.dfy`, `Sums.dfy`, `Subsequences.dfy`, `Draining.dfy` | events, the text they spell, sums over sequences and maps, sequences with elements left out, reading a queue up to Done |
| `MessageTable.dfy`, `FlushBatch.dfy`, `FlushSchedules.dfy` | the table, the buffers and a flush's batch as values |
| `MessageStore.dfy`, `PersistSession.dfy`, `PersistenceWorker.dfy` | the store, the use case and the worker as classes |
| `PersistenceMachine.dfy`, `PersistenceInvariant.dfy`, `PersistenceSpelling.dfy`, `PersistenceOwnership.dfy`, `PersistenceTheorems.dfy`, `PersistenceProgress.dfy`, `PersistenceWitness.dfy`, `PersistenceThreshold.dfy`, `PersistenceCommits.dfy` | the persistence half over whole runs, with failures, crashes, lagging commits and shutdown |
| `StreamingMachine.dfy`, `StreamingInvariant.dfy`, `StreamingTheorems.dfy`, `StreamingWorker.dfy` | router and processors of the streaming worker, with timeouts and cancellation |
| `Redis.dfy`, `CallbackStore.dfy`, `AddressMachine.dfy`, `StreamTokens.dfy`, `Instances.dfy` | how a token finds the API instance of its request, among any number of instances |
| `TokenHub.dfy`, `TokenServer.dfy`, `DeliveryMachine.dfy`, `ChatStream.dfy` | the last leg: gRPC stream, bounded queue, HTTP handler |
| `ProducerMachine.dfy`, `EventPublisher.dfy`, `ProcessChatRequest.dfy`, `MockLlm.dfy`, `LlmWorker.dfy` | the producers |
| `SessionOwner.dfy` | exclusive claims of a session over time |
| `Pipeline.dfy`, `PipelineInvariant.dfy`, `PipelineTheorems.dfy`, `Progress.dfy`, `Starvation.dfy`, `RoutedPipeline.dfy`, `RoutedProgress.dfy` | the whole streaming path: safety, progress, termination, the exact bound, and the path with its calls taken apart |
| `EndToEnd.dfy`, `Quiescence.dfy` | both halves together: the client and the table agree, and every run comes to rest |

## Results that a reader would not expect from the code

- A queue of 1000 is exactly enough: every run that comes to an end serves a request completely if and only
  if the request has at most 1000 events, Done included (`Starvation.ServedForSureIffShort`).
- With timeouts the router can be blocked for good, by exactly those requests that have more events than a
  channel has room: 32 never do it, 33 can (`StreamingTheorems.RouterBlocksIffOverCapacity`, `StuckForEver`).
  Without timeouts it cannot happen (`StreamingTheorems.LiveBehindTheRouter`).
- In all runs, with any crashes and any overlap of flushes, successful upserts carry every position at most once, if
  and only if commits take effect when they return (`PersistenceWitness.AtMostOnceIffSync`); the table then spells
  no position twice (`PersistenceTheorems.SyncCommitStoresAtMostOnce`).
- With commits that take effect later, a crash replays a position whose commit had returned if and only if the token
  was handed to the buffers and the broker had not caught up with its partition since
  (`PersistenceCommits.ReplayedIffNotCaughtUp`).
- What a successful upsert carried need not stay: flushes that overlap can overwrite each other. In every run the
  table still holds, for each request, its initial text and the texts of some successful flushes in the order they
  ended, and each added token is in one of five places, overwritten being one
  (`PersistenceTheorems.FailuresAccounted`).
- An upsert adds its snapshot to the table if and only if what its flush read is still there
  (`PersistenceTheorems.UpsertAddsSnapshotIffCurrent`). The guard sees to that before cancellation. The shutdown flush
  does not take the guard. When the flusher is still waiting, a flush has read and not written, and the buffers hold
  more of a request it carries, the shutdown flush can undo that flush, although no call fails
  (`PersistenceWitness.OvertakenFlushIsLost`): 501 deltas added and flushed, one stored
  (`UnguardedShutdownLosesDeltas`). There the threshold flush's database call is one that was begun before the
  cancellation and takes effect after it.
- 500 is the exact bound for that: no unfailing run of at most n tokens loses text, however it is cancelled and
  whatever flushes overlap, if and only if n is at most the flush threshold
  (`PersistenceThreshold.LosslessIffWithinThreshold`).
- A claim of a session succeeds, after any timed run, if and only if no other user's grant of it is less than a day
  old (`SessionOwner.ClaimGrantedIffFree`).
- The stored prompt of a request is independent of when flushes happen if and only if all its tokens quote the
  same prompt (`FlushSchedules.PromptIndependentIff`); those of the producers do
  (`EndToEnd.ProducersQuoteOnePrompt`).

## Where code and documentation disagree

The model follows the code. The repository's README says the offset is committed after the flush; the
code commits before `AddToken` (internal/adapter/controller/consumer/persistence.go:72, :82). It says the
buffer is cleared after the upsert; the code clears it before it reads the database
(internal/usecase/persist_session.go:69). It gives an interval of one minute; the code has 30 seconds
(internal/adapter/controller/consumer/persistence.go:19). It calls the upsert idempotent on replay; the
code appends to what it read (internal/usecase/persist_session.go:87).

## Assumptions

- One advertised address names one API instance. docker-compose.prod.yml:15 gives every replica the same
  address while line 29 asks for two replicas; with that configuration the address does not determine the
  instance, and the results about routing say only that tokens go to the registered address.
- Request ids are fresh, as `uuid.New` makes them.
- The producers' writers are asynchronous; the logs of the model are the accepted appends in the order they were
  accepted.
- A database statement takes effect at once or, when it reports an error, not at all.
- Timers are nondeterministic: the ticker and the 30-second timeout may fire at any moment. Only session
  ownership has a clock.

## Model

| member | source | states |
|---|---|---|
| EndToEnd.HalvesAgree | internal/usecase/persist_session.go:31-92 | in every reachable state, for every request: the persistence log is a prefix of the stream log at most one event behind, and table + snapshot in flight + buffer + unread log spell exactly the initial text followed by the persistence log; and what the client has read are events of the stream log in order, a prefix of it unless the hub's queue overflowed |
| EndToEnd.AgreementAtQuiescence | internal/usecase/process_chat_request.go:30-48 | when nothing can move and the persistence worker has settled: for every request of at most 1000 events, client text, newly stored text and the generator's concatenated output are equal, and the user row holds what the user asked |
| EndToEnd.AgreementLasts | internal/adapter/controller/consumer/persistence.go:93-108 | however the run goes on from there, ticks and empty flushes included, client, table and agreement stay as they are |
| EndToEnd.RowsQuoteTheirJob | internal/usecase/persist_session.go:83-91 | in every reachable state: once a successful upsert has carried a token of a request, its user row holds what its user asked; and every row of a job lies in its session and quotes it, if the initial rows do; with fresh request ids they do |
| EndToEnd.ProducersQuoteOnePrompt | internal/usecase/process_chat_request.go:31-48 | all events of a request in a persistence log quote one prompt, so the stored prompt does not depend on when flushes happen |
| EndToEnd.EveryRunReachesQuiescence | internal/adapter/controller/consumer/persistence.go:55-108 | every run of both halves can be continued, without any failure, until both have come to rest; that every run does is in `Quiescence` |
| EndToEnd.InvKept | internal/adapter/gateway/broker/publisher.go:77-80 | every step of either half keeps both invariants and keeps the log the producers write equal to the log the worker reads |
| Quiescence.MovesAreBounded | internal/adapter/controller/consumer/persistence.go:93-108 | every run of both halves makes at most as many steps as there is work, plus four for each tick, not counting ticks and the broker's catching up |
| Quiescence.RestTickRestAgrees | internal/adapter/controller/consumer/persistence.go:98-106 | whatever the run: if both halves come to rest, the clock ticks and they come to rest again, then client, table and generator agree on every request of at most 1000 events |
| PipelineTheorems.ClientReadsPrefix | internal/adapter/controller/http/handler/chat_stream.go:105-125 | over every interleaving the client's events are events of its request's stream log in order; unless the hub's queue overflowed they are a prefix of it and their text a prefix of what the generator says |
| PipelineTheorems.ShortRequestNeverOverflows | internal/adapter/gateway/hub/token_hub.go:17-37 | a request of at most 1000 events never finds its queue missing or full, in any reachable state |
| PipelineTheorems.ExecutedWithinLog | internal/adapter/controller/consumer/streaming_worker.go:91-123 | without timeouts the tokens executed for a request over all its channels are a prefix of its log |
| PipelineInvariant.InvKept | internal/adapter/controller/consumer/worker.go:43-73 | every step of the streaming path keeps: published requests are waiting, in hand or begun, writing producers hold a slot, what was sent is what was executed, handlers leave only after Done |
| Progress.EveryStepDescends | internal/adapter/controller/consumer/streaming_worker.go:75-123 | every step of the streaming path lowers the weighted number of hops the tokens still have before them |
| Progress.RunsAreBounded | internal/adapter/controller/consumer/worker.go:43-73 | no run is longer than 7 steps for each request and 10 for each of its events |
| Progress.StoppedIsServed | internal/adapter/controller/http/handler/chat_stream.go:105-125 | when nothing can move, a request of at most 1000 events has both logs complete, and its client has read every event and its handler has gone |
| Progress.UnfinishedCanMove | internal/adapter/controller/consumer/worker.go:65-72 | every reachable state in which such a request is unfinished has an enabled step, and it brings the end nearer |
| Progress.RouterNeverBlockedForGood | internal/adapter/controller/consumer/streaming_worker.go:85-88 | the channel the router is sending to always has a live processor behind it |
| Progress.EveryRunCompletes | internal/adapter/controller/consumer/streaming_worker.go:47-73 | every run can be continued to one in which nothing can move |
| Starvation.ServedForSureIffShort | internal/adapter/gateway/hub/token_hub.go:18-36 | all runs that end serve a request completely if and only if it has at most 1000 events |
| Starvation.LongRequestMayStarve | internal/adapter/gateway/hub/token_hub.go:32-36 | for any longer request there is a run, without any failure, at whose end its handler waits for a Done that was dropped |
| Starvation.Pump | internal/adapter/controller/consumer/streaming_worker.go:101-110 | one event goes from its producer through both logs, router, channel and processor into the queue of a handler that does not read |
| PersistenceTheorems.EveryDeltaOnceInOrder | internal/usecase/persist_session.go:31-91 | with `AddToken` between any phases of a flush, table + snapshot + buffer is the initial text followed by all added deltas, in order |
| PersistenceTheorems.FailuresAccounted | internal/usecase/persist_session.go:54-91 | with failing reads, upserts and crashes, and with overlapping flushes: the table holds for a request its initial text and the texts of some successful flushes in the order they ended; every added token of it is in exactly one of these, the overwritten, the lost, the ones in flight and the buffered; `count` is the number of buffered tokens; without overlap nothing is overwritten and all lie there in the order added |
| PersistenceSpelling.SpellingKept | internal/usecase/persist_session.go:54-91 | each of the fifteen steps keeps it so that the table, and what every flush has read of it, is the initial text followed by the texts of some successful flushes in order |
| PersistenceTheorems.SingleFlight | internal/adapter/controller/consumer/persistence.go:84-106 | before cancellation at most one flush lies between its compare-and-swap and its release, and what it read is still what the table holds when it upserts |
| PersistenceTheorems.AtMostTwoFlights | internal/adapter/controller/consumer/persistence.go:93-107 | in every reachable state there is at most one guarded flush and at most one shutdown flush |
| PersistenceTheorems.SyncCommitStoresAtMostOnce | internal/adapter/controller/consumer/persistence.go:62-82 | if a commit takes effect when it returns, then whatever crashes happen and flushes overlap, successful upserts carry no position twice and the table spells none twice; without overlap the positions carried are strictly increasing in each partition |
| PersistenceTheorems.LaggingCommitReplaysTheGap | internal/adapter/controller/consumer/persistence.go:50-82 | a position that successful upserts carried twice lay, at some crash, between the committed and the consumed offset, whether or not flushes overlap |
| PersistenceTheorems.DisorderComesFromReplay | internal/adapter/controller/consumer/persistence.go:50-82 | without overlapping flushes the same goes for a position that upserts carried out of order |
| PersistenceTheorems.UpsertAddsSnapshotIffCurrent | internal/usecase/persist_session.go:78-91 | an upsert adds its whole snapshot to the stored text of every request if and only if what its flush read is still stored |
| PersistenceTheorems.HistoryWellPaired | internal/adapter/gateway/store/message_store.go:79-121 | after any run the rows in id order are (user, assistant) pairs of one request and session, distinct requests across pairs; so is the history of each session; keys are unique |
| PersistenceTheorems.HistoryGrowsAtItsEnd | internal/adapter/gateway/store/message_store.go:109-122 | however a run goes on, failures, crashes and overlapping flushes included, a session's history keeps every message at its place, and new ones come after |
| PersistenceTheorems.RowsQuoteTheirRequest | internal/usecase/persist_session.go:83-91 | if the logs quote their requests: once a successful upsert has carried a token of a request its user row holds its prompt, whichever flush wrote it last; and if the initial rows belong to their requests so do all rows, in session and prompt |
| PersistenceInvariant.InvKept | internal/usecase/persist_session.go:54-91 | each of the fifteen steps, crash and cancellation included, keeps the whole invariant |
| PersistenceInvariant.WrittenUpsert | internal/usecase/persist_session.go:83-91 | an upsert that nothing overlapped makes the table spell one more snapshot, and leaves no stale read behind |
| PersistenceProgress.CanSettle | internal/adapter/controller/consumer/persistence.go:82-106 | from every sound state the worker's own steps can bring every appended token into the table |
| PersistenceProgress.MovesAreBounded | internal/adapter/controller/consumer/persistence.go:62-106 | in every run without failure the worker's steps, not counting ticks and the broker's catching up, are at most the work there was and four for each tick |
| PersistenceProgress.TickThenRestSettles | internal/adapter/controller/consumer/persistence.go:98-106 | if the worker rests, the clock ticks, and however it goes on it rests again, then every appended token is in the table |
| PersistenceWitness.AtMostOnceIffSync | internal/adapter/controller/consumer/persistence.go:50-82 | in no run, with any crashes, failures and overlaps, do successful upserts carry a position twice, if and only if commits take effect when they return or there is no partition to read |
| PersistenceWitness.ReplayDuplicatesText | internal/adapter/controller/consumer/persistence.go:50-82 | with lagging commits, whatever the logs and partitions, a run without failing call or overlap stores the first token twice, and its delta with it |
| PersistenceWitness.OvertakenFlushIsLost | internal/adapter/controller/consumer/persistence.go:98-100 | from any state in which the flusher waits, a flush has read and not written, and the buffers hold more of a request it carries, a run in which no call fails lets the shutdown flush undo it: the stored text grows by the buffered text alone |
| PersistenceWitness.UnguardedShutdownLosesDeltas | internal/adapter/controller/consumer/persistence.go:98-100 | an instance of this from the start, for any table and other partitions: no call fails, all 501 copies of a delta are flushed and one is stored |
| PersistenceThreshold.ShortRunsLoseNothing | internal/adapter/controller/consumer/persistence.go:84-108 | while no call has failed and at most 500 tokens were added, cancelled or not and whatever flushes overlap: table + snapshot + buffer is the initial text followed by all added deltas, in order |
| PersistenceThreshold.LosslessIffWithinThreshold | internal/adapter/controller/consumer/persistence.go:84-108 | no unfailing run of at most n tokens that has flushed everything has lost text if n is at most 500, and, whatever the table and the other partitions hold, only if, once partition 0 begins empty |
| PersistenceCommits.ReplayedIffNotCaughtUp | internal/adapter/controller/consumer/persistence.go:50-82 | with lagging commits, the crash after a returned commit replays its position if and only if the token was handed to the buffers and the broker did not catch up with its partition in between |
| PersistenceCommits.CaughtUpIsSafe | internal/adapter/controller/consumer/persistence.go:50-75 | once the broker has caught up with a partition, no later crash replays a position whose commit had returned by then |
| PersistenceWorker.PersistenceWorkerImpl.Consume | internal/adapter/controller/consumer/persistence.go:62-90 | one turn of the loop is fetch, commit, `AddToken`, threshold test and, from 500 tokens on, the trigger, in this order |
| PersistenceWorker.PersistenceWorkerImpl.TestAndTrigger | internal/adapter/controller/consumer/persistence.go:84-89 | the compare-and-swap is tried only above the threshold, and a flush starts only for its winner |
| PersistenceWorker.PersistenceWorkerImpl.TryTick | internal/adapter/controller/consumer/persistence.go:101-105 | a tick starts a flush exactly when it wins the flag |
| PersistenceWorker.PersistenceWorkerImpl.StopFlusher | internal/adapter/controller/consumer/persistence.go:98-100 | the shutdown flush starts whether or not the flag is taken |
| PersistenceWorker.PersistenceWorkerImpl.FlushSnapshot | internal/usecase/persist_session.go:55-71 | the locked phase of a flush moves the machine by its snapshot step |
| PersistenceWorker.PersistenceWorkerImpl.FlushRead | internal/usecase/persist_session.go:73-81 | the read phase is the machine's read step, a failed one included |
| PersistenceWorker.PersistenceWorkerImpl.FlushWrite | internal/usecase/persist_session.go:83-91 | merge and upsert are the machine's upsert step for the order in which the map was ranged over |
| PersistenceWorker.PersistenceWorkerImpl.RunFlush | internal/adapter/controller/consumer/persistence.go:85-88 | a flush begins with its snapshot and hands the flag back last, whatever failed in between |
| PersistSession.PersistSessionUseCase.AddToken | internal/usecase/persist_session.go:31-45 | the first token of a request fixes its session and prompt, every token adds its delta and counts once |
| PersistSession.PersistSessionUseCase.TakeSnapshot | internal/usecase/persist_session.go:55-71 | returns a copy of all buffers and leaves none, or changes nothing if there are none |
| PersistSession.PersistSessionUseCase.ReadExisting | internal/usecase/persist_session.go:73-81 | reads the stored text of exactly the snapshot's requests |
| PersistSession.PersistSessionUseCase.BuildBatch | internal/usecase/persist_session.go:83-89 | two messages for each buffered request, in some order of the requests, with no repeated key |
| PersistSession.PersistSessionUseCase.Flush | internal/usecase/persist_session.go:54-92 | on success each request's stored text grows by its buffered text; on failure the table is as before and the buffers are gone |
| FlushBatch.CollectHolds | internal/usecase/persist_session.go:31-45 | the buffers hold each request's deltas in order, the session and prompt of its first token, and nothing else |
| FlushBatch.BatchHasDistinctKeys | internal/usecase/persist_session.go:83-89 | a batch has exactly two messages for each request and no repeated key |
| FlushBatch.EnumerationDoesNotMatter | internal/usecase/persist_session.go:74-91 | the contents after the upsert are the same for every order in which the map is ranged over |
| FlushBatch.FlushAppends | internal/usecase/persist_session.go:78-91 | if the table still holds what was read, the upsert appends exactly the snapshot's text |
| FlushBatch.AppendsIffCurrent | internal/usecase/persist_session.go:78-91 | the upsert appends the snapshot for every request if and only if the table still holds what was read |
| FlushBatch.BatchKeepsPairs | internal/adapter/gateway/store/message_store.go:79-89 | upserting a batch keeps rows in pairs |
| FlushSchedules.ScheduleDoesNotMatter | internal/usecase/persist_session.go:54-91 | any placement of successful flushes ending in a flush leaves each request the assistant row that appending each token directly would, or none if that leaves none |
| FlushSchedules.BuffersHoldPending | internal/usecase/persist_session.go:47-51 | `count` is at all times the number of tokens held, which are those since the last flush |
| FlushSchedules.PromptIndependentIff | internal/usecase/persist_session.go:35-42 | the stored prompt does not depend on the schedule if and only if the request's tokens agree on it |
| MessageStore.MessageStoreImpl.BulkUpsertMessages | internal/adapter/gateway/store/message_store.go:59-90 | sessions are inserted, then all rows upserted, or nothing of the rows; a repeated key is refused; keys stay unique and every row's session exists |
| MessageStore.MessageStoreImpl.GetContentByRequestIDs | internal/adapter/gateway/store/message_store.go:92-107 | exactly the stored assistant texts of the given requests, no entry for a missing row |
| MessageStore.MessageStoreImpl.GetHistory | internal/adapter/gateway/store/message_store.go:109-122 | the rows of the session and no others, at increasing positions of the table, which is in id order; in pairs if the table is |
| MessageTable.LookupUpsertRow | internal/adapter/gateway/store/message_store.go:84-87 | a conflict on (request, role) updates the content, and every other key keeps its row |
| MessageTable.PairedPositions | internal/adapter/gateway/store/message_store.go:109-122 | the recursive and the positional reading of well-paired rows are the same |
| MessageTable.UpsertPairKeepsPairs | internal/adapter/gateway/store/message_store.go:79-89 | writing a request's two messages keeps the rows in pairs, whether or not the request had rows |
| MessageTable.SessionHistoryPaired | internal/adapter/gateway/store/message_store.go:111-114 | the session filter keeps the pairs and exactly the session's rows |
| MessageTable.SessionPositions | internal/adapter/gateway/store/message_store.go:111-114 | a session's history lies at increasing positions of the table, and these are all its rows |
| MessageTable.UpsertRowKeepsPlaces | internal/adapter/gateway/store/message_store.go:84-89 | an insert-or-update moves no row: one content changes, or the row is added at the end |
| StreamingTheorems.OneProcessor | internal/adapter/controller/consumer/streaming_worker.go:75-96 | at most one processor of a request can still call `Execute`, and the map holds its channel |
| StreamingTheorems.OnlyTheOwnerRemoves | internal/adapter/controller/consumer/streaming_worker.go:92-96 | an entry leaves the map only by the exit of its own processor |
| StreamingTheorems.OrderAcrossGenerations | internal/adapter/controller/consumer/streaming_worker.go:75-123 | in every run, timeouts, cancellation and given-up tokens included: per channel the executed tokens are a prefix of the routed ones, and over all channels of a request routed and executed tokens are in-order subsequences of its log; the routed ones are a prefix unless a cancelled router gave up a token |
| StreamingTheorems.NothingAfterDone | internal/adapter/controller/consumer/streaming_worker.go:111-114 | when a processor has left after Done, nothing of its request waits in its channel or in the router's hand |
| StreamingTheorems.LiveBehindTheRouter | internal/adapter/controller/consumer/streaming_worker.go:85-88 | without timeouts and cancellation, and with Done last in the request's log, the processor behind the channel the router sends to is live |
| StreamingTheorems.CompleteAtRest | internal/adapter/controller/consumer/streaming_worker.go:101-122 | without timeouts and cancellation, and with Done last in every request's log, a worker at rest has executed every request's whole log in order |
| StreamingTheorems.StuckForEver | internal/adapter/controller/consumer/streaming_worker.go:85-88 | a router sending to a full channel without a processor routes nothing more until it is cancelled |
| StreamingTheorems.RouterBlocksIffOverCapacity | internal/adapter/controller/consumer/streaming_worker.go:79-88 | with timeouts, for any partitions and any other requests: a request with at most n events never blocks the router for good, in any uncancelled run, if and only if n is at most 32 |
| StreamingTheorems.TimeoutCanBlockTheRouter | internal/adapter/controller/consumer/streaming_worker.go:92-118 | a run in which a timer fires on an empty channel and 33 events are routed before the processor has deleted its entry |
| StreamingInvariant.InvKept | internal/adapter/controller/consumer/streaming_worker.go:47-123 | each of the eleven steps keeps the map, the channels, the generations and the order through the worker |
| StreamingWorker.StreamingWorkerImpl.FetchMessage | internal/adapter/controller/consumer/streaming_worker.go:52-71 | hands out the next token of a partition |
| StreamingWorker.StreamingWorkerImpl.Route | internal/adapter/controller/consumer/streaming_worker.go:76-83 | the locked lookup finds the request's channel or makes one with its processor |
| StreamingWorker.StreamingWorkerImpl.Send | internal/adapter/controller/consumer/streaming_worker.go:85-86 | the token goes to the end of the channel |
| StreamingWorker.StreamingWorkerImpl.RouteToken | internal/adapter/controller/consumer/streaming_worker.go:75-89 | lookup and select together: the token joins the request's channel, or a cancelled router gives it up, or the router stays blocked, exactly when the channel is full and nothing was cancelled; a run of the machine in each case |
| StreamingWorker.StreamingWorkerImpl.Receive | internal/adapter/controller/consumer/streaming_worker.go:103-104 | the processor takes the channel's first token |
| StreamingWorker.StreamingWorkerImpl.Executed | internal/adapter/controller/consumer/streaming_worker.go:108-115 | whatever `Execute` returned, the processor goes on unless the token was Done |
| StreamingWorker.StreamingWorkerImpl.ProcessRequest | internal/adapter/controller/consumer/streaming_worker.go:91-123 | a processor left alone executes what its channel holds up to the first Done, or all of it and then leaves on its timer or, if cancelled, at once, and removes its entry; all of it is a run of the machine |
| StreamingWorker.StreamingWorkerImpl.GiveUp | internal/adapter/controller/consumer/streaming_worker.go:85-88 | a cancelled router gives up the token it holds and nothing else |
| StreamingWorker.StreamingWorkerImpl.TimedOut | internal/adapter/controller/consumer/streaming_worker.go:116-118 | a waiting processor may leave on its timer, whatever its channel holds |
| StreamingWorker.StreamingWorkerImpl.Cancelled | internal/adapter/controller/consumer/streaming_worker.go:119-120 | a waiting processor leaves when the worker is cancelled |
| StreamingWorker.StreamingWorkerImpl.Exit | internal/adapter/controller/consumer/streaming_worker.go:92-96 | the deferred exit removes the request's entry |
| AddressMachine.CachesAgreeWithStore | internal/usecase/stream_tokens.go:35-117 | in every reachable state each cached address is the registered one, each stream runs over a connection to it, every request with a stream has a cached address, and every token sent went to the registered address |
| Instances.EveryTokenReachesItsInstance | internal/usecase/stream_tokens.go:35-117 | with any number of API instances, failures, evictions and expiries: no token is ever sent to an instance that does not handle its request, and the request's own lane is sent exactly the tokens sent for it, in order; that calls follow publication is assumed here and derived in `RoutedPipeline` |
| Instances.InvKept | internal/adapter/controller/http/handler/chat_stream.go:80-125 | every step of handlers, calls and expiries keeps the stored address the handler's own and every lane fed by its own tokens |
| Instances.AnnouncedTokenArrives | internal/adapter/controller/http/handler/chat_stream.go:80-95 | once a handler has stored its address and published, a token of its request can be brought to its lane at once |
| Instances.TokenGetsThrough | internal/usecase/stream_tokens.go:35-117 | from every reachable state, while the stored address has not expired, a call can bring the next token of a published request to its lane |
| RoutedPipeline.EveryTokenReachesItsHandler | internal/usecase/stream_tokens.go:35-117 | with lookups, dials and sends of all calls interleaved with the rest of the streaming path, without failure: no token goes astray, each lane is sent its own tokens in order, and the whole is a run of the path in which a call is one step |
| RoutedPipeline.CallsFollowPublication | internal/adapter/controller/http/handler/chat_stream.go:80-95 | a call begins only for a request that has been published, which follows from what the producers have written and is no condition of the call |
| RoutedPipeline.StoppedIsServed | internal/adapter/controller/consumer/streaming_worker.go:101-114 | calls hold nothing up: when nothing can move, no call is unfinished and every request of at most 1000 events has been read to its end |
| RoutedPipeline.InvKept | internal/usecase/stream_tokens.go:35-83 | every step of the path and of the calls keeps the path's invariant and the match between calls, store and lanes, and is at most one step of the path |
| RoutedProgress.EveryStepDescends | internal/usecase/stream_tokens.go:35-83 | every step of the path and every action of a call lowers the remaining work |
| RoutedProgress.RunsAreBounded | internal/adapter/controller/consumer/streaming_worker.go:101-114 | with its calls taken apart a run of the path has at most fourteen steps for each it may have with a call as one step |
| RoutedProgress.EveryRunCompletes | internal/adapter/controller/consumer/streaming_worker.go:47-73 | every run of the path with its calls can be continued to one in which nothing can move |
| AddressMachine.InvKept | internal/usecase/stream_tokens.go:41-103 | every action of every call, and every expiry, keeps this |
| AddressMachine.ExpiryIsFinal | internal/adapter/gateway/cache/callback_store.go:20-26 | once a request's address has expired the store never answers a call with it again |
| AddressMachine.WhatACallDoes | internal/usecase/stream_tokens.go:35-59 | a call fails exactly if it gets no stream or the send fails; where a successful one sends; a failed send or a Done forgets stream and address of the request, a call without a stream keeps an address it found, and no other request is touched |
| AddressMachine.CallIsARun | internal/usecase/stream_tokens.go:35-117 | a call nobody disturbs is a run of the machine with that outcome |
| StreamTokens.StreamTokensUseCase.Execute | internal/usecase/stream_tokens.go:35-59 | an open stream is used again; otherwise the token goes to the request's cached or stored address, if everything on the way succeeds, and fails if none was stored; the stream is kept unless the token was Done; after a failed send, or Done, nothing of the request is kept, and no other request is touched; caches, error and connection are the machine's outcome |
| StreamTokens.WhatOpeningDoes | internal/usecase/stream_tokens.go:61-83 | exactly when a stream is had; it runs over a connection to the request's address and is kept with that address, and connections already kept stay |
| StreamTokens.StreamTokensUseCase.GetOrOpenStream | internal/usecase/stream_tokens.go:61-83 | an open stream is reused; otherwise one is had exactly if an address is cached or the store answers with one, a connection is kept or can be made, and the stream opens; it runs over a connection to that address, and what was obtained is kept |
| StreamTokens.StreamTokensUseCase.OpenStream | internal/usecase/stream_tokens.go:72-82 | the connection and then the stream, which is kept for the request |
| StreamTokens.StreamTokensUseCase.ResolveAddr | internal/usecase/stream_tokens.go:85-95 | the cached address, else exactly what the callback store holds for the request now, which is then cached; an error caches nothing |
| StreamTokens.StreamTokensUseCase.GetConn | internal/usecase/stream_tokens.go:97-117 | the connection kept for the address, else a new one to it, which is kept, unless making it fails |
| CallbackStore.CallbackStoreImpl.SetCallback | internal/adapter/gateway/cache/callback_store.go:20-22 | for five minutes the request, and no other, has this address |
| CallbackStore.CallbackStoreImpl.GetCallback | internal/adapter/gateway/cache/callback_store.go:24-26 | the request's address while it has not expired; none if none was ever stored |
| CallbackStore.CallbackKeysDiffer | internal/adapter/gateway/cache/callback_store.go:28-30 | two requests never share a key |
| SessionOwner.OwnersAreApart | internal/adapter/gateway/cache/session_owner.go:13-46 | of two successful claims of a session the later rests on the same key, owner and deadline, or on a key set at least 24 hours after the earlier one's |
| SessionOwner.ReclaimsChangeNothing | internal/adapter/gateway/cache/session_owner.go:17-23 | while a grant lasts a claim succeeds exactly for its user and changes neither owner nor deadline |
| SessionOwner.OwnershipStartsWithAClaim | internal/adapter/gateway/cache/session_owner.go:18-21 | every grant goes back to its own user's claim of the free session |
| SessionOwner.ClaimGrantedIffFree | internal/adapter/gateway/cache/session_owner.go:13-23 | after any timed run a claim is granted if and only if no other user's grant of the session is less than a day old, and otherwise changes nothing |
| SessionOwner.OwnershipLapses | internal/adapter/gateway/cache/session_owner.go:13-23 | a day after any run anybody's claim is granted |
| SessionOwner.OwnersAndCallbacksDisjoint | internal/adapter/gateway/cache/session_owner.go:39-39 | owners and callbacks share a Redis without sharing a key |
| SessionOwner.SessionOwnerStoreImpl.ClaimOwner | internal/adapter/gateway/cache/session_owner.go:38-46 | a free or expired session becomes the user's for exactly a day; an owned one stays as it is and the claim succeeds for its owner only; an error claims nothing, and no other key changes |
| SessionOwner.SessionOwnerStoreImpl.GetOwner | internal/adapter/gateway/cache/session_owner.go:48-51 | the owner while the key has not expired |
| DeliveryMachine.NeverDropsWithinBound | internal/adapter/gateway/hub/token_hub.go:17-37 | while the handler runs, at most 1000 deliveries never find the queue missing or full; the chunks are a prefix of the deliveries and of what was sent, Done last |
| DeliveryMachine.ReadsInOrder | internal/adapter/controller/http/handler/chat_stream.go:105-125 | however many tokens were delivered and dropped, what the client was given is what was sent with some left out, in order, Done at most last |
| DeliveryMachine.Flood | internal/adapter/gateway/hub/token_hub.go:32-36 | tokens delivered to a handler that does not read are all kept if and only if the queue has room for all |
| DeliveryMachine.InvKept | internal/adapter/controller/http/handler/chat_stream.go:80-125 | every step of a request's last leg keeps its invariant |
| TokenHub.TokenHubImpl.Register | internal/adapter/gateway/hub/token_hub.go:17-24 | the request has a new empty queue, shared with no other |
| TokenHub.TokenHubImpl.Deliver | internal/adapter/gateway/hub/token_hub.go:26-37 | appends to the request's queue, or drops exactly when it is missing or full |
| TokenHub.TokenHubImpl.Cleanup | internal/adapter/gateway/hub/token_hub.go:20-22 | the request has no queue, the others keep theirs |
| TokenServer.TokenServerImpl.DeliverTokens | internal/adapter/controller/grpc/token_server.go:26-44 | the messages up to the first without a request id, and no more, go to the hub; each registered request gets its own of these in order, as far as its queue has room; the status says how the stream ended |
| TokenServer.DeliverAllPerRequest | internal/adapter/controller/grpc/token_server.go:38-42 | each registered request gets its own messages in order, cut off where its queue is full, and an unregistered one nothing |
| ChatStream.ChatStreamHandler.Open | internal/adapter/controller/http/handler/chat_stream.go:69-95 | which of the four statuses a request gets; a refused or unpublished one leaves no queue and no message; an accepted one is registered and announced before it is published |
| ChatStream.TokenStream.Start | internal/adapter/controller/http/handler/chat_stream.go:80-95 | register, store the address, publish, in the lane's order; a failed publication is cleaned up |
| ChatStream.TokenStream.Prepare | internal/adapter/controller/http/handler/chat_stream.go:80-87 | the queue is registered and the address stored, in this order, before anything is published |
| ChatStream.TokenStream.Next | internal/adapter/controller/http/handler/chat_stream.go:106-124 | one turn of the drain loop writes the queue's first token, or leaves; it leaves exactly if the client is gone, the write fails or the token was Done, and the chunks, the queue and every other request's queue are as they should be then |
| ChatStream.TokenStream.Drain | internal/adapter/controller/http/handler/chat_stream.go:105-125 | a client that stays is written the queue's tokens in order up to the first Done, and the handler leaves exactly if Done was among them |
| ChatStream.TokenStream.Serve | internal/adapter/controller/http/handler/chat_stream.go:80-125 | for any turns of the loop: exactly which tokens are written, exactly when the handler leaves, and that its queue is gone then, whatever made it leave |
| Draining.UpToDoneIs | internal/adapter/controller/http/handler/chat_stream.go:105-123 | what a drain reads is the front of the queue with Done at most last, and all of it if Done is not among it |
| ProducerMachine.DualLogLag | internal/usecase/process_chat_request.go:24-49 | with either append allowed to fail, the persistence log is a prefix of the stream log, at most one event behind, Done is last, and a request returned without error if and only if its log is complete |
| ProducerMachine.EventsSpell | internal/usecase/process_chat_request.go:30-48 | the events of a request spell what the generator said, with one Done, last |
| ProducerMachine.InvKept | internal/adapter/gateway/broker/publisher.go:64-81 | every append of every concurrent request keeps each request's two logs in step and in its own partition |
| EventPublisher.EventPublisherImpl.PublishToken | internal/adapter/gateway/broker/publisher.go:64-81 | the stream log first, the persistence log only after it, each in the session's partition |
| EventPublisher.EventPublisherImpl.PublishRequest | internal/adapter/gateway/broker/publisher.go:56-58 | the request goes to its session's partition, or nothing is written |
| ProcessChatRequest.ProcessChatRequestUseCase.Execute | internal/usecase/process_chat_request.go:24-49 | an error exactly if the generator does not start or a publication fails; both logs gain the request's events, each with its own delta, up to the first that fails; this is a state in which a producer of the machine returns |
| LlmWorker.WorkerImpl.Spawn | internal/adapter/controller/consumer/worker.go:65-72 | a fetched request starts only when the semaphore has room, and the semaphore counts the running requests |
| MockLlm.TokensSpellNormalised | internal/framework/llm/mock.go:24-35 | the tokens of any response concatenate to the response with its white space normalised |
| MockLlm.SplittingAgain | internal/framework/llm/mock.go:25-30 | splitting that text gives the same words |
| MockLlm.RebuiltIffNormal | internal/framework/llm/mock.go:24-35 | a response is rebuilt exactly if and only if it has single inner spaces and no outer white space |
| MockLlm.Generate | internal/framework/llm/mock.go:20-40 | emits as many tokens as are taken, or all; behind each of them the text so far is exactly the response's words up to there, with single spaces between them and none after |
| MockLlm.CutTokensRead | internal/framework/llm/mock.go:24-35 | wherever the tokens are cut off they read as the words so far, normally spaced |
| MockLlm.FieldsSpan | internal/framework/llm/mock.go:25-25 | the words are the maximal stretches of the response without white space, all of them, in order |

## Left out

- The internals of Kafka, Redis, PostgreSQL, GORM and gRPC: they are logs with committed offsets, maps with expiry, an ordered table and streams whose sends may fail.
- JSON encoding and its failures, HTTP headers, routing, JWT and bearer checks, logging, configuration, dependency injection and the programs under `cmd`.
- Crash and restart of the LLM worker and of the streaming worker, and rebalancing of consumer groups: their topics are read once, in order within a partition.
- `internal/adapter/gateway/cache/pubsub_stream.go`: the API does not use it.
- `internal/adapter/gateway/cache/conversation_cache.go`, presenters, `GetHistoryUseCase`, `SaveMessage`, `BulkSaveMessages` and the HTTP callback handler: thin, or not on the path of a token.
- The order between different requests flushed in one batch: it is the map's iteration order.
- The text of the mock's five responses and the random choice among them: the generator is modelled for any response.
- `CloseAndRecv` and the acknowledgement it waits for, and the `Timestamp` of a request: nothing depends on them.
- The code keeps buffers and channels behind pointers; the model keeps buffers as values and names the channels of the streaming worker and the client connections by handles. The hub's queues are objects.
- Fairness: the streaming path needs none, since all its runs are finite. The persistence worker's ticker may fire for ever; what is proved is that between two ticks its steps are bounded and that a tick between two rests leaves nothing behind.
- Expiry and failures in `RoutedPipeline`: they are covered by `Instances` and `AddressMachine`, where a failed call loses its token.
- Progress.RunsAreBounded: covers the streaming path without failure, timeout, cancellation or departure; with timeouts the router can block, which has its own lemma.
