# Delivery and persistence of collaborative edits

A Yjs collaboration server and its browser client keep edits through a chain of stores and
confirmations. An edit gets a per-document number and goes into the browser's Outbox (IndexedDB). It is
sent, and sent again after a reconnect, until the server answers `sync:ack`. The server applies it to the
document in memory and appends the resulting update to a Redis Stream, one per document, which serves as
a write-ahead log. Workers read, reclaim and store the entries as rows of `tex_sync` under a distributed
lock and acknowledge them only then. Reading a document folds its rows, and above 500 rows starts a
compaction that replaces them by one.

This project models that chain and proves what it is for, with the conditions it needs. Whatever disconnects,
crashes, evictions, redeliveries, expiries and lost replies occur, an edit committed to the Outbox is still there or
durable, provided that

- no message starts on a connection while a cancelled one's persistence is in flight there,
- only update frames with an ack request leave markers, and
- each time this edit is received, it is all known to the server's document, or else is applied completely and shares
  nothing known with an update whose persistence failed or still runs. How other edits are received does not matter.

Durable means: in a log entry the workers have not acknowledged, or stored; and what was stored is still in the rows if
and only if every compaction was covered. None of the conditions can be dropped: for each there is a run that loses an
edit without it, from the empty system, or, for compactions, from every state in which one would start. In every state
that runs under these conditions reach, one more receipt may lose its edit if and only if something of it that the update
listener does not see is not durable.

An update is a finite set of operations and a document is the union of the updates applied to it. That is
the contract of Yjs this rests on: applying is idempotent, commutative and associative. Every `await` is a
point where other parties may run.

## Layout

- `Storage.dfy` is the persistence of one document as a transition system: stream, consumer group, rows,
  hash marks, lock, and every running call of `storeUpdate`, one event per await or fault.
  `StorageSafety.dfy`, `Compaction.dfy`, `ClockOrder.dfy`, `ClockRuns.dfy` and `InsertionOrder.dfy` are theorems about all
  its runs;
  `Steps.dfy` and `Windows.dfy` build particular runs.
- `SyncTable.dfy`, `StoreCall.dfy`, `WalWorker.dfy` and `Persistance.dfy` are the code that runs on Postgres and
  Redis, on fields changed in place. Each method hands back the state of the machine that it reached, so
  the theorems about runs are about this code.
- `WalEntries.dfy` is the entries' wire format, `DrainCheck.dfy` is `waitDocWALDrained` and what its answer means.
- `AckPairing.dfy`, `RootAcks.dfy`, `SubdocAcks.dfy`, `UpdateTracking.dfy` and `ResultOwnership.dfy` are the server's
  side of acknowledging.
- `OutboxStore.dfy`, `OutboxTab.dfy`, `OutboxSender.dfy` and `AckRetry.dfy` are the client.
- `EndToEnd.dfy` puts client, connections, server and storage together; `EndToEndRuns.dfy` is what its runs keep,
  `EndToEndLosses.dfy` is what it loses without its
  conditions, `EndToEndProgress.dfy` that an edit can always be delivered.
- `Lib0.dfy`, `KeyCodec.dfy`, `Frames.dfy`, `DiffContext.dfy`, `FlushPool.dfy`, `ScrollPaging.dfy` are codecs and
  smaller algorithms; `Base.dfy` and `Decimal.dfy` are shared vocabulary.

## What the code does not promise

Some claims one would expect hold only under a condition. Each is proved with its condition, and a
concrete run shows what happens without it.

- A compaction deletes every row below its own clock, but merged only what it had read earlier and
  without the lock. An update stored and confirmed in between is lost (`Windows.WindowLosesConfirmedUpdate`);
  exactly what is lost is `Compaction.ClearAccounting`, and a run loses nothing if and only if all it clears
  unseen is in the rows that stay (`Compaction.RunLosesNothingIff`). getYDoc swallows an apply error and may
  compact the part it had folded (`Persistance.GetYDoc`).
- The update listener persists what was new to the document in memory. If the rest of the payload was
  known there but never persisted (`EndToEndLosses.PartlyKnownUpdateIsLost`), or waits in memory for operations the
  document does not have (`EndToEndLosses.HeldBackPartIsLost`), the payload is acknowledged without being durable.
  The condition on receipts is `EndToEnd.CleanReceipt`; exactly when an appended payload is durable is
  `EndToEndRuns.ReceivedIsDurableIff`, and exactly when a receipt may lose its entry is `EndToEndLosses.ReceiptIsSafeIff`.
- A cancelled tracker's persistence may complete the next message's tracker, and an entry answered with that
  result is deleted although its own persistence has not begun (`EndToEndLosses.StaleCompletionLosesUpdate`). From
  then on every result is shifted by one: a condition on single messages does not restore the correspondence
  (`ResultOwnership.StaleCompletionCascades`), one on all starts does (`EndToEndRuns.AnswersAreOwn`).
- connect() clears the attempt counts but not the retry timers. N entries cause at most 2N replays in all
  continuations if and only if no retry timer was running at connect() (`AckRetry.TwoPerEntryIff`).
- An update frame without an ack request shifts the pairing of markers and requests
  (`RootAcks.StrayMarkerShiftsAcks`), and an entry whose own persistence failed is deleted on another frame's marker
  (`EndToEndLosses.StrayMarkerLosesUpdate`).
- A delivery between the two reads of the drain check defeats it (`DrainCheck.DeliveryBetweenReads`).
- A number given explicitly is safe if and only if it is not above the counter, or above all the tab takes for used,
  or stores the same row again (`OutboxStore.PutEvolvesIff`). Otherwise, that is between the two, a tab that takes
  less for used is given it again and overwrites the row (`OutboxStore.UnreservedSeqIsOverwritten`).
- A failing send gives up another one with its key, or itself: exactly when is `OutboxSender.GivenUpIff`. It needs
  two sends under one explicit number (`OutboxSender.DuplicateKeyIsDropped`).
- A failed clock query counts as an empty document, and the insert goes to clock 0. It adds a row if and only if
  that clock is free, and in order if and only if there are no rows (`ClockOrder.FailedQueryInsertIff`). After a
  compaction it is free, and the update is stored below older rows (`Windows.FailedQueryStoresBelow`).
- Paging orders by creation time but compares ids; it is complete exactly when every page end separates the
  ids (`ScrollPaging.PagingIsCompleteIff`).

## Model

| member | source | states |
|---|---|---|
| EndToEndRuns.NoUpdateIsLost | src/common/outbox/outbox.ts:457-479 | From the empty system, after any run of commits, sends, replays, frames and ack requests arriving in order on connections that may break anywhere, appends, fallbacks, tracker completions, markers, acks, aborted deletions, evictions, server and worker crashes, in which starts are settled and only frames of entries leave markers: an entry that was received cleanly, however others were, is still in the Outbox unchanged, or all its operations are in the log or were stored; an ack on its way for it means the latter |
| EndToEndRuns.NoUpdateIsLostInCoveredRuns | src/storage/wal/wal_update_handler.ts:84-110 | In those runs: nothing stored is lost if and only if every compaction was covered; then an entry that left the Outbox is in log entries the workers have not acknowledged, or in the rows |
| EndToEndRuns.ReceivedIsDurableIff | src/storage/storage.ts:38-66 | A received payload is durable once its persistence was appended if and only if it changed nothing, so that all of it was appended, or what the listener did not see of it, known or held back, is durable |
| EndToEnd.CleanIsSound | src/storage/storage.ts:38-66 | When an entry is received cleanly, whatever of it the update listener will not see is durable already: the condition on the document and the open persistences implies the one on log and rows |
| EndToEnd.NewOrKnownIsClean | src/websocket/conn/action/ws_action.ts:411-427 | A payload all new to the document and applied completely, or all known to it, is a clean receipt |
| EndToEndRuns.StepKeeps | src/websocket/conn/socket_io_client_provider.ts:909-938 | Each single event keeps the end-to-end invariant: trackers belong to waiting handlers, positive results are the message's own, markers and requests correspond to the entries received, the entry is kept, its acks and good markers are earned, tasks wait for their own storage call |
| EndToEndRuns.AnswersAreOwn | src/storage/handler/ydoc_action_handler.ts:50-114 | In every run with settled starts, a handler whose result is positive has a persistence that ended well, and what resolved its tracker is its own |
| EndToEndRuns.RunLinks | src/websocket/conn/action/ws_action.ts:267-350 | In every run in which only frames of entries leave markers, whatever else happens: on each connection of a root document, also after it broke, the entries asked for are a front part of those received, in order, and the n-th entry received has the n-th marker as soon as its handler is done |
| EndToEnd.FreeConnectionHasNoTracker | src/websocket/conn/event/server/message_handler.ts:6-24 | Since a connection runs one task at a time, no tracker is open on it when a message starts, whatever happened before |
| EndToEndRuns.StorageIsSimulated | src/storage/wal/wal_update_handler.ts:48-111 | The whole system moves its storage only by runs of the persistence machine |
| EndToEnd.DurableGrows | src/storage/wal/wal_update_handler.ts:200-234 | No event takes an operation out of log and rows together: an entry leaves the unacknowledged ones only when it is stored |
| EndToEndLosses.ReceiptIsSafeIff | src/storage/storage.ts:38-66 | In every state that runs under the conditions reach, when an entry with its ack request behind it is received: every orderly continuation keeps the entry, as long as it is received soundly if again, if and only if all of it that the update listener does not see is durable |
| EndToEndLosses.Farewell | src/websocket/conn/action/ws_action.ts:294-350 | From every state in which an entry's message waits and any persistence of its connection and document ended well: a continuation in which that one completes the tracker, whosever it is, the entry leaves the Outbox, and a crash leaves only log and rows |
| EndToEndLosses.PartlyKnownUpdateIsLost | src/storage/storage.ts:54-65 | The condition on known operations is needed: an otherwise orderly run from the start in which an entry with a partly known payload is acknowledged and deleted while an operation of it is nowhere |
| EndToEndLosses.HeldBackPartIsLost | src/storage/storage.ts:54-65 | Complete application is needed: an otherwise orderly run from the start in which a part waits for missing operations, the rest is persisted, the entry is acknowledged and deleted, and a crash forgets the part |
| EndToEndLosses.StaleCompletionLosesUpdate | src/storage/handler/ydoc_action_handler.ts:88-104 | The condition on starts is needed: a run from the start with clean receipts and no stray marker in which a sync step 2's cancelled persistence ends with true under an entry's tracker, the entry is acknowledged and deleted before its own persistence begins, and lost in a crash |
| EndToEndLosses.StrayMarkerLosesUpdate | src/websocket/conn/action/ws_action.ts:428-437 | The condition on markers is needed: a run from the start with clean receipts and settled starts in which the marker of an applied frame without a request answers the request of the next entry, whose own persistence failed, and the entry is lost |
| EndToEndProgress.EveryEntryCanBeDelivered | src/websocket/conn/socket_io_client_provider.ts:724-833 | From every state that runs without stray markers reach, for every update: an orderly run commits it, sends it after a restart of the server, logs it, and takes its entry, and no other, out of the Outbox |
| StorageSafety.AcknowledgedIsStored | src/storage/wal/wal_update_handler.ts:200-234 | In every run from the empty document, acknowledged entries, live hash marks and confirmed direct stores are contained in the document, up to what compactions lost |
| StorageSafety.AllAckedIsEverything | src/storage/wal/wal_update_handler.ts:236-301 | When every entry is acknowledged, the document (with what compactions lost) equals everything appended or directly stored |
| StorageSafety.RefinesGrowingSet | src/storage/adapter/postgresql/postgresql_operation.ts:228-298 | Refinement: the machine is a set that only grows; an event adds exactly the update of one call, or nothing |
| StorageSafety.StepInv | src/storage/adapter/postgresql/postgresql_operation.ts:228-298 | Every event keeps the safety invariant, whatever was delivered, reclaimed, lost or crashed |
| StorageSafety.StepIdentity | src/storage/adapter/postgresql/postgresql_operation.ts:228-231 | A running call keeps its caller and its update through all events |
| Compaction.ClearAccounting | src/storage/adapter/postgresql/postgresql_operation.ts:569-582 | In every reachable state: the document after clearing united with the rows the fold did not see is the document before; rows at or above the flush's clock stay; nothing changes if and only if the missed rows are contained in what stays |
| Compaction.RowsAreImmutable | src/storage/adapter/postgresql/postgresql_operation.ts:412-460 | A row never changes and goes only when a compaction with a larger clock clears it, also after lock expiry |
| Compaction.RowsAreNew | src/storage/adapter/postgresql/postgresql_operation.ts:412-460 | A new row appears only by an insert at a clock that was free |
| Compaction.StepFlushInv | src/storage/adapter/postgresql/postgresql_persistance.ts:52-85 | Every event keeps: the rows a running flush has folded are contained in its merged state, and rows it folded survive only with its own row at its clock or not below it |
| Compaction.RunLosesNothingIff | src/storage/adapter/postgresql/postgresql_operation.ts:181-198 | From every state of the invariant, a run loses nothing if and only if everything each compaction clears unseen is in the rows that stay, or was lost before |
| Compaction.CoveredRunsAreDurable | src/storage/adapter/postgresql/postgresql_operation.ts:181-198 | From the empty document: nothing is lost if and only if every compaction is covered; then the rows are everything inserted, acknowledged and marked updates are contained in them, and a drained log is the document |
| Compaction.SeenIsCovered | src/storage/adapter/postgresql/postgresql_operation.ts:181-198 | A compaction whose fold saw every row below its own is covered |
| ClockOrder.LockIsReleasedByHolderOrTtl | src/common/cache/redis_util.ts:8-88 | Only a free lock is taken, and only its holder or its expiry releases it |
| ClockOrder.MutualExclusion | src/common/cache/redis_util.ts:8-48 | As long as no TTL ends inside a critical section, at most one call is between taking and releasing the lock, whatever clock queries fail |
| ClockOrder.InsertGoesToNextClock | src/storage/adapter/postgresql/postgresql_operation.ts:257-273 | In those states the insert of a call whose own clock query succeeded never collides and goes to the largest clock plus one |
| ClockOrder.FailedQueryInsertIff | src/storage/adapter/postgresql/postgresql_operation.ts:545-560 | After a failed query the insert goes to clock 0: it adds a row if and only if that is free, fails if it is taken, and is in order if and only if there are no rows |
| ClockRuns.CalmRunsSerialize | src/storage/adapter/postgresql/postgresql_operation.ts:228-298 | From the empty document, in every run in which no TTL ends inside a critical section: one call at a time, holding the lock, and a clock read successfully is still the next one |
| ClockRuns.CalmRunsInsertNext | src/storage/adapter/postgresql/postgresql_operation.ts:257-273 | In every such run each insert after a successful clock query goes to the largest clock plus one, whatever other queries failed |
| InsertionOrder.OrderedRunsFromStart | src/storage/adapter/postgresql/postgresql_operation.ts:228-298 | If no clock query fails either, rows stand in the order of their insertion |
| InsertionOrder.MissedIsTheWindow | src/storage/adapter/postgresql/postgresql_persistance.ts:58-83 | A row is deleted unmerged by a flush if and only if it was inserted after its fold and before its own row |
| Windows.WindowLosesConfirmedUpdate | src/storage/adapter/postgresql/postgresql_operation.ts:195-196 | From every state in which getYDoc would compact, a run loses an update stored and confirmed inside the window |
| Windows.UndisturbedCallStores | src/storage/adapter/postgresql/postgresql_operation.ts:228-298 | Progress: with the lock free, a call can run to its end, and then its update is in the document |
| Windows.FailedQueryStoresBelow | src/storage/adapter/postgresql/postgresql_operation.ts:545-560 | From every state with rows and a free lock: after a compaction a call whose clock query fails stores its update below older rows |
| StoreCall.Server.AttemptLock | src/common/cache/redis_util.ts:28-47 | One attempt takes a free lock and leaves a held one alone; a lost reply leaves the lock set and the call failing |
| StoreCall.Server.GetRedisDestriLock | src/common/cache/redis_util.ts:8-48 | Up to sixteen attempts: true exactly with the lock set to the caller, and true when no attempt throws and the lock is free or ends before the last attempt; the attempts are a run of the machine |
| StoreCall.Server.PutAtNextClock | src/storage/adapter/postgresql/postgresql_operation.ts:257-273 | Reads the clock and inserts above every row it read; a failure adds the row at a free clock or nothing |
| StoreCall.Server.Unlock | src/common/cache/redis_util.ts:60-88 | Releases the lock only if its value is the caller's; a failing GET leaves it set and the call returns all the same; a failing release throws |
| StoreCall.Server.StoreUpdate | src/storage/adapter/postgresql/postgresql_operation.ts:228-298 | Every path through the call, with any await failing, the GET before the release included, is a run of the machine that ends as the caller sees it. It is answered as a duplicate, changing nothing, if and only if the check runs and finds the update's live mark; a clock means the row was added there and the update marked; a failed check throws; without trouble and with a free lock it succeeds and releases the lock |
| StoreCall.StoreTwice | src/common/cache/redis_util.ts:117-131 | Stored twice without trouble while its mark lives, an update makes one new row, above all others |
| WalWorker.AppendUpdateToWAL | src/storage/wal/wal_update_handler.ts:48-111 | Returning true means the update is the newest log entry or is stored, whichever step failed; when the log refuses it, an untroubled direct store answers true; refused documents change nothing |
| WalWorker.ProcessEntry | src/storage/wal/wal_update_handler.ts:205-232 | One entry: acknowledged only if it has no payload or was stored; nothing else is acknowledged |
| WalWorker.ProcessEntries | src/storage/wal/wal_update_handler.ts:200-234 | After the loop all acknowledged entries are stored; entries without payload are acknowledged; with no trouble and a free lock all entries are |
| Persistance.GetDocAllUpdates | src/storage/adapter/postgresql/postgresql_operation.ts:128-165 | All rows, each once, in clock order; nothing if the query fails |
| Persistance.GetYDoc | src/storage/adapter/postgresql/postgresql_persistance.ts:52-85 | The fold is the document of the rows below some clock, of all rows if every update applies; a compaction starts exactly above the trim size, from what was folded |
| Persistance.FlushDocument | src/storage/adapter/postgresql/postgresql_operation.ts:181-198 | After an undisturbed flush the merged state is the only row and the state-vector record names its clock; a duplicate or failed store deletes nothing |
| WalEntries.ParseFlat | src/storage/wal/wal_update_handler.ts:138-145 | The loop assigns alternating names and values in order and ignores a name without a value |
| WalEntries.LastValueWins | src/storage/wal/wal_update_handler.ts:141-144 | A field has the value given last under its name, and no field is invented |
| WalEntries.WireRoundTrip | src/storage/wal/wal_update_handler.ts:86-98 | A worker reads back the update and the document it was appended for; the whole record comes back if and only if its type is not 0 and its source not empty |
| WalEntries.FindConsumerGroup | src/storage/wal/wal_update_handler.ts:400-415 | The first group of the worker's name in either reply shape, and none exactly if there is none |
| DrainCheck.CompareIsLexicographic | src/storage/wal/wal_update_handler.ts:372-398 | On stream ids as Redis writes them the comparison is the lexicographic order, total and exact |
| DrainCheck.CompareIsAnOrder | src/storage/wal/wal_update_handler.ts:378-398 | On arbitrary strings it is mirrored and transitive, and silent exactly unless both are a number, a hyphen and a number |
| DrainCheck.WaitDocWALDrained | src/storage/wal/wal_update_handler.ts:417-492 | The loop answers at the first round that decides, raises at one whose last read fails, and otherwise times out |
| DrainCheck.AnswersDrainedIff | src/storage/wal/wal_update_handler.ts:417-492 | A round all of whose replies arrive answers "drained" if and only if there is no group and nothing in the log, or everything present is delivered and acknowledged at its reads |
| DrainCheck.WaitUntilQuiet | src/storage/wal/wal_update_handler.ts:417-492 | So the wait answers "drained" by the first such round, if none before was refused its last entry |
| DrainCheck.DrainedIsDelivered | src/storage/wal/wal_update_handler.ts:446-488 | A positive answer means everything present at the group read had been delivered |
| DrainCheck.DrainedMeans | src/storage/wal/wal_update_handler.ts:424-488 | What had been delivered at the first read is stored; everything present is stored if and only if what was delivered between the reads is |
| DrainCheck.DrainedWithoutDelivery | src/storage/wal/wal_update_handler.ts:424-488 | With no delivery between the reads, every entry present is stored |
| DrainCheck.DeliveryBetweenReads | src/storage/wal/wal_update_handler.ts:427-472 | From the empty document, a delivery in between makes the answer "drained" with an entry nowhere stored |
| AckPairing.SyncAckState.AddSyncMarker | src/websocket/conn/action/ws_action.ts:294-307 | A marker answers the oldest waiting request of its document or waits, keeping the pairing of every document |
| AckPairing.SyncAckState.HandleSyncAckReq | src/websocket/conn/action/ws_action.ts:323-350 | A valid request is answered by the oldest waiting marker of its document or waits; an invalid one changes nothing |
| AckPairing.MarkerKeepsPairing | src/websocket/conn/action/ws_action.ts:294-307 | For every document, a marker's arrival keeps: the k-th request is answered by the k-th marker and only the surplus waits |
| AckPairing.RequestKeepsPairing | src/websocket/conn/action/ws_action.ts:323-350 | The same for a request's arrival |
| AckPairing.NeverBothWaiting | src/websocket/conn/action/ws_action.ts:267-350 | No document has both a waiting marker and a waiting request |
| AckPairing.KthAnswersKth | src/websocket/conn/action/ws_action.ts:267-350 | The k-th emission for a document answers its k-th request with its k-th marker: the request's document and number, an ack if the marker is good, else a nack with its reason |
| RootAcks.MessageListener | src/websocket/conn/action/ws_action.ts:367-474 | Leaves one marker for a root update frame, applied exactly if the update applied and was reported persisted, and none for other frames |
| RootAcks.ServeConnection | src/websocket/conn/event/server/message_handler.ts:6-24 | For any well-sent frames and requests on one connection, arriving while the task queue starts and ends tasks in any interleaving, fulfilled or not, and broken anywhere: the emissions answer the entries of the finished tasks one by one, each with its own number |
| RootAcks.AckMeansPersisted | src/websocket/conn/action/ws_action.ts:395-448 | An ack is sent only for an entry with that number whose frame applied and was reported persisted |
| RootAcks.StrayMarkerShiftsAcks | src/websocket/conn/action/ws_action.ts:428-437 | An applied update frame without a request makes the server acknowledge the next entry although that one failed |
| SubdocAcks.Server.HandleSubDocFirstTimePut | src/websocket/conn/event/server/subdoc_msg_handler.ts:445-475 | Registers the document under its root with its handler bound; if its text cannot be had the handler is bound but nothing is registered |
| SubdocAcks.Server.HandleSubDoc | src/websocket/conn/event/server/subdoc_msg_handler.ts:391-443 | The document is registered under its root unless it was not and registering throws; its handler is bound, no other registration changes, and the result is true exactly if it is registered and the frame was an applied and persisted update or a sync step 1 |
| SubdocAcks.Server.PreHandleSubDoc | src/websocket/conn/event/server/subdoc_msg_handler.ts:153-242 | Whatever its number, a readable and permitted frame whose document can be had registers it under its root, with its handler bound, unless the text throws; other frames change nothing, and no other registration changes. Exactly one answer per readable frame with a number, naming its document and number; an ack exactly when the document is registered and the frame was applied and persisted or was a sync step 1, else a nack with the reason |
| SubdocAcks.NumberIsOnlyAnswered | src/websocket/conn/event/server/subdoc_msg_handler.ts:223-230 | Frames that differ only in their number, or have none, leave the same registrations and handlers and are applied alike |
| SubdocAcks.OpeningRegisters | src/websocket/conn/socket_io_client_provider.ts:405-418 | The sync step 1 without a number that a client sends for a sub-document it opens registers it and binds its handler |
| UpdateTracking.TrackerRegistry.Observe | src/storage/handler/ydoc_action_handler.ts:76-86 | Marks the first unobserved tracker of the document and no other |
| UpdateTracking.TrackerRegistry.Complete | src/storage/handler/ydoc_action_handler.ts:88-104 | Resolves and removes the first observed tracker of the document and no other |
| UpdateTracking.TrackerRegistry.Cancel | src/storage/handler/ydoc_action_handler.ts:106-114 | Resolves an active tracker to true once and removes it; an inactive one is left alone |
| ResultOwnership.ResolvedOnce | src/storage/handler/ydoc_action_handler.ts:50-114 | A resolution never changes again, in any continuation |
| ResultOwnership.OwnResultIff | src/storage/handler/ydoc_action_handler.ts:88-104 | A message gets its own persistence's result in every continuation if and only if, at its start, no other persistence of the same connection and document is in flight |
| ResultOwnership.SettledRunsFromStart | src/websocket/conn/action/ws_action.ts:395-448 | In runs in which no message starts while a cancelled one's persistence is in flight there, every awaited result is the message's own |
| ResultOwnership.StaleCompletion | src/websocket/conn/action/ws_action.ts:439-441 | A cancelled message's late completion resolves the next tracker |
| ResultOwnership.StaleCompletionCascades | src/storage/handler/ydoc_action_handler.ts:96-103 | After one stale completion a settled start still gets another message's result |
| OutboxStore.KeyIsInjective | src/common/outbox/outbox.ts:343-455 | Different (document, number) pairs have different row keys, whatever characters the document name has |
| OutboxStore.IssueNext | src/common/outbox/outbox.ts:275-341 | A committed allocation exceeds all earlier ones of its document |
| OutboxStore.OthersKeepCovering | src/common/outbox/outbox.ts:208-240 | Whatever other tabs commit, a loaded tab's counters keep covering the stored rows |
| OutboxStore.NextIsFree | src/common/outbox/outbox.ts:275-341 | The next number of a covering tab is no row's |
| OutboxStore.Browser.AllocateTx | src/common/outbox/outbox.ts:275-341 | A committed transaction issues the number after the largest of counter, memory and localStorage; an aborted one changes nothing |
| OutboxStore.Browser.PersistTx | src/common/outbox/outbox.ts:343-455 | Counter and row are put together or not at all, under a fresh key when allocating; with an explicit number other tabs keep covering the rows if and only if the number is reserved |
| OutboxStore.PutEvolvesIff | src/common/outbox/outbox.ts:343-455 | Storing a row keeps every tab's covering if and only if its number is at most the counter, or above all the tab takes for used, or the same row is there |
| OutboxStore.Browser.SeedTx | src/common/outbox/outbox.ts:208-240 | Raises the counters of the loaded documents to what the tab knows, lowering none |
| OutboxStore.UnreservedSeqIsOverwritten | src/common/outbox/outbox.ts:343-455 | Every number above the counter and not above what the storing tab takes for used is given out again to a tab that takes less for used, and its row overwritten |
| OutboxTab.PutAgrees | src/common/outbox/outbox.ts:343-455 | Adding an entry to memory and storage keeps them equal |
| OutboxTab.DropAgrees | src/common/outbox/outbox.ts:471-479 | Removing one from both keeps them equal |
| OutboxTab.DropRemovesOne | src/common/outbox/outbox.ts:471-479 | Removal takes one entry and no other, and leaves no empty document |
| OutboxTab.Outbox.Init | src/common/outbox/outbox.ts:56-128 | The database ends up open exactly if it was, or opening, reading and seeding succeed, or seeding fails with nothing to seed; memory then shows the rows read, and the counters of their documents are raised to what the tab knows; a failed opening leaves the rows alone and can be repeated |
| OutboxTab.Outbox.FinishLoad | src/common/outbox/outbox.ts:138-206 | Memory equals the rows read, and lastSeq is at least every row's number |
| OutboxTab.Outbox.EnqueueNext | src/common/outbox/outbox.ts:463-468 | For a tab that has loaded, whatever other tabs have done since: on commit exactly one fresh entry is added to rows and memory; on abort nothing changes |
| OutboxTab.Outbox.Enqueue | src/common/outbox/outbox.ts:457-461 | Under an explicit number: on commit exactly that row is put, or overwritten, in rows and memory; on abort nothing changes |
| OutboxTab.Outbox.AckEntry | src/common/outbox/outbox.ts:471-479 | For a tab that has loaded: on commit exactly the named entry goes from rows and memory; on abort nothing changes |
| OutboxTab.Outbox.GetUnacked | src/common/outbox/outbox.ts:488-499 | Precisely the pending entries, each once: the documents in code-unit order, each document's entries together and by increasing number |
| OutboxTab.Outbox.GetUnackedCount | src/common/outbox/outbox.ts:501-508 | The count agrees with that list, per document and in all |
| OutboxTab.SortSorts | src/common/outbox/outbox.ts:495-497 | The comparator puts entries with distinct keys in that order: by increasing number within a document, the documents as their first differing character, or a proper prefix, decides |
| OutboxTab.LoadCoversLater | src/common/outbox/outbox.ts:138-206 | A snapshot other tabs have moved on from still yields covering numbers |
| OutboxSender.RenderIsInjective | src/websocket/conn/socket_io_client_provider.ts:724-745 | The key strings of numbered and numberless sends never coincide |
| OutboxSender.TasksAreCalls | src/websocket/conn/socket_io_client_provider.ts:724-745 | In every run the k-th task is what the k-th call handed over: its document, its update and kind, and its number if it gave one |
| OutboxSender.RunPlaces | src/websocket/conn/socket_io_client_provider.ts:672-833 | In every run of submissions, commits, failures, timers and deferrals, every submitted update is in exactly one place: chain, timer, deferred map, Outbox, or given up; and each place holds exactly its updates |
| OutboxSender.GivenUpIff | src/websocket/conn/socket_io_client_provider.ts:672-722 | Exactly when a step gives an update up: at the head, when a timer has its key; in a timer or deferred, when another one with its key commits, or, deferred, when one fails for the third time |
| OutboxSender.OnlyTwinsAreGivenUp | src/websocket/conn/socket_io_client_provider.ts:724-745 | In every run, an update sent without a number, or alone under its number, is never given up |
| OutboxSender.Sender.NothingIsLost | src/websocket/conn/socket_io_client_provider.ts:672-833 | For every sender, whether or not its database is open, and with other tabs committing at any await: the update of a call without a number, or alone under its number, waits in chain, timer or deferred map, or its row, with the call's document, update and kind, is among the rows, or was taken after its commit by an ack or by another tab, or this tab gave its number explicitly once more |
| OutboxSender.HistoryKeeps | src/websocket/conn/socket_io_client_provider.ts:747-833 | In every history of own commits, acks and other tabs' transactions: each commit's row is there, or was taken by an ack or another tab since it was put, or overwritten by a later explicit send; numbers of sends without one follow the order of committing |
| OutboxSender.TakenIff | src/websocket/conn/socket_io_client_provider.ts:909-938 | A commit counts as acknowledged, or as taken elsewhere, exactly if an ack, or another tab's transaction, took its row when it was there |
| OutboxSender.Sender.Submit | src/websocket/conn/socket_io_client_provider.ts:724-833 | Appends one task with the call's document and update to the chain, under the call's number or a new one, keeping that every update is in one place |
| OutboxSender.Sender.StoreHead | src/websocket/conn/socket_io_client_provider.ts:747-791 | The head is enqueued through the Outbox's own methods, however often opening failed before: one row is put, under its own document with its update and kind, and its number or a free one above all issued, exactly if the database is open and the transaction commits; otherwise nothing changes |
| OutboxSender.Sender.Conclude | src/websocket/conn/socket_io_client_provider.ts:672-722 | After a put row what its key has waiting is cancelled; after a failure the update waits in a timer, or after the third one in the deferred map, unless a timer has its key |
| OutboxSender.Sender.FireDeferred | src/websocket/conn/socket_io_client_provider.ts:625-670 | Everything deferred goes back into the chain, each with a fresh count, and nothing else moves |
| OutboxSender.Sender.HandleSyncAck | src/websocket/conn/socket_io_client_provider.ts:909-938 | If the database opens and the transaction commits, exactly the named row goes, and the commits whose row it was count as acknowledged from then on; otherwise the rows stay |
| OutboxSender.Sender.OtherTabs | src/common/outbox/outbox.ts:275-455 | Whatever other tabs commit that keeps this one covering the rows, the sender goes on from the rows they leave |
| OutboxSender.NumberedGrows | src/common/outbox/outbox.ts:463-468 | Numbers of one document's sends without a number follow the order of committing |
| OutboxSender.WithoutFailures | src/websocket/conn/socket_io_client_provider.ts:724-833 | While nothing fails, what is committed is what was submitted, in that order, up to what waits in the chain |
| OutboxSender.DuplicateKeyIsDropped | src/websocket/conn/socket_io_client_provider.ts:672-722 | Of two failing sends under one explicit number the second is dropped |
| AckRetry.OneMore | src/websocket/conn/socket_io_client_provider.ts:575-610 | One more attempt sets one more timer until the limit and none from then on |
| AckRetry.ReplaysAreBounded | src/websocket/conn/socket_io_client_provider.ts:561-623 | After connect(), in every run: timer-driven replays are at most two per entry plus one per timer left running |
| AckRetry.TwoPerEntryIff | src/websocket/conn/socket_io_client_provider.ts:1075-1083 | At most two replays per entry in every continuation of connect() if and only if no retry timer was running at it |
| AckRetry.StepAccounted | src/websocket/conn/socket_io_client_provider.ts:561-623 | Every send, timeout, nack, reconnect and timer keeps the account: replays and running timers were each set by a counted attempt or left over |
| AckRetry.AckTracker.ScheduleOutboxReplay | src/websocket/conn/socket_io_client_provider.ts:575-610 | One more attempt; the third gives up instead of setting a timer, and a running timer is left alone |
| AckRetry.AckTracker.AckTimeout | src/websocket/conn/socket_io_client_provider.ts:618-621 | A missing ack counts one attempt, and the first two set a retry timer, unless one runs for the entry |
| AckRetry.AckTracker.Rejected | src/websocket/conn/socket_io_client_provider.ts:940-954 | A nack counts one attempt and replaces the entry's timer |
| AckRetry.AckTracker.Connect | src/websocket/conn/socket_io_client_provider.ts:1075-1083 | Forgets the attempts, not the timers |
| AckRetry.ThreeReplaysForOneEntry | src/websocket/conn/socket_io_client_provider.ts:1075-1083 | On any disconnected provider with a retry timer running, connect() is followed by three replays of one entry |
| KeyCodec.Encode | src/storage/adapter/postgresql/conf/postgresql_const.ts:26-44 | The loop writes the concatenation of the parts' bytes |
| KeyCodec.Decode | src/storage/adapter/postgresql/conf/postgresql_const.ts:45-58 | The loop reads the parts, skipping bytes that are no tag |
| KeyCodec.RoundTripIff | src/storage/adapter/postgresql/conf/postgresql_const.ts:22-59 | A key comes back as it went in if and only if its numbers have 32 bits |
| KeyCodec.EncodeIsInjective | src/storage/adapter/postgresql/conf/postgresql_const.ts:22-59 | Different such keys have different bytes |
| KeyCodec.ClockOrder | src/storage/adapter/postgresql/conf/postgresql_const.ts:36-38 | Keys that differ in one number sort bytewise by that number |
| Frames.FrameRoundTrip | src/websocket/conn/socket_io_client_provider.ts:1054-1073 | Type, context and payload of every frame are recovered |
| Frames.NeedSend | src/websocket/conn/event/server/subdoc_msg_handler.ts:484-503 | For any bytes: true exactly for a readable frame with something behind its header |
| Frames.ReplyToSubdocFrame | src/websocket/conn/event/server/subdoc_msg_handler.ts:276-297 | The server sends a reply if and only if the protocol wrote one behind the header, and the client reads its context and reply |
| Frames.ReadYjsUpdatePayload | src/storage/handler/ydoc_action_handler.ts:116-126 | The update of an update message, without moving the decoder |
| Frames.ReceiveSubdocUpdate | src/websocket/conn/socket_io_client_provider.ts:1054-1073 | The server reads the client's context and update and still has the whole message to apply |
| Frames.AnswerSubdocFrame | src/websocket/conn/event/client/client_msg_type_handler.ts:37-104 | The client answers only a sync step 1 and never with a header alone |
| Frames.StateVectorRoundTrip | src/storage/adapter/postgresql/postgresql_operation.ts:596-601 | Clock and state vector of a record are recovered |
| DiffContext.ContextBefore | src/storage/adapter/postgresql/pg_history_persistance.ts:112-119 | Exactly the last twenty characters of everything before, or all there are |
| DiffContext.ContextAfter | src/storage/adapter/postgresql/pg_history_persistance.ts:121-127 | Exactly the first twenty characters of everything after, or all there are |
| DiffContext.GetSnapshotDiff | src/storage/adapter/postgresql/pg_history_persistance.ts:101-140 | The loop returns one entry per changed part, in order, with its contexts, and nothing if and only if nothing changed |
| FlushPool.Pool.Take | src/storage/appfile.ts:251-253 | The shared index gives each position to one worker |
| FlushPool.Pool.Finish | src/storage/appfile.ts:253-259 | A finished target enters exactly one list |
| FlushPool.FlushProject | src/storage/appfile.ts:246-264 | After any interleaving that ends, the three lists together hold each target exactly as often as it was listed |
| FlushPool.CanEnd | src/storage/appfile.ts:246-264 | However far the workers are, they can end, with every target in a list |
| ScrollPaging.GetProjectScrollVersion | src/service/version_service.ts:38-78 | A page is the first rows below the cursor, with a next cursor exactly if there are more; limit 0 raises |
| ScrollPaging.Scroll | src/service/version_service.ts:38-78 | Following nextCursor from the first page to the last ends and reads what the cursors determine; a page size of zero raises unless there is nothing |
| ScrollPaging.PagingIsCompleteIff | src/service/version_service.ts:38-78 | Following the cursor reads the history once and in order if and only if every page end separates the ids |
| ScrollPaging.AgreeingOrdersPageCompletely | src/service/version_service.ts:54-63 | It does for every page size when creation time and id order agree |

## Left out

- Yjs internals, awareness and the sync protocol's own messages: updates are sets, reading a message is given by its result.
- PROJECT documents, which are acknowledged without being stored by design (src/storage/handler/ydoc_action_handler.ts:184-191): `EndToEnd` is about the others.
- Running without Redis, where locks are simulated and nothing is deduplicated, and without IndexedDB, where the Outbox lives in memory.
- Base64, SHA-256 collisions, number widths of JavaScript and of the clock column (rows at or above 2^32 - 1 are invisible to the queries).
- The outer shapes of stream replies (`parseEntriesSerially`, object messages): one message's fields and the group list are modelled.
- `waitDocUpdateStable`: it answers true after a timeout too, so its true promises nothing beyond one successful clock query.
- `PostgresqlPersistance.flushDocument` and `getStateVector`, which use an un-awaited promise as an array.
- Permission checks and project ownership: a connection is authorised, a denial is an input.
- Disk and history pending markers, version calculation, deletion audit, Trans variants and the history copy of the operations.
- The stale probe and the server epoch, which only cause reconnects and replays; both are covered as arbitrary disconnects and sends.
- Room broadcast between connections and several server instances holding one document: `EndToEnd` has one document in memory and takes every other writer as `ReceiveOther`.
- EndToEndRuns.NoUpdateIsLost: the code checks none of its conditions. Acks may arrive in any order. That a worker runs or a retry happens is not stated, only that delivery stays possible (`EndToEndProgress.EveryEntryCanBeDelivered`).
- EndToEndLosses.ReceiptIsSafeIff: speaks of a receipt whose ack request was sent, too; an entry whose connection broke between the two is answered only after it is sent again.
- OutboxSender.Sender.OtherTabs: other tabs store no explicit number in the window of `OutboxStore.PutEvolvesIff`; after one, a fresh number may be taken, as `OutboxStore.UnreservedSeqIsOverwritten` shows.
- OutboxSender.Sender.Conclude: what is sent after a commit is the subject of `EndToEnd`; a frame that cannot be built (src/websocket/conn/socket_io_client_provider.ts:792-817) cancels the same waiting tasks and is sent by a later replay.
- StoreCall.Server.StoreUpdate: runs its awaits without other callers in between, except that the lock may expire; interleavings are the subject of the machine in `Storage`.
- ScrollPaging.PagingIsCompleteIff: rows with equal creation times are taken to keep one order across queries.
- Frames.ReadYjsUpdatePayload: numbers above 2^53, where lib0 throws, are read as numbers.
- KeyCodec.Decode: a number cut off at the end ends the decoding; lib0, which is not part of this model, reads past the array there.
