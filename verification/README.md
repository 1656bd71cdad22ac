# Verification of the 1C / Ozon synchronisation service

This project models the parts of the service whose correctness depends on interleavings,
crashes or input order, and proves what they promise.

- **KA2 inventory pipeline** (`ChunkVector`, `ChunkWorkers`, `BalanceRead`, `FlatRead`, `Ka2Pull`,
  `SnapshotBuild`, `SnapshotFacts`, `SnapshotContents`, `Canonical`, `SnapshotImport`, `ImportFacts`,
  `ImportedTables`, `EndToEnd`).
  Threads claim chunks of keys and append rows under a mutex, a chunk is halved on HTTP 414, the rows
  are aggregated into a snapshot, and the snapshot is hashed in canonical form and imported once.
  The closing theorems say that neither the thread schedule nor the order of the hash maps can change
  what is stored, and that the stock rows a commit adds are the stock of the register of 1C, per product
  and allowed warehouse.
- **Server-sent events** (`SseSubscriber`, `SseBroker`, `EventStream`, `BrokerHistory`). One step per
  critical section: a single writer per connection, a bounded history with replay of the texts that were
  sent live, and a client that reads messages and
  keep-alive comments as sections 9.2.4 to 9.2.6 of the WHATWG HTML standard prescribe.
- **Worker pool** (`WorkerPool`). Sleeping, awake and running workers, notifications under way,
  waiters, and the destructor.
- **Runs and checkpoints** (`OzonSync`, `Checkpoints`). Crashes between any two persistent writes,
  stop requests that mark the checkpoint row at any moment, restarts, resets, overlapping requests,
  failed statements.
- **Catalogue and text forms** (`ProductCatalog`, `CatalogPaging`, `ODataText`, `UrlNormalizer`,
  `UrlFacts`, `UrlGrammar`, with `Guids`). Normalisation of the product catalogue, three paging loops, and the
  printers of OData paths and publication URLs against their readers.

`Order`, `Sequences` and `Text` hold the order on strings, sorting, multisets and searching.

How the model is built:

- Code that updates state is a class or a method with loops, proved against a specification function;
  the promises are lemmas about that function. Concurrent code is a step relation over the same
  functions: a method of a class is one critical section, and a run is any sequence of steps.
- 1C is a function from a key to its rows; the marketplace is a fixed listing with cursors; a server
  answers the same request always alike. Faults, stop requests, crashes and data base failures may
  happen at any point.
- Quantities and costs are real numbers, integers are unbounded. The `int` columns of the stock table
  are checked where PostgreSQL checks them.
- `std::sort` is an insertion sort: with the distinct keys proved for each list, the library has only
  one result to return. A walk over an `unordered_map` picks its keys in any order.
- The payload hash is the canonical tree itself; serialising it and SHA-256 are taken as injective.
- What an operation computes is also said without the functions it is defined by: `SnapshotContents`,
  `ImportedTables`, `BrokerHistory` and `UrlGrammar` speak of the inputs and of single fields alone, and
  so do the ensures clauses of the methods with a state.
- Data base transactions are atomic; one that fails leaves the tables as they were.

What the proofs show beside the expected behaviour, each with an input that shows it:

- A balance answer is asked for at most 1000 rows without a second page, and a failed request yields
  nothing, silently. `BalanceReadExact` gives the exact condition under which no row is lost;
  `RowBeyondTheLimitIsLost` is a key with 1001 rows.
- Stock rows of an earlier batch are never deleted, so a later batch that names one of their cells
  fails as a whole (`OverlappingBatchFails`; `SecondDayFails` are two such batches).
- A stop request marks the `sync_state` row "stopping", never "stopped", which is what the resume check
  looks for. So a stopped run that has stored a page is resumed at the next start
  (`StoppedRunIsResumed`), and a stop request that comes after "done" overwrites it: a finished
  synchronisation is resumed, and completes again (`LateStopRepeatsTheRun`). `UnfinishedExactly` says
  what the resume check makes of such a row, and `RunOzonSync` that a finished run is complete exactly
  when no mark came after its last write.
- The copy of the catalogue reader that reports progress has no row limit check: from 100000 rows on it
  keeps the first 100000 where the plain reader refuses (`CatalogueReadersAgree`,
  `HundredThousandProducts`).
- A page size above 500 makes `OnecCatalog::read_all_rows` stop after 500 rows, so that the listing
  handler, which accepts up to 1000, shows an incomplete window (`AllRowsDelivered`, `HandlerWindow`,
  `FiveHundredAndOneRows`).
- `accepted` and `conflicts` of the catalogue import need not add up to the rows read;
  `AcceptedAndConflicts` says from the rows alone when they do, and `TwoProductsOneCode` is an input
  for which they do not.
- A bracketed IPv6 host loses its brackets when a publication URL is normalised, and a path with a slash
  before the OData suffix changes again when normalised twice (`ReparseKeepsAddress`, `NormalizeAgain`,
  `BracketsAreLost`, `SlashBeforeRootChanges`).
- A percent sign followed by two hexadecimal digits, or a question mark, does not survive the OData path
  encoder (`PathArrives`, `EscapeIsLost`, `QuestionMarkIsLost`). `is_valid_guid` has no caller in the
  repository; the keys are assumed to be identifiers because the catalogue import only stores such keys.

## Model

| member | source | states |
|---|---|---|
| ChunkVector.ChunkVector | src/onec_ka2_inventory.cpp:106-117 | chunk i holds the keys from i times the size on, and the chunks reach the end; chunk size 0 means 40 |
| ChunkVector.ChunksCover | src/onec_ka2_inventory.cpp:106-117 | concatenated chunks give the key list back; no chunk is empty or too long |
| ChunkWorkers.NothingInvented | src/onec_ka2_inventory.cpp:463-493 | for any number of threads, schedule and stop, the appended rows are a sub-multiset of the rows of all chunks |
| ChunkWorkers.EveryChunkOnce | src/onec_ka2_inventory.cpp:463-493 | every complete run without a stop appends each chunk exactly once |
| ChunkWorkers.ThreadsFinish | src/onec_ka2_inventory.cpp:463-493 | every thread step uses up work and some thread can always step until all have returned |
| BalanceRead.ProcessChunkExact | src/onec_ka2_inventory.cpp:401-453 | the recursive halving on 414 terminates, never repeats or invents a row, and is complete if and only if each of its requests is lossless |
| BalanceRead.CasesOfChunk | src/onec_ka2_inventory.cpp:401-453 | nothing for a request in trouble, at most the first 1000 rows of an answer, the two halves one after the other on 414, nothing for a single key on 414 |
| BalanceRead.LosslessInOrder | src/onec_ka2_inventory.cpp:401-453 | a lossless chunk yields its rows in the order of its keys |
| BalanceRead.TwoHundredKeysEach | src/onec_ka2_inventory.cpp:387-399 | the read asks for 200 keys at a time, the last request for the rest |
| BalanceRead.BalanceReadSafe | src/onec_ka2_inventory.cpp:387-499 | under any interleaving, fault and stop pattern the balance read is a sub-multiset of the rows of all keys |
| BalanceRead.BalanceReadExact | src/onec_ka2_inventory.cpp:387-499 | a complete unstopped balance read has every row of every key exactly once if and only if no request is in trouble, cut at 1000 rows, or a single key with an over-long URL |
| BalanceRead.CleanReadIsExact | src/onec_ka2_inventory.cpp:387-499 | when one key always fits in a URL, fitting lists have at most 1000 rows and nothing else fails, every complete read is exact |
| BalanceRead.RowBeyondTheLimitIsLost | src/onec_ka2_inventory.cpp:422-432 | a key with 1001 rows: every complete, undisturbed read has 1000 of them |
| FlatRead.ReadChunkPages | src/onec_ka2_inventory.cpp:310-349 | the page loop of one chunk collects the pages up to the first empty, short or failed one |
| FlatRead.PagedRowsExact | src/onec_ka2_inventory.cpp:310-349 | a chunk yields a prefix of its rows, and all of them if and only if no page with rows fails |
| FlatRead.KeptUpToFault | src/onec_ka2_inventory.cpp:310-349 | the pages before the first failed one are kept whole and nothing after it is read |
| FlatRead.FlatReadExact | src/onec_ka2_inventory.cpp:293-364 | the parallel flat read invents nothing under any schedule and is complete if and only if no page with rows was lost |
| Ka2Pull.ReadWarehouses | src/onec_ka2_inventory.cpp:501-541 | the warehouse read keeps the live, named warehouses of the pages before the first failed one |
| Ka2Pull.WholeCatalogueRead | src/onec_ka2_inventory.cpp:501-541 | without a failed page that is the whole catalogue |
| Ka2Pull.ReadAnalytics | src/onec_ka2_inventory.cpp:545-573 | the first row of each non-empty Ref_Key is kept, in order |
| Ka2Pull.ReadStocks | src/onec_ka2_inventory.cpp:575-603 | a stock record per row with a product, its quantity on hand minus reserved and never negative |
| Ka2Pull.ReadCosts | src/onec_ka2_inventory.cpp:605-634 | the cost rows that have an analytic key; none without analytic keys |
| Ka2Pull.ReadSuppliers | src/onec_ka2_inventory.cpp:636-659 | the rows with a product and a positive price |
| Ka2Pull.StockRecordsOf | src/onec_ka2_inventory.cpp:575-603 | exactly the rows with a product become records, in order, each with its three keys and what is on hand beyond what is to be shipped |
| Ka2Pull.FirstOfEachKey | src/onec_ka2_inventory.cpp:545-573 | exactly the first row of each non-empty key becomes a record, in order |
| Ka2Pull.RowsKept | src/onec_ka2_inventory.cpp:501-659 | exactly the live, named warehouses, the cost rows with an analytic key and the positive prices of a product are kept, in order |
| Ka2Pull.CompletePullDelivers | src/onec_ka2_inventory.cpp:661-689 | a complete pull delivers every warehouse, stock, cost and price record of its products, once |
| Ka2Pull.PullsAgree | src/onec_ka2_inventory.cpp:661-689 | two complete pulls for the same products, named in any order, under any two schedules fetch the same records up to order |
| Ka2Pull.CostRecordsAgree | src/onec_ka2_inventory.cpp:670-681 | the order in which the analytic keys arrive does not change which cost rows are fetched |
| SnapshotBuild.AccumulateStocks | src/handlers.cpp:129-157 | the accumulator table after the stock loop is the fold of the kept rows |
| SnapshotBuild.AggregateStocks | src/handlers.cpp:123-163 | in any hash order, one stock line per accumulated key: first row's names, sum of truncated quantities |
| SnapshotBuild.AccumulateCosts | src/handlers.cpp:170-188 | per product of a known analytic key, the sums of cost and quantity |
| SnapshotBuild.BuildAnalitToNom | src/handlers.cpp:172-177 | the later of two rows for an analytic key wins |
| SnapshotBuild.MinPurchase | src/handlers.cpp:198-207 | the supplier loop computes the best purchase |
| SnapshotBuild.BuildCostLine | src/handlers.cpp:190-212 | a cost line has the average exactly when both totals are positive, and the purchase fields exactly when a price was found |
| SnapshotBuild.AggregateCosts | src/handlers.cpp:165-217 | in any hash order, the non-empty cost lines of the products with cost rows |
| SnapshotBuild.PullToSnapshot | src/handlers.cpp:92-220 | the request built is a snapshot of the pull: head, filtered warehouses, stock and cost lists, with the contents that the SnapshotContents rows state |
| SnapshotFacts.KeyAmbiguity | src/handlers.cpp:135-136 | the accumulator key mixes up two products exactly when one key is the other followed by a bar and more |
| SnapshotFacts.StockRowsConserve | src/handlers.cpp:131-157 | per accumulator key, whatever the keys: the exact quantity lies in [available, available + merged rows) |
| SnapshotFacts.CellsConserve | src/handlers.cpp:123-163 | per product and warehouse: available is the sum of the truncated quantities of its rows, the exact sum lies in [available, available + rows), every line has rows and every pair with rows has a line |
| SnapshotFacts.StockTotalConserved | src/handlers.cpp:123-163 | the lines together hold exactly the truncated quantities of the kept rows |
| SnapshotFacts.StockListDistinct | src/handlers.cpp:123-163 | one line per product and warehouse |
| SnapshotFacts.StockListsAgree | src/handlers.cpp:123-163 | permuted input rows give the same lines up to order |
| SnapshotFacts.AverageTimesQuantity | src/handlers.cpp:194-196 | average times total quantity is total cost, and when there is an average |
| SnapshotFacts.AverageBetweenUnitCosts | src/handlers.cpp:179-196 | with positive row quantities the average lies between any bounds of the unit costs |
| SnapshotFacts.BestIsMinimum | src/handlers.cpp:198-212 | the purchase cost is the smallest positive supplier price with the period of such a row, absent exactly when there is none |
| SnapshotFacts.CostListsAgree | src/handlers.cpp:165-217 | permuted analytics, cost and supplier rows give the same cost lines up to order |
| SnapshotFacts.CostListDistinct | src/handlers.cpp:190-217 | no product appears twice among the costs |
| SnapshotContents.HeadOfRequest | src/handlers.cpp:99-105 | time, mode and batch id character by character |
| SnapshotContents.WarehousesOfRequest | src/handlers.cpp:107-121 | exactly the pulled warehouses with a key in the filter, all of them under an empty filter, in order and each with its own description |
| SnapshotContents.LinesOfRequest | src/handlers.cpp:131-157 | every stock line belongs to a pulled row whose warehouse is in the filter, reserves nothing, has the offer on record unless empty, and the name of the first warehouse with its key |
| SnapshotContents.StocksOfRequest | src/handlers.cpp:123-163 | a product and warehouse has a line exactly when the filter lets the warehouse pass and some pulled row is for them; the line stands for all pulled rows there |
| SnapshotContents.TruncIsTowardZero | src/handlers.cpp:156 | quantities are cut toward zero |
| SnapshotContents.CostsOfRequest | src/handlers.cpp:165-217 | a product has a cost line exactly when it has cost rows and an average or an offer; average, cheapest offer with its period, source and dealer price of the line |
| SnapshotContents.NamesIffMapped | src/handlers.cpp:172-177 | an analytic key stands for the product of the last row that names one |
| SnapshotContents.BestIsFirstCheapest | src/handlers.cpp:198-207 | the purchase is the first of the cheapest positive offers |
| Canonical.CanonicalJson | src/inventory_repository.cpp:40-116 | the sorted arrays and the head make up the canonical tree |
| Canonical.CanonicalForm | src/inventory_repository.cpp:37-116 | with distinct sort keys two snapshots have equal trees if and only if their heads agree and their lists are permutations after mapping empty texts to null and dropping stock warehouse names |
| Canonical.CanonicalText | src/inventory_repository.cpp:40-116 | the text field by field: stocks ascend by product and warehouse, warehouses by key, costs by product, absent and empty texts are null |
| SnapshotImport.InventoryDb.ImportSnapshot | src/inventory_repository.cpp:129-322 | outcome and new tables of one import: rejected, duplicate or committed, with changes only on commit |
| SnapshotImport.RunImport | src/inventory_repository.cpp:134-171 | the checks before the transaction, in order, and the comparison of hashes |
| SnapshotImport.Transaction | src/inventory_repository.cpp:173-288 | the statements succeed exactly when no constraint fails and then write exactly the stored state |
| SnapshotImport.StreamWarehouses | src/inventory_repository.cpp:182-206 | the warehouse upsert succeeds exactly for fitting rows with distinct ids |
| SnapshotImport.StreamStocks | src/inventory_repository.cpp:208-244 | the stock insert succeeds exactly when columns fit, warehouses exist and no cell is taken, and adds exactly the rows |
| SnapshotImport.WriteCosts | src/inventory_repository.cpp:246-276 | the cost upserts, one after the other |
| ImportFacts.ImportKeeps | src/inventory_repository.cpp:129-322 | whatever the outcome, the constraints hold, nothing recorded disappears, and anything but a commit changes nothing |
| ImportFacts.ImportAllKeeps | src/inventory_repository.cpp:134-320 | over every sequence of imports the constraints are kept, a batch keeps its first payload and a stock row stays as written |
| ImportFacts.ConstraintsAlwaysHold | sql/002_inventory.sql:14-37 | from empty tables, after any imports: unique cells, existing warehouses, stock rows of recorded batches only, correct row counts |
| ImportFacts.ResendLater | src/inventory_repository.cpp:152-171 | after any imports in between, a committed batch sent again is a duplicate or refused, depending on its content, and changes nothing |
| ImportFacts.OverlappingBatchFails | src/inventory_repository.cpp:236-243 | a later batch that names a cell of a committed one fails as a whole |
| ImportFacts.SecondDayFails | src/inventory_repository.cpp:236-243 | two daily batches with one product in one warehouse: the first is imported, the second refused |
| ImportFacts.SameContentSameImport | src/inventory_repository.cpp:129-322 | snapshots of equal content have the same outcome and the same effect on any tables |
| ImportedTables.AnswerOfImport | src/inventory_repository.cpp:134-320 | which answer an import gives, from the request and the tables alone, with every column limit and key condition |
| ImportedTables.CommittedStocks | src/inventory_repository.cpp:208-244 | the stock table has its old rows and one row per stock of the request, column by column, an empty offer as absent |
| ImportedTables.CommittedWarehouses | src/inventory_repository.cpp:182-206 | the warehouses of the request have the names given there, all others stay |
| ImportedTables.CommittedSnapshot | src/inventory_repository.cpp:278-288 | one new snapshot row with hash, time and numbers of rows, the others stay |
| ImportedTables.CommittedAverages | src/inventory_repository.cpp:174-255 | other tenants keep their average costs; of this tenant exactly the products of the request with a positive average have one, the last given |
| ImportedTables.CommittedPurchases | src/inventory_repository.cpp:176-276 | the same for purchase, source, time and dealer price of the products with a purchase cost |
| ImportedTables.OneCostPerProduct | src/inventory_repository.cpp:246-276 | with one cost per product the last one is that one |
| EndToEnd.SnapshotsAgree | src/handlers.cpp:92-220 | two pulls for the same products in any order, under any schedules, built in any hash order, give snapshots of equal content |
| EndToEnd.ScheduleCannotChangeWhatIsStored | src/inventory_repository.cpp:129-322 | whatever the order of the products, the schedules and the hash orders: equal canonical trees, the same effect on any tables, and after one is stored the other is a duplicate that changes nothing |
| EndToEnd.SnapshotHoldsStock | src/handlers.cpp:123-163 | the snapshot of a complete pull has a line for exactly the products and allowed warehouses with a row in 1C, holding the stock there |
| EndToEnd.StoredStockIsThatOf1C | src/inventory_repository.cpp:208-244 | after a complete pull is built into a snapshot and committed, the new stock rows are one for each product and allowed warehouse with a row in the register, and each holds the stock there |
| SseSubscriber.Subscriber.Send | src/sse_broker.cpp:15-29 | an open subscriber appends the data, a closed one nothing; this thread starts a write exactly when none is under way |
| SseSubscriber.Subscriber.DoWrite | src/sse_broker.cpp:41-53 | the whole buffer is taken, or writing ends when it is empty |
| SseSubscriber.Subscriber.OnWritten | src/sse_broker.cpp:58-78 | an error closes and ends writing; otherwise it writes again exactly when the buffer is not empty |
| SseSubscriber.Subscriber.Close | src/sse_broker.cpp:31-39 | close only clears the open flag |
| SseSubscriber.StepKeepsInv | src/sse_broker.cpp:15-79 | every step keeps: writing exactly when one do_write is pending or one write is in flight, and every accepted byte accounted for |
| SseSubscriber.SingleWriter | src/sse_broker.cpp:15-79 | for every interleaving with closes and partial writes, the wire is a prefix of the accepted sends in lock order, and all of them once the writer stops without error |
| SseSubscriber.NothingAfterClose | src/sse_broker.cpp:15-39 | after close nothing is accepted any more |
| SseBroker.Broker.Push | src/sse_broker.cpp:116-135 | the event gets the next number and is remembered with its name and data behind the last 499 |
| SseBroker.Broker.Add | src/sse_broker.cpp:89-93 | registering a client |
| SseBroker.Broker.CollectMissed | src/sse_broker.cpp:157-167 | the replay read collects the kept events after Last-Event-ID |
| SseBroker.Broker.CloseAll | src/sse_broker.cpp:185-198 | all registered clients are taken out and closed |
| SseBroker.ReplayReads | src/sse_broker.cpp:157-167 | the replay read finds all events after Last-Event-ID that are still kept, ascending |
| SseBroker.StepKeepsInv | src/sse_broker.cpp:87-198 | every step of every thread and client keeps the history consecutive and every due event handed over or on its way |
| SseBroker.NoGap | src/http_server.cpp:127-142 | a registered client that replayed gets every event after its Last-Event-ID that was kept at the replay read, and every event broadcast since it registered |
| SseBroker.EvictedExactly | src/sse_broker.cpp:128-134 | the replay read misses an event exactly when 500 later ones were broadcast before |
| SseBroker.AtMostTwice | src/sse_broker.cpp:137-172 | an event reaches a client at most once live and once by the replay, which ascends; without a Last-Event-ID there is no replay |
| SseBroker.TargetsAreConnected | src/sse_broker.cpp:137-144 | a broadcast addresses exactly the clients that have connected and neither left nor been closed |
| EventStream.MessageRoundTrip | src/sse_broker.cpp:121-123 | a printed message is read back with its name, data and id |
| EventStream.KeepAliveIgnored | src/http_server.cpp:170-176 | the keep-alive comment leaves a client between messages as it was |
| EventStream.ClientSeesPrefix | src/sse_broker.cpp:121-123 | of any prefix of a stream of messages and keep-alive comments the client sees a prefix of the messages, a cut message not at all |
| EventStream.ConnectionDelivers | src/http_server.cpp:131-180 | when every send is a message or a keep-alive comment, through any interleaving on a connection the client sees a prefix of the accepted messages in lock order, and all of them once the writer stops without error |
| BrokerHistory.HistoryIsTheLastBroadcasts | src/sse_broker.cpp:116-135 | over every run the history holds the last broadcasts, at most 500, each with its own name and data, numbered from 1 |
| BrokerHistory.ReplaysWhatWasSent | src/sse_broker.cpp:155-172 | the replay read collects exactly the broadcasts after Last-Event-ID among the last 500, in order, each with the text that was sent live |
| WorkerPool.WorkerPool.TrySubmit | src/worker_pool.cpp:23-32 | a task is accepted exactly when the pool is not stopping, still accepting and not full, and is then queued last |
| WorkerPool.WorkerPool.NextTask | src/worker_pool.cpp:54-63 | a worker takes the oldest task, sleeps over an empty queue, and returns from the empty queue of a stopping pool |
| WorkerPool.WorkerPool.TaskDone | src/worker_pool.cpp:73-79 | one running task less; the idle waiters are notified exactly when none runs and none is queued |
| WorkerPool.StepKeepsTasks | src/worker_pool.cpp:11-81 | every step keeps the task accounting |
| WorkerPool.StepKeepsWake | src/worker_pool.cpp:11-81 | every step keeps enough workers awake, running or about to be notified |
| WorkerPool.NoStrandedTask | src/worker_pool.cpp:23-63 | while a worker sleeps, the queue is no longer than awake and running workers plus notifications under way |
| WorkerPool.Conservation | src/worker_pool.cpp:23-79 | accepted is finished plus running plus queued, claimed in order, within the bound, and active counts the running |
| WorkerPool.AcceptedExactly | src/worker_pool.cpp:23-37 | over every run a submission is accepted exactly when neither stop_accepting nor the destructor has come and fewer tasks than the bound wait; otherwise nothing changes |
| WorkerPool.ClaimsTheOldest | src/worker_pool.cpp:51-63 | over every run a worker that takes the lock claims the oldest waiting task, or sleeps, or returns if the pool is stopping |
| WorkerPool.IdleIsNotified | src/worker_pool.cpp:44-49 | the pool becomes idle only in the section that notifies, and then no waiter sleeps |
| WorkerPool.TrueWaitIsFinal | src/worker_pool.cpp:34-49 | after stop_accepting a true wait_idle means that every accepted task has finished, for good |
| WorkerPool.StoppingDrains | src/worker_pool.cpp:11-63 | a stopping pool stays so, no step adds work, and every step of a worker or notification uses some up |
| WorkerPool.DestructorDrains | src/worker_pool.cpp:11-21 | after the stop is announced the workers take a bounded number of steps whatever else happens, some worker step is possible until all have returned, and then every accepted task has finished |
| OzonSync.FetchDetails | src/sync_service.cpp:278-301 | each product with its details, and price, currency and stock of its quote if its sku has one |
| OzonSync.StorePage | src/db_repository.cpp:74-123 | storing a page again, or one that overlaps, leaves exactly the longer prefix stored |
| OzonSync.OzonSync.MarkStopping | src/sync_service.cpp:196-198 | the write of stop_ozon changes the status of the row and nothing else |
| OzonSync.OzonSync.ResetCheckpoint | src/sync_service.cpp:189-194 | a full synchronisation starts from an empty checkpoint, in the table and in memory |
| OzonSync.OzonSync.OnPage | src/sync_service.cpp:278-318 | at every crash point of a page, with stop requests in between, the checkpoints describe stored prefixes |
| OzonSync.OzonSync.OnNetworkError | src/sync_service.cpp:246-266 | a failed request only restamps the checkpoint, as retry; at ten in a row as failed, which fails the task |
| OzonSync.OzonSync.PageLoop | src/sync_service.cpp:241-322 | the loop terminates on pages left and failures left, fails only after ten failed requests in a row, and otherwise ends at the listing's end unless stopped or crashed |
| OzonSync.OzonSync.RunOzonSync | src/sync_service.cpp:215-350 | whatever happens the state stays consistent; done means that the table holds every listed product field by field and the rest as before, and is complete exactly when no stop request marked the row after the last write; failed means ten failed requests in a row; any end but done leaves an unclosed row; without faults, stop or crash the run is done |
| OzonSync.OzonSync.ConsistentHolds | src/sync_service.cpp:278-303 | at any moment the table holds a prefix of the listing field by field, and the rest as before |
| OzonSync.OzonSync.FinishedHolds | src/sync_service.cpp:278-328 | a finished table holds the whole listing field by field |
| OzonSync.ClosedRowsRest | src/sync_service.cpp:465-473 | the resume check leaves alone a missing row, one without progress, and one that is done or stopped |
| OzonSync.CompleteCheckpoint | src/sync_service.cpp:305-328 | the checkpoint of a complete state: cursor behind the listing, its length, the number of pages, done |
| OzonSync.UnfinishedExactly | src/sync_service.cpp:465-473 | an unclosed row, stopped and marked ones included, is resumed exactly when something was synced |
| OzonSync.StoppedRunIsResumed | src/sync_service.cpp:196-213 | a run stopped after its first page ends as stopped and is resumed at the next start |
| OzonSync.LateStopRepeatsTheRun | src/sync_service.cpp:326-328 | a stop request after done makes the resume check take a non-empty synchronisation up again, and that run completes it again |
| OzonSync.OneProductIsStable | src/sync_service.cpp:244-245 | a concrete marketplace that meets the assumptions |
| OzonSync.SyncThroughCrashes | src/sync_service.cpp:475-498 | any number of crashed, stopped, marked, failed or full attempts, then one undisturbed, complete the synchronisation: every listed product is stored field by field |
| OzonSync.CompleteIsUnique | src/db_repository.cpp:155-201 | complete states have the same products and the same checkpoint row |
| OzonSync.CrashResumeRefinesOneRun | src/sync_service.cpp:215-350 | crashing and resuming ends in the same products table and checkpoint row as one uninterrupted run |
| Checkpoints.CheckpointTable.Start | src/inventory_checkpoint_repository.cpp:20-45 | every open row of the tenant is failed as superseded, the new running row is the only open one, and the others stay |
| Checkpoints.CheckpointTable.Update | src/inventory_checkpoint_repository.cpp:50-89 | the running rows of the job get the stage, and nothing else changes |
| Checkpoints.CheckpointTable.Finish | src/inventory_checkpoint_repository.cpp:94-113 | the rows of the job become done without error, or failed with the error, whatever their status |
| Checkpoints.CheckpointTable.FindUnfinished | src/inventory_checkpoint_repository.cpp:121-182 | the interrupted row updated last, none exactly when there is none |
| Checkpoints.CheckpointTable.AbandonRunning | src/inventory_checkpoint_repository.cpp:187-203 | every open row of the tenant is failed; an error it has is kept |
| Checkpoints.CheckpointTable.MarkInterrupted | src/inventory_checkpoint_repository.cpp:208-225 | the running rows are interrupted; afterwards the resume candidates are exactly the rows that were open |
| Checkpoints.ExecuteKeeps | src/inventory_checkpoint_repository.cpp:20-225 | every statement keeps at most one open row and reopens no closed one |
| Checkpoints.StepKeepsInv | src/handlers.cpp:938-1411 | every step of requests, threads, resets, crashes and restarts keeps one open row and the resume count |
| Checkpoints.OneOpenCheckpoint | src/main.cpp:97-104 | over every run a tenant has at most one open checkpoint and resumes never outnumber restarts |
| Checkpoints.ResumePrecisely | src/main.cpp:240-256 | after a restart the resume candidate is exactly the row that was open, and the resumed pull leaves none |
| ProductCatalog.NormalizeCatalog | src/onec_product_catalog.cpp:69-108 | the result is strictly ascending by code and holds exactly the last usable row of each product whose code no other product claims |
| ProductCatalog.NormalizedOnce | src/onec_product_catalog.cpp:96-107 | that leaves one result, whatever the hash order |
| ProductCatalog.CodesAndRefsUnique | src/onec_product_catalog.cpp:96-107 | codes ascend strictly and neither codes nor products repeat |
| ProductCatalog.CatalogueOfRows | src/onec_product_catalog.cpp:69-108 | said of the rows alone and column by column: one record for each last row of a product whose code no row of another product has, and codes ascend |
| ProductCatalog.PassesIffEmitted | src/onec_product_catalog.cpp:98-101 | the ambiguity check on the two maps is the ambiguity of the rows |
| ProductCatalog.CountConflicts | src/onec_product_catalog.cpp:236-246 | conflicts are the four-column rows that repeat the code of an earlier one |
| ProductCatalog.AcceptedAndConflicts | src/onec_product_catalog.cpp:228-247 | accepted plus conflicts never exceeds the rows read, and equals them exactly when every row has four columns and a code kept by the last usable row of one product and claimed by no other |
| ProductCatalog.TwoProductsOneCode | src/onec_product_catalog.cpp:98-101 | two products with one code: nothing accepted, one conflict, one row in neither number |
| CatalogPaging.ReadCatalogue | src/onec_product_catalog.cpp:112-186 | succeeds exactly below 100000 rows without a failed request at any multiple of 5000 within the listing, and then returns all kept rows in order |
| CatalogPaging.ReadCatalogueWithProgress | src/onec_product_catalog.cpp:372-464 | returns the kept rows of the pages that start below the row limit, exactly when none of these requests fails |
| CatalogPaging.KeptRowsOf | src/onec_product_catalog.cpp:112-186 | kept are code, article, name and key of exactly the objects that are neither deleted nor folders, in order |
| CatalogPaging.CatalogueReadersAgree | src/onec_product_catalog.cpp:180-184 | with the defaults the readers agree exactly below 100000 rows; beyond, one refuses and the other keeps the first 100000 |
| CatalogPaging.HundredThousandProducts | src/onec_product_catalog.cpp:180-184 | 100000 products: one reader refuses, the other keeps them all |
| CatalogPaging.ReadAllRows | src/onec_catalog.cpp:404-425 | the rows delivered for every page size and row limit, with the request clamped to 500 |
| CatalogPaging.AllRowsDelivered | src/onec_catalog.cpp:65-76 | the first min(N, max) rows arrive exactly for page sizes 1 to 500 or when no more than one clamped request was wanted |
| CatalogPaging.HandlerWindow | src/handlers.cpp:546-583 | the listing handler looks at the requested window exactly when top is at most 500, the window ends within 500 rows, or it lies beyond the listing |
| CatalogPaging.FiveHundredAndOneRows | src/onec_catalog.cpp:404-425 | 501 rows asked for in one page: 500 arrive, and the handler's window is short |
| ODataText.EncodePathForCpr | src/onec_ka2_inventory.cpp:66-84 | the encoder loop |
| ODataText.PercentRoundTrip | src/onec_ka2_inventory.cpp:66-84 | percent decoding (RFC 3986 section 2.1) gives the text back without an escape in the input, and a shorter text with one |
| ODataText.EncodedByte | src/onec_ka2_inventory.cpp:66-84 | which bytes are copied, and the two upper-case digits of the others |
| ODataText.PathArrives | src/onec_ka2_inventory.cpp:163-192 | a path reaches the server unchanged if and only if it holds neither an escape nor a question mark |
| ODataText.EscapeIsLost | src/onec_ka2_inventory.cpp:66-84 | an escape in the input arrives as another text |
| ODataText.QuestionMarkIsLost | src/onec_ka2_inventory.cpp:66-84 | a question mark in the input cuts the path |
| ODataText.EscapeODataString | src/onec_ka2_inventory.cpp:86-94 | the quote-doubling loop |
| ODataText.LiteralRoundTrip | src/onec_ka2_inventory.cpp:86-94 | reading the literal up to the first undoubled quote gives the text back |
| ODataText.QuotesDoubled | src/onec_ka2_inventory.cpp:86-94 | each quote is doubled and nothing else changes |
| ODataText.BuildGuidFilter | src/onec_ka2_inventory.cpp:120-133 | the filter loop |
| ODataText.FilterRoundTrip | src/onec_ka2_inventory.cpp:120-133 | reading the terms of a filter gives its keys back in order |
| ODataText.FilterText | src/onec_ka2_inventory.cpp:120-133 | the text of a filter, term by term |
| ODataText.BalanceRoundTrip | src/onec_ka2_inventory.cpp:411-417 | reading a balance path gives register, period, condition and dimensions back |
| ODataText.BalanceText | src/onec_ka2_inventory.cpp:411-417 | the text of a balance path |
| ODataText.RequestIsLossless | src/onec_ka2_inventory.cpp:411-417 | through printing, encoding, decoding and reading, the server finds the keys of the chunk in order and the other arguments |
| ODataText.AllKeysAreAsked | src/onec_ka2_inventory.cpp:397-417 | over all chunks every key is asked for once, in order |
| UrlNormalizer.ParseUrl | src/onec_url_normalizer.cpp:30-106 | the parser, step by step |
| UrlNormalizer.CutODataPath | src/onec_url_normalizer.cpp:266-281 | trailing slashes and one OData suffix are cut, regardless of case |
| UrlNormalizer.NormalizePublicationUrl | src/onec_url_normalizer.cpp:211-292 | the whole normalisation with its refusals |
| UrlGrammar.ReadsParts | src/onec_url_normalizer.cpp:30-106 | a text made of scheme, user, host or bracketed host, port, path, query and fragment is read into these parts, in lower case where it should be, and refused exactly for another scheme, an empty host or a port out of range |
| UrlGrammar.AnswerOfNormalize | src/onec_url_normalizer.cpp:211-292 | exactly when a URL is refused, and what the others become |
| UrlGrammar.TrimmedText | src/string_utils.cpp:13-18 | spaces, tabs, carriage returns and line feeds go at both ends, and nothing else |
| UrlNormalizer.LowerText | src/string_utils.cpp:7-11 | the capital letters become small and nothing else changes |
| UrlFacts.CutTakesAway | src/onec_url_normalizer.cpp:266-281 | exactly the trailing slashes and, before them, one of the two suffixes in any case of letters are cut |
| UrlFacts.ParsedShape | src/onec_url_normalizer.cpp:30-106 | what every parsed URL without user information satisfies |
| UrlFacts.ReparseKeepsAddress | src/onec_url_normalizer.cpp:283-291 | reading the normalised URL gives scheme, host and port back if and only if the host starts with no bracket and has a port or no colon |
| UrlFacts.NormalizeAgain | src/onec_url_normalizer.cpp:211-292 | for such hosts a second run is a no-op exactly when the cut path ends in neither a slash nor an OData suffix and the result has at most 1024 characters |
| UrlFacts.SpellingsAgree | src/onec_url_normalizer.cpp:266-281 | a settled path is cut to itself with nothing, the service root or the metadata suffix appended, in any case of letters, and any number of trailing slashes |
| UrlFacts.SlashBeforeRootStays | src/onec_url_normalizer.cpp:270-281 | the family of paths for which a second run does change the URL |
| UrlFacts.SlashBeforeRootChanges | src/onec_url_normalizer.cpp:211-292 | a whole URL that the second run changes |
| UrlFacts.BracketsAreLost | src/onec_url_normalizer.cpp:283-291 | a bracketed IPv6 URL whose printed form is read as another host |
| Order.StrLessIsLexicographic | src/onec_product_catalog.cpp:103-106 | the order of the sorts is lexicographic by character, a prefix first |
| Guids.GuidForm | src/onec_product_catalog.cpp:57-66 | the accepted keys are of the form 8-4-4-4-12 over the hexadecimal digits |

## Left out

- HTTP, TLS, sockets, JSON parsing and serialising, SHA-256, name resolution and address ranges: replaced by functions, predicates, or steps that may fail.
- Floating-point rounding, 64-bit overflow and the rounding of NUMERIC columns: reals and unbounded integers are used.
- Clocks, sleeps, retry delays, remaining-time and speed texts, logs, configuration files, routing and the webhook store.
- Answer items that are not JSON objects, except in the catalogue readers: the service skips them, the model has none.
- The order of the rows within one answer of a server is fixed by the request; a server that reorders its listing between two pages is not modelled.
- FlatRead: the stop flag is looked at between whole chunks, not between pages; a thread that leaves in the middle of a chunk drops its rows either way.
- OzonSync: each cursor leads to one position of an unchanging listing of distinct products, and fetching details, upserting and saving checkpoints succeed; the service ignores failures of these, after which its total no longer counts stored products.
- OzonSync: the single-flight guard of trigger_ozon_sync, which reset_ozon_progress switches off, and the progress notifications.
- PullsAgree: the map from products to offers is taken to be the same for both pulls, as it is when each product key occurs once in the table.
- Checkpoints: the stage data saved with an update, and the table sync_runs, which has no constraint between concurrent requests.
- Checkpoints: that the open row belongs to a thread that can still finish it. The generation is compared before the write, not with it, and a request that starts late can leave a row that only a later request, reset or restart closes.
- SseBroker: explicit event ids (no caller passes one), and the order of live events, since sends happen outside the lock. A client that got a later event first and then lost its connection asks for what follows that later event.
- EventStream: names and data without line breaks, as the serialiser prints them; forms of Last-Event-ID other than a decimal number; byte order marks and the retry field.
- SnapshotImport: concurrent imports beyond the atomicity of their transactions, and cleanup_older_than.
- NormalizeAgain: hosts that are not read back from the printed form, because for them the second run normalises another address.
- UrlNormalizer: stoi on ports is the value of the digits; more digits than an int holds are out of range either way.
- The characteristic of a stock row, which the aggregation ignores; read_chunked, maybe_flush_checkpoint, the disabled cost reader and the legacy 1C synchronisation, which are unused or weaker copies.
- Progress percent, which is not monotone over a pull: the end of the catalogue stage reports 100.
