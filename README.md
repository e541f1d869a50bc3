# Payment gateway core, modelled in Dafny

This project models the sequential logic of a payment gateway written in C#.
The gateway has an API backend, an in-memory database server and a job-based
variant. Each source file of the core becomes one Dafny module:

- `Store` (`memory_store.dfy`): the database server's `MemoryStore`. Each
  settlement is packed into one C# `int` as `(relMs << 16) | cents`. Out-of-range
  amounts and timestamps are refused. The packed words and the processor tags
  are kept in two parallel lists. `TwosComplement` spells out the int32 shifts,
  masks and `|` that the packing uses. `Rounding` is
  `Math.Round(x, MidpointRounding.AwayFromZero)` on a `decimal`, which is
  modelled as a `real`.
- `DatabaseServer` (`database_service.dfy`): `DatabaseService`. It persists a
  batch into the store and answers an inclusive `[from, to]` summary grouped
  into "default" and "fallback". It also purges the store.
- `Queues` (`queue_service.dfy`): `QueueService<T>`, a FIFO queue with a count
  kept beside it.
- `DbClient` (`database_client.dfy`): the backend's `DatabaseClient`. It
  batches persistence requests, flushes on size or on the timer, builds the
  flush payload, settles the callers' tasks and builds the summary query
  string.
- `Command` (`payment_command.dfy`): `PaymentCommand`, the worker that cuts the
  queue into batches, routes every payment and persists each batch.
- `Health` (`health.dfy`): `HealthCheckService`, the 5-second rate-limited
  health cache and the preferred-processor choice.
- `Router` (`router.dfy`): `PaymentProcessorRouter`, unbounded retry on the
  default processor with a shared delay that grows by 75 ms per failure.
- `Query` (`payment_query.dfy`): `PaymentQuery`, which rounds every figure of
  the summary to two decimals.
- `Windows`, `ProcessingJob`, `PersistingJob` (`window.dfy`,
  `processing_job.dfy`, `persisting_job.dfy`): the job variant's micro-batch
  window loop and the two background jobs built on it.

External effects are parameters. These include the clock, HTTP responses,
health probes, the orchestrator's verdicts, the insert outcome and channel
arrivals. Every component is modelled as single-threaded.

Where the design notes of the system and the code disagree, the model follows
the code:

- The router in the code retries without bound, always on the default
  processor, with one delay counter shared by all payments. There are no three
  attempts, no failover to the fallback and no capped exponential backoff.
- The backend's worker is started by each `Enqueue`, not run as one
  long-lived loop.
- In the code, a failed persistence flush leaves the drained callers' tasks
  pending for good (see Findings). The model uses the corrected flush, which
  faults them.
- The packing round trip is exact to the rounded cents and to the millisecond.

## Model

| member | source | states |
|---|---|---|
| Rounding.RoundHalfAway | database-server/MemoryStore.cs:26 | the result is within half a unit of `x`, ties go away from zero, and the sign follows `x` |
| Rounding.RoundHalfAwayUnique | database-server/MemoryStore.cs:26 | any integer within half a unit of `x` that breaks ties away from zero is the rounded value |
| Rounding.RoundHalfAwayIsOdd | backend/Services/PaymentQuery.cs:33 | rounding commutes with negation |
| Rounding.RoundHalfAwayOfInteger | backend/Services/PaymentQuery.cs:33 | an integer rounds to itself |
| TwosComplement.OrOfDisjointHalves | database-server/MemoryStore.cs:40 | or-ing `hi << 16` with `lo`, for 16-bit fields, gives the int32 whose pattern is `hi * 2^16 + lo`, also when `hi` sets the sign bit |
| TwosComplement.FieldsOfPattern | database-server/MemoryStore.cs:45-46 | `packed & 0xffff` gives back `lo` and `(packed >> 16) & 0xffff` gives back `hi`, with `>>` the arithmetic shift |
| TwosComplement.OrOverNegativeLow | database-server/MemoryStore.cs:40 | or-ing negative cents down to -65536 over `rel << 16` gives the cents themselves: their sign bits cover the timestamp field |
| TwosComplement.FieldsOfNegativeLow | database-server/MemoryStore.cs:45-46 | a negative word down to -65536 reads back as `word + 65536` cents and `0xffff` milliseconds |
| Store.PackAsWritten | database-server/MemoryStore.cs:24-41 | the packing as written yields an int32 word when it does not throw |
| Store.Pack | database-server/MemoryStore.cs:24-41 | packing succeeds iff `0 <= cents <= 0xffff` and `0 <= timestamp - createdAt <= 0xffff`; cents outside int32 give `AmountOverflow`, cents above the mask but within int32 give `AmountTooHigh`, negative cents within int32 give `AmountNegative`, and an out-of-range timestamp with valid cents gives `TimestampOutOfRange` |
| Store.PackRoundTrip | database-server/MemoryStore.cs:40-51 | an accepted settlement unpacks to its amount rounded to whole cents (within 0.005 of the amount) and to its own timestamp |
| Store.PackAgreesWhenNotNegative | database-server/MemoryStore.cs:26-38 | the corrected packing and the packing as written agree on every non-negative amount |
| Store.NegativeAmountIsCorrupted | database-server/MemoryStore.cs:28-40 | as written, negative cents down to -65536 are accepted, and the word reads back as `cents + 65536` at `createdAt + 65535` whatever the timestamp; the corrected packing refuses them |
| Store.NegativeCentIsCorrupted | database-server/MemoryStore.cs:28-51 | -0.01 at the creation instant is stored as -1 and reads back as 655.35 at 65535 ms |
| Store.Listing | database-server/MemoryStore.cs:72-92 | reference definition of what the store holds, against which `GetAll`, `Add` and `Clear` are proved: one item per word, item `i` being word `i` unpacked with tag `i` |
| Store.ListingAppend | database-server/MemoryStore.cs:59-67 | appending one word and one tag appends exactly one unpacked item to the listing |
| Store.ListingAppendPacked | database-server/MemoryStore.cs:59-67 | appending an accepted settlement lists it with its own timestamp and its amount rounded to whole cents |
| Store.MemoryStore.constructor | database-server/MemoryStore.cs:19-22 | the store records its creation instant and starts empty |
| Store.MemoryStore.Add | database-server/MemoryStore.cs:59-67 | on success one word and one tag are appended and the listing grows by the settlement (rounded amount, own timestamp, own tag); on a packing error nothing changes and the error is returned; both lists keep equal length |
| Store.MemoryStore.AddDefault | database-server/MemoryStore.cs:54-57 | the two-argument `Add` tags the entry "default" |
| Store.MemoryStore.GetAll | database-server/MemoryStore.cs:72-92 | the result is the listing: one unpacked item per entry, in insertion order, with the tag at the same index |
| Store.MemoryStore.Clear | database-server/MemoryStore.cs:94-101 | both lists become empty, so the listing is empty |
| DatabaseServer.Persisted | database-server/DatabaseService.cs:14-26 | a persisted run appends as many tags as words, all of them int32 |
| DatabaseServer.FailureStops | database-server/DatabaseService.cs:18-25 | once a payment of the batch fails to pack, the rest of the batch adds nothing |
| DatabaseServer.PersistedNext | database-server/DatabaseService.cs:18-25 | one more payment of the batch is skipped when its timestamp does not parse, appended after the earlier ones when it packs, and otherwise stops the walk with its error and nothing added |
| DatabaseServer.PersistedListing | database-server/DatabaseService.cs:18-25 | a batch persisted without error adds exactly its payments with a parsed timestamp, in batch order, with rounded amounts and their own tags |
| DatabaseServer.DatabaseService.constructor | database-server/DatabaseService.cs:9-12 | the service owns a fresh, empty store |
| DatabaseServer.DatabaseService.PersistPayments | database-server/DatabaseService.cs:14-26 | the store gains exactly the persisted run's words and tags; a packing error aborts the batch with earlier payments kept; an empty batch changes nothing |
| DatabaseServer.Group | database-server/DatabaseService.cs:40-46 | an item is in a group iff it is in the snapshot, its timestamp is in `[from, to]` inclusive, and it carries the group's tag |
| DatabaseServer.IgnoredEntry | database-server/DatabaseService.cs:40-46 | an entry outside the range, or tagged neither "default" nor "fallback", changes neither group |
| DatabaseServer.CountedEntry | database-server/DatabaseService.cs:43-54 | an in-range entry adds one request and its value to its own group and nothing to the other |
| DatabaseServer.SummarizeConcat | database-server/DatabaseService.cs:40-58 | the summary of two runs of entries is the pointwise sum of their summaries |
| DatabaseServer.SharedBoundaryCountsTwice | database-server/DatabaseService.cs:40-41 | `[a, b]` plus `[b, c]` equals `[a, c]` plus `[b, b]`: entries at the shared boundary count twice |
| DatabaseServer.DisjointRangesAdd | database-server/DatabaseService.cs:40-41 | `[a, b]` plus `[b + 1, c]` equals `[a, c]` exactly |
| DatabaseServer.EmptySummary | database-server/DatabaseService.cs:43-58 | an empty snapshot gives zero count and zero amount in both groups |
| DatabaseServer.DatabaseService.GetDatabaseSummary | database-server/DatabaseService.cs:28-60 | a missing or unparseable `from` is 0 and a missing or unparseable `to` is now; the result is the two-group summary of the store's listing |
| DatabaseServer.DatabaseService.PurgeDatabase | database-server/DatabaseService.cs:62-67 | the store is emptied, and every summary afterwards is zero in both groups |
| Queues.QueueService.constructor | backend/Services/QueueService.cs:7-8 | the queue starts empty with count 0 |
| Queues.QueueService.Enqueue | backend/Services/QueueService.cs:10-14 | the item is appended at the tail and the count stays equal to the length |
| Queues.QueueService.TryDequeue | backend/Services/QueueService.cs:16-24 | a non-empty queue yields its head and loses it; an empty queue yields nothing and is unchanged |
| Queues.QueueService.Peek | backend/Services/QueueService.cs:26-30 | the head, or nothing iff the queue is empty, without changing the queue |
| Queues.QueueService.Count | backend/Services/QueueService.cs:32 | the count is the queue's length |
| Queues.QueueService.IsEmpty | backend/Services/QueueService.cs:34 | empty iff the queue holds no item |
| Queues.QueueService.Clear | backend/Services/QueueService.cs:36-42 | the queue ends empty, with count 0 |
| Queues.QueueService.DequeueMultiple | backend/Services/QueueService.cs:44-62 | takes the first `min(n, Count)` items (none for `n <= 0`) in FIFO order and leaves the rest in order |
| Models.ProcessorName | backend/Services/DatabaseClient.cs:109 | the enum is written as "default" or "fallback" |
| Models.ProcessorNameInjective | backend/Models/PaymentModels.cs:43-50 | distinct processors get distinct names |
| DbClient.DatabaseRoundTrip | backend/Services/DatabaseClient.cs:106-111 | the wire record of a payment reads back as that payment |
| DbClient.Convert | backend/Services/DatabaseClient.cs:106-111 | the conversion keeps length and order, and each wire record reads back as its payment |
| DbClient.PayloadConcat | backend/Services/DatabaseClient.cs:101 | the payload of two runs of drained items is the first run's payload followed by the second's |
| DbClient.PayloadLength | backend/Services/DatabaseClient.cs:101 | the payload holds exactly as many records as the drained items have payments |
| DbClient.PayloadEmpty | backend/Services/DatabaseClient.cs:99-103 | the payload is empty iff every drained item is empty |
| DbClient.PayloadOfQueuedItems | backend/Services/DatabaseClient.cs:103 | a non-empty queue of non-empty requests has a non-empty payload |
| DbClient.FailedFlushLeavesCallersPending | backend/Services/DatabaseClient.cs:134-141 | as written, a failed send after the drain leaves every drained caller's task pending |
| DbClient.SettleSettlesEveryCaller | backend/Services/DatabaseClient.cs:128-141 | corrected, every drained caller is resolved on delivery and faulted on failure, and no other task changes |
| DbClient.SummaryQuery | backend/Services/DatabaseClient.cs:176-180 | empty iff both bounds are absent or empty; otherwise `?` then `from=` and `to=` in that order, joined by `&` |
| DbClient.SummaryOrZero | backend/Services/DatabaseClient.cs:181 | a null summary response reads as all zeros, and any other response is passed on |
| DbClient.DatabaseClient.constructor | backend/Services/DatabaseClient.cs:18-36 | empty queue, not flushing, timer disarmed |
| DbClient.DatabaseClient.CompleteAll | backend/Services/DatabaseClient.cs:128-131 | the task of every item of the batch is completed as given, and the other tasks are unchanged |
| DbClient.DatabaseClient.FlushBatch | backend/Services/DatabaseClient.cs:77-146 | a no-op while flushing or when the queue is empty; otherwise the whole queue is drained in FIFO order, exactly one non-empty payload is sent, every drained caller is settled, and the flushing flag is reset |
| DbClient.DatabaseClient.DrainQueue | backend/Services/DatabaseClient.cs:89-97 | the batch is the whole queue in FIFO order, and the queue ends empty |
| DbClient.DatabaseClient.ScheduleBatchFlush | backend/Services/DatabaseClient.cs:148-151 | the deadline is re-armed to `now + batchTimeout` and nothing else changes |
| DbClient.DatabaseClient.OnDeadline | backend/Services/DatabaseClient.cs:35 | the timer disarms and flushes |
| DbClient.DatabaseClient.PersistPaymentsBatch | backend/Services/DatabaseClient.cs:153-172 | an empty request returns at once; otherwise it is queued, and a queue count of at least `batchSize` flushes now (or, while another flush runs, leaves it queued and the caller pending), while a smaller count re-arms the timer and leaves the caller pending |
| Command.CutFlatten | backend/Services/PaymentCommand.cs:67-75 | the worker's batches put back together are the queue, in FIFO order |
| Command.CutSizes | backend/Services/PaymentCommand.cs:69-72 | every batch holds between 1 and `batchSize` requests, and all but the last hold exactly `batchSize` |
| Command.PaymentCommand.constructor | backend/Services/PaymentCommand.cs:14-25 | the worker starts idle, with no batch taken |
| Command.Records | backend/Services/PaymentCommand.cs:38-44 | reference definition of a batch's records, against which `ProcessPaymentBatch` and `PayloadsAt` are proved: one record per request, in order, each with the request's id and amount, the default processor and the batch's single timestamp |
| Command.PayloadsAt | backend/Services/PaymentCommand.cs:67-75 | payload `n` of a run is batch `n`'s records, stamped `clock(n)`, in wire form |
| Command.PaymentCommand.ProcessPaymentBatch | backend/Services/PaymentCommand.cs:27-58 | payment `i` of the batch meets its own call outcomes; the batch completes only if every payment is routed; a completed batch returns exactly its records, in input order; once every payment is routed, the database server receives exactly one payload, the wire form of those records (for a non-empty batch), and a stuck batch sends nothing |
| Command.PaymentCommand.TakeBatch | backend/Services/PaymentCommand.cs:69-72 | takes `min(batchSize, Count)` requests from the front: the next batch of the cut |
| Command.PaymentCommand.ProcessNextBatch | backend/Services/PaymentCommand.cs:69-74 | the next batch of the cut is taken off the queue and processed; the database server gains its payload unless it is stuck |
| Command.PaymentCommand.Drain | backend/Services/PaymentCommand.cs:67-75 | the batches taken are the cut of the queue, in order; the payloads sent are those of the batches taken, in order, except for the last batch of a hung run |
| Command.PaymentCommand.ProcessPayments | backend/Services/PaymentCommand.cs:60-85 | a held mutex returns at once with the queue and what was sent untouched; otherwise the batches taken are the cut of the queue, in order, the database server receives one payload per batch, the routed records of that batch, in order, and the mutex is released on every path that returns |
| Command.PaymentCommand.Enqueue | backend/Services/PaymentCommand.cs:87-93 | the request joins the queue and a processing run starts over the extended queue |
| Health.GetHealthStep | backend/Services/HealthCheckService.cs:28-86 | probes iff no check is recorded in the last 5000 ms; each probe outcome has its own cache update; a non-success status or a null body changes nothing |
| Health.CachedWithinRateLimit | backend/Services/HealthCheckService.cs:30-37 | within 5 s of a recorded probe, the cached value is returned with no probe and no state change |
| Health.UnrecordedProbeRetries | backend/Services/HealthCheckService.cs:47-52 | a probe that records nothing leaves the next call free to probe again |
| Health.ProcessorsAreIsolated | backend/Services/HealthCheckService.cs:55-80 | a call for one processor never changes the other's cache or last-check entry |
| Health.OptimalProcessor | backend/Services/HealthCheckService.cs:88-107 | Fallback iff Default is failing and Fallback is not |
| Health.HealthCheckService.constructor | backend/Services/HealthCheckService.cs:16-26 | Default starts at `(false, 50)` and Fallback at `(false, 100)`, with no check recorded |
| Health.HealthCheckService.GetHealth | backend/Services/HealthCheckService.cs:28-86 | the returned value and the new cache and last-check maps are those of `GetHealthStep`, and each probe is recorded in `probes` |
| Health.HealthCheckService.GetOptimalProcessor | backend/Services/HealthCheckService.cs:88-107 | Fallback iff the cached Default is failing and the cached Fallback is not |
| Router.MakePaymentRequest | backend/Services/PaymentProcessorRouter.cs:29-59 | reference definition of one call's result, against which `ProcessPaymentWithRetry` is proved: a result iff the call is accepted, carrying the called processor and the echoed id, amount and timestamp |
| Router.FirstSuccess | backend/Services/PaymentProcessorRouter.cs:68-81 | the index of the first accepted outcome: all earlier ones failed |
| Router.Targets | backend/Services/PaymentProcessorRouter.cs:66-80 | reference definition of the processors called, against which `ProcessPaymentWithRetry` is proved: the first call goes to the given processor, every later one to Default |
| Router.Delays | backend/Services/PaymentProcessorRouter.cs:76-77 | reference definition of the waits, against which `ProcessPaymentWithRetry` is proved: the i-th wait is the starting delay plus `75 * i` |
| Router.RetryStep | backend/Services/PaymentProcessorRouter.cs:73-80 | one failed attempt followed by the retries gives the calls and waits of one more attempt |
| Router.RetryLogs | backend/Services/PaymentProcessorRouter.cs:61-82 | after a rejected first call, one call more than the retries is made, and the logs of the first call followed by those of the retries are the logs of the whole run |
| Router.PaymentProcessorRouter.constructor | backend/Services/PaymentProcessorRouter.cs:13-27 | the shared delay starts at 75 ms |
| Router.PaymentProcessorRouter.ProcessPaymentWithRetry | backend/Services/PaymentProcessorRouter.cs:61-82 | makes exactly `k + 1` calls when the first success is at `k`; the first targets the given processor (Default if none) and every retry targets Default; the delay grows by 75 per failure; the result is the first accepted call's |
| Query.RoundToCommercialAmount | backend/Services/PaymentQuery.cs:31-34 | the result has at most two decimals and is within 0.005 of the input, and a tie goes away from zero |
| Query.RoundingIsIdempotent | backend/Services/PaymentQuery.cs:33 | rounding a rounded amount changes nothing |
| Query.WholeNumbersUnchanged | backend/Services/PaymentQuery.cs:21-25 | whole numbers, such as request counts, pass through unchanged |
| Query.MidpointsGoAwayFromZero | backend/Services/PaymentQuery.cs:33 | 20.005 rounds to 20.01 and -20.005 to -20.01 |
| Query.GetPaymentsSummary | backend/Services/PaymentQuery.cs:15-29 | each of the four figures is `RoundToCommercialAmount` of its own input figure (so within 0.005), whole request counts are unchanged, and a null response gives zeros |
| Query.RoundedSummaryIsStable | backend/Services/PaymentQuery.cs:15-34 | rounding a rounded summary again changes nothing |
| Windows.Channel.TryRead | src/Jobs/PaymentProcessingJob.cs:71 | reads the front item if there is one, and records it as consumed |
| Windows.Fill | src/Jobs/PaymentProcessingJob.cs:71-72 | moves items into the window in channel order while it has room, up to the cap, and leaves the channel empty if the window is not full |
| Windows.Balance | src/Jobs/PaymentProcessingJob.cs:47-73 | the channel's account (what was read, then what is left, equals what was there plus what was written) still balances after one more window |
| Windows.ReadWindow | src/Jobs/PaymentProcessingJob.cs:51-73 | a window opened by a first read is non-empty and within `batchSize`, consumed in channel order; it closes full, on elapsed time `>= maxWaitMs`, on the delay winning, or on no more data; items beyond the cap stay in the channel |
| ProcessingJob.PaymentsKeepRequests | src/Jobs/PaymentProcessingJob.cs:82-87 | the window's payments stand one for one for its requests, each with its request's id and amount |
| ProcessingJob.Forwarded | src/Jobs/PaymentProcessingJob.cs:94-106 | no more payments are forwarded than were tried |
| ProcessingJob.ForwardedAllOrNothing | src/Jobs/PaymentProcessingJob.cs:94-106 | everything is forwarded iff every orchestration succeeds, and nothing iff none does |
| ProcessingJob.ForwardedConcat | src/Jobs/PaymentProcessingJob.cs:94-106 | forwarding is done payment by payment, in order |
| ProcessingJob.PaymentProcessingJob.ProcessWindow | src/Jobs/PaymentProcessingJob.cs:76-107 | every payment of the window is tried once, and only successes reach the persistence channel |
| ProcessingJob.PaymentProcessingJob.RunIteration | src/Jobs/PaymentProcessingJob.cs:49-112 | one outer turn reads at most one window, from a cleared buffer, and fans it out; the window followed by what is left in the input channel is what the channel held plus what was written during the turn, so requests beyond the cap stay queued and no request is put back |
| ProcessingJob.PaymentProcessingJob.ExecuteAsync | src/Jobs/PaymentProcessingJob.cs:35-114 | the windows are non-empty and within the cap, together they are exactly what was consumed, in order; the payments tried stand one for one for those requests, with the same ids and amounts; the persistence channel gains exactly the successes; and the windows followed by what is left in the input channel are what it held plus every arrival of the turns taken: a payment whose orchestration failed is dropped, not requeued, and requests beyond a full window wait for the next one |
| ProcessingJob.PaymentProcessingJob.Turn | src/Jobs/PaymentProcessingJob.cs:47-113 | one more outer turn extends the logs of the run so far and balances the input channel's account for its window |
| ProcessingJob.WrittenStep | src/Jobs/PaymentProcessingJob.cs:47-73 | the arrivals of one more turn are added after those of the earlier turns |
| ProcessingJob.AccountStep | src/Jobs/PaymentProcessingJob.cs:47-73 | if the windows read so far followed by the channel are what it held plus the earlier arrivals, the same holds after one more window |
| ProcessingJob.Extend | src/Jobs/PaymentProcessingJob.cs:47-107 | one more window keeps the run consistent: windows stay non-empty and within the cap, the requests read gain the window, the payments tried gain one per request with its id and amount, and the forwarded log gains exactly their successes |
| PersistingJob.StoredAllIffNoFailure | src/Jobs/PaymentPersistingJob.cs:70-76 | every row handed over is kept iff no insert failed, and no more rows are kept than were handed over |
| PersistingJob.PaymentPersistingJob.RunIteration | src/Jobs/PaymentPersistingJob.cs:44-77 | one outer turn reads at most one window and hands it to exactly one insert call; the window followed by what is left in the channel is what the channel held plus what was written during the turn |
| PersistingJob.PaymentPersistingJob.ExecuteAsync | src/Jobs/PaymentPersistingJob.cs:31-78 | one insert per window; every window is non-empty and within the cap, and the windows together are exactly what was read, in order; the rows handed to inserts followed by what is left in the channel are what it held plus every arrival: a window whose insert failed is dropped, not put back, and payments beyond a full window wait for the next one |
| PersistingJob.PaymentPersistingJob.Turn | src/Jobs/PaymentPersistingJob.cs:42-77 | one more outer turn extends the insert log and balances the channel's account for its window |
| PersistingJob.WrittenStep | src/Jobs/PaymentPersistingJob.cs:42-68 | the arrivals of one more turn are added after those of the earlier turns |
| PersistingJob.AccountStep | src/Jobs/PaymentPersistingJob.cs:42-68 | if the rows handed over so far followed by the channel are what it held plus the earlier arrivals, the same holds after one more window |
| PersistingJob.Extend | src/Jobs/PaymentPersistingJob.cs:42-77 | one more window adds exactly one insert call when it is non-empty, within the cap, and its rows come after those handed over before |

## Left out

- Concurrency: locks, `volatile`, `Interlocked`, `SemaphoreSlim`, timer callbacks, the `Task.WhenAny` race and `Parallel.ForEachAsync` are not modelled. Every component is single-threaded. The fan-outs in `ProcessPaymentBatch` and `ProcessWindow` run in input order, and the transient disagreement of `_count` with the concurrent queue is out of scope.
- Clocks, HTTP, JSON, `DateTimeOffset.TryParse`, `ToString` formatting and `Uri.EscapeDataString` are parameters. Times are integers in Unix milliseconds, parsed timestamps are `Option<int>`, and escaping is a function argument.
- `decimal` is modelled as an exact `real`: its 28-digit precision and its overflow are not modelled.
- The Postgres repository, the transport and startup code, the channel wrappers, the orchestrator and the processor services are not part of this model. The orchestrator is a success/failure/exception oracle, and the insert outcome is a boolean.
- `PaymentCommand.PurgeAllAsync`, `DatabaseClient.PurgeDatabaseAsync` and the `Dispose` methods only forward an HTTP call or free resources, so they are not modelled.
- Console and `ILogger` output is not modelled.
- Router.PaymentProcessorRouter.ProcessPaymentWithRetry: the source retries forever while calls keep failing. The model runs over a finite outcome sequence and returns `None` when the sequence holds no success. `None` stands for the run that never ends.
- Command.PaymentCommand.ProcessPaymentBatch: the router returns only on success, so a request whose outcomes hold no success is reported as `Stuck`, which stands for a call that never returns. The batch's persist call is followed by the batch timer firing at once, with the given send outcome. Interleaving with other callers of the client is not modelled.
- Command.PaymentCommand.ProcessPayments: a run left `Hung` keeps the mutex, as the never-ending router call would. A failed flush ends the run as `Failed` and releases the mutex. In the source that flush leaves the await at backend/Services/DatabaseClient.cs:171 pending for good, so `ProcessPaymentsAsync` never returns and the mutex stays held (see Findings).
- DbClient.DatabaseClient.FlushBatch: uses the corrected flush, which faults every drained caller on a failed send. In the source those callers stay pending for good, which leaves the caller hung with the mutex held (see Findings).
- DbClient.DatabaseClient.PersistPaymentsBatch: a failed size-triggered flush returns `Faulted`. In the source the await at backend/Services/DatabaseClient.cs:171 never completes, so the worker hangs with the mutex held (see Findings).
- Command.PaymentCommand.ProcessPaymentBatch: a failed flush gives `PersistFaulted`. In the source the persist call never returns, so the batch hangs and the worker keeps the mutex (see Findings).
- Store.MemoryStore.Add and DatabaseServer.DatabaseService.PersistPayments use the corrected `Pack`, so a negative amount is refused with `AmountNegative`. In the source database-server/MemoryStore.cs:28 lets it through and stores a corrupted word (see Findings).
- Windows.ReadWindow: the race steps are a finite trace. A trace that runs out while the window still waits closes it as `TraceEnded`, and a first read on an empty channel returns `NothingToRead` instead of blocking. Cancellation through `stoppingToken` is the end of the iteration sequence.
- ProcessingJob.PaymentProcessingJob.ExecuteAsync: an exception thrown by the window loop itself (other than by an orchestrator call) is not modelled. Each iteration still starts from an empty buffer, as after the catch. Writes to the unbounded persistence channel never fail.
- `DbClient.DatabaseClient.GetDatabaseSummaryAsync` is modelled as its query string (`SummaryQuery`) and its null-response default (`SummaryOrZero`). The HTTP exchange between them is left out.
- Queues.QueueService.DequeueMultiple: the model's queue holds no nulls, so the `item != null` test at backend/Services/QueueService.cs:51 never ends the loop early and is not modelled.
- `Payment.CorrelationId` is a `Guid` in the job variant. It is modelled as a string.

## Findings

| source | as written | input that shows it | evidently intended | confidence | as-written member | corrected member |
|---|---|---|---|---|---|---|
| database-server/MemoryStore.cs:28 | only `cents > 0xffff` is checked, so negative cents are or-ed in with their sign bits set, over the timestamp field | amount -0.01 at the creation instant is stored as -1 and read back as 655.35 at 65535 ms | a negative amount is refused like one above the mask | high (not executed) | Store.NegativeAmountIsCorrupted | Store.Pack |
| backend/Services/DatabaseClient.cs:134-141 | on a failed send the catch block faults only items still in the queue, which the drain has already emptied | one queued request whose flush fails: its task stays pending, so `PersistPaymentsBatchAsync` never returns | every drained caller's task is faulted with the error | high (not executed) | DbClient.FailedFlushLeavesCallersPending | DbClient.SettleSettlesEveryCaller |
