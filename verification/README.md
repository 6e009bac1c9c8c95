# ChromaFlow job system: a verified model

ChromaFlow takes URLs over HTTP, renders each to a PDF and keeps the result for download. A submitter
reserves an idempotency key, writes a Pending record and enqueues a job. Workers take jobs, render them,
store the document and finish the record, while cancel requests race with both. Queue and records live
either in memory or in Redis. This project models those parts in Dafny and proves what they keep over
every interleaving, every run and every input.

Check it with `dafny verify dfyconfig.toml`.

## How the project is laid out

Time is in nanoseconds (`Jobs.Time`, zero meaning "not set"); Unix seconds truncate. Strings of the wire
protocols hold one character per byte.

- **The life cycle on the in-memory back ends.** `Lifecycle` is a machine with any number of submitters,
  cancelers and workers, whose steps are single storage, queue, blob and registry calls; `Cancel` is a read
  step and a write step. A blocking hand-over to a waiting worker, shutdown, and a queue that delivers a
  message again are steps too. `LifecycleBase`, `LifecycleOnce`, `LifecycleEffects`, `LifecycleCancel`,
  `LifecycleSerial`, `LifecycleDuplicate` and `LifecycleRecords` hold its inductive invariants and theorems. `MemoryBackends`, `Handler` and `WorkerPool`
  are the imperative code, each method proved to be a run of that machine, so the theorems apply to it.
- **One store, two implementations.** `StoreModel` says what a store is and what each operation does to it.
  `MemoryStorage` keeps a results map, an idempotency map and an order list in step; `RedisStorage` keeps
  the same store in hashes, a list and string keys of `RedisKeyspace`. `StoreRefinement` runs both side by
  side.
- **The Redis queue.** `LeaseQueue` is the queue with operations run one at a time, with accounting and
  order over any history. `RedisSystem` is the same protocol with one step for each Redis command, clock
  reading, storage call or failure and any number of workers. `RedisDelivery`, `RedisLeases`,
  `RedisProgress` and `RedisCopies` prove what it keeps under which promises about a run, `RedisFailures` gives
  runs that break each promise, and `RedisExact` joins the two into exact conditions.
- **Wire formats.** `Resp` and `RespClient` are the Redis protocol codec and the client's connection;
  `WebSocket` is the hub's text framing.
- **Metrics.** `Metrics` holds the cumulative histograms and the order labels are written in.

## Where the code falls short of a stronger claim

Each of these is a theorem, most with an exact condition and a concrete run, not an assumption.

- A canceled accepted job stays canceled, redeliveries included, exactly when no worker on it is between a
  not-canceled read and the write that follows (`LifecycleCancel.CanceledStaysIff`; `CancelCanBeLost` is the
  run). With single delivery a finished job stays finished exactly when no cancel request that read it
  earlier has its write outstanding (`FinishedStaysIff`, `CompletedCanBeCanceled`), and a rolled-back
  submission leaves no record under the same condition (`DeletedStaysIff`, `DeletedCanReturn`).
- A duplicate reply can name a submission that a full queue turns away later, exactly when that one is not
  accepted yet (`LifecycleDuplicate.DuplicateIsSafeIff`).
- The two `List` implementations agree exactly when at most 200 jobs are stored and no two share a creation
  instant; the two `Stats` agree exactly when at most 200 jobs are stored and none has inline bytes
  (`StoreRefinement.ListingsAgreeIff`, `StatsAgreeIff`). Ties are listed in opposite orders. `Cancel` on Redis
  returns the record with its previous update instant (`CancelRepliesAgreeIff`).
- The Redis queue can list a message twice, exactly because reclaimers ignore how many members their removal
  removed and because a lease may be recorded by a command reported as failed (`RedisCopies.OneCopyIff`). It
  loses a message when a worker fails while it carries the only copy (`RedisFailures.CrashInHandOver`).
- An accepted job can be left Pending or Processing for good when that happens, when the final write fails
  (`FailedSave`), when a worker's lease runs out before it marks the job Processing (`SlowWorker`), or when two
  copies of one message are leased at the same nanosecond and so share one lease (`SameStamp`); and in no other
  way, so a lease that runs out during a render is harmless to this (`RedisExact.NeverStuckIff`).
- The documentation asks for a visibility timeout above the page timeout plus the retry budget
  (README.md:227). Scores and clock readings are cut to whole seconds, so the exact bound adds the time of a
  delivery's other calls and one more second (`RedisExact.LiveLeasesLeftAloneIff`).
- A late acknowledgement is not always harmless: two deliveries under one stamp make it remove a lease that was
  reclaimed and recorded again (`RedisExact.StaleAcksHarmlessIff`, `StaleAckRemovesLease`).

## Model

| member | source | states |
|---|---|---|
| StoreModel.OperationsKeepConsistent | internal/storage/memory.go:31-133 | After any sequence of Set, Delete, Cancel and Reserve the order list is duplicate-free, its elements are exactly the stored identifiers, and every record has a creation instant |
| StoreModel.OperationsKeepDate | internal/storage/memory.go:39-46 | Through every sequence of operations that does not delete a job or give it another creation instant, it keeps the one it has |
| StoreModel.RollbackIsExact | internal/api/handler.go:102-149 | Reserving a free key, writing the record and deleting it again leaves records, order and keys exactly as they were, from any consistent store |
| StoreModel.BareCommutes | internal/storage/redis.go:62-73 | Dropping inline bytes before an operation or after it gives the same store |
| StoreModel.CancelIsExact | internal/storage/memory.go:106-120 | A cancellation changes status, error and update instant of an unfinished job, and otherwise nothing |
| StoreModel.ListingIsSorted | internal/storage/memory.go:150-162 | The listing is a permutation of the stored records, newest first, and keeps insertion order among equal instants |
| StoreModel.ListedEachOnce | internal/storage/memory.go:150-163 | A listing of distinct jobs shows each exactly once, field by field as its record has it, newest first |
| StoreModel.ListingAgreesWithStats | internal/storage/memory.go:135-162 | Listing length equals the total, the per-status counts add up to it, and the oldest instant is that of the listing's last element |
| StoreModel.OldestIsListedLast | internal/storage/memory.go:143-161 | The minimum creation instant is the one the listing ends with |
| StoreModel.TalliesPermuted | internal/storage/memory.go:140-146 | Statistics do not depend on the order records are visited in |
| StoreModel.TalliesMean | internal/storage/memory.go:139-146 | A tally of distinct jobs has for each status the number of jobs with it, and the instant of an oldest one |
| StoreModel.BytesOfOneMore | internal/storage/memory.go:142 | One more job adds its document size and its inline bytes to the bytes counted |
| StoreModel.TallyExtends | internal/storage/memory.go:140-146 | One turn of the counting loop extends the counts, byte sum and minimum by exactly one record |
| Sorting.NewestFirstSorts | internal/storage/memory.go:161 | The stable sort is a descending permutation that keeps the order within each instant |
| Sorting.DescendingUnique | internal/storage/memory.go:161 | Two newest-first orderings of the same snapshots are equal when instants are pairwise distinct |
| MemoryStorage.MemoryStorage.Set | internal/storage/memory.go:31-67 | Field by field: a stored job keeps its creation instant unless one is given, a new one gets now; empty key, callback and request identifier are inherited; update instant is now; everything else is as given; order grows only for a new identifier, and no other record changes |
| MemoryStorage.MemoryStorage.Delete | internal/storage/memory.go:69-93 | The record, its own key and its one place in the order go; everything else stays, in order |
| MemoryStorage.MemoryStorage.Cancel | internal/storage/memory.go:106-120 | An unfinished record becomes Canceled with error "job canceled" and a new update instant and nothing else changes; a finished or missing one is untouched; the record as stored is returned |
| MemoryStorage.MemoryStorage.ReserveIdempotencyKey | internal/storage/memory.go:122-133 | A free key is given to the job, a held one names its holder, an empty key reserves nothing |
| MemoryStorage.MemoryStorage.Stats | internal/storage/memory.go:135-148 | However the records are visited: their number, for each status how many have it, the bytes of all documents, and the earliest creation instant |
| MemoryStorage.MemoryStorage.List | internal/storage/memory.go:150-163 | Every stored job exactly once, its URL, status, error and instants as its record has them, newest first, ties in insertion order |
| Decimal.ParseReadsItoa | internal/redisx/client.go:146-148 | Reading the decimal text of a 64-bit integer gives it back |
| Decimal.WrittenAndRead | internal/redisx/client.go:146-148 | Most significant digit first, no leading zero, an optional plus sign is read |
| RedisStorage.UseIsRecovered | internal/storage/redis.go:185-187 | The key builders are injective, mutually disjoint and disjoint from the queue's keys: a key tells what it is for |
| RedisStorage.LayoutIsSound | internal/storage/redis.go:62-112 | For every prefix, keys and uses determine each other and the record encoding has its inverse |
| RedisStorage.RecordRoundTrip | internal/storage/redis.go:62-112 | Decoding the stored fields gives the record back, but for a document kept inline |
| RedisStorage.StoredFields | internal/storage/redis.go:62-77 | A stored record is the hash at prefix:job:id with exactly ten named fields, each holding the text of its part of the record |
| RedisStorage.RepresentsOneStore | internal/storage/redis.go:34-187 | A keyspace represents at most one store |
| RedisStorage.RedisStorage.Set | internal/storage/redis.go:34-81 | Takes a representation of a store to one of the store the in-memory Set gives for the result without its inline bytes; the same is said field by field, the kept creation instant included |
| RedisStorage.RedisStorage.Delete | internal/storage/redis.go:83-94 | Same store as the in-memory Delete |
| RedisStorage.RedisStorage.Get | internal/storage/redis.go:96-113 | Decodes the record the represented store holds, or reports that there is none |
| RedisStorage.RedisStorage.Cancel | internal/storage/redis.go:115-126 | Same store as the in-memory Cancel; returns the record as read, an unfinished one as Canceled with error "job canceled" and its earlier update instant |
| RedisStorage.RedisStorage.ReserveIdempotencyKey | internal/storage/redis.go:128-144 | Same outcome and store as the in-memory reservation |
| RedisStorage.RedisStorage.List | internal/storage/redis.go:161-183 | Exactly the last 200 jobs in insertion order, each once, URL, status, error and instants as its record has them, newest instant first, later insertion first among ties |
| RedisStorage.RedisStorage.Stats | internal/storage/redis.go:146-159 | Counts exactly the listed jobs, at most 200, per status |
| StoreRefinement.RunBoth | internal/storage/redis.go:34-144 | Any sequence of operations with the same clock readings keeps both back ends on one store, but for the bytes of inline documents, which only memory keeps |
| StoreRefinement.Both | internal/storage/redis.go:34-144 | One operation on both back ends keeps that, and returns the same answer from both unless it is a cancel request |
| StoreRefinement.CancelRepliesAgreeIff | internal/storage/redis.go:115-126 | The two cancel replies are equal if and only if the job is missing, finished, or was last updated at that very instant |
| StoreRefinement.ListingsAgreeIff | internal/storage/redis.go:161-183 | The two listings are equal if and only if at most 200 jobs are stored and no two share an instant |
| StoreRefinement.StatsAgreeIff | internal/storage/redis.go:146-159 | The two statistics are equal if and only if at most 200 jobs are stored and none has inline bytes |
| StoreRefinement.ListingsDifferOnTie | internal/storage/redis.go:60-182 | Two jobs sharing an instant are listed in opposite orders |
| LifecycleBase.OneAcceptedJobPerKey | internal/api/handler.go:102-150 | In every reachable state two accepted jobs with one non-empty key are the same job |
| LifecycleBase.AcceptedJobOwnsItsKey | internal/api/handler.go:102-150 | Once accepted, a job holds its key in every later state |
| LifecycleBase.RollbackReleasesOwnKey | internal/api/handler.go:138-149 | A rollback frees no key that another submission holds |
| LifecycleDuplicate.DuplicateIsSafeIff | internal/api/handler.go:102-149 | A duplicate reply names a submission with the same key, which is never rejected later if and only if it is accepted already |
| LifecycleBase.ReachableIsBase | internal/worker/worker.go:107-182 | The ownership of keys, records, queue entries and documents holds in every reachable state, redeliveries included |
| LifecycleBase.CompletedIsDownloadable | internal/worker/worker.go:161-176 | In every reachable state, redeliveries included, a Completed record's document is in the blob store |
| LifecycleRecords.RecordDescribesJob | internal/worker/worker.go:119-175 | In every reachable state, redeliveries included, an accepted job's record has the job's URL, idempotency key, callback and request identifier |
| LifecycleRecords.RecordFollowsStatus | internal/worker/worker.go:119-175 | In every reachable state document key, size and error are those the status calls for: pdf/id.pdf only when Completed, "job canceled" when Canceled |
| LifecycleRecords.WebhookDescribesJob | internal/worker/worker.go:206-217 | In every reachable state each webhook went to the callback its job was submitted with, with the job's URL and request identifier |
| LifecycleRecords.CreatedOnce | internal/storage/memory.go:39-46 | A record's creation instant is the same in every later state of every run that has a record of the job |
| LifecycleOnce.AcceptedJobIsInOnePlace | internal/worker/worker.go:89-182 | An accepted job is queued once, held by one worker, or finished with a terminal status, and never two of these |
| LifecycleOnce.NoRecordIsStuck | internal/worker/worker.go:89-182 | A Pending or Processing record always has a submitter in progress, a queue entry or a worker |
| LifecycleOnce.ReachableIsOnce | internal/worker/worker.go:89-182 | The placement invariant behind both holds in every state reachable with single delivery |
| LifecycleEffects.CompletedHasRecordedSize | internal/worker/worker.go:161-176 | A Completed record's document has exactly the recorded number of bytes |
| LifecycleEffects.CancelReachesTheRenderer | internal/cancellation/registry.go:17-38 | A cancel signal cancels the context of the one worker rendering that job |
| LifecycleEffects.OneWebhookPerJob | internal/worker/worker.go:206-221 | Over all interleavings no job is announced twice, and only as Completed or Failed |
| LifecycleCancel.CanceledStaysIff | internal/worker/worker.go:113-176 | A canceled accepted job is Canceled in every later state if and only if no write of a worker on it is pending |
| LifecycleCancel.FinishedStaysIff | internal/storage/memory.go:106-120 | A finished job keeps its status in every later state if and only if no cancel write that read it earlier is pending |
| LifecycleCancel.DeletedStaysIff | internal/storage/memory.go:69-120 | A rolled-back record stays absent if and only if no cancel write that read it earlier is pending |
| LifecycleCancel.CancelCanBeLost | internal/worker/worker.go:113-119 | A run in which a cancel between check and write is overwritten |
| LifecycleCancel.CompletedCanBeCanceled | internal/storage/memory.go:107-116 | A run in which a straddling cancel overwrites Completed |
| LifecycleCancel.DeletedCanReturn | internal/storage/memory.go:107-116 | A run in which a straddling cancel brings a deleted record back |
| LifecycleSerial.LifecycleGraph | internal/worker/worker.go:107-182 | Without interleaved writes to one job, accepted jobs move only along Pending, Processing, Completed or Failed, and to Canceled from the first two; terminal statuses absorb |
| LifecycleSerial.WebhookTellsTheFinalStatus | internal/worker/worker.go:145-180 | In such runs every webhook is sent once and its status, URL, error, document key, size and request identifier are those its job's record still holds |
| MemoryBackends.MemoryQueue.Pop | internal/queue/memory.go:22-29 | Takes the oldest job, or reports a done context and takes nothing |
| Handler.Handler.SubmitJob | internal/api/handler.go:64-163 | A run of the machine. Refused with the code of the first failing check, exactly when one fails; accepted means that the queued job and its Pending record carry the request's URL, key and request identifier, its callback or else the default one, the fresh identifier and the given creation instant, and that the job holds its key; a duplicate names the key's holder; a full queue or any refusal leaves store and queue as they were |
| Handler.Handler.Commit | internal/api/handler.go:117-158 | After a reservation, accepted exactly when the queue has room, rolled back exactly otherwise |
| Handler.Handler.CancelJob | internal/api/handler.go:208-223 | A run of the machine that cancels the record if unfinished, error "job canceled", interrupts the registered worker, and returns the record as stored |
| WorkerPool.Pool.GenerateWithRetries | internal/worker/worker.go:184-204 | A run of the machine. From the attempts alone: undisturbed, the first document any attempt renders or else the last attempt's error; a failure only if the context was done or all attempts failed; the exact time of attempts and back-offs, within attempts * page timeout + (attempts - 1) * back-off |
| WorkerPool.Pool.ProcessJob | internal/worker/worker.go:107-182 | A run of the machine whose result follows from the attempts and the upload: Canceled and unannounced exactly when a cancel request came in time, else Completed with document, key and size, or Failed with the right error text; told at most once, field by field; in any reachable state URL, key, callback and request identifier of record and webhook are the job's |
| WorkerPool.Pool.Serve | internal/worker/worker.go:82-105 | One turn of the loop takes the oldest queue entry and leaves it finished, even during shutdown, or stops when the context is done and nothing was received |
| WorkerPool.Pool.StoreOutcome | internal/worker/worker.go:126-180 | A canceled record is left alone and not announced; otherwise the stored status, error, document key and size, the job's own fields, the stored document and the announcement follow from the outcome, field by field |
| WorkerPool.Pool.Announce | internal/worker/worker.go:206-221 | One event with the record's fields if a callback and a notifier exist and the status is Completed or Failed, none otherwise |
| WorkerPool.FinishRun | internal/worker/worker.go:126-180 | Finishing undisturbed is a run of the machine to exactly the described state |
| WorkerPool.ProcessedAsSubmitted | internal/worker/worker.go:107-182 | After processing in any reachable state, record and webhook carry the URL, key, callback and request identifier the job was submitted with |
| LeaseQueue.RedisQueue.Push | internal/queue/redis.go:37-57 | Refuses exactly when a positive capacity is reached, otherwise the job goes to the head of the list, unleased, named if it was nameless and otherwise unchanged; the capacity is never exceeded |
| LeaseQueue.RedisQueue.Pop | internal/queue/redis.go:59-102 | Reclaims only expired leases, then takes the tail of the list: leased, put back if leasing fails, or dropped if it does not decode; the message count is kept |
| LeaseQueue.RedisQueue.LeaseNext | internal/queue/redis.go:80-100 | The delivered job carries the leased text as identifier and the lease end now + timeout |
| LeaseQueue.RedisQueue.RequeueExpired | internal/queue/redis.go:126-154 | Puts back at most 25 expired leases, and leaves none expired if fewer than 25 were found |
| LeaseQueue.RedisQueue.ZRangeByScore | internal/queue/redis.go:127 | The batch holds due members with the lowest scores, all of them if fewer than 25 |
| LeaseQueue.RedisQueue.Ack | internal/queue/redis.go:104-110 | Removes exactly the lease whose text the job bears, and nothing if that lease is gone |
| LeaseQueue.NothingIsLost | internal/queue/redis.go:37-154 | Per message, pushed equals listed plus leased plus acknowledged plus dropped, and so do the counts |
| LeaseQueue.DeliveredInPushOrder | internal/queue/redis.go:37-154 | Messages never put back are delivered in push order, and all of them once the list is empty |
| LeaseQueue.PushKeepsSound | internal/queue/redis.go:47-56 | Pushing keeps accounting, order and single outstanding names |
| LeaseQueue.RequeueAllKeepsSound | internal/queue/redis.go:131-153 | Requeuing any batch keeps all three, the message count but for undecodable members, and every lease outside the batch |
| LeaseQueue.LeaseKeepsSound | internal/queue/redis.go:80-100 | Leasing keeps all three and overwrites no other lease |
| LeaseQueue.PutBackKeepsSound | internal/queue/redis.go:94-98 | Putting a payload back after a failed lease keeps all three |
| LeaseQueue.AckKeepsSound | internal/queue/redis.go:104-110 | Acknowledging keeps all three and removes one lease |
| LeaseQueue.DeliveryNamesItsLease | internal/queue/redis.go:88-100 | The delivered identifier names the new lease, and removing it restores the leases as they were |
| LeaseQueue.NextIsTaken | internal/queue/redis.go:69-100 | The tail is delivered with its own fields and the lease end, and leased under a name scored by the whole second of that end; or put back at the head; or dropped |
| LeaseQueue.RequeuedArePutBack | internal/queue/redis.go:132-152 | Reclaiming puts exactly the batch's jobs, without their leases, in front of the list as it was |
| RedisDelivery.AtLeastOnce | internal/queue/redis.go:59-154 | With many workers and no failure inside a hand-over, every message pushed and not acknowledged has a copy listed, leased or carried |
| RedisDelivery.NoCopyVanishes | internal/queue/redis.go:59-154 | In every run at all, a message without a copy was acknowledged or lost a copy to a failure inside a hand-over |
| RedisDelivery.StepMovesCopy | internal/queue/redis.go:59-154 | Each single command moves a copy to a known place, settles its message, or loses it in a failure |
| RedisLeases.LiveLeaseIsNotReclaimed | internal/queue/redis.go:88-94 | With timeout at least the render budget plus other calls plus a second, no lease is reclaimed, or picked to be, before its worker's acknowledgement |
| RedisLeases.LiveWorkerKeepsLease | internal/queue/redis.go:88-110 | Under the same bound its lease is in the processing set all that time |
| RedisLeases.CyclesFit | internal/worker/worker.go:184-204 | Any number of attempts and back-offs the retry loop allows fits its budget |
| RedisLeases.OnTimeIsNotDue | internal/queue/redis.go:94-127 | A delivery within its bounds has a lease ending a full second or more from now, which is not due |
| RedisLeases.DueExactly | internal/queue/redis.go:94-127 | A lease is due at every instant from its end on, never a full second or more before, and exactly below the next whole second |
| RedisLeases.LaterStampsEndLater | internal/queue/redis.go:88-144 | In every run, a lease stamped after a reclaim ends strictly later than the reclaimed one |
| RedisProgress.NoStuckJob | internal/worker/worker.go:89-182 | Under four promises and a timeout of at least the other calls plus a second, an accepted job that is Pending or Processing has a copy that is listed, carried, or leased by nobody about to acknowledge it |
| RedisProgress.ForgottenForGood | internal/worker/worker.go:89-182 | A job with no message anywhere and no worker on it keeps its status in every run without a cancel request for it, and never becomes recoverable |
| RedisProgress.StepMovesSafe | internal/queue/redis.go:59-154 | While the job is unfinished each step keeps such a copy or moves it to another such place |
| RedisProgress.StartIsSafe | internal/worker/worker.go:113-119 | A delivery that marks its job Processing still holds its lease and will not acknowledge it yet |
| RedisFailures.CrashInHandOver | internal/queue/redis.go:69-94 | A run in which a crash between BRPOP and ZADD loses the message of a Pending job for good |
| RedisFailures.FailedSave | internal/worker/worker.go:176 | A run in which a failed final write leaves an acknowledged job Processing for good |
| RedisFailures.SlowWorker | internal/worker/worker.go:113-119 | For every timeout short of that, and for workers that keep no bounds, a run in which a worker marks a completed job Processing after its lease and crashes, for good |
| RedisFailures.SameStamp | internal/queue/redis.go:88-110 | A run in which duplicated copies leased at one instant share a lease and the job is stranded for good |
| RedisFailures.ReclaimedTwice | internal/queue/redis.go:126-152 | A run in which two reclaimers of one lease list its message twice |
| RedisFailures.ListedAgain | internal/queue/redis.go:94-98 | A run in which a recorded lease reported as failed makes its message listed twice |
| RedisCopies.OneCopyIff | internal/queue/redis.go:59-154 | No message ever has two copies if and only if no two workers have one lease in their batches and no recorded lease is reported as failed |
| RedisCopies.FreshStampsForFree | internal/queue/redis.go:88-94 | Under these two promises no two deliveries of a message ever share a stamp |
| RedisExact.LiveLeasesLeftAloneIff | internal/queue/redis.go:88-154 | No live worker's lease is ever reclaimed or picked to be if and only if workers keep to their bounds and the timeout is at least render budget plus other calls plus one second |
| RedisExact.ShortTimeoutIsTooShort | internal/queue/redis.go:88-127 | For every shorter timeout, a run that keeps every promise and in which another worker picks a live worker's lease |
| RedisExact.LeasesHeldIff | internal/queue/redis.go:88-110 | A delivery under way always has its lease in the processing set if and only if, besides, no two deliveries share a stamp |
| RedisExact.StaleAcksHarmlessIff | internal/queue/redis.go:104-110 | Acknowledging a reclaimed lease never removes a lease or settles a message if and only if no two deliveries share a stamp, or workers keep to their bounds and the timeout is at least the other calls plus one second |
| RedisExact.StaleAckRemovesLease | internal/queue/redis.go:88-110 | Otherwise, a run in which a reclaimed lease is recorded again and a late acknowledgement removes it |
| RedisExact.NeverStuckIff | internal/worker/worker.go:89-182 | Whatever the render limits, no accepted job is ever stuck if and only if hand-overs succeed, final writes are saved, no two deliveries share a stamp, workers keep to their bounds and the timeout is at least the other calls plus one second |
| Resp.WriteCommand | internal/redisx/client.go:127-137 | Writes the array of bulk strings for the arguments |
| Resp.Reader.ReadRESP | internal/redisx/client.go:139-189 | Terminates on every finite input and computes the reading function, leaving exactly its rest unread |
| Resp.Reader.ReadArray | internal/redisx/client.go:165-183 | Fills the array reply by reply, stopping at the first error, whatever length was declared |
| Resp.Reader.ReadLine | internal/redisx/client.go:144-148 | Takes the text up to the first line feed, or everything when there is none |
| Resp.RoundTrip | internal/redisx/client.go:139-189 | Every well-formed reply tree without errors reads back as its meaning and leaves exactly the suffix; with errors, reading fails with the first one |
| Resp.CommandRoundTrip | internal/redisx/client.go:127-137 | A written command, CR and LF included, reads back as exactly its arguments and leaves exactly the suffix |
| Resp.ReadExtends | internal/redisx/client.go:139-189 | A reply once complete is read the same way whatever follows it |
| Resp.TruncatedReplyFails | internal/redisx/client.go:139-189 | No proper prefix of a reply reads as a value |
| Resp.NestedErrorLeavesInput | internal/redisx/client.go:176-180 | After an error inside an array its remaining elements are still unread |
| Resp.LineForms | internal/redisx/client.go:150-158 | A plus and a line read as that text, a minus and a line as that error |
| Resp.CountedForms | internal/redisx/client.go:155-164 | A colon and a number read as it; a dollar sign, a length and so many bytes read as those bytes |
| Resp.CommandForm | internal/redisx/client.go:127-137 | The bytes of a command of two arguments, whatever they hold |
| RespClient.Client.Do | internal/redisx/client.go:54-69 | A value returned is the meaning of the server's reply to this very command; on any failure the connection is closed; an open one holds no unread bytes |
| RespClient.Client.Ask | internal/redisx/client.go:59-68 | One write and one read: the reaction to the server's answer, closed on every failure |
| RespClient.Client.EnsureConn | internal/redisx/client.go:77-112 | Opens with exactly the configured setup commands, AUTH before SELECT, or fails with no connection left |
| RespClient.RunAll | internal/redisx/client.go:54-69 | Over any run of calls with reconnects and errors, each value is the reply to its own command, in order |
| RespClient.ReactionReads | internal/redisx/client.go:64-68 | From an empty buffer, a whole reply is used up and answered as meant, a truncated one fails |
| RespClient.DecodedCommand | internal/redisx/client.go:127-137 | A server decodes from the written bytes exactly the arguments |
| WebSocket.WriteTextFrame | internal/realtime/hub.go:158-180 | Appends the text frame for the payload, its length filled in place in network order |
| WebSocket.WriteAll | internal/realtime/hub.go:158-180 | What a client has received after any broadcasts decodes to exactly those payloads |
| WebSocket.FrameRoundTrip | internal/realtime/hub.go:158-180 | A frame decodes, by section 5.2 of RFC 6455, to its payload and exactly what follows |
| WebSocket.FrameBytes | internal/realtime/hub.go:158-180 | First byte 129, then the length in one byte, in 126 and two, or in 127 and eight, most significant first, then the payload |
| WebSocket.DecodedIsFrame | internal/realtime/hub.go:162-171 | Whatever that decoder accepts is the frame written here: the shortest length form is the only one |
| WebSocket.FramesRoundTrip | internal/realtime/hub.go:158-180 | Any sequence of payloads is recovered from its frames |
| WebSocket.BigEndianWritesValue | internal/realtime/hub.go:164-171 | Network order writing and reading are inverse, and a width bounds its value |
| WebSocket.PutBigEndian | internal/realtime/hub.go:166-171 | Fills the header after its first two bytes, leaving those |
| Metrics.Registry.RenderFinished | internal/observability/metrics.go:105-123 | Every counter and histogram again describes exactly the renders recorded, this one included; its status counts one more and its bytes are added |
| Metrics.Registry.RecordHTTP | internal/observability/metrics.go:125-140 | Likewise for requests, per method, path and code |
| Metrics.CountIn | internal/observability/metrics.go:115-119 | After one observation each bucket counts the observations at or below its bound |
| Metrics.Observe | internal/observability/metrics.go:108-119 | Count, sum and buckets of the label observed change by that observation, those of all others stay |
| Metrics.BucketsAreCumulative | internal/observability/metrics.go:115-119 | Under every label buckets are non-decreasing and at most the count |
| Metrics.AtMostIsSize | internal/observability/metrics.go:115-119 | What a bucket counts is the number of observations at or below its bound |
| Metrics.RenderHistogram | internal/observability/metrics.go:193-201 | What a scrape shows of a status: each bucket is the number of durations at or below its bound, buckets do not decrease, and count and finished counter agree |
| Metrics.SortedHTTPKeys | internal/observability/metrics.go:356-371 | Every label of the map once, by method, then path, then code, each compared byte by byte |
| Metrics.OrderIsUnique | internal/observability/metrics.go:361-369 | There is only one such order, so the output does not depend on how the map is walked |
| Metrics.BeforeIsOrder | internal/observability/metrics.go:361-369 | The comparison is a strict total order on labels |
| Metrics.LessExactly | internal/observability/metrics.go:361-369 | A string is less than another exactly when it is a proper prefix or has the smaller byte where they part |

## Left out

- HTTP decoding, JSON responses, the dashboard, OpenAPI text, logging, configuration, deployment files and the load tester.
- Chromium, S3, TLS and the webhook call itself: a render is any outcome within the page timeout, a back-off without interruption takes exactly its delay, an upload may fail with any error, a webhook is the event issued.
- URL validation, JSON and RFC 3339 text, UUID generation: an arbitrary predicate, encodings with an inverse (decimal nanoseconds for instants), and identifiers not used before. Trimmed text is assumed where the original trims it, the default webhook URL included.
- Sharing of stored records: records are values, so a caller that goes on changing a record it has given to the in-memory `Set` is not modelled.
- RedisStorage.RedisStorage.Set: assumes that commands succeed; connection errors inside storage operations are covered only by the failed reads and writes of `RedisSystem`.
- Handler.Handler.SubmitJob: a `Set` that fails after the reservation, which leaves the key reserved, cannot happen on the in-memory store and is not modelled.
- The cancellation registry: looking a function up and calling it are one step, and the function names the worker whose context it cancels.
- WorkerPool.Pool.Serve: a Pop that fails while the context is live cannot happen on the in-memory queue; in `RedisSystem` such a worker starts over.
- LeaseQueue.RedisQueue.Pop: of its commands only ZADD can fail here, because accounting without losses is the claim; every command can fail in `RedisSystem`, where the losses are accounted for.
- LeaseQueue.RedisQueue.Push: the two length queries and the push run undisturbed; with other clients in between the capacity is soft, as the documentation says.
- RedisSystem makes no claim about the order of deliveries, which `LeaseQueue` does; it carries only messages that decode; undecodable payloads are in `LeaseQueue`. All workers read one shared clock that does not go back.
- RedisProgress.NoStuckJob: one direction only; `RedisExact.NeverStuckIff` is exact.
- RedisLeases.LiveWorkerKeepsLease: one direction only; `RedisExact.LeasesHeldIff` is exact.
- RedisExact.StaleAcksHarmlessIff: like `LeasesHeldIff` and `NeverStuckIff` for timeouts of at least one second and at least one attempt, which the configuration ensures.
- Resp.Reader.ReadRESP: a declared bulk length too large to allocate, or so close to the largest 64-bit integer that adding two wraps, panics in the original and is read as end of input here.
- Resp.Reader.ReadArray: a declared array length too large to allocate panics in the original and is read element by element here.
- Status texts other than the five known ones in a stored hash.
- Wrap-around of 64-bit counters and rounding of floating-point sums in the metrics; the library sort behind the label order.
- Client registration, dropped broadcasts and the upgrade handshake of the realtime hub; data the client sends is discarded by the original and not modelled.
