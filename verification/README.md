# Walkrie: a verified model of the delivery pipeline

Walkrie streams changes out of PostgreSQL, embeds the text they carry and writes the vectors to one or more sinks. This project models the parts of it that hold its guarantees, and proves them with Dafny 4.11. `dafny verify dfyconfig.toml` checks everything.

The model has the form of the code. The lock-free queue and its semaphore are step machines, one step per atomic load or store. Dispatcher, sink, staging store, worker, cache, decoder and llama packing are methods with their loops, proved against specification functions; what the system promises is proved about those functions, and about every run of the machines.

## What is proved

**The queue** (`SpscQueue`, `SpscQueueProof`, `SpscQueueTheorems`, `SpscQueueZero`, `Bits`, `BlockSizes`, `BlockingQueue`). Memory is sequentially consistent. The invariant says that the blocks form one ring, that blocks between front and tail are full and the others empty, and that each thread's stale copy of the other's index is safe. From it, for every interleaving: the consumer gets a prefix of what was enqueued, no assertion in the source fails, a call adds or takes exactly its own element, a refused dequeue saw an empty queue, a refused enqueue saw `size` elements outstanding, and an enqueue that may allocate is refused only if it does not get the memory. Both calls are wait-free. Every block of every run has a power of two for its size, so the masked 64-bit index is the model's. A queue built for no elements gets a first block of one slot, which has none to use but is reused all the same; `SafeIff` shows a run that then fails an assertion, and that every other size is safe. The blocking queue composes this machine with the semaphore: a wait that timed out consumed no permit, one that succeeded always finds an element, no wake-up is lost, and a call comes back empty only when every signal has been claimed, so one that begins with an unclaimed signal does not.

**Delivery** (`Retry`, `Delivery`, `DeliveryLog`, `Dispatcher`, `ReplicationSource`, `Confirmation`). Whatever arrives when and whichever sinks fail, a confirmed LSN covers only transactions whose events are all absorbed by the backfill store or accepted by every required sink, at every moment and across any number of crashes and restarts. This needs the fatal callback: without it a failed batch is skipped and what follows is confirmed. `FatalCallbackIsNeeded` gives the exact condition. Conversely nothing is held back: the log of every life is a sequence of rounds over the jobs in order, and each round without a failed required sink ends with the confirmation of its batch (`LifeTold`). A required sink fails exactly when its attempts fail past the ceiling (`FailsIff`). The events are those of the frames the server sends, decoded, stamped with their frame's LSN and absorbed or posted in order (`FramesAreStream`). The jobs come out of the queue in the order they were posted, which is `Fifo`. The server is taken to send whole transactions in commit order, with change LSNs below their commit's.

**Sinks** (`Events`, `Sink`, `SinkView`, `Keys`). The two-pass batch equals one event at a time, however the stream is cut, and any number of redeliveries from earlier points, complete or not, changes nothing. The sink then is a view of the source tables, under either replica identity, with unchanged and unsent (TOAST) values skipped. One update breaks it: a row that was shown and whose id changes or whose text becomes empty leaves its old entry behind. `ChangeKeepsMirror` is that if-and-only-if. The vector stores hold the rows PostgreSQL holds exactly when no discriminator label begins with another one and a colon, and labels are used by all mappings or by none.

**Backfill** (`Backfill`, `BackfillDump`, `BackfillWorker`, `BackfillRun`, `BackfillConvergence`, `BackfillFailures`, `BackfillCalm`, `BackfillRecovery`, `BackfillRefinement`, `BackfillSimulation`). An interrupted dump is finished by a later start exactly when the first start of the slot reached the database (`DumpResumesIff`): otherwise no mark was left, and no later start dumps. Rows leave the staging store only when delivered everywhere, deleted at the source or discarded with an old slot, and no two workers hold the same row. That every sink ends up with exactly the source table is not true of every run; what decides it is stated step by step. Three kinds of steps can spoil it, each exactly when its condition fails (`StepExact`): giving a sink a row that was deleted after its claim (`GiveExact`), marking a row done whose staged text is not what the sink's last queued change, or else the sink, has (`MarkDoneExact`), and making a new slot while a sink holds a row that is gone for good. `BackfillFailures` has a run for each: an update merged into a claimed row is lost, a queued insert overwrites a newer text, a deleted row comes back, a row of the old slot stays. Every run whose steps meet the conditions converges, however often the dump is interrupted, workers die and the process restarts (`Converges`). A step that does not meet its condition is not made good by anything but a restart that reads the row's change again or a new slot, so from the last of these on the conditions are also necessary (`ConvergesIff`). The rule of thumb that suffices is `CalmConverges`: no live change between a row's claim and its mark-done, and no claim while changes of the row are on their way to a sink. Nor does it get stuck: from every state of such a run a restart can lead to the end, with every sink right (`CanFinish`). The store, the workers, the queues and the embedding sinks take the steps of this run, seen through one mapped table (`BackfillRefinement`, `BackfillSimulation`).

**Cache, decoder, llama** (`Cache`, `CachingProvider`, `Wire`, `Decoder`, `PgOutputParser`, `Llama`). The cache returns what the provider returns and evicts the text whose last use is oldest; a second sink never embeds a batch again, and what a batch had to embed is newer than what it found. Every stream of well-formed messages decodes to its meaning, with table and column names from the newest Relation message. Chunked embedding equals embedding each text on its own, in chunks as full as the order of the texts allows.

## Where code and documentation differ

The model follows the code.

- `src/backfill_util.hpp:27-28` says an update is merged if the row is still pending; `src/backfill_util.cpp:188` tests only that it is there, so a claimed row is merged too.
- `src/backfill_util.cpp:168` and TECHNICAL.md say an insert cannot match a dumped row. The dump takes no snapshot, so it can hold rows inserted after the slot was created, and their inserts do arrive; `ClaimAheadOfQueueIsLost` starts that way.
- TECHNICAL.md says that any crash during the dump leaves a trace. `src/backfill_util.cpp:90-95` returns before the first mark when its own connection fails, so that one is lost; `NeverDumped` shows it.
- `src/pgoutput_parser.hpp:20` lists Commit among the messages that yield no event; `src/pgoutput_parser.cpp:149-159` yields one.

## Model

| member | source | states |
|---|---|---|
| SpscQueueTheorems.Construct | src/queue/readerwriterqueue.hpp:105-161 | the constructor's loop builds one ring of empty blocks of the right number and size |
| SpscQueueZero.Fails | src/queue/readerwriterqueue.hpp:345-351 | a run of a queue built for no elements that ends in a failed assertion of the consumer |
| SpscQueueZero.SafeIff | src/queue/readerwriterqueue.hpp:105-161 | every run of the queue is safe if and only if it is built for at least one element |
| SpscQueueTheorems.BlockCountSuffices | src/queue/readerwriterqueue.hpp:118-146 | when several blocks are made, all but one of them hold `size` elements |
| SpscQueueTheorems.NewQueueInv | src/queue/readerwriterqueue.hpp:105-161 | a new queue for at least one element satisfies the ring invariant |
| SpscQueueProof.ProducerKeepsInv | src/queue/readerwriterqueue.hpp:535-644 | every atomic step of an enqueue keeps the ring invariant, also while a block is inserted |
| SpscQueueProof.ConsumerKeepsInv | src/queue/readerwriterqueue.hpp:285-376 | every atomic step of a dequeue keeps the ring invariant |
| SpscQueueProof.FreeBlock | src/queue/readerwriterqueue.hpp:572-588 | the block after the tail, unless it is the front block, is empty and the consumer is not at it |
| SpscQueueTheorems.NextKeepsInv | src/queue/readerwriterqueue.hpp:285-376 | every step of either thread keeps the invariant |
| SpscQueueTheorems.RunExists | src/queue/readerwriterqueue.hpp:535-644 | every schedule of calls and steps has a run: no step reads or writes out of range |
| SpscQueueTheorems.Fifo | src/queue/readerwriterqueue.hpp:285-376 | on every run no assertion fails and the dequeued elements are a prefix of the enqueued ones |
| SpscQueueTheorems.EnqueueOnce | src/queue/readerwriterqueue.hpp:535-644 | a whole enqueue adds its element exactly once if it returns true and nothing if it returns false, whatever the consumer does meanwhile |
| SpscQueueTheorems.DequeueOnce | src/queue/readerwriterqueue.hpp:285-376 | a whole dequeue takes the oldest element not yet taken and returns it, or takes nothing |
| SpscQueueTheorems.RefusedDequeue | src/queue/readerwriterqueue.hpp:285-376 | a dequeue that returns false saw the queue empty at some moment of the call |
| SpscQueueTheorems.NoFreeBlock | src/queue/readerwriterqueue.hpp:556-602 | finding no free block means that `size` elements were outstanding at some moment of the call |
| SpscQueueTheorems.AllocatesWhenFull | src/queue/readerwriterqueue.hpp:603-636 | so a block is allocated only then |
| SpscQueueTheorems.RefusedEnqueue | src/queue/readerwriterqueue.hpp:556-636 | an enqueue that returns false saw `size` elements outstanding during the call, and if it may allocate it did not get a block of twice the largest size, or of the largest size once that has reached the maximum |
| SpscQueueTheorems.EnqueueIsWaitFree | src/queue/readerwriterqueue.hpp:535-644 | an enqueue starts at once and is over after at most eleven steps of its own, whatever the consumer does |
| SpscQueueTheorems.DequeueIsWaitFree | src/queue/readerwriterqueue.hpp:285-376 | so is a dequeue, after at most thirteen |
| Bits.CeilToPow2 | src/queue/readerwriterqueue.hpp:654-666 | for x from 1 to 2^63 the smeared word plus one is the power of two r with r/2 < x <= r, and as a number the least power of two at or above x; otherwise it is 0 |
| Bits.CeilIsLeast | src/queue/readerwriterqueue.hpp:654-666 | that power of two is the least one at or above x |
| Bits.LeastPower | src/queue/readerwriterqueue.hpp:654-666 | the recursive round-up on numbers is at most every power of two at or above its argument |
| Bits.CeilIsPower | src/queue/readerwriterqueue.hpp:111-116 | and is one itself |
| Bits.PowerWord | src/queue/readerwriterqueue.hpp:111-111 | a word passes the bit test if and only if the number it denotes is a power of two |
| Bits.SpreadBytes | src/queue/readerwriterqueue.hpp:660-663 | the loop over byte shifts ORs in the shifts by 8, 16 and 32 |
| Bits.SmearRange | src/queue/readerwriterqueue.hpp:656-663 | smearing gives a run of ones just long enough to cover the word |
| Bits.SmearValue | src/queue/readerwriterqueue.hpp:656-665 | which is one less than the power of two above it |
| Bits.MaskIsBump | src/queue/readerwriterqueue.hpp:556-556 | for a size that is a power of two, the masked 64-bit step denotes the next index round the block |
| BlockSizes.PowersAlong | src/queue/readerwriterqueue.hpp:605-611 | in every state of every run every block size is a power of two |
| BlockSizes.MaskedIndex | src/queue/readerwriterqueue.hpp:556-556 | so in every run the masked step of every index is the machine's |
| BlockSizes.LargestAlong | src/queue/readerwriterqueue.hpp:605-611 | in every state `largest` is the size of the largest block, or of the one about to be linked |
| BlockingQueue.ProducerKeeps | src/queue/readerwriterqueue.hpp:834-855 | a step of enqueue and signal keeps the semaphore and count invariants |
| BlockingQueue.WaitKeeps | src/queue/atomicops.hpp:678-719 | a step of the wait, with its spinning, kernel wait, timeout and give-back, keeps them |
| BlockingQueue.DequeueKeeps | src/queue/readerwriterqueue.hpp:861-903 | the dequeue behind a successful wait keeps them and cannot come back empty |
| BlockingQueue.NextKeepsInv | src/queue/atomicops.hpp:678-756 | every step of signaller or waiter keeps the invariant of queue and semaphore together |
| BlockingQueue.BlockingQueueSafe | src/queue/atomicops.hpp:678-756 | on every run waits never exceed signals, the count is never below -1, a timed-out wait has consumed nothing, a successful one finds an element, and a waiter in the kernel with an element to take has a permit posted or about to be |
| BlockingQueue.HowAWaitEnds | src/queue/atomicops.hpp:727-745 | a try or a wait comes back empty only at a moment when every signal has been claimed, and with an element only if it has just taken it |
| BlockingQueue.PatientWait | src/queue/atomicops.hpp:678-719 | a wait with a timeout gives up only after a kernel wait without a permit; a try and a wait of zero never sleep |
| BlockingQueue.FindsWhatIsThere | src/queue/readerwriterqueue.hpp:861-903 | a try or a wait that begins while a signal is unclaimed comes back with an element |
| BlockingQueue.SpinEnds | src/queue/atomicops.hpp:683-693 | every step of a spinning waiter uses up one of its tries |
| BlockingQueue.PostedIsTaken | src/queue/atomicops.hpp:694-718 | a waiter in the kernel or giving up takes a posted permit within three steps of its own |
| BlockingQueue.TryIsWaitFree | src/queue/readerwriterqueue.hpp:861-872 | a try, and a wait that begins while a signal is unclaimed, starts at once and is over after at most fifteen steps of its own |
| BlockingQueue.PostIsWaitFree | src/queue/readerwriterqueue.hpp:834-842 | an enqueue with its signal, after at most thirteen |
| Retry.DispatchWithRetry | src/event_dispatcher.cpp:25-52 | a best-effort sink is tried once and never fails; a required one is tried up to the first attempt that succeeds or that, with every sleep doubled in full, ends at or after the ceiling; the sleeps add up to at most the ceiling |
| Retry.FailsIff | src/event_dispatcher.cpp:29-50 | it fails if and only if every attempt up to such a one fails |
| Retry.ComesBackInTime | src/event_dispatcher.cpp:45-50 | a sink whose attempt k succeeds while attempt k-1 ended below the ceiling gets exactly k+1 attempts |
| Retry.TotalBackoffClosed | src/event_dispatcher.cpp:27-50 | n doublings of b add up to b(2^n - 1) |
| Delivery.MaxLsnIs | src/event_dispatcher.cpp:79-101 | the batch's map holds, for exactly the sources in it, an LSN that occurs there and is the largest |
| Delivery.SinkRoundDelivers | src/event_dispatcher.cpp:54-66 | a dispatch that succeeds has given the batch to every required sink |
| Delivery.RoundJustified | src/event_dispatcher.cpp:104-107 | a batch confirms only LSNs up to which everything has been delivered; a failed one confirms nothing |
| Delivery.LifeJustified | src/event_dispatcher.cpp:68-142 | over a whole run of the worker, for every cutting and every failure, each confirmation was covered when it was made |
| DeliveryLog.LifeTold | src/event_dispatcher.cpp:68-142 | the log of every life is a sequence of rounds over the jobs in order; a round without a failed required sink has called every sink and, with a callback, confirms the largest LSN of each source of exactly its batch; a failed one confirms nothing, and with a fatal callback is the last |
| DeliveryLog.DrainsInFull | src/event_dispatcher.cpp:114-142 | draining takes the rest of the jobs in full batches and one last one, until a required sink fails |
| DeliveryLog.EverythingConfirmed | src/event_dispatcher.cpp:104-135 | with sinks that do not fail for good, every job is reached by a confirmation |
| Delivery.LostWithoutFatal | src/event_dispatcher.cpp:109-142 | without a fatal callback, a failed batch followed by draining confirms past an undelivered job |
| Delivery.FatalCallbackIsNeeded | src/event_dispatcher.cpp:58-61 | for pairwise different jobs, confirmations are right on every schedule if and only if the callback is installed, no sink is required, or there is at most one job |
| Dispatcher.EventDispatcher.Dispatch | src/event_dispatcher.cpp:54-66 | with each sink's retries, the loop stops at the first required sink that gives up and reports fatal once; every other sink has accepted or been skipped |
| Delivery.ConfirmJustified | src/event_dispatcher.cpp:144-150 | the LSNs reported after a batch cover only jobs that every required sink has |
| Dispatcher.EventDispatcher.Collect | src/event_dispatcher.cpp:78-102 | a batch is the next jobs in order, as many as arrive before the deadline up to the maximum, with their largest LSN per source |
| Dispatcher.BatchGrows | src/event_dispatcher.cpp:86-102 | a batch grows while it is not full, jobs are queued and each arrives in time, and no longer |
| Dispatcher.ServesArrivals | src/event_dispatcher.cpp:73-76 | unless a dispatch fails, every wake-up that finds a job takes at least one, and without one nothing happens |
| Dispatcher.EventDispatcher.ProcessBatches | src/event_dispatcher.cpp:68-108 | the main loop serves every wake-up that finds a job until a dispatch fails, and is a run of the specification |
| Dispatcher.EventDispatcher.DrainRemaining | src/event_dispatcher.cpp:114-142 | draining takes full batches and one rest, and stops at the first failure |
| Dispatcher.EventDispatcher.ProcessJobs | src/event_dispatcher.cpp:68-112 | the worker's whole log is a run of the specification, so with the fatal callback every confirmation in it is covered |
| ReplicationSource.PgReplicationSource.HandleFrame | src/pgreplication_source.cpp:317-350 | a frame's message is decoded, its events stamped with the frame's LSN and absorbed or posted; a keepalive that asks gets its reply; short frames, other frames and messages that do not decode change nothing else |
| ReplicationSource.PgReplicationSource.DrainAvailableMessages | src/pgreplication_source.cpp:291-353 | the loop over everything buffered does this frame by frame |
| ReplicationSource.HeardIsSaid | src/pgreplication_source.cpp:331-341 | every event of every frame is seen once, in order, under its frame's LSN, whatever the backfill store absorbs |
| ReplicationSource.RepliesSent | src/pgreplication_source.cpp:317-325 | one reply for every keepalive that asks, and no other, each with the LSN confirmed last |
| ReplicationSource.WhatIsKeptBack | src/pgreplication_source.cpp:335-340 | over any run of frames, exactly the updates of rows staged at that moment are kept from the sinks, and without a backfill none |
| ReplicationSource.RowHeard | src/pgreplication_source.cpp:331-348 | what a row message in a frame gives: its table and both rows by the newest Relation message, or nothing if it is refused |
| ReplicationSource.PostedJobs | src/pgreplication_source.cpp:338-339 | the posted jobs are the events not absorbed, in order |
| ReplicationSource.FramesAreStream | src/pgreplication_source.cpp:291-353 | reading a log's frames gives a stream to which the confirmation guarantees apply |
| Confirmation.PostedDistinct | src/pgreplication_source.cpp:335-340 | posted jobs are pairwise different, also those of one truncate of several tables |
| Confirmation.SentBefore | src/pgreplication_source.cpp:291-353 | whatever a source sent up to a posted job was absorbed, or posted no later |
| Confirmation.ConfirmedIsKept | src/pgreplication_source.cpp:327-349 | every event of a transaction at or below a confirmed LSN is absorbed or with every required sink |
| Confirmation.CrashLosesNothing | src/pgreplication_source.cpp:218-221 | the same for what the slot holds after a crash at any point |
| Confirmation.RestartsLoseNothing | src/pgreplication_source.cpp:142-187 | over any number of crashes and restarts, a transaction the server skips is safe |
| Events.Find | src/pgembedding_sink.cpp:204-211 | the mapping found is configured and is for that table; none is found only if none is configured |
| Events.FindIsFirst | src/pgembedding_sink.cpp:204-211 | it is the first one for that table |
| Events.ColumnAt | src/pgembedding_sink.cpp:305-315 | a column is read at its first occurrence, and is empty when it is null or was not sent |
| Events.NoColumn | src/pgembedding_sink.cpp:305-315 | a column that is not there is empty and not marked unsent |
| Events.ActionsConcat | src/pgembedding_sink.cpp:195-252 | the first pass over two batches is the passes over each |
| Sink.PgEmbeddingSink.Collect | src/pgembedding_sink.cpp:195-252 | the first pass records each event's action in event order |
| Sink.PgEmbeddingSink.TextsToEmbed | src/pgembedding_sink.cpp:254-264 | exactly the texts of the upserts, in order |
| Sink.PgEmbeddingSink.CallBatch | src/pgembedding_sink.cpp:195-298 | a wrong number of vectors writes nothing; with a provider that embeds texts one by one, the batch equals one event at a time |
| Sink.RunLookup | src/pgembedding_sink.cpp:277-297 | the last action that touches a key decides what it holds |
| Sink.CutsDoNotMatter | src/event_dispatcher.cpp:78-107 | cutting the stream into other batches gives the same table |
| Sink.ReplayIsHarmless | src/event_dispatcher.cpp:25-52 | applying k..n after 0..j gives what 0..n gives, for k <= j <= n |
| Sink.RedeliveriesAreHarmless | src/event_dispatcher.cpp:25-52 | after any number of redeliveries, each from at or before where the last stopped and none of them complete, going on from there ends where one run ends |
| SinkView.ChangeKeepsMirror | src/pgembedding_sink.cpp:144-193 | after any change the sink shows the source if and only if a shown row kept its id and its text |
| SinkView.ClearedTextStays | src/pgembedding_sink.cpp:174-180 | a row whose text is set to null keeps its old entry |
| SinkView.EmbedsIff | src/pgembedding_sink.cpp:144-193 | exactly inserts and updates with id and text, except updates that repeat or do not resend the text, have it embedded and their row stored; the others leave the stored row alone, metadata included |
| SinkView.StoredComesFrom | src/pgembedding_sink.cpp:144-193 | whatever a new sink holds after any stream is one event's row: text, vector and every metadata column come from the same event |
| SinkView.HistoryMirrored | src/pgembedding_sink.cpp:201-297 | after any history of such changes the sink is the view of the mapped tables |
| SinkView.RedeliveredHistoryMirrored | src/event_dispatcher.cpp:68-142 | the same when events are batched anyhow and redelivered any number of times, in attempts that may stop short |
| Keys.NamesDifferIff | src/qdrant_sink.cpp:30-38 | the composed key identifies label and id if and only if the labels are unambiguous |
| Keys.AmbiguousNames | src/milvus_sink.cpp:31-34 | an ambiguous set of labels has two rows with one key |
| Keys.ColonCollision | src/qdrant_sink.cpp:32-32 | label "a" with id "b:c" and label "a:b" with id "c" collide |
| Keys.RunAgrees | src/qdrant_sink.cpp:231-330 | for unambiguous labels the vector store holds the rows of the PostgreSQL sink after every run of actions |
| Keys.StoresAgreeIff | src/milvus_sink.cpp:228-266 | it does so for every run if and only if the labels are unambiguous |
| Backfill.ToChangeEvent | src/backfill_worker.cpp:18-41 | a staged row becomes an insert of its columns |
| Backfill.MergeKnownColumns | src/backfill_util.cpp:68-85 | every mapped column the event carries is taken over |
| Backfill.MergedRow | src/backfill_util.cpp:68-85 | a merged and delivered row has the update's value where it was sent and the staged one where not |
| Backfill.AbsorbTouchesOne | src/backfill_util.cpp:166-199 | a live event changes at most its own staged row: a delete removes it, an update gives every mapped column the value it carries |
| Backfill.AbsorbedIff | src/backfill_util.cpp:183-199 | it is kept from the sinks if and only if it updates a staged row |
| Backfill.BackfillStore.ResetStaleClaims | src/backfill_store.cpp:90-97 | every row is pending again, with its data |
| Backfill.BackfillStore.ClaimPending | src/backfill_store.cpp:239-265 | takes as many pending rows as it may, each once and with its data, and leaves the rest |
| Backfill.BackfillStore.DumpTable | src/backfill_util.cpp:97-154 | a complete table is left alone; otherwise the table is marked whatever the select gives, every selected row with an id is staged, older staged rows stay, and the table is complete afterwards if and only if the select succeeded |
| Backfill.BackfillStore.DumpAll | src/backfill_util.cpp:88-159 | success means every table is complete; nothing staged is lost |
| Backfill.BackfillStore.ConnectAndDump | src/pgreplication_source.cpp:142-204 | a new slot holds only what this dump selected, an old one gets its claims back and finishes a dump it began; a dump that was due and reached the database leaves a mark even if it fails; a source that never dumped does not start |
| Backfill.StageIs | src/backfill_util.cpp:130-150 | staging keeps what was staged, adds only selected rows and misses none with an id |
| BackfillDump.DumpResumesIff | src/pgreplication_source.cpp:189-204 | over any number of interrupted starts and one whose selects succeed, every table is complete if and only if the first start reached the database, and then every row with an id of each table's successful select is staged |
| BackfillDump.NeverDumped | src/backfill_util.cpp:90-95 | if the first start did not reach it, no later start dumps anything |
| Backfill.BackfillStore.AbsorbEvent | src/backfill_util.cpp:166-199 | the staged rows and the verdict after a live event |
| BackfillWorker.CallSinks | src/backfill_worker.cpp:95-95 | succeeds if and only if no sink throws, and then every sink has every event |
| BackfillWorker.Run | src/backfill_worker.cpp:75-108 | the loop ends; no row is lost whether it succeeds or fails; success with a positive claim size leaves nothing pending, and a claim size of zero does nothing |
| BackfillRun.ClaimsKept | src/backfill_store.cpp:239-279 | every step keeps claims disjoint and marked |
| BackfillRun.RowsLeaveOnlyWhenDone | src/backfill_worker.cpp:75-105 | on every run a row leaves the store only after every sink was called with it, by a delete, or with a new slot |
| BackfillRun.ClaimsAreExclusive | src/backfill_store.cpp:239-265 | on every run no two workers hold the same row |
| BackfillRun.NoOrphansAlong | src/backfill_worker.cpp:75-105 | as long as no worker dies, every claimed row is held by a worker |
| BackfillConvergence.StepExact | src/backfill_util.cpp:88-199 | a step keeps the convergence invariant if and only if it meets its condition; only sink calls, mark-done and a new slot have one |
| BackfillConvergence.GiveExact | src/backfill_worker.cpp:95-95 | giving a sink a row that is no longer staged is right if and only if a change of it is queued or still to come, or the source has that text |
| BackfillConvergence.Converges | src/backfill_worker.cpp:75-105 | at the end of every run whose steps meet their conditions each sink equals the source table |
| BackfillConvergence.ConvergesIff | src/backfill_worker.cpp:75-105 | from the last restart or new slot on, the end is right if and only if every step meets its condition |
| BackfillConvergence.WrongStays | src/backfill_util.cpp:166-199 | a row that went wrong stays wrong through every step but a new slot and a restart that reads its change again |
| BackfillConvergence.BadStepIsWrong | src/backfill_worker.cpp:95-97 | a step that does not meet its condition leaves such a row |
| BackfillRecovery.RestartForgets | src/pgreplication_source.cpp:168-179 | a restart forgets workers and queues, gives every claim back, and keeps rows, texts and sinks |
| BackfillRecovery.CanFinish | src/pgreplication_source.cpp:142-204 | from every state of a run whose steps met their conditions, a restart can lead to the end with every sink right |
| BackfillCalm.CalmConverges | src/backfill_worker.cpp:75-105 | runs without live changes of claimed rows, claims ahead of queued changes or stale rows at a new slot converge |
| BackfillConvergence.MarkDoneExact | src/backfill_worker.cpp:97-97 | marking a row done is right if and only if each sink's last queued change of it, or else the sink, has the staged text, or a change of it is still to come |
| BackfillFailures.UpdateOfClaimedRowIsLost | src/backfill_util.cpp:188-198 | a run in which an update merged into a claimed row is lost |
| BackfillFailures.ClaimAheadOfQueueIsLost | src/backfill_util.cpp:168-168 | a run in which a queued insert overwrites a newer text |
| BackfillFailures.DeleteOfClaimedRowIsUndone | src/backfill_util.cpp:173-181 | a run in which a claimed row is deleted at the source and the worker brings it back |
| BackfillFailures.RowOfOldSlotStays | src/pgreplication_source.cpp:157-173 | a run in which a row deleted while no slot existed stays in the sink |
| BackfillRefinement.AbsorbRefines | src/backfill_util.cpp:166-199 | merging whole rows in the store is the run's step on id and text, with the same verdict |
| BackfillRefinement.InsertRefines | src/backfill_store.cpp:99-114 | so is staging a row, which never overwrites a staged one |
| BackfillRefinement.ClaimRefines | src/backfill_store.cpp:239-265 | so is claiming |
| BackfillRefinement.MarkDoneRefines | src/backfill_store.cpp:267-279 | so is marking done |
| BackfillRefinement.ResetRefines | src/backfill_store.cpp:90-97 | so is giving stale claims back |
| BackfillRefinement.LiveRefines | src/pgembedding_sink.cpp:144-193 | an announced event changes the texts of the embedding sink as the run's sink step does |
| BackfillRefinement.GiveRefines | src/backfill_worker.cpp:95-95 | so does the batch of insert events made of claimed rows |
| BackfillSimulation.StageIsDump | src/backfill_store.cpp:99-114 | staging a selected row in the store is the run's dump step |
| BackfillSimulation.AbsorbIsRead | src/pgreplication_source.cpp:335-340 | absorbing an event or posting it to every sink is the run's read |
| BackfillSimulation.AfterIsApply | src/pgembedding_sink.cpp:195-298 | a sink applying the event at the head of its queue is the run's apply |
| BackfillSimulation.ClaimIsClaim | src/backfill_store.cpp:239-265 | claiming rows in the store is the run's claim |
| BackfillSimulation.CallIsGive | src/backfill_worker.cpp:95-95 | calling a sink with the claimed rows is the run's give |
| BackfillSimulation.MarkIsMark | src/backfill_worker.cpp:97-97 | removing a row that is done is the run's mark |
| BackfillSimulation.RestartIsRestart | src/pgreplication_source.cpp:174-176 | resetting stale claims on a resumed slot is the run's restart |
| BackfillSimulation.ResetIsEpoch | src/pgreplication_source.cpp:172-173 | resetting the store for a new slot is the run's new epoch |
| Cache.CacheSizeForBatch | src/caching_embedding_provider.cpp:6-12 | the least power of two at least the batch size and 16, and less than twice the batch size if not 16 |
| Cache.UseAllOk | src/caching_embedding_provider.cpp:25-50 | over any history keys stay distinct and the size within capacity |
| Cache.UseCached | src/caching_embedding_provider.cpp:25-40 | a use of a cached text only renews its time and vector |
| Cache.UseNew | src/caching_embedding_provider.cpp:42-49 | a new text is added, and in a full cache replaces the one whose last use is oldest |
| Cache.RepeatMissesNothing | src/caching_embedding_provider.cpp:60-87 | from any state, repeating a batch with no more different texts than the capacity misses nothing |
| Cache.SecondSinkMissesNothing | src/caching_embedding_provider.cpp:60-87 | with the configured size a second sink embeds nothing of the dispatcher's batch anew |
| Cache.MissesAreNewer | src/caching_embedding_provider.cpp:60-87 | after a batch, the texts it had to embed are more recent than those it found |
| CachingProvider.CachingEmbeddingProvider.TryGet | src/caching_embedding_provider.cpp:25-31 | the lookup on nodes and index is the lookup on the list |
| CachingProvider.CachingEmbeddingProvider.Put | src/caching_embedding_provider.cpp:33-50 | so is storing, with eviction; list and index stay in step |
| CachingProvider.CachingEmbeddingProvider.Embed | src/caching_embedding_provider.cpp:52-58 | returns the provider's vector and asks it only on a miss |
| CachingProvider.CachingEmbeddingProvider.EmbedBatch | src/caching_embedding_provider.cpp:60-87 | returns the provider's vectors in order, asks it once and only for misses, and is empty on a wrong count |
| Wire.FoldBigEndian | src/wal_frame.cpp:9-16 | folding big-endian bytes gives the number back |
| Wire.ReadU16 | src/byte_utils.cpp:16-22 | reads a two-byte number and moves two bytes |
| Wire.ReadU32 | src/byte_utils.cpp:24-32 | reads a four-byte number and moves four bytes |
| Wire.ReadU64 | src/wal_frame.cpp:9-16 | the loop reads an eight-byte number |
| Wire.ReadCStr | src/byte_utils.cpp:41-48 | reads a name and moves past its zero |
| Wire.ParseXLogData | src/wal_frame.cpp:20-39 | refuses exactly the frames shorter than the header |
| Wire.XLogDataRoundTrip | src/wal_frame.cpp:20-39 | every encoded XLogData frame parses back to itself |
| Wire.ParseKeepalive | src/wal_frame.cpp:41-57 | refuses exactly the frames shorter than the message |
| Wire.KeepaliveRoundTrip | src/wal_frame.cpp:41-57 | every encoded keepalive parses back to itself |
| PgOutputParser.DecodeCol | src/pgoutput_parser.cpp:113-131 | a null, unchanged or text column decodes to its value; any other kind is refused |
| PgOutputParser.DecodeTuple | src/pgoutput_parser.cpp:103-134 | a tuple decodes to its row under the relation's names, and the cursor ends behind it |
| PgOutputParser.Parser.HandleRelation | src/pgoutput_parser.cpp:28-55 | the relation is remembered under its id, and the cursor ends at the end of the message |
| PgOutputParser.Parser.HandleBegin | src/pgoutput_parser.cpp:57-66 | the timestamp is moved to the Unix epoch in 64-bit arithmetic; a short message is skipped |
| PgOutputParser.Parser.HandleTruncate | src/pgoutput_parser.cpp:68-101 | one event per known relation, in order |
| PgOutputParser.Parser.HandleUpdate | src/pgoutput_parser.cpp:192-217 | old and new rows, or an error for an unknown relation |
| PgOutputParser.Parser.Parse | src/pgoutput_parser.cpp:136-243 | every well-formed message yields its meaning, and relation, row and truncate messages are read to their end |
| PgOutputParser.ParseStream | src/pgoutput_parser.cpp:136-243 | a stream yields the meaning of each message in order |
| PgOutputParser.RemembersLatest | src/pgoutput_parser.cpp:54-54 | a relation is known by the newest message that described it |
| PgOutputParser.RowDecoded | src/pgoutput_parser.cpp:173-243 | an insert, update or delete anywhere in a stream has its table and both its rows' column names from that message, or is refused |
| PgOutputParser.TruncateDecoded | src/pgoutput_parser.cpp:68-101 | a truncate yields one event for each described relation, in order, with the table the newest Relation message names |
| PgOutputParser.CommitDecoded | src/pgoutput_parser.cpp:149-159 | a commit yields one event that names no table |
| PgOutputParser.EventsTimed | src/pgoutput_parser.cpp:57-66 | every event carries the time of the newest Begin message before it |
| Llama.LayoutKeepsTokens | src/llama_provider.cpp:161-180 | each sequence of the batch carries exactly the tokens of its text |
| Llama.LayoutCounts | src/llama_provider.cpp:170-178 | the positions of each sequence are 0, 1, 2 and so on |
| Llama.FillSequence | src/llama_provider.cpp:170-178 | the inner loop writes the tokens, positions from zero and the sequence |
| Llama.BuildBatch | src/llama_provider.cpp:161-180 | the arrays are filled exactly, with the layout |
| Llama.ExtractOne | src/llama_provider.cpp:189-218 | the vector of a sequence, by sequence or else at its last token |
| Llama.FlushChunk | src/llama_provider.cpp:265-285 | a chunk's vectors land at their texts' indices; a failed chunk changes nothing |
| Llama.EmbedBatch | src/llama_provider.cpp:248-312 | chunks respect both limits and are as full as the order allows, every text that fits is in exactly one of them, and the result is each text's own vector |

## Left out

- Weak memory orders and fences: the queue's atomics are sequentially consistent steps. Its destructor, moves, alignment and allocation failures are not modelled.
- PostgreSQL, SQLite, HTTP, JSON text and the operating system: each statement or call is one step, and a sink's own write errors, which the sinks log and drop, are taken not to happen.
- A position of a source's log counts the events the decoder yields; a message it refuses is logged and skipped and has none. `last_read_lsn_`, which nothing reads once the stream has started, is not kept. A store error while an event is absorbed is not modelled.
- Delivered means that `call_batch` returned. Whether a sink throws is an input of the run.
- Two different names are taken to get different UUIDs; Milvus's 63-bit integer keys, which keep fewer bits, are not covered.
- Sink.PgEmbeddingSink.CallBatch: for a provider whose vectors depend on the batch, only the empty result of a wrong count is stated.
- SinkView.HistoryMirrored: speaks of id, text and vector; `StoredComesFrom` covers metadata. Metadata of a row whose text did not change is not refreshed, because such updates are dropped whole. Primary keys are not the empty string, and tables that share a sink have labels of their own.
- BackfillConvergence.Converges: one table, no truncate while rows are staged, no id changes, and no empty ids or texts (part of `Consistent`); truncate during backfill is a known gap of the system. The embedding provider is taken to give a vector for every non-empty text.
- BackfillConvergence.ConvergesIff: before the last restart or new slot every step is taken to meet its condition, because a restart may repair one that did not.
- BackfillDump.DumpResumesIff: a crash between the creation of a slot and the reset of the store is not modelled.
- BackfillRun.Restart: resumes at or before every change a sink has not got, which is what `RestartsLoseNothing` gives.
- BackfillRun: the worker's claim, each sink call and each mark-done are steps; a store error in the middle of a statement is not.
- Dispatcher.EventDispatcher.NotifyConfirmed: the per-source calls of one batch are one record, in no particular order.
- Retry.DispatchWithRetry: a positive initial backoff; with none only the clock ends the retries.
- Cache sizes of zero, for which the cache reads the end of an empty list; the constructor asks for a positive size, as its caller gives.
- PgOutputParser.Parser.Parse: well-formed messages only; the decoder does not check bounds. The tuple kind tag and the message's own LSN fields are not kept.
- Llama.EmbedBatch: tokenising and encoding are parameters; `embed` for a single text repeats it and is left out.
- Floating point: vectors are sequences of reals that are moved and compared, never computed with.
- Configuration, TLS, SQL text, logging, process spawning and reaping, the OpenAI provider and GGUF reading.
