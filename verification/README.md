# Deflect: the request queue and the frame pipeline

Deflect streams images from several clients to a server. This project models the two parts where its
correctness is least obvious, and proves what they are for.

**The request queue of a client and its consumer.** `moodycamel::ConcurrentQueue` as Deflect uses it
(implicit producers), the semaphore around it, and `StreamSendWorker`, which drains it.

| module | what it is |
|---|---|
| `FreeList` | the lock-free, reference-counted list of free blocks |
| `Tickets` | the optimistic indices of an implicit producer: drawing, losing and claiming tickets |
| `ImplicitQueue`, `QueueEnqueue`, `QueueCalls` | elements, blocks and their reclamation in one implicit producer, on top of `Tickets`; that an enqueue gets its element in, and what a dequeue gets |
| `BlockIndex` | the ring that finds a block by index, its reuse and its doubling |
| `QueueOnRing`, `RingProgress` | the three put together: `ImplicitQueue` with `BlockIndex` for its map and `FreeList` for its set |
| `ProducerTable` | the growing hash tables from thread to producer |
| `Semaphore` | the lightweight semaphore: partial spinning, time-outs, greedy waits, signals |
| `BlockingQueue` | a bag of elements plus `Semaphore`: insert, then signal; acquire, then redeem |
| `SendWorker`, `SendProgress`, `SendGate`, `FrameGate`, `FrameOrder` | the worker's loop with its postponed finish, that it gets its work done, opens the gate in `StreamPrivate` again and stops when told to, and exactly when frames come out in order |
| `MTQueue`, `JpegHandOff` | the bounded queue with two condition variables; segments compressed in parallel |

These are machines on values: a state, an `Action`, and a function `Step` that performs one atomic
operation of one thread (for `MTQueue`, one critical section). Any number of threads take any number
of steps in any order. Bookkeeping the proofs need (`Aux`, `Ledger`, `Books`) is a separate value that
`Step` never reads. `StepInv` of a module says that each step keeps the module's invariant; the
theorems about whole runs quantify over every sequence of steps. Words wrap where the original's do.
Besides what never goes wrong, each machine has theorems on what a call gets: `EnqueueEnters` and the `Helps`
lemmas hold whatever the other threads do, those whose name begins with `Lone` hold for a call left alone.

**The frame pipeline.** From an image to the frame the server shows.

| module | what it is |
|---|---|
| `Segmenter`, `RawSegments` | cutting an image into segments, and where every byte of a raw segment comes from |
| `Wire` | headers, messages and the writing loop |
| `DeltaCodec` | the encoder that sends view, row order and channel only when they change |
| `ServerWorkers` | the server's end: finding messages in a byte stream, handling them, reporting sources |
| `ReceiveBuffers` | frames of many sources aligned by bounded queues |
| `FrameDispatchers`, `Refusals` | flow control, the newest frame, the life of a stream; what is refused |
| `Frames` | sizes, row order, vertical mirroring |

Objects of the original that are updated in place are classes here, each method proved against a
function of the old state; what the original promises is then proved about these functions. The
dispatcher holds receive buffers, and those hold source buffers, as objects. `Common`,
`Types`, `Modular`, `Sums` and `Ascending` hold shared vocabulary and arithmetic.

Some results are exact conditions rather than plain promises, because the plain promise does not hold
of the code:

- The finish barrier holds exactly if no request was fetched while its own enqueue was half-done
  (`SendWorker.BarrierExact`, `BarrierHolds`); a run where it breaks is `BarrierCanBreak`.
- The worker settles all it was given, in finitely many steps, if its batch has room
  (`SendProgress.WorkIsFinite`, `EndMeansSettled`, `ComesToRest`); a stream ever sends anything if and only
  if it has (`SendsIff`), which takes two hardware threads.
- What one client sends comes out in order if and only if no request with frame messages is signalled while
  a finish called before it waits for the worker (`FrameOrder.InOrderExactly`, `SentExactly`). Making no such
  call is enough (`FrameGate.NotLateInOrder`), and necessary if the worker does not turn to a finish while an
  enqueue is half-done (`InOrderIff`; `RepairedByChance` shows why). Waiting for one's finishes is enough
  (`CarefulIsInOrder`), not waiting is not (`HastyFinishMisplaces`).
- `MTQueue` loses no wake-up if and only if every `clear` comes when enough producers are awake or nobody
  stays asleep after the one it wakes (`MTQueue.NoLostWakeUp`); a run where one is lost ends in
  `ClearLosesWakeUp`.
- The copies of a multi-segment raw image stay inside the buffer if and only if the image begins at row 0
  and at a column whose wrapped byte offset is 0 (`RawSegments.ReadableIff`; `OriginMatters` is an image they
  do not), because the copy indexes the buffer by stream coordinates; the JPEG path works at any origin
  (`Segmenter.JpegRegionIsRegion`).
- A receiver is served at once all along a run if and only if no source leaves that alone holds its
  stream up while the receiver waits (`FrameDispatchers.ServedIff`); a run in which one does is `RemovalCanStall`.
- Opened and closed signals balance unless a sole source joins twice before its first frame is out, or a
  stream that is not stored is deleted (`FrameDispatchers.LifecycleStep`; `RejoinSpoils`, `DeletionSpoils`).
- A stream can complete another frame if and only if frame 2^32 - 1 is not the next one and no source has
  closed its own frame 2^32 - 1 (`ReceiveBuffers.LastsIff`); both ends are reached (`EndsAreReached`).
- `computeChannelDimensions` starts from a default `QSize`, which is (-1, -1), and `computeDimensions` from
  (0, 0); they agree exactly under the condition of `Frames.DimensionsAgreeIff`.
- A tile marked side-by-side would be reported with another view (`DeltaCodec.RoundTripIff`,
  `SideBySideIsLost`); the segmenter never makes one.

## Model

| member | source | states |
|---|---|---|
| FreeList.StepInv | deflect/moodycamel/concurrentqueue.h:1847-1982 | every atomic operation of every thread keeps: each node is in one place (owned, listed, being added, being taken, or waiting for its last reader), its count is the place's share plus one per reader, and the next pointers from head spell the list |
| FreeList.RunInv | deflect/moodycamel/concurrentqueue.h:1847-1982 | the invariant holds after every schedule of any number of threads below 2^31 - 1 |
| FreeList.NeverHandedTwice | deflect/moodycamel/concurrentqueue.h:1865-1929 | between two hand-outs of the same node there is an add of it, in any interleaving |
| FreeList.NextStandsStill | deflect/moodycamel/concurrentqueue.h:1865-1890 | no ABA: no step changes a node's next pointer while any thread holds a counted reference to it |
| FreeList.PopIsExact | deflect/moodycamel/concurrentqueue.h:1883-1892 | the successful compare-and-swap of try_get takes the first node of the list and installs the second one, although next was read earlier |
| FreeList.PoppedIsNotFlagged | deflect/moodycamel/concurrentqueue.h:1893-1898 | the assertion in try_get: a node just popped does not carry SHOULD_BE_ON_FREELIST |
| FreeList.NothingLost | deflect/moodycamel/concurrentqueue.h:1847-1969 | once all threads are idle every node is owned or on the list, not both, with a count of 0 or 1 accordingly |
| FreeList.SomebodyWillAdd | deflect/moodycamel/concurrentqueue.h:1852-1863 | a node that is neither owned nor listed has a thread that is adding or taking it, or still reads it and will see its count drop |
| FreeList.EmptyHandedMeansEmpty | deflect/moodycamel/concurrentqueue.h:1865-1929 | in every run, a try_get that ends hands its node out, which nobody owned, or the list had no head at some moment during that call |
| FreeList.LoneGet | deflect/moodycamel/concurrentqueue.h:1865-1929 | with all threads idle, an undisturbed try_get hands out the first node of the list and makes its successor the head; on an empty list it ends with nothing changed |
| FreeList.LoneAdd | deflect/moodycamel/concurrentqueue.h:1847-1969 | with all threads idle, an undisturbed add puts its node in front of the list |
| Tickets.CircularIsLess | deflect/moodycamel/concurrentqueue.h:583-600 | on the wrapped words of counters less than 2^63 apart the circular comparison, and the one of a wrapped difference with 0, are the ordinary order |
| Tickets.RetestGrants | deflect/moodycamel/concurrentqueue.h:3838-3864 | the second look grants only as many tickets as fit below the tail plus the overcommit read before, and all or some of the desired ones |
| Tickets.TestExact | deflect/moodycamel/concurrentqueue.h:3836-3846 | the first look draws exactly min(max, elements left by what was loaded) tickets, one for a single dequeue, and none exactly if none are left |
| Tickets.RecheckExact | deflect/moodycamel/concurrentqueue.h:3847-3871 | the second look grants exactly min(tickets drawn, elements left), refunding the rest, all of them if none are left |
| Tickets.HeadBelowTail | deflect/moodycamel/concurrentqueue.h:3484-3527 | the invariant (a winner together with the winners before it fits below the tail) implies head <= tail and overcommit <= tickets drawn |
| Tickets.StepInv | deflect/moodycamel/concurrentqueue.h:3484-3579 | loads, draws, second looks, refunds and claims of single and bulk consumers, and publishing, keep that invariant |
| Tickets.RunInv | deflect/moodycamel/concurrentqueue.h:3826-3871 | the invariant holds after every schedule, the 64-bit counters wrapping any number of times, in which each second look compares counters less than 2^63 apart |
| Tickets.FewAreTimely | deflect/moodycamel/concurrentqueue.h:3826-3871 | every schedule with fewer than 2^63 elements and tickets is such a one |
| Tickets.NeverOverrun | deflect/moodycamel/concurrentqueue.h:3484-3579 | headIndex <= tailIndex in every reachable state |
| Tickets.ClaimFits | deflect/moodycamel/concurrentqueue.h:3507-3527 | a consumer about to advance the head by n finds n published indices there |
| Tickets.ClaimedInOrder | deflect/moodycamel/concurrentqueue.h:3866-3871 | the claims made so far cut [0, head) into consecutive ranges: every index is claimed once, in increasing order |
| Tickets.NothingLeftBehind | deflect/moodycamel/concurrentqueue.h:3566-3576 | with all consumers idle, tickets drawn minus tickets refunded is the number of claimed indices |
| Tickets.LoneDequeue | deflect/moodycamel/concurrentqueue.h:3826-3871 | with all consumers idle, an undisturbed dequeue or dequeue_bulk(max) claims the indices from the head on, min(max, tail - head) of them, and moves the head past them; if there are none it ends idle with all counters unchanged |
| ImplicitQueue.StepInv | deflect/moodycamel/concurrentqueue.h:3389-3579 | every operation of the producer and of any number of consumers keeps: blocks are in one place each, counters count the reported slots, unread slots hold what was published, claimed indices are in their claimant's hands |
| ImplicitQueue.ExecuteInv | deflect/moodycamel/concurrentqueue.h:3826-3997 | the invariant holds after every schedule of single and bulk dequeues |
| ImplicitQueue.DeliveredAsProduced | deflect/moodycamel/concurrentqueue.h:3528-3563 | what is taken out at an index is what was published at that index, across block reuse |
| ImplicitQueue.TakenOnceInOrder | deflect/moodycamel/concurrentqueue.h:3873-3986 | an element about to be taken was not taken before, by anybody; it is taken by the claimant of its index; and each consumer takes its indices in order |
| ImplicitQueue.SingleConsumerIsFifo | deflect/moodycamel/concurrentqueue.h:3484-3579 | with one consumer, what is out is a prefix of what went in |
| ImplicitQueue.RetiredByOne | deflect/moodycamel/concurrentqueue.h:2046-2104 | two consumers never both retire the same block: one of them completes its last slot |
| ImplicitQueue.FreeIsUnused | deflect/moodycamel/concurrentqueue.h:3545-3563 | a block on the free list is not being read, reported to or retired, and is not where the producer writes next |
| ImplicitQueue.AllClaimedDelivered | deflect/moodycamel/concurrentqueue.h:3484-3579 | with no consumer at work, exactly the indices below the head have been taken out |
| QueueEnqueue.NeverTooWide | deflect/moodycamel/concurrentqueue.h:3396-3413 | the test of the head on wrapped words keeps the elements inside below half of the index range, in every run |
| QueueEnqueue.EnqueueEnters | deflect/moodycamel/concurrentqueue.h:3389-3482 | whatever consumers do meanwhile, an enqueue ends after at most eight operations of the producer, two inside a block; then its element is the last one published, or nothing is, and that only if a new block would have made the queue too wide when the call began |
| QueueEnqueue.ProducerGoesOn | deflect/moodycamel/concurrentqueue.h:3419-3432 | until then the producer can always take its next operation |
| QueueCalls.TakesAll | deflect/moodycamel/concurrentqueue.h:3873-3997 | in any state, a consumer that has claimed indices and goes on alone takes out all of them as they were published, reports them, and is idle again |
| QueueCalls.LoneDequeue | deflect/moodycamel/concurrentqueue.h:3826-3997 | after any run, with no consumer at work, an undisturbed dequeue or dequeue_bulk(max) takes out exactly min(max, tail - head) elements, the next ones, as they were published |
| BlockIndex.SlotIsRight | deflect/moodycamel/concurrentqueue.h:4085-4098 | the slot computed from wrapped words by a division that ignores the sign is the slot of the block, because the capacity divides 2^64 / BLOCK_SIZE |
| BlockIndex.StepInv | deflect/moodycamel/concurrentqueue.h:4019-4163 | inserting, rewinding, doubling, looking up and retiring keep: every ring, replaced ones included, has the entries of the live blocks in their slots |
| BlockIndex.ExecuteInv | deflect/moodycamel/concurrentqueue.h:4019-4163 | the invariant holds after every schedule |
| BlockIndex.LookupIsRight | deflect/moodycamel/concurrentqueue.h:4079-4104 | a consumer finds the entry with its key, holding the block last stored for it, in whatever ring it reads: the index is a finite map |
| BlockIndex.TailHasKey | deflect/moodycamel/concurrentqueue.h:4087-4090 | the assertion of the look-up: the tail entry it measures from has a key |
| BlockIndex.OnlyUnusedOverwritten | deflect/moodycamel/concurrentqueue.h:4019-4060 | a key is only stored into an entry that holds no block |
| BlockIndex.LoneInsert | deflect/moodycamel/concurrentqueue.h:4019-4060 | an undisturbed insertion ends with the new block and its key in the entry at the new tail, every entry that held a block as it was, and the ring doubled exactly if the next entry held one |
| BlockIndex.NoMemory | deflect/moodycamel/concurrentqueue.h:4019-4071 | without memory for a bigger ring nothing changes; without a block the insertion is undone |
| BlockIndex.ReadHelps | deflect/moodycamel/concurrentqueue.h:4079-4104 | whatever others do, each operation of a look-up brings it nearer to its end, and nobody else moves it |
| BlockIndex.LookUpVisits | deflect/moodycamel/concurrentqueue.h:3873-3986 | a look-up comes to its first block after three operations, and from each block to the next one up to the last |
| QueueOnRing.StepInv | deflect/moodycamel/concurrentqueue.h:3389-4163 | a step of the whole is, for the queue, the step that `ImplicitQueue` makes with its map and set, or none; for the ring and the list, an operation that `BlockIndex` and `FreeList` permit, or none: only live blocks are looked up, and no consumer needs a retired entry |
| QueueOnRing.FoundInMap | deflect/moodycamel/concurrentqueue.h:3528-3545 | the block a consumer finds through the ring is the one the map has |
| QueueOnRing.ExecuteInv | deflect/moodycamel/concurrentqueue.h:3389-4163 | the three stay coupled in every run |
| QueueOnRing.DeliveredAsProduced | deflect/moodycamel/concurrentqueue.h:3389-3579 | with blocks found in the ring and taken from the list, what is taken out at an index is what was published there |
| QueueOnRing.HandedOutIsUnused | deflect/moodycamel/concurrentqueue.h:4252-4272 | a block that try_get is about to hand to the producer is in no consumer's hands and is not where the producer writes |
| RingProgress.ProduceHelps | deflect/moodycamel/concurrentqueue.h:3389-3482 | each operation of an enqueue on the ring brings it nearer to its end, or is one of the free list in search of a block |
| RingProgress.RunHelps | deflect/moodycamel/concurrentqueue.h:3873-3997 | each operation of a consumer that has claimed indices brings it nearer to having taken and reported all of them, or is one of adding a block to the free list |
| RingProgress.OthersLeaveProducer | deflect/moodycamel/concurrentqueue.h:3484-3579 | no operation of a consumer sets the producer back |
| RingProgress.ProducerLeavesOthers | deflect/moodycamel/concurrentqueue.h:3389-3482 | and none of the producer a consumer |
| ProducerTable.StepInv | deflect/moodycamel/concurrentqueue.h:4649-4879 | probing, counting, resizing under the flag and storing keys keep the invariant of the chain of tables |
| ProducerTable.ExecuteInv | deflect/moodycamel/concurrentqueue.h:4649-4879 | the invariant holds after every schedule of any threads with any hashes |
| ProducerTable.FindsOwnProducer | deflect/moodycamel/concurrentqueue.h:4668-4731 | the step that ends a call returns a producer, and it is the one the calling thread has registered, through any number of resizes |
| ProducerTable.RegisteredOnce | deflect/moodycamel/concurrentqueue.h:4649-4879 | once registered, a thread's producer never changes: no second one is ever created |
| ProducerTable.NeverShared | deflect/moodycamel/concurrentqueue.h:4649-4879 | two threads never get the same producer |
| ProducerTable.NeverFull | deflect/moodycamel/concurrentqueue.h:4733-4823 | a table that holds keys holds fewer than three quarters of its capacity |
| ProducerTable.ProbingEnds | deflect/moodycamel/concurrentqueue.h:4680-4727 | no probe sequence goes round a table once without ending |
| ProducerTable.RunHelps | deflect/moodycamel/concurrentqueue.h:4649-4879 | while no other thread resizes, each operation of a call brings it nearer to its end |
| ProducerTable.LoneCallEnds | deflect/moodycamel/concurrentqueue.h:4649-4879 | after any run, a call that goes on alone, the resize flag not being held by another, ends with a producer that was made for its thread |
| Semaphore.StepInv | deflect/moodycamel/blockingconcurrentqueue.h:242-409 | every step of every wait and signal path, failed and spurious compare-and-swaps and time-outs included, keeps both accounts |
| Semaphore.Conservation | deflect/moodycamel/blockingconcurrentqueue.h:242-409 | always: waiters = kernel permits + permits being posted + max(0, -count), and signalled = returned + in transit + max(0, count) + kernel permits + permits being posted |
| Semaphore.NoOverAcquisition | deflect/moodycamel/blockingconcurrentqueue.h:343-398 | waits never return more permits than were signalled |
| Semaphore.ResultsInRange | deflect/moodycamel/blockingconcurrentqueue.h:292-398 | a call returns at most what it asked for, and waitMany without a time-out at least one |
| Semaphore.NobodySleepsForNothing | deflect/moodycamel/blockingconcurrentqueue.h:400-409 | no lost wake-up: with a non-negative count, each waiter has a kernel permit of its own, posted or about to be |
| Semaphore.StuckMeansSpent | deflect/moodycamel/blockingconcurrentqueue.h:242-409 | when no thread can go on and somebody waits, every permit ever signalled has been returned |
| Semaphore.TimedOutGetsOut | deflect/moodycamel/blockingconcurrentqueue.h:271-289 | with no signal half-done, a timed-out waiter leaves the undo loop in two of its own steps, with its permit or with the count put right |
| Semaphore.ReleaseFits | deflect/moodycamel/blockingconcurrentqueue.h:400-409 | the number handed to the kernel never exceeds the number of threads, so its conversion to int is exact below 2^31 threads |
| Semaphore.TakesAllItMay | deflect/moodycamel/blockingconcurrentqueue.h:303-310 | a compare-and-swap that succeeds lowers the count, and raises the result, by exactly min(max, count) |
| Semaphore.TriesAgain | deflect/moodycamel/blockingconcurrentqueue.h:368-381 | one that fails, spuriously or not, takes nothing; tryWaitMany tries again exactly while the count it sees is positive |
| Semaphore.ThenGreedily | deflect/moodycamel/blockingconcurrentqueue.h:318-334 | whoever gets a single permit, awake or after sleeping, tries for the rest of what it asked for |
| Semaphore.LoneWait | deflect/moodycamel/blockingconcurrentqueue.h:368-391 | an undisturbed tryWaitMany(max) returns min(max, max(0, count)) permits and takes them off the count, and so does waitMany if there are any |
| Semaphore.LoneSleeper | deflect/moodycamel/blockingconcurrentqueue.h:292-318 | an undisturbed waitMany that finds none spins through and goes to sleep, counted |
| Semaphore.LoneSignal | deflect/moodycamel/blockingconcurrentqueue.h:400-409 | an undisturbed signal(n) adds n to the count and posts one kernel permit per sleeper, n at most |
| BlockingQueue.StepInv | deflect/moodycamel/blockingconcurrentqueue.h:557-565 | inserting before signalling and acquiring before redeeming keep elements and permits in balance |
| BlockingQueue.ElementsConserved | deflect/moodycamel/blockingconcurrentqueue.h:789-800 | what was put in is what is inside plus what was fetched, as multisets |
| BlockingQueue.ElementsCoverPermits | deflect/moodycamel/blockingconcurrentqueue.h:926-937 | the queue holds one element per permit that is free, on its way or unredeemed, plus one per enqueue not yet signalled |
| BlockingQueue.RedeemingFinds | deflect/moodycamel/blockingconcurrentqueue.h:926-937 | the loop that redeems a consumer's permits is never owed more than the queue holds |
| BlockingQueue.NoPermitMeansInFlight | deflect/moodycamel/blockingconcurrentqueue.h:789-800 | when the only consumer finds no permit, all that is inside belongs to enqueues that have not signalled |
| BlockingQueue.LoneEnqueue | deflect/moodycamel/blockingconcurrentqueue.h:557-565 | an undisturbed enqueue adds its element and one permit |
| BlockingQueue.LoneAcquire | deflect/moodycamel/blockingconcurrentqueue.h:789-800 | an undisturbed bulk dequeue is owed exactly min(max, permits) elements, and none exactly if there is no permit |
| BlockingQueue.Redeems | deflect/moodycamel/blockingconcurrentqueue.h:789-800 | it is done exactly when it has as many elements as it was owed, which have left the queue |
| SendWorker.StepInv | deflect/StreamSendWorker.cpp:81-174 | inserting, signalling, taking, fetching, performing, stopping and draining keep every request in exactly one place |
| SendWorker.SettledOnce | deflect/StreamSendWorker.cpp:110-155 | no promise is settled twice |
| SendWorker.AllSettled | deflect/StreamSendWorker.cpp:63-155 | with empty queues and the worker between rounds or gone, every request is settled or is the postponed finish |
| SendWorker.BarrierExact | deflect/StreamSendWorker.cpp:86-108 | when the worker turns to the postponed finish, as many complete requests are still queued as there are requests fetched before their own enqueue had returned |
| SendWorker.BarrierHolds | deflect/StreamSendWorker.cpp:86-108 | if there are none of the latter, every request is settled, is the finish, or is being enqueued just then |
| SendWorker.FinishRunsLast | deflect/StreamSendWorker.cpp:81-174 | whatever order the queue delivers in, a finish runs after all that its own thread enqueued before, and after all that anybody enqueued before if no enqueue is half-done when the worker turns to a finish |
| SendWorker.BarrierCanBreak | deflect/StreamSendWorker.cpp:86-108 | a reachable state in which the worker turns to the finish while a complete image of another thread is queued |
| SendWorker.NoRoomNoProgress | deflect/StreamSendWorker.cpp:51-56 | with hardware_concurrency() / 2 = 0 nothing is ever sent and no request is ever run |
| SendProgress.WorkHelps | deflect/StreamSendWorker.cpp:81-155 | with room in the batch, every step of the worker, whatever it takes or fetches and whether a task fails or not, lowers a measure of the work left |
| SendProgress.WorkIsFinite | deflect/StreamSendWorker.cpp:81-155 | so from every reachable state the worker alone takes at most as many steps as that measure |
| SendProgress.GoesOnIff | deflect/StreamSendWorker.cpp:86-108 | it can take a step if and only if it has not exited and is not waiting with no permit, no batch and no postponed finish |
| SendProgress.EndMeansSettled | deflect/StreamSendWorker.cpp:81-155 | where its steps end, as many complete requests are queued as were fetched before their enqueue had returned; with no enqueue half-done, every request is settled |
| SendProgress.ComesToRest | deflect/StreamSendWorker.cpp:81-155 | from every reachable state of a running worker, such an end is reached |
| SendProgress.SendsIff | deflect/StreamSendWorker.cpp:51-56 | some run sends a message if and only if the batch has room |
| SendGate.ShutMeansOutstanding | deflect/StreamPrivate.cpp:183-224 | as long as no task fails and nothing is discarded, the gate is shut only while a finish is queued, fetched, postponed or being performed |
| SendGate.GateOpens | deflect/StreamSendWorker.cpp:81-155 | with no enqueue half-done, a worker that goes on until it can do no more, none of its tasks failing, leaves the gate open |
| SendGate.SettledHonestly | deflect/StreamSendWorker.cpp:131-153 | a promise is settled with success only after all messages of its request were sent, and without it only by the failure of one of its tasks, which sends nothing |
| SendGate.StopEnds | deflect/StreamSendWorker.cpp:63-79 | stop() called at any moment: the worker takes finitely many steps more, and can take one exactly until it has left its loop |
| FrameGate.NotLateInOrder | deflect/StreamPrivate.cpp:183-224 | if no call of one client added a frame message while a finish was waiting, what was sent and will be sent is what its calls asked for, in order |
| FrameGate.InOrderIff | deflect/StreamPrivate.cpp:183-224 | if the worker never turns to a finish while an enqueue is half-done, that is so if and only if there was no such call |
| FrameGate.RepairedByChance | deflect/StreamPrivate.cpp:183-224 | a run without that supposition: a call came too early and the order is right all the same |
| FrameGate.SentIff | deflect/StreamPrivate.cpp:183-224 | once all work is done: the wire carried exactly the accepted messages in order, under the same condition |
| FrameGate.SentPrefix | deflect/StreamPrivate.cpp:183-224 | under that condition, at any time what was sent is a prefix |
| FrameGate.CarefulIsInOrder | deflect/TaskBuilder.cpp:84-105 | a client that waits for its finishes never makes a late call, so FINISH_FRAME separates its frames |
| FrameGate.HastyFinishMisplaces | deflect/TaskBuilder.cpp:84-105 | a large image with finish followed at once by finishFrame: the first request opens the gate the second has closed, and the next image gets ahead of its finish |
| FrameOrder.InOrderExactly | deflect/StreamPrivate.cpp:183-224 | for every run: what was sent and will be sent is what the calls of one client asked for, in order, if and only if none of them was signalled, or is still to be, while a finish called before it waited |
| FrameOrder.SentExactly | deflect/StreamPrivate.cpp:183-224 | so once all work is done the wire carried the accepted messages in order exactly if no call overtook a finish |
| FrameOrder.StepSound | deflect/StreamSendWorker.cpp:81-174 | step by step: without the request in flight a stream's plan stays in order, until that request is signalled while it overtakes a finish |
| FrameOrder.PriorWorks | deflect/StreamSendWorker.cpp:81-155 | the worker does the same with and without a request that is inserted and not signalled, and never fetches it |
| MTQueue.StepInv | deflect/MTQueue.h:63-90 | a critical section, notification or spurious wake-up keeps the sleepers covered; clear does so if and only if it is called at a safe moment |
| MTQueue.ClearInvIff | deflect/MTQueue.h:84-90 | that moment: maxSize is at most one more than the producers that are awake, or only the one it wakes is asleep |
| MTQueue.FirstInFirstOut | deflect/MTQueue.h:63-90 | in every run, what was put and not cleared is what was got followed by what is inside, which never exceeds maxSize |
| MTQueue.ReturnsIff | deflect/MTQueue.h:63-82 | a thread that gets the mutex stores its item and returns exactly if there is room, and takes the first item and returns exactly if there is one; otherwise it sleeps and nothing changes |
| MTQueue.CallsAccounted | deflect/MTQueue.h:63-90 | in every run, the items of the enqueue calls that have returned, as they were passed and in that order, are what has come out followed by what is inside, clear starting the account anew |
| MTQueue.NoLostWakeUp | deflect/MTQueue.h:63-90 | all along a run a consumer sleeps un-notified only if there are no more items than woken consumers, and a producer only if there are no more free places than woken producers, if and only if clear is called at safe moments only |
| MTQueue.QuietMeansBlocked | deflect/MTQueue.h:63-90 | in such a run, when nobody runs, consumers sleep on an empty queue only and producers on a full one only |
| MTQueue.ClearLosesWakeUp | deflect/MTQueue.h:84-90 | a run after which clear leaves one of two waiting producers asleep beside a free place |
| JpegHandOff.NothingLeftBehind | deflect/ImageSegmenter.cpp:109-182 | for any schedule, failures and handler: on return or throw every task has delivered, each segment was dequeued once, and the queue is empty |
| JpegHandOff.AllHandled | deflect/ImageSegmenter.cpp:109-152 | if it returns, no task failed, the handler was given every segment once, and the result is true exactly if no answer was bad |
| JpegHandOff.ReturnsIff | deflect/ImageSegmenter.cpp:109-152 | of the calls that have ended, exactly those return in which no compression failed and the handler never threw; the others throw |
| JpegHandOff.HandledFirst | deflect/ImageSegmenter.cpp:109-152 | the handler is given the first segments taken, in that order, and none after something has gone wrong |
| JpegHandOff.SomethingComes | deflect/ImageSegmenter.cpp:109-152 | while the consumer has segments to take, one is queued or a task is still working |
| Segmenter.ImageSegmenter.MakeSegmentationInfo | deflect/ImageSegmenter.cpp:284-320 | counts and last sizes, wrapped additions included, are the rounded-up quotient and what is left for the last segment; one segment without nominal sizes |
| Segmenter.ImageSegmenter.MakeSegmentParameters | deflect/ImageSegmenter.cpp:263-282 | the nested loops list the cells row by row, at the image's place in the stream |
| Segmenter.ImageSegmenter.GenerateSegmentTasks | deflect/ImageSegmenter.cpp:229-261 | the cells once, or for side-by-side images once per eye, left before right; an odd width of those is refused |
| Segmenter.ImageSegmenter.GenerateRaw | deflect/ImageSegmenter.cpp:184-227 | the handler gets the raw segments in order until it refuses one; true exactly if it got all |
| Segmenter.ImageSegmenter.FillRaw | deflect/ImageSegmenter.cpp:192-219 | a segment is the whole buffer if it is the only one, and otherwise the lines of its cell |
| Segmenter.ImageSegmenter.CopyLines | deflect/ImageSegmenter.cpp:204-216 | the loop that advances lineData copies the lines at offset + r * pitch, without leaving the buffer |
| Segmenter.SegmentCount | deflect/ImageSegmenter.cpp:229-320 | ceil(H/h) * ceil(W/w) segments per eye |
| Segmenter.PixelCovered | deflect/ImageSegmenter.cpp:263-320 | every pixel of an eye lies in a segment |
| Segmenter.PixelOnce | deflect/ImageSegmenter.cpp:263-320 | and in one only |
| Segmenter.RegionInside | deflect/ImageSegmenter.cpp:263-320 | and no segment reaches outside |
| Segmenter.JpegRegionIsRegion | deflect/ImageSegmenter.cpp:154-162 | wherever the image is placed, coordinates that wrap included, the region given to the compressor is the segment's own part of the image |
| Segmenter.DimensionsOfSegments | deflect/server/Frame.cpp:46-60 | computeDimensions of the segments' tiles is the image's origin plus the size of one eye's part |
| RawSegments.ReadableIff | deflect/ImageSegmenter.cpp:200-216 | several raw segments are copied from inside the buffer if and only if the image begins at row 0 and at a column whose byte offset is 0 modulo 2^32 |
| RawSegments.OriginMatters | deflect/ImageSegmenter.cpp:200-216 | an image of one column and two rows that begins in row 1: cut into pixels, it is read past its end |
| RawSegments.RawByte | deflect/ImageSegmenter.cpp:184-227 | byte c of line r of a segment is the byte of the image at that place of its region and eye, and the segment has no other bytes |
| RawSegments.SegmentLabelled | deflect/ImageSegmenter.cpp:184-282 | a raw segment carries the place of its cell in the stream, its size, the RGBA format, the row order and channel of the image and the view of its eye |
| RawSegments.PastedIsOriginal | deflect/ImageSegmenter.cpp:184-227 | whoever pastes the segments of an eye at their regions gets every byte of that part of the image |
| RawSegments.PastedIsImage | deflect/ImageSegmenter.cpp:184-227 | for other images the pasted buffer is the original one |
| Wire.HeaderRoundTrip | deflect/MessageHeader.cpp:69-88 | reading the 72 bytes of a written header gives the header back |
| Wire.HeaderLayout | deflect/MessageHeader.cpp:69-75 | each of the 72 bytes: type and size with the most significant byte first, then the URI buffer |
| Wire.UriRoundTrip | deflect/MessageHeader.cpp:56-66 | a URI without NUL arrives whole if it has at most 63 bytes, and otherwise its first 63 bytes do |
| Wire.MessageHeader.constructor | deflect/MessageHeader.cpp:56-66 | byte by byte: the first 63 bytes of the URI, as far as it goes, and zeros behind them |
| Wire.MessageHeader.Serialize | deflect/MessageHeader.cpp:69-75 | the bytes written are type and size in big-endian order and the whole URI buffer |
| Wire.MessageSize | deflect/MessageHeader.cpp:69-88 | the bytes of a message are 72 of header, which give it back, and then the body |
| Wire.Socket.Write | deflect/Socket.cpp:221-238 | the bytes written are as many of the message as all calls together accept, in order, and true means all of it |
| DeltaCodec.StreamSendWorker.SendSegment | deflect/StreamSendWorker.cpp:193-208 | what was delivered so far is a prefix of the messages for all items, as long as the connection takes; true means all of them |
| DeltaCodec.StreamSendWorker.EncodeSegment | deflect/StreamSendWorker.cpp:193-248 | changed view, row order and channel first, then the segment, as far as the connection goes; the assumed state is updated if all went out |
| DeltaCodec.StreamSendWorker.SendFinish | deflect/StreamSendWorker.cpp:250-253 | the same for a finish |
| DeltaCodec.ParametersRoundTrip | deflect/server/ServerWorker.cpp:350-367 | parsing a segment message gives geometry, format and data back, with the server's current view, row order and channel |
| DeltaCodec.RoundTripIff | deflect/server/ServerWorker.cpp:206-265 | although state is sent on change only, the server reports every tile with all its parameters and every finish, in order, if and only if no tile is marked side-by-side |
| DeltaCodec.SideBySideIsLost | deflect/server/ServerWorker.cpp:206-265 | a single tile marked side-by-side is not reported as it was sent |
| DeltaCodec.PrefixReported | deflect/StreamSendWorker.cpp:193-253 | if the connection ends after n messages, the server has reported exactly the items conveyed completely |
| DeltaCodec.EndToEnd | deflect/server/ServerWorker.cpp:206-265 | from the opening on: the source under its cut URI, then a prefix of the items as they were sent |
| ServerWorkers.HandlePaired | deflect/server/ServerWorker.cpp:206-336 | every message, valid or not, keeps: added and not removed while the protocol runs, added and removed in the same role once it has ended |
| ServerWorkers.AddedAndRemovedOnce | deflect/server/ServerWorker.cpp:92-103 | whatever a client sends, by the destruction of its worker it was added once and then removed once, or neither |
| ServerWorkers.SilentBefore | deflect/server/ServerWorker.cpp:206-220 | nothing that comes before a valid opening is reported or remembered |
| ServerWorkers.SessionReports | deflect/server/ServerWorker.cpp:206-265 | from the opening on: the role and URI, and then, for each tile, finish, data and size hints message in order, exactly one report with that content (of a tile, its image data), and none for other messages |
| ServerWorkers.SilentAfter | deflect/server/ServerWorker.cpp:206-224 | a QUIT reports the removal in the role of the opening, and nothing is reported after it |
| ServerWorkers.BadStateIgnored | deflect/server/ServerWorker.cpp:244-259 | a view or row order that does not exist changes nothing |
| ServerWorkers.ParametersLayout | deflect/StreamSendWorker.cpp:193-208 | each byte of the parameters in front of a segment: four little-endian words, the format, and padding |
| ServerWorkers.NextMessage | deflect/server/ServerWorker.cpp:155-198 | 72 bytes that begin what is left of the stream are the header of the next message, and its body follows |
| ServerWorkers.ServerWorker.ReceiveMessageBody | deflect/server/ServerWorker.cpp:180-198 | exactly size bytes are taken off the stream, however they arrive; failure means that no more would come |
| ServerWorkers.ServerWorker.TakeMessage | deflect/server/ServerWorker.cpp:155-198 | the message taken is the next one sent, with its URI cut, and the stream continues with those after it |
| ServerWorkers.ServerWorker.HandleMessage | deflect/server/ServerWorker.cpp:206-289 | refused exactly for messages before the start, a second start, an empty URI or a restart, which the contract writes out, and then without effect; a body too short for what it is cast to is read on into the memory behind it |
| ServerWorkers.ServerWorker.ReceiveMessage | deflect/server/ServerWorker.cpp:155-168 | one more message is handled as it was sent, or the stream has broken off inside it; an error is announced, with the end of the connection, exactly if it was refused or broke off |
| ServerWorkers.ServerWorker.ProcessMessages | deflect/server/ServerWorker.cpp:136-153 | a turn keeps handled messages a prefix of those sent, makes progress, and leaves a turn queued if a whole header remains |
| ServerWorkers.ServerWorker.Run | deflect/server/ServerWorker.cpp:136-204 | for every split into chunks and every order of arrivals and turns, the messages handled are a prefix of those sent, and all of them if all bytes were sent and the connection lasted |
| ReceiveBuffers.ReceiveBuffer.AddSource | deflect/server/ReceiveBuffer.cpp:53-59 | refused exactly after the first pop; a source that is there keeps its frames |
| ReceiveBuffers.ReceiveBuffer.RemoveSource | deflect/server/ReceiveBuffer.cpp:61-68 | the others keep theirs; the count restarts when the last one leaves |
| ReceiveBuffers.ReceiveBuffer.InsertTile | deflect/server/ReceiveBuffer.cpp:75-80 | the tile goes to the open frame of that source, no other source changes |
| ReceiveBuffers.ReceiveBuffer.FinishFrameForSource | deflect/server/ReceiveBuffer.cpp:82-91 | refused, without effect, exactly when the queue is longer than 150 |
| ReceiveBuffers.ReceiveBuffer.HasCompleteFrame | deflect/server/ReceiveBuffer.cpp:93-103 | the early-exit loop decides whether there are sources and all are ahead |
| ReceiveBuffers.ReceiveBuffer.PopFrame | deflect/server/ReceiveBuffer.cpp:105-120 | the loop returns the front frames of all sources in ascending order, pops each once, and keeps the objects distinct and their queues non-empty |
| ReceiveBuffers.StepRefines | deflect/server/ReceiveBuffer.cpp:53-120 | each operation on the bounded queues is the operation on full per-source histories seen through the window |
| ReceiveBuffers.RunRefines | deflect/server/ReceiveBuffer.cpp:53-120 | so is every run of operations |
| ReceiveBuffers.QueueSize | deflect/server/SourceBuffer.cpp:48-87 | in every run queueSize = backIndex - lastFrameComplete + 1 and a source is 0 to 150 frames ahead, the difference being one of wrapping words, and a plain one until a source wraps |
| ReceiveBuffers.PoppedFrameIsAligned | deflect/server/ReceiveBuffer.cpp:105-120 | frame n consists, in ascending order of the sources, of exactly the tiles each inserted between its n-th and its (n+1)-th finish |
| ReceiveBuffers.CompleteIff | deflect/server/ReceiveBuffer.cpp:93-103 | hasCompleteFrame means: there are sources, each has finished more frames than were popped, and none 2^32 of them |
| ReceiveBuffers.InTimeIff | deflect/server/SourceBuffer.cpp:73-77 | a source's index is behind lastFrameComplete exactly if the source has closed its frame 2^32 - 1 |
| ReceiveBuffers.LastsIff | deflect/server/ReceiveBuffer.cpp:53-120 | in every reachable state, some continuation in which no source leaves completes another frame if and only if lastFrameComplete < 2^32 - 1 and no source is behind it |
| ReceiveBuffers.EndsAreReached | deflect/server/ReceiveBuffer.cpp:82-120 | runs reach the last index, and, from each of the last 150 indices before the wrap, a source that has wrapped |
| FrameDispatchers.FrameDispatcher.ConsumeLatestFrame | deflect/server/FrameDispatcher.cpp:55-74 | terminates, pops every complete frame, keeps the last, and takes the permission back; by the row order of the tiles themselves, top-down tiles go out as they are, bottom-up ones each with y = height - y - own height, and an error if there are none or they differ |
| FrameDispatchers.FrameDispatcher.AddSource | deflect/server/FrameDispatcher.cpp:107-123 | state and signals after a source joins or is rejected |
| FrameDispatchers.FrameDispatcher.RemoveSource | deflect/server/FrameDispatcher.cpp:125-134 | state and signals after a source leaves, unknown streams included |
| FrameDispatchers.FrameDispatcher.AddObserver | deflect/server/FrameDispatcher.cpp:136-143 | the same for an observer that joins |
| FrameDispatchers.FrameDispatcher.RemoveObserver | deflect/server/FrameDispatcher.cpp:145-156 | the same for an observer that leaves |
| FrameDispatchers.FrameDispatcher.ProcessTile | deflect/server/FrameDispatcher.cpp:158-163 | tiles of unknown streams are dropped, others reach their source's open frame |
| FrameDispatchers.FrameDispatcher.ProcessFrameFinished | deflect/server/FrameDispatcher.cpp:165-182 | a finish that completes a frame serves a waiting receiver; a full queue is an error |
| FrameDispatchers.FrameDispatcher.RequestFrame | deflect/server/FrameDispatcher.cpp:184-200 | gives the permission and uses it at once if a frame is complete |
| FrameDispatchers.FrameDispatcher.DeleteStream | deflect/server/FrameDispatcher.cpp:202-206 | forgets the stream and announces it closed |
| FrameDispatchers.FlowControl | deflect/server/FrameDispatcher.cpp:165-200 | over every run and per stream: frames sent plus the outstanding permission never exceed the requests |
| FrameDispatchers.PermissionStep | deflect/server/FrameDispatcher.cpp:158-200 | a step leaves a stream allowed exactly if the stream was there and stays, it was allowed or is so by this step, and the step sends no frame of it |
| FrameDispatchers.PermissionLasts | deflect/server/FrameDispatcher.cpp:158-206 | so over every run a stream is allowed exactly if a frame was requested since the last one was sent and since the stream came |
| FrameDispatchers.RemovalServes | deflect/server/FrameDispatcher.cpp:125-134 | the departure of a source completes a frame exactly if it was there, not ahead, not alone, and all others were ahead |
| FrameDispatchers.ServedStep | deflect/server/FrameDispatcher.cpp:107-206 | a step leaves a stream both allowed and complete exactly if it removes such a source from a stream whose receiver waits |
| FrameDispatchers.ServedIff | deflect/server/FrameDispatcher.cpp:107-206 | all along a run no stream is both allowed and complete if and only if the run has no such removal |
| FrameDispatchers.RequestServes | deflect/server/FrameDispatcher.cpp:184-200 | after requestFrame a stream is not both allowed and complete |
| FrameDispatchers.FinishServes | deflect/server/FrameDispatcher.cpp:165-182 | nor after a finish that is not refused for the size of the queue |
| FrameDispatchers.RemovalCanStall | deflect/server/FrameDispatcher.cpp:125-134 | a run in which the removal of a source leaves a complete frame and an allowed receiver unserved |
| FrameDispatchers.DrainedNewest | deflect/server/FrameDispatcher.cpp:60-63 | the loop leaves the newest frame that is complete in the sources' full histories in hand, and the histories unchanged |
| FrameDispatchers.ServedIsShown | deflect/server/FrameDispatcher.cpp:64-81 | whatever tiles are in hand: if all are top-down, exactly those are sent; if all are bottom-up, each is sent with y = height of its channel - y - own height and all else equal (sums below 2^31); with none or mixed ones an error |
| FrameDispatchers.RequestSendsNewest | deflect/server/FrameDispatcher.cpp:184-200 | what requestFrame sends are the tiles of that frame, shown as their own row order asks, with the number it has in the histories, or an error if it has none or they differ |
| FrameDispatchers.FinishSendsNewest | deflect/server/FrameDispatcher.cpp:165-182 | and so is what a finish sends to a waiting receiver, the finished frame included |
| FrameDispatchers.NumbersRise | deflect/server/FrameDispatcher.cpp:55-74 | the numbers of the frames sent increase strictly as long as the stream has sources |
| FrameDispatchers.ObserversCounted | deflect/server/FrameDispatcher.cpp:136-156 | in every run the count of a stream is the number of observers that joined and have not left since the stream came |
| Refusals.RefusedIff | deflect/server/FrameDispatcher.cpp:107-123 | a source is refused, with one rejection and one warning and no other effect, exactly if the stream has consumed frames of its present sources; otherwise it is in, and no other call ever says so |
| Refusals.Overflow | deflect/server/FrameDispatcher.cpp:165-182 | a finish of a source with more than 150 frames queued is an error without effect |
| FrameDispatchers.LifecycleStep | deflect/server/FrameDispatcher.cpp:107-206 | every stored stream keeps a source or an observer; opened minus closed stays 1 for stored streams and 0 for others, if and only if the step is not one of two disorderly ones |
| FrameDispatchers.RejoinSpoils | deflect/server/FrameDispatcher.cpp:107-123 | a run in which a stream is opened twice, because its sole source joined twice |
| FrameDispatchers.DeletionSpoils | deflect/server/FrameDispatcher.cpp:202-206 | a run in which a stream is closed that was never opened |
| FrameDispatchers.Lifecycle | deflect/server/FrameDispatcher.cpp:107-206 | so in every run with distinct live sources that deletes stored streams only, both hold throughout |
| Frames.Frame.ComputeDimensions | deflect/server/Frame.cpp:46-60 | the loop computes the covering size of a channel, starting from (0, 0) |
| Frames.Frame.ComputeChannelDimensions | deflect/server/Frame.cpp:78-88 | the map has exactly the channels present, each with its covering size, starting from (-1, -1) |
| Frames.Frame.DetermineRowOrder | deflect/server/Frame.cpp:62-76 | no tiles and mixed orders are told apart from the common order |
| Frames.Frame.MirrorTilesPositionsVertically | deflect/server/FrameDispatcher.cpp:76-81 | rewriting y in place flips every tile within the height its channel had before |
| Frames.ExtentFits | deflect/server/Frame.cpp:46-88 | the computed size covers every tile of the channel, and each side is reached by a tile or is the starting one: the smallest such size |
| Frames.DimensionsAgreeIff | deflect/server/Frame.cpp:46-88 | the two computations agree exactly if some tile has a non-negative right edge and some a non-negative lower edge, read as int |
| Frames.DimensionsCanDisagree | deflect/server/Frame.cpp:46-88 | a tile whose right edge is at 2^31: the widths are -1 and 0 |
| Frames.DimensionsAgree | deflect/server/Frame.cpp:46-88 | with sums below 2^31 they agree on every channel present |
| Frames.MirrorStaysInside | deflect/server/FrameDispatcher.cpp:76-81 | the unsigned subtraction does not underflow: tiles land inside the frame, at height - y - own height |
| Frames.MirrorRows | deflect/server/FrameDispatcher.cpp:76-81 | a tile covers row r exactly if its mirror image covers row H - 1 - r |
| Frames.MirrorTwice | deflect/server/FrameDispatcher.cpp:76-81 | mirrored twice, every tile moves up by the smallest y of its channel: the identity if that is 0 |

## Left out

Memory and time:

- Weak memory orders: all atomic operations are sequentially consistent. Elements move without throwing.
- The machines of the first part are values, not objects updated in place, because several threads update them.
- Counters: no consumer's second look compares counters 2^63 or more apart (`Tickets.Near`), fewer than 2^31 - 1 threads on a free list, no overflow of the semaphore's 64-bit count, at most 54 doublings of a block index.
- Allocation of blocks, tables and rings succeeds; what the queue does without memory is not part of this model, except that the ring of `BlockIndex` may fail to grow.
- Liveness under a scheduler: instead of fairness, states where nobody can go on are characterised, calls left alone are followed to their end, and the steps of the producer and of the worker are counted. In `QueueOnRing` the operations of the free list are not counted (`RingProgress`).

The queue:

- Explicit producers, tokens, moving and swapping queues, destructors, statistics and the recycling of producers on thread exit: Deflect does not use them, or only at shutdown.
- `QueueOnRing`: blocks come from the list or are new; the pool of blocks made in advance is not modelled.
- `BlockingQueue` takes the inner queue as a bag: a dequeue finds an element whenever one is inside. `QueueOnRing` has one producer; a free list shared by several producers, and the scan of try_dequeue over the producers, are not put together with it.
- The semaphore's wait() is waitMany(1) without the greedy second round, and is not modelled by itself.

The client:

- `SendWorker` postpones one finish at a time, as the code does; a finish that is postponed when the worker stops stays unsettled (`SendWorker.AllSettled` admits it).
- `FrameGate` has one client thread, no failing send and no stop. The segments of one image count as one message.
- Checks of parameters, createSingleSegment, observers, events and size hints, and the tasks of other requests.
- JPEG and YUV coding: the compressor's input is the region it is given.
- Opening a socket, host names and environment variables, Qt's threads and event loop, everything under apps/ and deflect/qt/.

The server:

- Tiles and finishes of unknown sources are excluded by preconditions where the original asserts.
- A frame without tiles runs into an assertion in a debug build; the model follows the release build, where determineRowOrder throws and the error is signalled.
- ServerWorkers.ServerWorker.HandleMessage: what lies behind a body that is too short is any memory, where the original may also fault; `Run` has clients whose bodies are long enough.
- Registration for events and the events sent back. Bytes that arrive in a wait inside a message queue no turn of their own, the less favourable assumption.
- A wait for data fails only when no more is coming: time-outs of a slow connection are not modelled.
- `Wire.Socket.Write` does not model an error return (-1) of the socket; Socket::receive, which reads replies on the client, is not modelled.
- URIs that contain NUL. Padding bytes of SegmentParameters are sent as zeros.
