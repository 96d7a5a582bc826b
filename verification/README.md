# Sinetlib, verified

A Dafny model of the parts of Sinetlib that carry its hardest arguments: the lock-free
task queue (`src/base/concurrentqueue.h`), the event loop that drains it, the
asynchronous logger, and the byte pipeline from socket to parsed HTTP request and back.
`dafny verify dfyconfig.toml` checks everything.

## How the model is built

**Concurrent code** (`FreeList`, `Tickets`, `BlockIndex`, `ProducerQueue`, `ProducerHash`,
`BlockPool`, `Looper`) is a transition system: a `State` with the shared atomic fields and
one program counter per thread, an `Action` type, `Enabled`, and `Apply`, which per step
makes one atomic access to a word that another thread may write meanwhile: a load, store,
compare-and-swap or fetch-and-add. Words that only the acting thread writes (the writer's
own tail slot and keys in `BlockIndex.Look`, `UndoNull` and `Abandon`, a block that is not
yet in the index) are read, or written, in the same step as the access that goes with
them. Any number of threads interleave sequentially consistently. Each module has an
invariant `Inv(s, ghost)`, a lemma `StepInv` that every step of every thread keeps it, and
theorems read off it for every reachable state. Counters are carried as unwrapped numbers; the tests of the code are
made on residues modulo 2^w, and `Circular` relates the two. Three tests of `ProducerQueue`
(how many blocks an enqueue opens, and where the loops over a block stop, in the producer
and in a consumer) are made on plain numbers; `WrappedTests` shows that on words they come
to the same. `BLOCK_SIZE` is any power of two from 2 on, and w any width.

- `FreeList`: the reference-counted CAS list of `add`/`try_get`.
- `BlockPool`: initial pool, free list and allocator together.
- `FreeListCalls`, `BlockPoolCalls`, `ProducerHashCalls`: what their calls answer, and why: over
  every run, and for a call that runs alone.
- `Tickets`: `dequeueOptimisticCount`, `dequeueOvercommit`, `headIndex`, `tailIndex`.
- `TwoConsumers`: for how many consumers the ticket protocol is safe unconditionally.
- `BlockIndex`: the growing circular index with its one writer and its many readers.
- `IndexOverrun`: what becomes of the index without the condition on its use.
- `ProducerQueue`, `ProducerInvariant`, `ProducerConsumers`, `ProducerBlocks`,
  `ProducerEnqueuer`, `ProducerTheorems`: one implicit producer with all its consumers:
  tickets, index and blocks of elements composed. A single `enqueue` or `dequeue` makes
  the same accesses in the same order as a bulk call for one item, so bulk is modelled;
  but for an element whose constructor may throw, a single `enqueue` that opens a block
  constructs the element before it stores the block into the index, not after.
- `ProducerOutcomes`: what an enqueue answers and why, and how many steps of its own an
  operation takes at most.
- `ProducerRuns`, `WrappedTests`: what holds between different moments of a run, and the
  tests on words.
- `SingleConsumer`: the same producer with one consumer, as the event loop uses it.
- `BlockSupply`: any number of producers with the pool they share.
- `ProducerHash`: the table from thread ids to producers, resized under its readers.
- `TryDequeue`: `try_dequeue` over all producers, as imperative methods: once with whatever
  the producers answer while others interfere, once alone.
- `Looper`: `AddTask`, the eventfd counter, poll, and the drain that scans the streams;
  `LooperTasks`: the tasks run against the tasks queued, the counter against the writes.

**Sequential code** that updates objects is imperative: `LogBuffer.Buffer`,
`AsyncLogger.Logger` (each method is one stretch that runs without interference),
`LogStream.Convert`, `IOBuffer.IOBuffer`, `Connection.Connection` with its `Socket`,
`HttpRequest.HttpRequest` and `HttpParser.HttpParser` are classes or methods with loops,
proved against functions on byte sequences about which the laws are proved.

## Where the code promises less than it seems

- The ticket test grants only published elements as long as the ticket does not lead what
  is published by more than half an index range, as its holder reads the overcommits;
  `Tickets.GrantSoundIffTimely` is the exact condition for every lead. With one or two
  consumers it always holds, with three it can fail, whatever the width of the indices: the
  head stays behind the tail in every run of n consumers if and only if n is at most two
  (`TwoConsumers.SafeIffAtMostTwo`). In the failing run (`Tickets.UntimelyOverrun`) a
  consumer sleeps and is then granted an element that was never published.
- The block index works exactly as long as its capacity divides a turn of the index
  (`BlockIndex.FindSlotExact`); any two live blocks a whole turn apart share a key
  (`BlockIndex.OneTurnApart`). The code doubles the capacity without a test, and the doubled
  index is right if and only if no live block is a whole turn behind
  (`BlockIndex.DoublingSoundIffNear`); otherwise the consumer of the older block is led to
  the newer one (`IndexOverrun.SleeperLosesItsBlock`).
- The theorems about several consumers of a producer therefore speak of runs in which no
  ticket holder falls half an index range behind (`Tickets.Timely`) and no consumer still
  at work a whole one (`ProducerInvariant.Recent`); with 64-bit indices that is 2^63
  tickets and 2^64 elements. With one consumer, which is how the event loop uses its queue,
  every run is such a run: `SingleConsumer.OneConsumerIsRecent`.
- An `enqueue_bulk` of nearly as many items as there are indices counts too few blocks;
  `WrappedTests.CountDownExact` says exactly when.
- A task added from the loop's own thread before `Start` is not signalled and waits for
  some other event: `Looper.EarlyTaskIsStranded`. Exactly when the loop's thread has
  queued something and no other thread has, `Start` strands it: `Looper.StartIffClean`.
  The first return of poll, for whatever reason, ends the harm: `Looper.NoStrandedTask`.
- `ParseRequest` returns an uninitialised `ok` unless a request line is parsed in that
  very call; `HttpParser.HttpParser.ParseRequest` returns `None` there.
- After the logger has cut a round of more than 25 buffers down to two, the file is only
  a subsequence of what was accepted, of whole messages and in order.
- The constructor of `IOBuffer` ignores the size it is given.

## Model

| member | source | states |
|---|---|---|
| Circular.CircularLessExact | src/base/concurrentqueue.h:406-413 | the circular comparison equals the comparison of the counters exactly within half a turn, one way or the other |
| Circular.SingleTestIsBulkTest | src/base/concurrentqueue.h:2479 | the single-item ticket test is the bulk test for a positive difference |
| FreeList.StepInv | src/base/concurrentqueue.h:1375-1454 | every step of every thread keeps the list an acyclic, duplicate-free chain with exact reference counts, and changes it only by pushing in front or removing the first |
| FreeList.StepPop | src/base/concurrentqueue.h:1403-1414 | a successful head CAS installs the true successor, whatever happened since it was read |
| FreeList.StepPush | src/base/concurrentqueue.h:1442-1453 | a successful push puts its node in front of the chain |
| FreeList.RunInv | src/base/concurrentqueue.h:1375-1454 | the invariant holds in every state of every run with fewer than 2^31 - 1 threads |
| FreeList.Exclusive | src/base/concurrentqueue.h:1375-1454 | every node is on the list, owned, awaiting its re-add or in one thread's hand: exactly one of the four |
| FreeList.TakenNodeIsNotFlagged | src/base/concurrentqueue.h:1407-1409 | the assertion after a successful head CAS always holds |
| FreeList.HeldLinkIsStable | src/base/concurrentqueue.h:1403-1406 | while a reference is counted no step of any thread changes the node's link |
| FreeList.AwaitingIsHeld | src/base/concurrentqueue.h:1416-1423 | a node flagged for re-adding is still referenced by a thread that will drop it |
| FreeList.NotHandedOutTwice | src/base/concurrentqueue.h:1375-1454 | between two hand-outs of a node some client added it back |
| FreeList.Quiescent | src/base/concurrentqueue.h:1375-1454 | with no call in progress every node is on the list or owned, with count one or zero |
| FreeListCalls.NullMeansEmpty | src/base/concurrentqueue.h:1389-1426 | over every run: a `try_get` that ends without a node had seen the head null in some state during the call |
| FreeListCalls.GetAlone | src/base/concurrentqueue.h:1389-1426 | alone, on a list that is not empty, `try_get` returns its first node, which the list loses, in seven steps |
| FreeListCalls.GetAloneEmpty | src/base/concurrentqueue.h:1389-1426 | alone, on an empty list, `try_get` returns nothing and changes nothing |
| FreeListCalls.AddAlone | src/base/concurrentqueue.h:1375-1454 | alone, `add` puts its node in front of the list in five steps |
| BlockPool.StepInv | src/base/concurrentqueue.h:2966-3018 | each requisition that succeeds gives out exactly one block, which no producer had |
| BlockPool.RunInv | src/base/concurrentqueue.h:2949-3018 | pool, free list and producers keep sharing out the blocks in every run |
| BlockPool.Partition | src/base/concurrentqueue.h:2949-3018 | every block ever created is in the pool, with a producer, on the free list or in transit: exactly one of the four |
| BlockPool.NothingLost | src/base/concurrentqueue.h:2949-3018 | with no call in progress no block is in transit |
| BlockPoolCalls.RequisitionOutcome | src/base/concurrentqueue.h:2999-3018 | over every run: a requisition that hands out no block found the initial pool used up and, during the call, the free list empty, and was refused an allocation if it may allocate; one that may not never allocates |
| BlockPoolCalls.AloneFromPool | src/base/concurrentqueue.h:2966-3006 | alone, with the initial pool not used up, a requisition hands out its next block |
| BlockPoolCalls.AloneFromList | src/base/concurrentqueue.h:2999-3011 | alone, with the pool used up, it hands out the first block of the free list |
| BlockPoolCalls.AloneFromAllocator | src/base/concurrentqueue.h:2999-3018 | alone, with both empty, it hands out a new block if it may allocate |
| Tickets.StepLedger | src/base/concurrentqueue.h:2477-2485 | optimistic count equals head plus overcommits plus tickets in flight at every step |
| Tickets.StepInv | src/base/concurrentqueue.h:2695-2716 | every step from a timely state keeps every granted ticket covered by published elements and claims apart |
| Tickets.RunInv | src/base/concurrentqueue.h:2695-2716 | the ticket invariant holds in every state of a timely run |
| Tickets.WonIsPublished | src/base/concurrentqueue.h:2714-2716 | the largest successful ticket bounds the number of successful ones by what is published |
| Tickets.HeadNeverPassesTail | src/base/concurrentqueue.h:2714-2716 | the head, with every grant still to be taken, never passes the tail |
| Tickets.ClaimsArePublishedAndApart | src/base/concurrentqueue.h:2484-2485 | every claimed element is already published and claimed by one consumer only |
| Tickets.ClaimedInOrder | src/base/concurrentqueue.h:2714-2716 | later claims start at or after the end of earlier ones |
| Tickets.GrantSoundIffTimely | src/base/concurrentqueue.h:2706-2709 | the grant is sound if and only if the ticket leads by at most half an index range, or by a number whose residue does |
| Tickets.UntimelyOverrun | src/base/concurrentqueue.h:2477-2485 | for every index width from two bits on, a run of three consumers from the start in which an old reading makes the head pass the tail and an unpublished element is claimed |
| Tickets.OneConsumerIsTimely | src/base/concurrentqueue.h:2477-2485 | with one consumer every run is timely |
| TwoConsumers.FewConsumersAreTimely | src/base/concurrentqueue.h:2695-2716 | with at most two consumers every run is timely |
| TwoConsumers.SafeIffAtMostTwo | src/base/concurrentqueue.h:2714-2716 | for every index width from two bits on, the head never passes the tail in any run of n consumers if and only if n is at most two |
| Tickets.FewInFlightIsTimely | src/base/concurrentqueue.h:2477-2485 | a reading no older than half an index range of overcommits is timely |
| Tickets.SoloTakes | src/base/concurrentqueue.h:2695-2716 | with nothing in flight a call takes what is asked for or all there is |
| TryDequeue.SizeApprox | src/base/concurrentqueue.h:1667-1671 | for all loads: the wrapped estimate is the number of elements between the head and the tail loaded, and none if the head has passed that tail, if and only if the loads are telling, as all within half an index range are |
| TryDequeue.Producer.Dequeue | src/base/concurrentqueue.h:2474-2541 | alone, a dequeue succeeds if and only if the stream is not empty, claims its oldest element, and leaves the counters as the ticket protocol run to its end does |
| TryDequeue.Score | src/base/concurrentqueue.h:1045-1057 | the scan finds a stream if there is a non-empty one, and the first of the largest among the first three |
| TryDequeue.TryDequeue | src/base/concurrentqueue.h:1041-1072 | whatever others do meanwhile: fails if and only if every producer appeared empty when scored or every one refused when tried; otherwise takes from the best, or if that refuses from the first of the others that does not |
| TryDequeue.TryDequeueAlone | src/base/concurrentqueue.h:1041-1072 | alone: fails if and only if every producer is empty; otherwise takes the oldest element of the scored one and touches no other |
| BlockIndex.FindSlotExact | src/base/concurrentqueue.h:2863-2871 | the lookup arithmetic, with its unsigned division, finds the slot of every block from every tail if and only if the capacity divides the turn |
| BlockIndex.OneTurnApart | src/base/concurrentqueue.h:2863-2871 | any two blocks a turn apart have one key, and in an index that holds both the lookup of either from the other finds the other |
| BlockIndex.GrowthFits | src/base/concurrentqueue.h:2876-2918 | a full index can double if and only if it spans less than a turn |
| BlockIndex.DoublingSoundIffNear | src/base/concurrentqueue.h:2823-2918 | when the code is about to double the index, lookups in the doubled one are right for all blocks if and only if no live block is a whole turn behind |
| IndexOverrun.SleeperLosesItsBlock | src/base/concurrentqueue.h:2816-2918 | for every width, with an index that starts with the capacity of a turn: a run in which a live block a whole turn behind can no longer be looked up: the lookup ends at the newer block |
| BlockIndex.StepInv | src/base/concurrentqueue.h:2816-2918 | insertions, rewinds, growth and lookups keep keys, homes and live blocks in agreement in every header ever used |
| BlockIndex.StepLook | src/base/concurrentqueue.h:2823-2835 | the slot after the tail is reusable or holds a live block a whole capacity behind, and then the index grows |
| BlockIndex.StepGrow | src/base/concurrentqueue.h:2876-2918 | growth keeps every live block reachable in the old and the new header |
| BlockIndex.FoundEntry | src/base/concurrentqueue.h:2872 | a lookup ends at the entry with the block's own key and its live block, as asserted |
| BlockIndex.TailKeyIsBase | src/base/concurrentqueue.h:2865-2866 | the key measured from is never the invalid one, as asserted |
| BlockIndex.UndoFindsEntry | src/base/concurrentqueue.h:2586-2592 | the rollback finds the very entry of each block it had inserted |
| BlockIndex.ConsecutiveKeys | src/base/concurrentqueue.h:2816-2874 | walking back from the tail slot, keys are consecutive block bases down to the oldest live block |
| ProducerTheorems.StepInv | src/base/concurrentqueue.h:2410-2795 | every step of producer and consumers keeps tickets, index, blocks and elements consistent; only publishing changes the stream, by appending |
| ProducerTheorems.RunInv | src/base/concurrentqueue.h:2410-2795 | in every state of every run the invariant holds of exactly what was published so far |
| ProducerTheorems.StepIsFifo | src/base/concurrentqueue.h:2410-2795 | each step appends a batch to one queue, removes a batch from its front for one consumer, or leaves it alone |
| ProducerTheorems.ThroughHasItsElements | src/base/concurrentqueue.h:2718-2786 | a consumer that is through holds exactly the elements of its claim, as published, in order |
| ProducerTheorems.DequeuesReturnWhatWasEnqueued | src/base/concurrentqueue.h:2545-2795 | over any run, a dequeue that is through has consecutive published items, no two in progress at once share one, and nothing missing is dereferenced |
| ProducerRuns.DequeuesShareNothing | src/base/concurrentqueue.h:2695-2795 | any two dequeues that return in a run, however far apart and by whatever consumers, hand out consecutive published items and have none in common |
| ProducerRuns.ReturnedOnce | src/base/concurrentqueue.h:2579-2782 | over any run, between two returns of a block lies an acquisition of it, and between two acquisitions a return |
| ProducerTheorems.NeverStuck | src/base/concurrentqueue.h:2410-2795 | every operation begun has a next step and never finds an entry or block missing |
| ProducerTheorems.HeadNotBeyondBlock | src/base/concurrentqueue.h:2577 | the assertion that the head is not beyond the block being opened holds |
| ProducerTheorems.FailedEnqueueLeavesNothing | src/base/concurrentqueue.h:2579-2597 | an enqueue that fails, whatever consumers do meanwhile, leaves the tail and the published items as they were and holds no block not held before |
| ProducerOutcomes.EnqueueOutcome | src/base/concurrentqueue.h:2412-2692 | over every run: an enqueue that is over has published exactly its items, unless, and only if, it found less than half a turn of the index left, had no index, or was refused an allocation or a block; then it published nothing |
| ProducerOutcomes.EnqueueIsWaitFree | src/base/concurrentqueue.h:2545-2692 | whatever the consumers do, an enqueue takes at most 16 steps of its own per item and 20 more, the requisition of a block counting as one |
| ProducerOutcomes.DequeueIsWaitFree | src/base/concurrentqueue.h:2695-2795 | whatever the others do, a dequeue takes at most 10 steps of its own per element asked for and 12 more, the return of a block counting as one |
| ProducerTheorems.LastElementRetiresBlock | src/base/concurrentqueue.h:1531-1550 | the consumer that completes a block's count, and only it, retires the block, exactly when its last element is done |
| ProducerTheorems.QuietBlocks | src/base/concurrentqueue.h:2410-2795 | at rest the blocks held are exactly those with a published element nobody claimed |
| WrappedTests.ConsumerStops | src/base/concurrentqueue.h:2724-2786 | in every run the end of a block, computed and compared on words, is where a consumer's loops stop in the model |
| WrappedTests.ConstructStops | src/base/concurrentqueue.h:2624-2637 | the same for the producer's loop over the items of a block |
| WrappedTests.CountDownExact | src/base/concurrentqueue.h:2562-2620 | the wrapped count-down opens exactly the blocks needed if and only if they span less than a turn |
| SingleConsumer.OneConsumerIsRecent | src/base/concurrentqueue.h:2410-2795 | with one consumer every run meets the condition of the theorems above |
| SingleConsumer.OneConsumerGetsTheStream | src/net/looper.cpp:106-110 | with one consumer and no condition at all: the dequeues that returned handed out exactly the items published first, each once and in order, and nothing missing is dereferenced |
| SingleConsumer.OneConsumerTakesWhatThereIs | src/base/concurrentqueue.h:2695-2716 | with one consumer: a dequeue takes as many as it asks for or else all that were published at some moment during the call, so it takes nothing only if there was nothing at that moment |
| BlockSupply.GuardsHold | src/base/concurrentqueue.h:2999-3018 | a block that the pool hands out is new to the producer that gets it, and one that a producer returns is one the pool expects |
| BlockSupply.StepKinds | src/base/concurrentqueue.h:2410-2795 | every step of a producer keeps its blocks, or obtains the one handed to it, or gives one up |
| BlockSupply.OneHolderPerBlock | src/base/concurrentqueue.h:2949-3018 | in every run of pool and producers a block held by one producer is held by no other and is not free |
| ProducerConsumers.StepTake | src/base/concurrentqueue.h:2714-2721 | the head's fetch-and-add hands over elements that are published, stored, and in blocks all still in use |
| ProducerBlocks.StepMove | src/base/concurrentqueue.h:2729-2736 | moving an element out hands over the element published under its index and disturbs no other |
| ProducerBlocks.CountTells | src/base/concurrentqueue.h:1531-1550 | a block's count never exceeds its size and is complete if and only if all its elements are done |
| ProducerBlocks.StepClear | src/base/concurrentqueue.h:2772-2782 | clearing an emptied block's entry takes it from no consumer that still needs it |
| ProducerEnqueuer.StepConstruct | src/base/concurrentqueue.h:2629-2637 | constructing an item leaves everything published stored |
| ProducerEnqueuer.StepPublish | src/base/concurrentqueue.h:2690 | one store to the tail publishes the items, in order, behind all earlier ones |
| ProducerEnqueuer.RoomTest | src/base/concurrentqueue.h:2578 | the wrapped test against the head holds exactly when another block stays within half an index range |
| ProducerEnqueuer.NearEnough | src/base/concurrentqueue.h:2823-2835 | when a block is inserted no live block is a whole turn behind it |
| ProducerHash.StepInv | src/base/concurrentqueue.h:3294-3442 | every step keeps the tables reachable, the counts and the producers exact, and no thread loses its producer |
| ProducerHash.RunInv | src/base/concurrentqueue.h:3294-3442 | the table invariant holds in every state of every run |
| ProducerHash.FewKeys | src/base/concurrentqueue.h:3314-3433 | every table, current or superseded, holds fewer keys than three quarters of its capacity |
| ProducerHash.ProbesEnd | src/base/concurrentqueue.h:3317-3355 | every linear probe ends within three quarters of a round |
| ProducerHash.IdentityIsStable | src/base/concurrentqueue.h:3294-3442 | repeated calls by one thread return one producer, different threads get different ones, through resizes and failures |
| ProducerHash.KnownThreadIsFound | src/base/concurrentqueue.h:3300-3355 | once a thread has its producer, no later call draws a number or creates another, and some table holds its id |
| ProducerHash.QuietCount | src/base/concurrentqueue.h:3357-3411 | at rest the counter is the number of threads registered, failures included |
| ProducerHashCalls.NullIffRefused | src/base/concurrentqueue.h:3294-3442 | over every run: a call returns nullptr if and only if, during it, the allocation of a larger table or of the producer was refused |
| ProducerHashCalls.AloneGetsProducer | src/base/concurrentqueue.h:3294-3442 | from every state of a run with no call in progress, a call alone, with memory, comes to an end with a producer |
| Looper.StepInv | src/net/looper.cpp:31-112 | every step keeps every queued task signalled, or still ahead of the scan |
| Looper.NoStrandedTask | src/net/looper.cpp:31-112 | in every run from construction through a clean `Start`, and after the first return of poll in every other run: whenever the loop is about to poll with a task queued, the counter is positive or a thread is about to write it |
| LooperTasks.TasksAreConserved | src/net/looper.cpp:80-112 | over every run and for every thread: the tasks it queued are those of it that were run and those still in its stream |
| LooperTasks.AllTasksAreRun | src/net/looper.cpp:31-112 | when the loop, started cleanly or back from a poll, is about to poll with no signal and no thread about to give one, every task queued so far has been run |
| LooperTasks.DrainEnds | src/net/looper.cpp:94-112 | left alone while it drains, the loop comes to the end of the drain with every stream empty |
| LooperTasks.WritesMatch | src/net/looper.cpp:80-91 | over every run: each thread writes the eventfd once for each task it queues from another thread or while tasks are run, and for no other |
| LooperTasks.CounterIsWrites | src/net/looper.cpp:48-67 | over every run: the counter is the number of writes since the loop last read it, up to the largest value it can hold |
| Looper.StartIffClean | src/net/looper.cpp:80-91 | in every run, `Start` establishes the loop's invariant if and only if the loop's thread has queued nothing or some other thread has a task queued, and otherwise strands the tasks queued |
| Looper.EarlyTaskIsStranded | src/net/looper.cpp:80-91 | a task added by the loop's thread before the start is stranded: only another thread's task or an unrelated event can move anything |
| LogBuffer.Buffer.Append | src/log/logstream.h:21-28 | a message goes in whole or not at all, and never fills the buffer exactly |
| AsyncLogger.Logger.Append | src/log/asynclogger.cpp:26-53 | every message shorter than a buffer joins the end of the stream, any other is refused; the buffers stay unaliased |
| AsyncLogger.Logger.Exchange | src/log/asynclogger.cpp:72-95 | the exchange takes over everything filled and leaves empty, distinct buffers without changing the stream |
| AsyncLogger.Logger.Trim | src/log/asynclogger.cpp:97-101 | up to 25 buffers nothing is lost; beyond, the first two are kept, and what is lost is whole messages |
| AsyncLogger.Logger.Write | src/log/asynclogger.cpp:103-107 | a buffer's messages move from the stream in flight to the file |
| AsyncLogger.Logger.Refill | src/log/asynclogger.cpp:109-133 | the spares are restored, never from an empty vector, without touching the stream |
| AsyncLogger.Logger.BackEnd | src/log/asynclogger.cpp:72-135 | each stretch of the back end does what its place in the loop says: takes over all that is filled, keeps all or the first two, writes the next buffer, waits again |
| AsyncLogger.Logger.Round | src/log/asynclogger.cpp:72-135 | after a round without interference the file holds everything accepted, in order, if at most 25 buffers were taken over and none was ever dropped |
| AsyncLogger.Run | src/log/asynclogger.cpp:26-135 | under every interleaving the file, the buffers in flight, queued and current hold the accepted messages in order, and the file with the buffers in flight exactly those accepted before the last exchange, until a round is cut short |
| LogStream.Convert | src/log/logstream.cpp:8-31 | prints the decimal text of every 64-bit value, the minimum included, in at most 20 characters and a terminator |
| LogStream.TextRoundTrip | src/log/logstream.cpp:8-31 | the text is canonical decimal notation and parses back to the value |
| LogStream.TextFits | src/log/logstream.cpp:36-41 | no 64-bit value needs more than the 32 characters guarded for |
| LogStream.LogStream.FormatInteger | src/log/logstream.cpp:34-42 | a value is printed whole behind the contents, or not at all |
| IOBuffer.IOBuffer.MakeSpace | src/net/iobuffer.h:263-278 | makes room without changing the readable bytes; compaction happens only with more than the reserved space in front |
| IOBuffer.IOBuffer.Compact | src/net/iobuffer.h:274-276 | the overlapping forward copy is exact |
| IOBuffer.IOBuffer.Append | src/net/iobuffer.h:135-143 | the readable bytes are extended by the data |
| IOBuffer.IOBuffer.Retrieve | src/net/iobuffer.h:69-79 | drops that many readable bytes, or all |
| IOBuffer.IOBuffer.RetrieveAsString | src/net/iobuffer.h:97-102 | returns and drops a prefix of the readable bytes |
| IOBuffer.IOBuffer.Prepend | src/net/iobuffer.h:210-215 | puts data in front of the readable bytes |
| IOBuffer.IOBuffer.Shrink | src/net/iobuffer.h:241-247 | keeps the readable bytes and leaves the reserve writable |
| IOBuffer.IOBuffer.ReadFd | src/net/iobuffer.cpp:11-38 | appends exactly the bytes delivered, whether or not they overflow into the stack buffer |
| IOBuffer.IOBuffer.FindCRLF | src/net/iobuffer.h:44-48 | finds the first CRLF among the readable bytes |
| Connection.Connection.Send | src/net/connection.cpp:36-69 | with nothing waiting all the data is offered to the socket; what the socket's own log then lacks waits in order, however the callback sends again; the callback runs if and only if the socket took all |
| Connection.Connection.HandleWrite | src/net/connection.cpp:109-132 | offers all that waits to the socket, keeps what it did not take, disables the write event exactly when nothing waits, and then, and only then, runs the callback |
| Connection.SendInOrder | src/net/connection.cpp:36-69 | what is written stays the beginning of what was sent, however callbacks nest |
| Connection.Connection.Shutdown | src/net/connection.cpp:82-88 | shuts down if and only if everything sent so far is written |
| Connection.Run | src/net/connection.cpp:36-132 | for all sequences of events, short writes and errors included: what the socket logged, followed by what waits, is what was sent, in order; the write event is on exactly while something waits |
| Connection.SentAsTold | src/net/connection.cpp:36-132 | without a callback that sends, what is sent is what the events say |
| HttpRequest.HttpRequest.AddHeader | src/http/httprequest.h:103-117 | stores the field with the text after the colon, white space around it removed |
| HttpRequest.TrimIs | src/http/httprequest.h:107-115 | all the white space around a text is taken off, and nothing else |
| HttpRequest.HttpRequest.AddQuery | src/http/httprequest.h:88-93 | stores the parts before and after the first equals sign |
| HttpParser.RejectedAgain | src/http/httpparser.cpp:5-110 | a malformed request line stays rejected when parsing resumes in the middle of it |
| HttpParser.ChunkInvariance | src/http/httpparser.cpp:113-226 | for every parser and split, feeding two parts in turn comes to the same state, request and unread bytes as feeding them at once |
| HttpParser.AnySplit | src/http/httpparser.cpp:113-226 | the same for any number of parts |
| HttpParser.HttpParser.ParseRequestLine | src/http/httpparser.cpp:5-110 | the inner state machine computes the line function |
| HttpParser.HttpParser.ParseRequest | src/http/httpparser.cpp:113-226 | the outer state machine computes the request function, terminates, and says when its answer is meaningful |
| HttpParser.Feed | src/http/httpparser.cpp:113-226 | a parser object fed in parts through a buffer ends where one call on the whole leads |
| HttpPrint.LineRoundTrip | src/http/httpparser.cpp:24-100 | a printed request line parses to its method, path, parameters and version |
| HttpPrint.LineAccepts | src/http/httpparser.cpp:24-100 | a request line is accepted if and only if it is a method, a URL without spaces and a version, one space between each two |
| HttpPrint.HeadersRoundTrip | src/http/httpparser.cpp:155-185 | printed header fields are collected, later ones winning, up to the line that ends them, whatever follows it |
| HttpPrint.HeadersEnd | src/http/httpparser.cpp:165-179 | at the end of the fields: no Content-Length completes the request, a number begins the body, a negative one counts as a size_t, anything else throws with the line unread |
| HttpPrint.StoiIs | src/http/httpparser.cpp:175 | stoi reads white space, a sign and all the digits that follow, and throws without a digit or beyond an int |
| HttpPrint.StoiOfDecimal | src/http/httpparser.cpp:175 | stoi reads back the decimal text of every int |
| HttpPrint.PlainIsPrintable | src/http/httprequest.h:33-50 | the requests the round trip speaks of include ordinary ones |
| HttpPrint.FormIsPrintable | src/http/httpparser.cpp:188-218 | so do requests that carry a form |
| HttpPrint.PrintParse | src/http/httpparser.cpp:113-226 | a printed request without a Content-Length, followed by any suffix, parses to itself and leaves exactly the suffix unread |
| HttpPrint.FormParse | src/http/httpparser.cpp:188-218 | a printed request with a form of the length it declares, followed by any suffix, parses to itself with the form's parameters after the URL's; with fewer bytes the parser waits for the body |

## Left out

- Memory orderings and fences of `concurrentqueue.h`: interleavings are sequentially consistent.
- With two or more consumers of one producer, runs in which one of them sleeps through half an index range (see above) are outside the theorems about blocks and elements.
- TryDequeue.Producer.Dequeue: returns the index of the element; finding its block, moving it out and counting it are in `ProducerQueue`.
- TryDequeue.TryDequeue: under interference what each producer answers is a parameter, any answers at all; the protocol behind an answer is in `Tickets`.
- The list of producers, its growth by CAS, consumer tokens and rotation, queue move and swap.
- `ExplicitProducer`: never used by Sinetlib; its single-item dequeue has the same ticket protocol.
- Exceptions thrown by element constructors and assignments, alignment and placement new.
- `MAX_SUBQUEUE_SIZE` other than the unlimited default, and queues built without allocation.
- The `next` pointers that chain blocks within one bulk enqueue: the chain is a sequence.
- `ProducerHash`: the thread-exit path, which is compiled out; thread ids are those of living threads, and one id is one thread.
- `Looper`: tasks are counted, not represented; timers, `quit_` from other threads and the destructor are not modelled.
- epoll, eventfd, `readv` and `write`: their results are parameters, any that the call allows.
- `AsyncLogger`: file errors, what remains at `Stop`, and the time waited; the buffers' characters are part of each buffer object, held as a sequence.
- `LogStream`: floating-point printing.
- `IOBuffer`: vector capacity beyond its size, allocation failure, the line-feed search.
- `Connection`: the other callbacks, closing, and events after shutdown; a reply-complete callback makes finitely many calls.
- `HttpParser`: the receive time, `Reset`, the removal of body bytes and pipelined requests, which the code leaves to others.
- Request matching and routing, files, MIME tables, `ThreadPool`, `Router`, `EventBase` dispatch and `TimerQueue`.
