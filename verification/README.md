# Verified models of the queue, the semaphore and the downloads

This project models the most intricate code of the repository in Dafny and proves properties of the models over every
input, every reachable state and every interleaving. Nothing was executed; all claims are about the models, which follow
the code branch by branch.

What is modelled:

* **The lock-free queue of the server** (`c++/server/concurrentqueue.h`). Each protocol is a state machine whose steps are
  the single atomic accesses of the code, interleaved in any order and sequentially consistent.
  * `FreeList.dfy`: the reference-counted free list. `FreeListCalls.dfy`: what a get and an add achieve.
  * `DequeueClaims.dfy`: the optimistic count and overcommit by which consumers claim index ranges, single and in bulk.
    Indices are unbounded, the comparisons are made on their w-bit words for any w; a history of tickets is kept beside
    them for the proofs. `ClaimsWindow.dfy`: how much the calls of a run may ask for so that no consumer claims what is
    not there.
  * `ImplicitIndex.dfy`: the block index of an implicit producer, a ring of entries shared by all headers, through
    growth, wrap-around and rewinding. `ImplicitIndexObjects.dfy` has the same as objects: entries shared by pointer, keys
    that are words, the loops that fill a new header.
  * `ImplicitProducer.dfy`: a whole implicit producer with its consumers, on top of both: enqueue and enqueue_bulk with
    rollback (a plain enqueue is a bulk of one), dequeue and dequeue_bulk, and the return of emptied blocks.
    `ImplicitInvariant.dfy` holds the invariant; `ImplicitConsumers`, `ImplicitReturns`, `ImplicitClaims`,
    `ImplicitAllocation`, `ImplicitGrowth`, `ImplicitHooking`, `ImplicitRollback` and `ImplicitFilling` show that each
    step keeps it, `ImplicitSafety` that every run does, `ImplicitResults` and `ImplicitProgress` draw the conclusions,
    and `ImplicitWindow` states the main ones for whole runs under a condition on their calls alone. `ImplicitDequeues`
    shows that dequeues end.
    `SharedImplicitProducer.dfy` is the producer as an object that composes the counters and the index objects; each of
    its methods performs one atomic step in place and is proved to do what the model does. `ImplicitRuns.dfy` drives the
    object from its constructor through any schedule.
  * `ExplicitProducer.dfy` with `ExplicitInvariant`, `ExplicitConsumers`, `ExplicitProducing`, `ExplicitSafety`,
    `ExplicitWindow`, `ExplicitProgress` and `ExplicitDequeues`: the explicit producer with its circular list of blocks
    and its circular index;
    `SharedExplicitProducer.dfy` and `ExplicitRuns.dfy`, the same as an object with its arrays, driven through schedules.
    `ExplicitElements.dfy` and `ExplicitCalls.dfy` add what is in the slots of the blocks and what a call appends, and
    `ExplicitFailure.dfy` the calls that fail after they have obtained a block; `ExplicitLateFailure.dfy` is the run in
    which such a call misleads consumers.
  * `BlockPool.dfy`, `BlockPoolRuns.dfy` and `BlockRequests.dfy`: producers of both kinds that share the initial pool,
    the free list and the allocator, put together from the machines above.
  * `BlockEmptiness.dfy`: how a block tells that all of it has been dequeued.
  * `ProducerHash.dfy` and `ProducerHashLoops.dfy`: the chain of hash tables from thread ids to implicit producers, with
    concurrent insertion, lazy migration and resizing. `ProducerHashCalls.dfy`: when a call fails, and that it ends.
  * `Rotation.dfy`: the walk of a token's bulk dequeue around the producers, and how tokens are spread over them.
  * `ThreadIdHash.dfy`, `Words.dfy`, `BlockMath.dfy`: the hash of thread ids, wrapping arithmetic, block arithmetic.
* **The semaphore and the blocking queue** (`c++/server/blockingconcurrentqueue.h`): `Semaphore.dfy`; `InnerQueue.dfy` and
  `InnerWalks.dfy`, the walks of a dequeue without a token over the list of producers, each with its claim protocol;
  `DryClaims.dfy`, `DryWalks.dfy` and `CrowdedWalks.dfy`, what it means that such a walk gives less than it was asked for;
  `BlockingQueue.dfy`, `BlockingWindow.dfy`, `BlockingResults.dfy` and `BlockingCalls.dfy`, semaphore and walks put together.
* **The downloads**: `Download.dfy` has the slicing of the C++ server and the windowed C++ client, `JavaDownload.dfy` the
  Java client with its network thread and its writer thread.

How the parts are built: a `State` holds what threads share and where each thread stands, a `Step` function performs one
atomic access, `Inv` is the invariant, and a lemma `EveryRunKeepsInv` proves it for every schedule. Beside it a class with
the fields of the source performs the same steps in place, each method with `Abs() == Step(old(Abs()), ...)` or the same
said of the part it changes, and `Follow` drives it through a schedule with `Abs() == Run(old(Abs()), schedule)`. Fields
described as auxiliary are read by no step.

Where the code and its comments disagree the code is followed: the comments at `c++/server/concurrentqueue.h:1849-1851`
and `:2775-2776` say that the division of a block distance preserves its sign, but `BLOCK_SIZE` is unsigned and so is the
division; `Words.SignedDivisionChoosesTheSameSlot` shows that the masked result is the same.

Four properties one would expect do not hold without a condition, and the project proves the exact condition:

* Consumers claim no more than there is in all runs of a queue if and only if the calls around each dequeue ask for at most
  half the word range together (`ClaimsWindow.BoundIsExact`): the calls of other threads in progress when it begins, and
  those begun until it takes its ticket. `ClaimsWindow.WindowIsTight` is a run from the empty queue with
  one element more, at whose end two elements have been claimed and one was published. `ImplicitWindow`,
  `ExplicitWindow` and `BlockingWindow` carry the condition over to whole producers and to the blocking queue.
* A dequeue without a token that is given less than it asks for has found every producer dry, up to what other dequeues
  asked for meanwhile, in all runs if and only if what a producer holds and what those ask for stay below half the word
  range together whenever it decides (`CrowdedWalks.SpareIsExact`). Otherwise the distance to the tail looks negative:
  `CrowdedWalks.CrowdedWalkMisses` is a run in which a dequeue returns nothing from a producer that was never empty. The
  comment at `c++/server/concurrentqueue.h:963-966` says that all producers appeared empty.
* An explicit producer may be turned down in the middle of any call without misleading its consumers if and only if no
  call asks for more elements than a block holds (`ExplicitLateFailure.BlockfulIsExact`). A larger bulk can fail after it has
  obtained a block: the block stays in the circle but is no longer counted, and the index can then be filled beyond its
  size. `ExplicitLateFailure.LateFailureMisleads` is such a run for every word, block and index size.
* Consecutive fresh consumer tokens start on different producers if and only if the token counter does not wrap among
  them or the number of producers divides its range (`Rotation.FreshTokensSpread`); `Rotation.ThreeTokensMeet` is an input
  on which two of them meet.

To verify the project run `dafny verify dfyconfig.toml`.

## Model

| member | source | states |
|---|---|---|
| `Words.CircularLessThanIsExact` | c++/server/concurrentqueue.h:334-345 | for every word size, circular_less_than on the words of two numbers less than 2^w apart decides < if and only if the first is less than 2^(w-1) below the second and at most 2^(w-1) above it |
| `Words.CircularLessThanIsSafe` | c++/server/concurrentqueue.h:341 | whatever the distance, a positive answer is right unless the first number is more than 2^(w-1) above the second |
| `Words.MaskedSlotIsExact` | c++/server/concurrentqueue.h:2770-2778 | the slot computed by divide-then-mask on words is the front plus the signed block distance modulo the index size, for positive and negative distances, whenever index and blocks fit the word range |
| `Words.SignedDivisionChoosesTheSameSlot` | c++/server/concurrentqueue.h:1849-1855 | the unsigned division the code performs and the signed one its comments describe choose the same slot |
| `FreeList.EveryRunKeepsInv` | c++/server/concurrentqueue.h:1300-1379 | any number of threads below the capacity of the count, any interleaving of the atomic accesses of add, try_get and add_knowing_refcount_is_zero: the invariant holds, in which the reference word of every node is the sum of what its threads and the list account for |
| `FreeList.StepKeepsInv` | c++/server/concurrentqueue.h:1314-1379 | one atomic access of one thread keeps the invariant, with the list it leaves as witness |
| `FreeList.ListIsSound` | c++/server/concurrentqueue.h:1381-1385 | the list reached from the head is finite, holds each node at most once and exactly the nodes marked as on it, and no thread follows a wild pointer |
| `FreeList.LinkedUnique` | c++/server/concurrentqueue.h:1353-1354 | the links determine the list |
| `FreeList.TakenNodeIsExclusive` | c++/server/concurrentqueue.h:1331-1338 | the node a getter is about to return is off the list, with no caller, its should-be-on-free-list bit clear, and no other thread is taking or adding it |
| `FreeList.HeldNextIsStable` | c++/server/concurrentqueue.h:1328-1330 | while a getter holds a reference no step of any thread changes the next pointer of the node |
| `FreeList.DeferredAddIsHeld` | c++/server/concurrentqueue.h:1341-1347 | an add that was put off is not lost: the node carries the bit and a reference whose last holder, when it drops it, links the node |
| `FreeListCalls.GetAloneTakesHead` | c++/server/concurrentqueue.h:1314-1351 | a get that runs alone, wherever the other threads stand, takes the head of the list in six steps: the node is then with its caller and off the list |
| `FreeListCalls.EmptyHandedSawEmpty` | c++/server/concurrentqueue.h:1314-1351 | in any run, a get that ends without a node has been through a state in which the list was empty |
| `FreeListCalls.AddAloneLinks` | c++/server/concurrentqueue.h:1300-1312 | an add that runs alone, of a node nobody refers to, puts it at the head of the list, before what was there |
| `FreeList.QuiescentNodes` | c++/server/concurrentqueue.h:1300-1379 | at quiescence every node is either with its caller or reachable from the head, never both, and its reference word says which |
| `FreeList.SharedFreeList.Follow` | c++/server/concurrentqueue.h:1300-1379 | the list on its arrays of reference words and links, driven through any schedule, is where the run of the machine is |
| `FreeList.FollowFromStart` | c++/server/concurrentqueue.h:1284-1379 | a list from its constructor through any schedule satisfies the invariant |
| `BlockPool.StepKeepsInv` | c++/server/concurrentqueue.h:2873-2923 | free list, initial pool, allocator and producers of both kinds put together: every access of a requisition, every step of a producer, every return of a block keeps each block with exactly one owner |
| `BlockPool.GrantIsTaken` | c++/server/concurrentqueue.h:2907-2923 | the block a thread obtains is one that no producer holds, so the producer that asked for it is granted it, as its own machine would |
| `BlockPool.BlocksAreExclusive` | c++/server/concurrentqueue.h:2873-2923 | a block with a producer is with no other producer and in no thread's hands |
| `BlockPool.HeldIsOffList` | c++/server/concurrentqueue.h:2884-2905 | and it is off the free list, and no thread takes or adds it |
| `BlockPoolRuns.EveryRunKeepsInv` | c++/server/concurrentqueue.h:2873-2923 | any number of producers and threads, any pool, any interleaving of their accesses: each block is with its creator, with a thread that has just obtained it, with one producer or with the free list, and nowhere else |
| `BlockPoolRuns.ImplicitRun` | c++/server/concurrentqueue.h:2453-2704 | what such a run does to an implicit producer is a run of its own machine |
| `BlockPoolRuns.ExplicitRun` | c++/server/concurrentqueue.h:1691-2169 | and likewise for an explicit producer |
| `BlockPoolRuns.EveryProducerKeepsInv` | c++/server/concurrentqueue.h:1691-2704 | so each producer of a queue keeps its invariant if the calls around each dequeue from it fit its words, whatever the others do with the blocks they share |
| `BlockRequests.NothingOnlyWhenNothingIsThere` | c++/server/concurrentqueue.h:2907-2923 | in any run, a request that ends without a block has been through a state in which the initial pool was used up, later one in which the free list was empty, and then the allocator gave it nothing |
| `BlockRequests.PoolComesFirst` | c++/server/concurrentqueue.h:2873-2882 | while a block of the initial pool is left, a request alone gets the next one of them |
| `DequeueClaims.ClaimsAreSound` | c++/server/concurrentqueue.h:2078-2100 | head plus all shares granted but not yet taken never passes the tail; overcommit never exceeds the optimistic count, nor a deciding consumer's old reading its own ticket; claims are disjoint and below the head |
| `DequeueClaims.ShareIsExact` | c++/server/concurrentqueue.h:2090-2094 | a consumer less than the word range from the tail gives itself exactly what is there if and only if its effective count is less than half the range before the tail and at most half beyond it |
| `DequeueClaims.OvershootIsRecent` | c++/server/concurrentqueue.h:1817-1830 | how far beyond the tail a deciding consumer is: at most the tickets before its own that are undecided or were lost after it read the overcommit |
| `ClaimsWindow.AccountBoundsOvershoot` | c++/server/concurrentqueue.h:2604-2626 | a deciding consumer is no further beyond the tail than the calls around its own asked for: those in progress when it began, and those begun until it took its ticket |
| `ClaimsWindow.FittingRunKeepsInv` | c++/server/concurrentqueue.h:2604-2626 | any word size, any number of single and bulk consumers, any interleaving with the producer: if the calls around each dequeue ask for at most half the word range together, every decision is inside the window and the invariant holds |
| `ClaimsWindow.ModestRunKeepsInv` | c++/server/concurrentqueue.h:2604-2626 | in particular in every run that asks for at most half the word range in all |
| `ClaimsWindow.WindowIsTight` | c++/server/concurrentqueue.h:2090-2096 | with one more it fails, for every word size of at least two bits: a schedule from the empty queue at whose end one element was published and two were claimed |
| `ClaimsWindow.BoundIsExact` | c++/server/concurrentqueue.h:2078-2100 | a bound on what the calls around a dequeue ask for keeps the head within the tail in all runs if and only if it is at most half the word range |
| `DequeueClaims.AccessesAreBounded` | c++/server/concurrentqueue.h:2604-2626 | a call of the claim protocol takes at most seven accesses, whatever others do, and is given no more than it asks for |
| `DequeueClaims.CountsAgreeAtRest` | c++/server/concurrentqueue.h:1884-1885 | with all consumers at rest, optimistic count minus overcommit is the head |
| `DequeueClaims.AloneGetsAll` | c++/server/concurrentqueue.h:2604-2626 | a consumer running alone claims exactly the smaller of what it wants and what there is |
| `DequeueClaims.SingleTestIsBulkTest` | c++/server/concurrentqueue.h:2382-2394 | the test of a plain dequeue is that of a bulk dequeue of one |
| `DequeueClaims.SharedCounters.Follow` | c++/server/concurrentqueue.h:2604-2626 | the counters, driven through any schedule that keeps to the window, are where the run of the machine is |
| `ImplicitIndex.FreshInv` | c++/server/concurrentqueue.h:2783-2825 | a new index satisfies the invariant whatever the memory held |
| `ImplicitIndex.StoreKeyKeepsInv` | c++/server/concurrentqueue.h:2726-2734 | storing the key of the next block keeps every key of every header, current or old, where lookups expect it |
| `ImplicitIndex.StoreTailKeepsInv` | c++/server/concurrentqueue.h:2735-2736 | moving the tail keeps every key of every header, current or old, where lookups expect it |
| `ImplicitIndex.RewindKeepsInv` | c++/server/concurrentqueue.h:2752-2756 | rewinding the tail keeps every key of every header, current or old, where lookups expect it |
| `ImplicitIndex.StoreValueKeepsInv` | c++/server/concurrentqueue.h:2515 | storing or clearing a block pointer keeps every key of every header, current or old, where lookups expect it |
| `ImplicitIndex.FullRing` | c++/server/concurrentqueue.h:2731-2742 | when the next entry is in use the ring holds exactly the last lap of blocks, so doubling may begin at its tail |
| `ImplicitIndex.GrowKeepsEntries` | c++/server/concurrentqueue.h:2799-2813 | doubling gives every block of the last lap the entry object it had, and every other block that entry or one no older header knows |
| `ImplicitIndex.GrowKeepsInv` | c++/server/concurrentqueue.h:2783-2825 | doubling keeps the invariant for the new header and all old ones, and makes room |
| `ImplicitIndex.LookupIsExact` | c++/server/concurrentqueue.h:2765-2781 | a lookup through any header ever published, from any position read in it, computes on words the one position where the block of the index belongs |
| `ImplicitIndexObjects.BlockIndex.constructor` | c++/server/concurrentqueue.h:2255-2260 | the objects of a first index stand for a fresh index |
| `ImplicitIndexObjects.BlockIndex.AddEntries` | c++/server/concurrentqueue.h:2809-2813 | the loop that constructs the entries of a header and points to them, keeping what the array held before |
| `ImplicitIndexObjects.BlockIndex.CopyRing` | c++/server/concurrentqueue.h:2799-2808 | the copying loop walks the old ring once, from the oldest entry to the newest |
| `ImplicitIndexObjects.BlockIndex.BuildHeader` | c++/server/concurrentqueue.h:2796-2818 | a built header shares the entry objects of the old one and stands for the doubled header |
| `ImplicitIndexObjects.BlockIndex.NewBlockIndex` | c++/server/concurrentqueue.h:2783-2825 | on success the objects stand for the doubled index, on failure nothing has changed |
| `ImplicitIndexObjects.BlockIndex.StoreKey` | c++/server/concurrentqueue.h:2726-2734 | the test of the next entry and the store of its key, on objects shared by all headers |
| `ImplicitIndexObjects.BlockIndex.StoreTail` | c++/server/concurrentqueue.h:2735-2736 | the store of the tail |
| `ImplicitIndexObjects.BlockIndex.InsertEntry` | c++/server/concurrentqueue.h:2725-2750 | run without interruption it fails only if the next entry is in use and no memory is granted; otherwise it hands out the entry where the new block belongs, at the tail and with the base of the block for a key, and the invariant holds |
| `ImplicitIndexObjects.BlockIndex.Rewind` | c++/server/concurrentqueue.h:2752-2756 | the store of the tail one back |
| `ImplicitIndexObjects.BlockIndex.StoreValue` | c++/server/concurrentqueue.h:2515 | one entry object changes, whichever headers point to it |
| `ImplicitIndexObjects.BlockIndex.LookUp` | c++/server/concurrentqueue.h:2765-2781 | the division and masking on words give the position where the block belongs, for any header and tail loaded |
| `ImplicitIndexObjects.BlockIndex.GetEntry` | c++/server/concurrentqueue.h:2758-2763 | the entry the producer finds for a block |
| `ImplicitIndexObjects.BaseIsValid` | c++/server/concurrentqueue.h:2707-2708 | no block base is ever the reserved key |
| `ImplicitWindow.FittingRunKeepsInv` | c++/server/concurrentqueue.h:2318-2704 | any word, block and index size, any configured limit, any number of single and bulk consumers, any answers of the allocators, any interleaving of atomic steps: if the calls around each dequeue ask for at most half the word range together, the invariant holds that ties index, blocks, slots and claims together (its parts are in ImplicitInvariant.dfy) |
| `ImplicitWindow.ModestCallsFit` | c++/server/concurrentqueue.h:2604-2626 | they do if all dequeues of the run together ask for no more than that |
| `ImplicitSafety.EveryStepIsDefined` | c++/server/concurrentqueue.h:2318-2704 | no step follows a null or stale pointer, looks up an entry without a key, or reads a slot without an element |
| `ImplicitSafety.TakenIsEnqueued` | c++/server/concurrentqueue.h:2397-2429 | first in, first out: the element taken at index i is the i-th element enqueued |
| `ImplicitSafety.EachIndexIsTakenOnce` | c++/server/concurrentqueue.h:2640-2645 | only the step that takes index i delivers it, it was not delivered before, and what it delivers is the element enqueued there |
| `ImplicitResults.NothingIsLost` | c++/server/concurrentqueue.h:2318-2697 | enqueued = delivered + claimed but not yet taken + remaining, in every reachable state |
| `ImplicitResults.OwedByClaimant` | c++/server/concurrentqueue.h:2626-2694 | every index below the head that is not delivered lies in the claim of a consumer still at work on it |
| `ImplicitResults.FinishedClaimIsDelivered` | c++/server/concurrentqueue.h:2626-2696 | a dequeue that has finished has delivered its whole claim, each element as it was enqueued |
| `ImplicitResults.BlockReturnsWhenSpent` | c++/server/concurrentqueue.h:2682-2692 | a block leaves the producer only from the consumer that completes its count, with every slot taken, or from the rollback, with no element published in it |
| `ImplicitResults.HeldAtRest` | c++/server/concurrentqueue.h:2682-2692 | at rest the producer holds exactly the blocks that some remaining or next element needs: none leaked, none returned early |
| `ImplicitResults.BlocksAndNumbersCorrespond` | c++/server/concurrentqueue.h:2488-2515 | held blocks and the numbers they were obtained for correspond one to one |
| `ImplicitResults.LookupEndsAtBlock` | c++/server/concurrentqueue.h:2758-2781 | whatever header a consumer loaded, however long ago, its lookup ends at the entry whose key is the base of its block and whose value is that live block, for claimed indices too |
| `ImplicitWindow.EveryCallIsAllOrNothing` | c++/server/concurrentqueue.h:2453-2601 | wherever in such a run a call is made, whatever consumers and allocators do meanwhile, it ends with all its elements appended or none; either way tail, index tail, entries that show blocks and blocks held are those of the published elements |
| `ImplicitProgress.ProducerAdvances` | c++/server/concurrentqueue.h:2453-2601 | each step of the producer brings the call strictly closer to its end |
| `ImplicitProgress.ConsumersDoNotDelay` | c++/server/concurrentqueue.h:2604-2704 | no step of a consumer moves the end of the call further away |
| `ImplicitWindow.EveryCallEnds` | c++/server/concurrentqueue.h:2453-2601 | a call ends after a bounded number of the producer's own steps, whatever consumers do |
| `ImplicitWindow.EveryGrantedCallSucceeds` | c++/server/concurrentqueue.h:2453-2601 | a call whose room tests pass and whose requests are granted appends all its elements |
| `ImplicitDequeues.DequeueAdvances` | c++/server/concurrentqueue.h:2382-2704 | a thread in a dequeue always has a next step, and it brings the dequeue closer to its end |
| `ImplicitDequeues.OthersDoNotDelay` | c++/server/concurrentqueue.h:2382-2704 | no step of the producer or of another consumer sets it back |
| `ImplicitDequeues.EveryDequeueEnds` | c++/server/concurrentqueue.h:2604-2704 | wherever in a fitting run a thread stands in a dequeue, single or bulk, it is over after a bounded number of its own steps, five for each element at most, whatever everyone else does |
| `ImplicitAllocation.BlockBaseDiffIsExact` | c++/server/concurrentqueue.h:2470-2473 | blockBaseDiff is exactly the length of the blocks that begin in [start, start + count), also at start = 0 and after the words have wrapped |
| `SharedImplicitProducer.BasesOfBulk` | c++/server/concurrentqueue.h:2471-2479 | the allocation loop passes exactly the bases of those blocks, in order |
| `ImplicitAllocation.RoomTestIsExact` | c++/server/concurrentqueue.h:2485-2487 | the room test answers full exactly when the block would reach half the word range beyond the head read, or pass the configured limit |
| `ImplicitClaims.QueueFitsWord` | c++/server/concurrentqueue.h:2322-2328 | in every reachable state tail - head < 2^(w-1), and at most the configured limit, although only block boundaries are tested and the head read may be old |
| `ImplicitClaims.ConfiguredLimitHolds` | c++/server/concurrentqueue.h:631 | whatever limit is configured, the sub-queue holds less than that limit plus one block |
| `ImplicitConsumers.EndIsExact` | c++/server/concurrentqueue.h:2633-2635 | the end a consumer computes on words is the end of its claim or of the block, whichever comes first |
| `ImplicitConsumers.TakeFindsElement` | c++/server/concurrentqueue.h:2637-2645 | the element about to be taken is in its slot, is the one enqueued there, and was not taken before |
| `ImplicitConsumers.ClaimedBlockIsShown` | c++/server/concurrentqueue.h:2637-2638 | a block in which some consumer still has elements to report is held, published and shown by its entry |
| `ImplicitReturns.FinishedBlockIsRead` | c++/server/concurrentqueue.h:2682-2691 | when a block is returned every one of its elements has been taken |
| `ImplicitReturns.ClearFindsEntry` | c++/server/concurrentqueue.h:2689 | a consumer clears the very entry that shows its block |
| `ImplicitReturns.FreeKeepsCells` | c++/server/concurrentqueue.h:2691 | no element still to be taken or being constructed is in the block that goes back |
| `ImplicitReturns.ConsumeKeepsInv` | c++/server/concurrentqueue.h:2626-2697 | every step of every consumer is defined and keeps the invariant |
| `ImplicitAllocation.StoreKeySpares` | c++/server/concurrentqueue.h:2731-2734 | storing a key overwrites no entry that shows a block |
| `ImplicitGrowth.GrowKeepsBlock` | c++/server/concurrentqueue.h:2799-2808 | a block of the last lap keeps its entry, key and value, in the doubled ring |
| `ImplicitRollback.RollbackFindsEntry` | c++/server/concurrentqueue.h:2495-2500 | the lookup the rollback makes finds the entry of the block being undone |
| `ImplicitRollback.UndoFreeKeepsCells` | c++/server/concurrentqueue.h:2502 | no published element is in a block that is rolled back |
| `ImplicitFilling.FillFindsBlock` | c++/server/concurrentqueue.h:2532-2545 | the block being filled is the one its element belongs in |
| `ImplicitFilling.FillMovesOn` | c++/server/concurrentqueue.h:2593-2598 | when a block is full its successor in the call is there and is the block of the next element |
| `SharedImplicitProducer.Producer.constructor` | c++/server/concurrentqueue.h:2255-2260 | a producer as the constructor makes it, with its first index, stands for an initial state of the model |
| `SharedImplicitProducer.Producer.BeginEnqueue` | c++/server/concurrentqueue.h:2465-2473 | the start of a call, on words, is the step of the model |
| `SharedImplicitProducer.Producer.TestRoom` | c++/server/concurrentqueue.h:2478-2488 | the room test with the base kept as a word, performed in place, is the step of the model |
| `SharedImplicitProducer.Producer.InsertKey` | c++/server/concurrentqueue.h:2726-2734 | the store of a key, performed in place, is the step of the model |
| `SharedImplicitProducer.Producer.GrowIndex` | c++/server/concurrentqueue.h:2739-2742 | the growth of the index, or the start of the rollback, performed in place, is the step of the model |
| `SharedImplicitProducer.Producer.BumpTail` | c++/server/concurrentqueue.h:2735-2736 | the move of the index tail, performed in place, is the step of the model |
| `SharedImplicitProducer.Producer.HookIn` | c++/server/concurrentqueue.h:2511-2526 | hooking it in, performed in place, is the step of the model |
| `SharedImplicitProducer.Producer.ClearTaken` | c++/server/concurrentqueue.h:2493-2495 | clearing its entry, performed in place, is the step of the model |
| `SharedImplicitProducer.Producer.ClearEntryOfBlock` | c++/server/concurrentqueue.h:2496-2499 | clearing the entry of a block being undone, looked up on words, performed in place, is the step of the model |
| `SharedImplicitProducer.Producer.RewindOne` | c++/server/concurrentqueue.h:2500 | the rewind for it, performed in place, is the step of the model |
| `SharedImplicitProducer.Producer.FindSlot` | c++/server/concurrentqueue.h:2770-2780 | the lookup on words, performed in place, is the step of the model |
| `SharedImplicitProducer.Producer.ClearCompleted` | c++/server/concurrentqueue.h:2689 | clearing the entry of a completed block, performed in place, is the step of the model |
| `ImplicitRuns.Do` | c++/server/concurrentqueue.h:2453-2704 | in every state of a run the method for the next step can be called, it does the step of the model, and the invariant holds again |
| `ImplicitRuns.Follow` | c++/server/concurrentqueue.h:2453-2704 | the object, driven through any schedule that keeps to the window, is where the run of the model is |
| `ImplicitRuns.FollowFromStart` | c++/server/concurrentqueue.h:2255-2704 | from the constructor through any schedule in which the calls around each dequeue ask for at most half the word range together: the run of the model from the new producer, and what was taken at index i is the i-th element enqueued |
| `BlockEmptiness.CountIsFull` | c++/server/concurrentqueue.h:1470-1474 | a counter of distinct slots reaches the block size exactly when every slot was counted |
| `BlockEmptiness.Block.IsEmpty` | c++/server/concurrentqueue.h:1410-1434 | is_empty answers whether every element was reported, with flags and with the counter |
| `BlockEmptiness.Block.SetEmpty` | c++/server/concurrentqueue.h:1436-1452 | reports one element; with the counter the answer is whether the block is now empty |
| `BlockEmptiness.Block.SetManyEmpty` | c++/server/concurrentqueue.h:1454-1475 | reports a run of elements at once, the reversed flag order included |
| `BlockEmptiness.Block.SetAllEmpty` | c++/server/concurrentqueue.h:1477-1490 | marks every element as reported |
| `BlockEmptiness.Block.ResetEmpty` | c++/server/concurrentqueue.h:1492-1505 | marks none as reported |
| `ExplicitWindow.FittingRunKeepsInv` | c++/server/concurrentqueue.h:1691-2169 | any word, block and index size, any number of consumers, any interleaving, no call failing after it has obtained a block: if the calls around each dequeue ask for at most half the word range together, the invariant holds that ties circle, index, flags and claims together (its parts are in ExplicitInvariant.dfy) |
| `ExplicitFailure.NoLateFailure` | c++/server/concurrentqueue.h:1691-1738 | a call for no more elements than a block holds never fails after it has obtained a block |
| `ExplicitFailure.BlockfulCallsAreSafe` | c++/server/concurrentqueue.h:1932-1953 | so if no call asks for more, the invariant holds in every run in which the calls around each dequeue fit the words, whatever is turned down and when, and the lookup for every element not yet claimed comes to the entry of its block |
| `ExplicitLateFailure.LateFailureMisleads` | c++/server/concurrentqueue.h:1932-1953 | one element more, and it fails, for every word, block and index size with room for twice the first index: a run from the constructor that fills the first index but for one entry, with a call for one element more than a block holds, turned down with one block obtained, and two further calls, after which the lookup for the first element of the queue ends at the entry of another block |
| `ExplicitLateFailure.BlockfulIsExact` | c++/server/concurrentqueue.h:1893-1953 | for each such configuration, a bound on what a call asks for keeps lookups right in all runs if and only if it is the size of a block or less |
| `ExplicitElements.EveryRunKeepsInv` | c++/server/concurrentqueue.h:1691-2169 | the slots and what was taken: in every run in which the calls around each dequeue ask for at most half the word range together, each slot holds what belongs in it |
| `ExplicitElements.TakenIsEnqueued` | c++/server/concurrentqueue.h:1857-1880 | first in, first out: the element taken at index i is the i-th element enqueued |
| `ExplicitElements.EachIndexIsTakenOnce` | c++/server/concurrentqueue.h:2118-2130 | only the step that takes index i delivers it, it was not delivered before, and what it delivers is the element enqueued there |
| `ExplicitElements.NothingIsLost` | c++/server/concurrentqueue.h:1691-2169 | an element that was not taken is in its slot in a block of the circle, and if it was claimed exactly one consumer is still to take it |
| `ExplicitElements.ConstructsInEmptySlot` | c++/server/concurrentqueue.h:1997-2011 | an element is constructed in an empty slot of the block its consumer will look in, blocks taken up again included |
| `ExplicitProgress.ProducerAdvances` | c++/server/concurrentqueue.h:1691-1786 | each step of the producer brings the call closer to its end |
| `ExplicitProgress.EveryCallEnds` | c++/server/concurrentqueue.h:1691-1786 | wherever in a fitting run it is made, a call ends after a bounded number of the producer's own steps, whatever consumers do, with all its elements published or none |
| `ExplicitProgress.EveryGrantedCallSucceeds` | c++/server/concurrentqueue.h:1691-1786 | a call that meets no full room test and is granted what it asks for publishes all its elements |
| `ExplicitCalls.EveryCallIsAllOrNothing` | c++/server/concurrentqueue.h:1893-2033 | with its elements: a call appends all of them, in order, or none |
| `ExplicitCalls.EveryGrantedCallSucceeds` | c++/server/concurrentqueue.h:1893-2033 | and all of them if it meets no full room test and is granted what it asks for |
| `ExplicitFailure.EveryTurnIsTaken` | c++/server/concurrentqueue.h:1932-1953 | whatever it is answered, a producer in a call can take its turn: it goes on, or the call fails and is over |
| `ExplicitDequeues.DequeueAdvances` | c++/server/concurrentqueue.h:1794-2169 | a thread in a dequeue always has a next step, and it brings the dequeue closer to its end |
| `ExplicitDequeues.EveryDequeueEnds` | c++/server/concurrentqueue.h:2078-2169 | wherever in a fitting run a thread stands in a dequeue, single or bulk, it is over after a bounded number of its own steps, two for each element at most, whatever everyone else does |
| `ExplicitSafety.EveryStepIsDefined` | c++/server/concurrentqueue.h:1691-2169 | no step follows a null or stale pointer or reports an element twice |
| `ExplicitSafety.CircleAndIndexAgree` | c++/server/concurrentqueue.h:1743-1778 | the newest entries of the circular index are, oldest first, the blocks met on the circular list from the tail block on |
| `ExplicitSafety.ReuseIsSafe` | c++/server/concurrentqueue.h:1699-1712 | a block is reused only when every element ever put in it has been dequeued completely |
| `ExplicitSafety.LookupFindsBlock` | c++/server/concurrentqueue.h:1844-1855 | through whichever header it loaded, a consumer finds the block of each index it has claimed and not reported |
| `ExplicitSafety.ElementsGoWhereTheyAreSought` | c++/server/concurrentqueue.h:1997-2011 | an element is constructed in the block consumers will find for it |
| `ExplicitProducing.WrittenIsOk` | c++/server/concurrentqueue.h:1917-1920 | the entry overwritten is that of no block the index must still answer for |
| `ExplicitProducing.ReusedBlockIsEmpty` | c++/server/concurrentqueue.h:1909-1915 | the block ahead that is found empty is the oldest one, published, with every element reported |
| `ExplicitProducing.ReuseIsExact` | c++/server/concurrentqueue.h:1697-1712 | the block ahead is taken up again exactly when it was published before this call and every element that was in it has been dequeued completely |
| `ExplicitProducing.DoubledIsOk` | c++/server/concurrentqueue.h:2187-2224 | new_block_index keeps the mapping from bases to blocks for all entries in use |
| `ExplicitSafety.DeniedStep` | c++/server/concurrentqueue.h:1714-1738 | a call turned down before it obtained a block, for want of room, of memory for the index or of a block, changes nothing but that it is over |
| `ExplicitInvariant.LookUpIsExact` | c++/server/concurrentqueue.h:1849-1855 | from the entry at the front, whichever block it has come to stand for, the lookup on words is exact |
| `ExplicitInvariant.UnreportedBlockStays` | c++/server/concurrentqueue.h:1699-1712 | a claimed element that has not been reported is in a block still in the circle and published |
| `ExplicitInvariant.QueueFitsWord` | c++/server/concurrentqueue.h:1714-1725 | the elements in the queue are at most what the blocks held have room for, and these are below half the word range; the latter is the assumption under which blocks are granted, since a reused block is not tested for room |
| `ExplicitConsumers.Reporter` | c++/server/concurrentqueue.h:1857-1880 | a consumer reports into the block of its index, whose flag for it is still unset |
| `SharedExplicitProducer.Producer.constructor` | c++/server/concurrentqueue.h:1611-1626 | a producer as the constructor makes it, with its first index, stands for an initial state of the model |
| `SharedExplicitProducer.Producer.BeginEnqueue` | c++/server/concurrentqueue.h:1898-1908 | the start of a call, on words, is the step of the model |
| `SharedExplicitProducer.Producer.WriteEntry` | c++/server/concurrentqueue.h:1917-1920 | the write of an index entry, with its base as a word, changes that entry of the current header and nothing else |
| `SharedExplicitProducer.Producer.ReuseAhead` | c++/server/concurrentqueue.h:1909-1921 | taking the block ahead, or finding that it cannot be taken, is the step of the model |
| `SharedExplicitProducer.Producer.TestRoom` | c++/server/concurrentqueue.h:1924-1932 | the room test with the base kept as a word, performed in place, is the step of the model |
| `SharedExplicitProducer.Producer.GrowIndex` | c++/server/concurrentqueue.h:2187-2224 | the growth of the index, performed in place, is the step of the model |
| `SharedExplicitProducer.Producer.CopyEntries` | c++/server/concurrentqueue.h:2199-2208 | the copying loop moves the entries in use, oldest first, to the front of the new array |
| `SharedExplicitProducer.Producer.BuildHeader` | c++/server/concurrentqueue.h:2210-2215 | the header built stands for the doubled one |
| `SharedExplicitProducer.Producer.RequisitionBlock` | c++/server/concurrentqueue.h:1946-1975 | obtaining a block and linking it into the circle, performed in place, is the step of the model |
| `SharedExplicitProducer.Producer.ShowEntries` | c++/server/concurrentqueue.h:1988-1990 | showing the new entries, performed in place, is the step of the model |
| `SharedExplicitProducer.Producer.FindSlot` | c++/server/concurrentqueue.h:2106-2109 | the lookup on words, performed in place, is the step of the model |
| `ExplicitRuns.Do` | c++/server/concurrentqueue.h:1691-2169 | in every state of a run the method for the next step can be called, it does the step of the model, and the invariant holds again |
| `ExplicitRuns.Follow` | c++/server/concurrentqueue.h:1691-2169 | the object, driven through any schedule that keeps to the window, is where the run of the model is |
| `ExplicitRuns.FollowFromStart` | c++/server/concurrentqueue.h:1611-2169 | from the constructor through any schedule in which the calls around each dequeue ask for at most half the word range together: the run of the model from the new producer |
| `ProducerHash.EveryRunKeepsInv` | c++/server/concurrentqueue.h:3201-3349 | any number of threads, any hashed ids however they collide, any interleaving, any answers of the allocators: the invariant holds, in which the order of the increments of the count bounds the ids of every table |
| `ProducerHash.StepKeepsInv` | c++/server/concurrentqueue.h:3201-3349 | every atomic step of every thread is defined and keeps the invariant |
| `ProducerHash.OccupancyBelowQuota` | c++/server/concurrentqueue.h:3303-3306 | fewer than three quarters of the slots of any table are taken, ids that migrated lazily included |
| `ProducerHash.EmptySlot` | c++/server/concurrentqueue.h:3224 | every table always has an empty slot |
| `ProducerHash.ProbesEnd` | c++/server/concurrentqueue.h:3223-3261 | no probe, searching, migrating or inserting, looks at more slots than the table has |
| `ProducerHash.EmptyMeansAbsent` | c++/server/concurrentqueue.h:3257-3259 | an id that were in the table would have been met before the empty slot |
| `ProducerHash.ReadFindsOwner` | c++/server/concurrentqueue.h:3228-3234 | the value beside a thread's own key is the producer created for it |
| `ProducerHash.NewSizeIsRoomy` | c++/server/concurrentqueue.h:3274-3277 | the new capacity is the smallest power of two that is at least twice the old one and more than twice the count |
| `ProducerHash.RegisteredIsFound` | c++/server/concurrentqueue.h:3207-3209 | a thread id once inserted is always found: its thread never comes to insert it again |
| `ProducerHashCalls.OnlyRefusalFails` | c++/server/concurrentqueue.h:3200 | in any run, a call comes back without a producer only if it was refused memory for a larger table or a producer |
| `ProducerHashCalls.RegisteredNeverFails` | c++/server/concurrentqueue.h:3201-3256 | no call of a registered thread fails, whatever is refused |
| `ProducerHashCalls.CallAdvances` | c++/server/concurrentqueue.h:3201-3349 | each step of a call that nobody disturbs and that is refused nothing brings it closer to its end |
| `ProducerHashCalls.GrantedCallRegisters` | c++/server/concurrentqueue.h:3201-3349 | a call alone, with no other thread at work on a larger table, refused nothing: it ends after a bounded number of steps with a producer, and its thread is registered with it |
| `ProducerHashCalls.FreshCallRegisters` | c++/server/concurrentqueue.h:3307-3340 | in particular when every request for memory is granted and every producer granted is a new one |
| `ProducerHashCalls.EndsRegistered` | c++/server/concurrentqueue.h:3228-3252 | a call that ends with a producer leaves its id in the table that was the newest when it looked: ids met in older tables have been copied |
| `ProducerHash.OneProducerPerThread` | c++/server/concurrentqueue.h:3234-3255 | in every table that holds it an id stands beside one and the same producer, which is what every call returns, and no two threads share one |
| `ProducerHash.RegistrationIsPermanent` | c++/server/concurrentqueue.h:3201-3349 | no step of anyone unregisters a thread or gives it another producer |
| `ProducerHashLoops.MeetsEmptyIffAbsent` | c++/server/concurrentqueue.h:3223-3261 | in a table in order a probe ends at an empty slot if and only if the id is absent |
| `ProducerHashLoops.Search` | c++/server/concurrentqueue.h:3223-3261 | the search loop ends, at the id or at an empty slot met before it |
| `ProducerHashLoops.Insert` | c++/server/concurrentqueue.h:3323-3340 | the insertion loop ends and takes the first empty slot of the probe sequence, changing no other |
| `ProducerHashLoops.NewCapacity` | c++/server/concurrentqueue.h:3274-3277 | the doubling loop computes the new capacity of the model |
| `ProducerHashLoops.SharedHash.Do` | c++/server/concurrentqueue.h:3201-3349 | while the invariant holds every thread has a next access, it does the step of the model in place, and the invariant holds again |
| `ProducerHashLoops.SharedHash.Follow` | c++/server/concurrentqueue.h:3201-3349 | the hash, driven through any schedule, is where the run of the machine is |
| `ProducerHashLoops.FollowFromStart` | c++/server/concurrentqueue.h:3201-3349 | a hash from its constructor through any schedule satisfies the invariant |
| `ThreadIdHash.Hash32IsBijective` | c++/server/concurrentqueue.h:302-313 | the 32-bit hash is a bijection, with its inverse |
| `ThreadIdHash.Hash64IsBijective` | c++/server/concurrentqueue.h:316-323 | the 64-bit hash is a bijection, with its inverse |
| `ThreadIdHash.DistinctIdsDistinctHashes` | c++/server/concurrentqueue.h:304-307 | distinct thread ids keep distinct hashes |
| `Rotation.ConsumerToken.TryDequeueBulk` | c++/server/concurrentqueue.h:1093-1133 | run alone on a stable list the walk ends and delivers exactly min(max, total) elements; what it delivers and what remains are what there was; only the producer it ends at may be left half emptied |
| `Rotation.ConsumerToken.WalkFromCurrent` | c++/server/concurrentqueue.h:1101-1132 | the walk of a bulk dequeue from the current producer: besides the number delivered, when the rotation quota is looked at, where the token ends and what it has counted |
| `Rotation.ConsumerToken.UpdateCurrentProducer` | c++/server/concurrentqueue.h:1233-1271 | the two walks end where modular arithmetic says |
| `Rotation.WalkGoesOn` | c++/server/concurrentqueue.h:1115-1131 | one step of the walk loses nothing, and the producers passed since the last gift are empty |
| `Rotation.RotationsCompose` | c++/server/concurrentqueue.h:1256-1265 | following the rotation in two steps or at once comes to the same producer if and only if the two distances, as words, do not add up to the range of the offset, or the number of producers divides it |
| `Rotation.FreshTokensSpread` | c++/server/concurrentqueue.h:3500-3506 | n tokens created one after the other start on n different producers if and only if the token counter does not wrap among them or n divides its range |
| `Rotation.ThreeTokensMeet` | c++/server/concurrentqueue.h:3500-3506 | an input on which they do not: three producers and tokens 2^32 - 1, 0 and 1 |
| `Semaphore.EveryRunKeepsInv` | c++/server/blockingconcurrentqueue.h:199-300 | any threads, calls, interleaving and spinning: sleepers = max(0, -count) + kernel permits + releases still to be posted, and permits are conserved |
| `Semaphore.AcquiredAtMostAdded` | c++/server/blockingconcurrentqueue.h:250-300 | permits taken never exceed the initial ones plus those signalled |
| `Semaphore.NoWakeupIsLost` | c++/server/blockingconcurrentqueue.h:291-300 | with no signal half done every permit not taken is in the count or in the kernel semaphore; if the count is not positive a thread is asleep to take it |
| `Semaphore.CallGetsWhatItMay` | c++/server/blockingconcurrentqueue.h:220-289 | waitMany(max) with max > 0 returns between 1 and max permits, tryWaitMany(max) at most max |
| `Semaphore.LightweightSemaphore.Follow` | c++/server/blockingconcurrentqueue.h:199-300 | the semaphore, driven through any schedule of any threads, is where the run of the machine is |
| `Semaphore.FollowFromStart` | c++/server/blockingconcurrentqueue.h:247-300 | a semaphore from its constructor through any schedule satisfies the invariant, and no more permits are taken than added |
| `Semaphore.TryIsGreedy` | c++/server/blockingconcurrentqueue.h:250-279 | whatever states the count goes through, a try gets exactly the smaller of what it asks for and what was there in one of the states it saw: nothing only if nothing was there |
| `Semaphore.LessLeavesNothing` | c++/server/blockingconcurrentqueue.h:213-292 | a call, waiting or not, that gets less than it asks for has left no permit behind in some state between its start and its end |
| `Semaphore.CallInRun` | c++/server/blockingconcurrentqueue.h:199-292 | and so in any run of any threads |
| `Semaphore.AloneGetsMin` | c++/server/blockingconcurrentqueue.h:250-292 | alone, a call that finds permits gets exactly the smaller of what it asks for and what is there, however often its compare-and-swap fails spuriously first |
| `Semaphore.AloneSleeps` | c++/server/blockingconcurrentqueue.h:213-245 | alone, a waiting call that finds none and gives up spinning goes to sleep, counted among the sleepers |
| `Semaphore.SleeperIsServed` | c++/server/blockingconcurrentqueue.h:240-245 | a sleeper with a permit in the kernel takes it, and what it may of the count |
| `Semaphore.SpinnerIsServed` | c++/server/blockingconcurrentqueue.h:213-245 | a spinning thread takes what it may of the count if there is any, whether it goes on spinning or gives up |
| `BlockingQueue.EveryRunKeepsInv` | c++/server/blockingconcurrentqueue.h:414-684 | any producers and consumers, single and bulk, any interleaving, over a list of inner producers with their claim protocols and walks: the invariant that ties items to permits holds |
| `BlockingQueue.CountsAreOrdered` | c++/server/blockingconcurrentqueue.h:585-626 | items claimed by inner dequeues <= permits acquired <= permits signalled <= items enqueued |
| `BlockingQueue.OwedItemsAreThere` | c++/server/blockingconcurrentqueue.h:652-656 | a consumer in its retry loop always has an item owed to it, and so have all of them together |
| `BlockingResults.PermitsAreServed` | c++/server/blockingconcurrentqueue.h:618-626 | whatever the other threads do, a dequeue that took permits returns with exactly that many items, if it returns |
| `BlockingResults.RetryLoop` | c++/server/blockingconcurrentqueue.h:620-625 | given inner calls that give no more than asked, the loop makes no call once every permit is served, gives up no item, ends only with every permit served, and then at most as many calls gave anything as there were permits |
| `InnerQueue.GoKeepsOk` | c++/server/concurrentqueue.h:969-1085 | each access of a walk of try_dequeue or try_dequeue_bulk over the producers, whatever others do: what leaves the producers is what the walk is given, never more than it wants, and no other walk is affected |
| `InnerWalks.SizeApproxIsExact` | c++/server/concurrentqueue.h:1577-1582 | the score of a producer, computed on words from two loads made at different times, is the number of elements between the head and the tail loaded |
| `InnerWalks.BeginServes` | c++/server/concurrentqueue.h:969-1085 | a walk begun alone for no more elements than are there is certain to be given all of them |
| `InnerWalks.GoServes` | c++/server/concurrentqueue.h:969-1085 | and each of its accesses can be made, keeps that certain, and brings its end closer |
| `InnerWalks.PublishServes` | c++/server/concurrentqueue.h:969-1085 | as do elements enqueued meanwhile, wherever they go |
| `DryWalks.GivenLessMeansDry` | c++/server/concurrentqueue.h:963-1085 | what it means that a walk gives less than it was asked for, in any run of any producers and consumers: of the elements each producer held when the walk began all have been claimed by its end, but at most as many as other dequeues of that producer asked for that overlapped with it; this needs what the producer holds and what those ask for to stay below half the word range whenever a walk decides |
| `CrowdedWalks.CrowdedWalkMisses` | c++/server/concurrentqueue.h:2604-2626 | with one more it fails, for every word size of at least three bits: a dequeue finds nothing in a producer that holds one element less than half the word range, while one other dequeue took one element |
| `CrowdedWalks.SpareIsExact` | c++/server/concurrentqueue.h:2604-2626 | that bound is exact: with a limit on the two together, walks find the producers dry in all runs if and only if the limit is at most half the word range |
| `DryClaims.OwnStepFindsOut` | c++/server/concurrentqueue.h:2604-2640 | each access of a dequeue of one producer: what it has loaded and counted bounds what it can have missed, until it ends |
| `DryClaims.OthersKeepFindings` | c++/server/concurrentqueue.h:2604-2640 | no access of anyone else invalidates that, if what others begin to ask for is charged |
| `BlockingWindow.EveryRunIsSound` | c++/server/blockingconcurrentqueue.h:414-684 | however often the words wrap: in every run in which in each producer the calls around each dequeue ask for at most half the word range together, every producer's claims are sound |
| `BlockingResults.AloneIsServedAtOnce` | c++/server/blockingconcurrentqueue.h:620-625 | a consumer that begins an attempt, single or bulk, while no other dequeue is in flight and none begins, is served in full by that one attempt, whatever producers do meanwhile, within a bounded number of its own accesses |
| `BlockingResults.AloneIsServed` | c++/server/blockingconcurrentqueue.h:620-625 | so it is in any run of the queue from its constructor in which the calls around each inner dequeue ask for at most half the word range together |
| `InnerWalks.LargestIsBest` | c++/server/concurrentqueue.h:971-988 | the walk of a try_dequeue goes first to the producer it found the most elements in, the newest of these, up to the third that was not empty, and to none only if it found all empty |
| `BlockingCalls.DequeueTakesWhatIsFree` | c++/server/blockingconcurrentqueue.h:585-684 | in any run, a try_dequeue returns as many items as the smaller of what it asks for and the free permits of a state it went through, nothing only if none was free; a dequeue that returns fewer than it asks for, waiting or not, has been through a state without a free permit |
| `BlockingCalls.NoneFreeMeansAllOwed` | c++/server/blockingconcurrentqueue.h:585-684 | where no permit is free and no signal is half done, every item is claimed or owed to a dequeue in flight |
| `BlockingCalls.NobodyIsStuck` | c++/server/blockingconcurrentqueue.h:414-684 | no thread is ever stuck, unless it sleeps on the kernel semaphore and that has no permit |
| `BlockingQueue.ReturnsWhatItTook` | c++/server/blockingconcurrentqueue.h:618-626 | a dequeue returns at most max, and at least one if it waited for max > 0 |
| `BlockingQueue.NothingLeftBehind` | c++/server/blockingconcurrentqueue.h:414-421 | with all calls finished every item is dequeued or has a free permit |
| `Download.SegmentSizes` | c++/server/server.cpp:190-195 | segments before the announced last one are full, that one is not empty, those after it are |
| `Download.SegmentsAreTheFile` | c++/server/server.cpp:190-195 | n segments make up the file if and only if n exceeds the announced last segment number |
| `Download.EveryRunKeepsInv` | c++/client/client.cpp:24-166 | any non-empty file, payload size and window, any order of arrival, timeouts and nacks: the invariant holds that divides the segments asked for into written, pending and outstanding ones |
| `Download.WrittenIsTheFile` | c++/client/client.cpp:128-144 | the bytes written are always the segments before _current_segment, and at completion the file |
| `Download.WindowIsKept` | c++/client/client.cpp:24-52 | received and outstanding segments partition those asked for; outstanding ones never exceed the window; each is first asked for once and in order; before completion some Interest is outstanding |
| `Download.ArrivalIsProgress` | c++/client/client.cpp:128-153 | each arrival counts one more segment, and no more can be counted than window or file have |
| `Download.EnoughArrivalsComplete` | c++/client/client.cpp:128-153 | whatever the order of arrival, the timeouts and the nacks: once as many segments it waited for have arrived as the window or the file has, whichever is more, a download that was not aborted is complete and what it wrote is the file |
| `Download.WindowIsFull` | c++/client/client.cpp:145-152 | while it runs and segments are left to ask for, exactly a window of Interests is outstanding, in every run |
| `Download.AbortsIffUnbearable` | c++/client/client.cpp:155-166 | exactly when a download is aborted: a segment it waits for is refused with the order to exit, or times out once more after five timeouts since it was last refused |
| `Download.PatientDownloadCompletes` | c++/client/client.cpp:128-166 | with no more timeouts than that and no such refusal it is never aborted, and once enough awaited segments have arrived it is complete and what it wrote is the file |
| `Download.Client.Run` | c++/client/client.cpp:31-50 | the opening loop asks for the first window, as the model does |
| `Download.Client.OnDataFile` | c++/client/client.cpp:128-153 | the callback, with its draining loop, is the step of the model |
| `Download.Client.OnTimeoutFile` | c++/client/client.cpp:155-166 | the timeout, performed in place, is the step of the model |
| `Download.Client.OnNack` | c++/client/client.cpp:59-79 | the nack, performed in place, is the step of the model |
| `Download.Client.Follow` | c++/client/client.cpp:59-166 | the client, driven through any events, is where the run of the machine is |
| `Download.FollowFromStart` | c++/client/client.cpp:24-166 | a download from its constructor through any events: what it wrote is the beginning of the file, and the file if it completed |
| `JavaDownload.EveryRunIsSafe` | java/client/src/Client.java:86-162 | any window, any interleaving of network and writer thread, any order of arrival: each segment is first asked for once, the writer writes exactly the segments before its position in order, and when it stops that is the file |
| `JavaDownload.QuietMeansComplete` | java/client/src/Client.java:86-162 | no lost wakeup: nothing outstanding, network thread listening and writer unable to go on mean a complete file |
| `JavaDownload.NeverStuck` | java/client/src/Client.java:137-161 | an unfinished download waits for an Interest or one of its threads can go on |
| `JavaDownload.StepIsProgress` | java/client/src/Client.java:86-161 | every access of either thread, and every arrival, leaves strictly less to be done; a timeout leaves the same or aborts |
| `JavaDownload.EveryRunEnds` | java/client/src/Client.java:86-161 | whatever arrives and however the threads are scheduled, a download of n segments takes at most 12 n + 3 steps besides timeouts |
| `JavaDownload.FairRunsComplete` | java/client/src/Client.java:86-161 | a download whose threads get their turns and whose Interests are answered comes to its end: after 12 n + 4 such rounds it was aborted or the file has been written |
| `JavaDownload.WindowIsFull` | java/client/src/Client.java:86-113 | while segments are left to ask for, exactly a window is in flight, in every run |
| `JavaDownload.AbortsIffUnbearable` | java/client/src/Client.java:116-134 | exactly when a download is aborted: a segment it waits for times out a third time |
| `JavaDownload.PatientRunsComplete` | java/client/src/Client.java:86-161 | with no more than two timeouts of any segment, fair rounds end with the file written |
| `JavaDownload.PendingFile.NextSegment` | java/client/src/PendingFile.java:28-35 | takes the segment at the position if it is there and moves on |
| `JavaDownload.PendingFile.Drain` | java/client/src/Client.java:142-151 | writes every segment that is next in order, and stops at a gap |
| `JavaDownload.Client.OnAnnouncement` | java/client/src/Client.java:98-113 | asks for the first window or reports the file missing |
| `JavaDownload.Client.NextDownloadInterest` | java/client/src/Client.java:87-94 | the network thread's accesses for a segment, one at a time and in place, are the steps of the model |
| `JavaDownload.Client.FileManager` | java/client/src/Client.java:137-161 | the writer's accesses, one at a time and in place, are the steps of the model |
| `JavaDownload.Client.OnTimeout` | java/client/src/Client.java:116-134 | the timeout, performed in place, is the step of the model |
| `JavaDownload.Client.Follow` | java/client/src/Client.java:59-161 | the client, with callback and writer interleaved in any order, is where the run of the machine is |
| `JavaDownload.FollowFromStart` | java/client/src/Client.java:24-161 | a download from its constructor through any schedule: what is written is the beginning of the file, and the file when the writer has stopped |

## Left out

- Weak memory orders and fences: every atomic access is a sequentially consistent step.
- Exceptions thrown by element constructors or assignments, destructors, move and swap of queues, alignment and memory layout; debug-only and instrumented variants of the code.
- ExplicitWindow.FittingRunKeepsInv: does not model a call that fails after it has obtained a block (`c++/server/concurrentqueue.h:1932-1953`), which `Granted1` disables; `ExplicitFailure` has it and proves which calls may fail so. An exception in the middle of a bulk, which undoes it the same way, is not modelled.
- ExplicitProgress.EveryCallEnds: counts the steps the producer takes; a call turned down after it has obtained a block has none in this machine, and is over in that of `ExplicitFailure`.
- ExplicitProducer: does not model a constructor whose first index allocation fails, nor the order in which a plain enqueue resets the emptiness of a reused block before it writes the index entry; the block is reset after the entry is written, as in `enqueue_bulk`, and before the entry is shown.
- ExplicitProducer: the two stores of an index entry, base and block, are one step; no consumer looks at the entry before it is shown.
- ExplicitProducer: the slots of the blocks are in `ExplicitElements`, not in the object. A configured size limit is tested but no bound is proved from it, since reused blocks are not tested.
- ExplicitElements: the flag of an element is set in a later step than the one that takes it; a bulk dequeue takes all its elements in a block before it reports them, which is one of the orders allowed here.
- ExplicitInvariant.QueueFitsWord: assumes that the blocks held stay below half of the word range, under which alone blocks are granted; the room test cannot give it, since reused blocks are not tested. Memory for an index is granted only while index and blocks fit the address range, as in the model of the implicit producer.
- ImplicitProducer: the pools are answers of the environment: a requisition is granted any block the producer does not hold, in the state its last user left it, or nothing; `BlockPool` has the pools and shows that the block is one nobody holds.
- BlockPool: all producers are there from the beginning; `initialBlockPoolIndex` does not wrap; a producer's step and the access of the free list that follows it are bound to a thread only by the block the thread has.
- ExplicitLateFailure.BlockfulIsExact: is about configurations whose index range has room for twice the blocks of the first index and whose limit, if any, for one block more than these.
- ImplicitProducer: the field `Block.number` is auxiliary; the tail block pointer that a call saves and restores is not written during the call.
- ImplicitProducer: indices are at least as wide as sizes in the source and equally wide in the model; a call of more elements than the word range less one block is not modelled.
- `dequeue_bulk` with max = 0: it would look up a block it has no claim on; claims ask for at least one element.
- ProducerHashCalls.GrantedCallRegisters: is about a call that no other thread disturbs, none of them having stopped in the middle of a resize; the code waits for such a thread when the table is three quarters full.
- Producer recycling and thread-exit notification (`c++/server/concurrentqueue.h:418-481`, `:3351-3392`): ordinary builds leave them out, so the hash has no deletions and every thread creates its own producer.
- The list of producers: token rotation is modelled on a stable list, with each producer's bulk dequeue run alone delivering what it has, as `DequeueClaims.AloneGetsAll` shows of the claim; the walks without a token are modelled on a growing list, with claims and enqueues interleaved.
- Semaphore: the spin count is a choice between trying again and sleeping; the kernel semaphore is a count; the cast of the number of releases to `int` is the identity.
- BlockingQueue: its inner producers are their claim protocols; that claims lead to elements is proved of the producers. Dequeues with a token are not part of it.
- BlockingResults.AloneIsServedAtOnce: takes the claims of the inner producers to be sound, which `BlockingWindow.EveryRunIsSound` shows of every run in which the calls around each inner dequeue ask for at most half the word range together.
- Download: a file is not empty (the unsigned division of the server gives no last segment otherwise); the file does not change while it is served; an Interest is answered by Data, a timeout or a nack.
- Download: the benchmark mode, display, log counters and command line.
- JavaDownload: names and retry table entries stand for segment numbers; the permits acquired at once are those the writer saw; reading and writing of files succeeds.
- `java/server/src/LFBQ.java`: its hand-off registers a thread and parks without polling again, which supports no claim that a wakeup is not lost.
- `java/rabbitmq_server`: framing around library objects, only an easy round trip.
- Faces, NDN names and packets, signing, keys and RabbitMQ: input and output.
