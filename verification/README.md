# Verification of read-write-store

A Dafny model of `RwStore`, a concurrent collection whose elements have generated IDs and a
read-write lock each, with proofs of what its callers rely on. It covers the 64-bit slot header
and its parking protocol, the life of a slot from allocation to retirement, the racing bucket
allocator, the iterators, and the capacity arithmetic. `dafny verify dfyconfig.toml` checks
everything.

## How the model is built

- **`Bits`, `HeaderWord`**: the header word, once as the bit patterns the program computes and
  once as what they mean (`HeaderState`). Words and meanings correspond one to one, and every bit
  helper is shown to do to a word what the operation of the same name does to its meaning.
- **`Header`**: the header as an object with one 64-bit field. Its methods are the program's
  methods running without interference, with any number of spurious weak compare-exchange
  failures.
- **`SlotProtocol`, `SlotInvariant`, `SlotFacts`**: one slot shared by any number of concurrent
  calls. A step is one access to shared memory, or one operation under the queue lock of the
  parking lot. The park closure runs step by step under the queue lock while the
  compare-exchanges of other calls may fall between its own steps, also between the one that
  sets the waiting mark and the enqueue. Only `park` and `unpark` exclude each other.
- **`Blocks`, `Bucket`**: block lengths, slot scrambling, and the allocator as a step machine:
  an unlocked counter that overshoots, a reader-writer lock, and a slow path that looks twice.
- **`Store`**: sixteen buckets, all slots of all blocks, and the erasure queue, with any
  interleaving of any number of calls. A step of the store is a step of one slot or one bucket.
- **`Spec`, `Linearization`, `Outcomes`, `Refinement`**: an atomic map from IDs to elements with
  their guards; every step of the store is one atomic event on that map or none; every outcome
  of a call is explained by one event or one state inside the call.
- **`Solo`, `RwStore`**: the store as the object one thread sees. Every method runs the steps of
  its call to the end while nobody else moves, and is specified by what it does to the atomic map.
  That the methods end shows that an operation waits for nothing but a lock that is held. A call
  without a deadline that waits for a guard of its own thread never returns; it ends `Asleep`.
- **`Progress`, `Reuse`**: what a step waits for, and that the store as a whole never comes to a
  stop; the order in which removed slots are used again.
- **`Guards`**: what a guard sees in the concurrent store, and that nobody else can change it.
- **`StoreFacts`**: conservation of slots and elements, and what a store at rest looks like.
- **`Iter`, `Traversal`, `Assignments`**: the iterators as objects walking along chains of blocks;
  the chains of a store; what iteration yields, what it leaves behind, and what dropping drops; a
  loop over `iter_mut` that assigns to every element.
- **`EndOfRun`**: conservation of elements over a whole run that ends in a partial `into_iter`.
- **`Capacity`, `HighWater`, `DocumentedPeak`, `Readings`**: `capacity`, its relation to the slots
  handed out, the high-water mark over runs, exactly when it is the documented peak, and exactly
  when a later reading can be smaller.
- **`Witness`, `SequentialRuns`, `ReadingRuns`**: runs on which the documentation does not hold.
- **`BucketChoice`**: the per-thread generator that picks buckets.

## Assumptions

- Atomic accesses are sequentially consistent; the orderings the program asks for are not
  modelled. A weak compare-exchange may fail although the word matches.
- IDs are used only with the store that issued them, and only after the insertion has returned;
  guards are not leaked.
- parking_lot, the erasure queue and the reader-writer lock of a bucket are trusted: validate and
  enqueue under one queue lock, wake all, first in first out, readers exclude the writer.
- A timeout is a step that a parked call with a deadline may take at any time. A call that panics
  because of too many readers ends.
- Block lengths are at most 2^30 slots: with 2^31 the doubling in `head_size_to_total_size`
  leaves `u32`, and `Blocks.HeadSizeToTotalSize` shows that this is exactly where it does.
- At most `limit <= 2^31` calls are inside one bucket's allocator at once; without some bound its
  counter could wrap.
- An element is a token, which tells apart the elements of different insertions, and an integer
  payload, which a write guard may change. Calls, not threads, take the steps, so the order in
  which one thread makes its calls is not used except in the sequential runs of `HighWater`.
- Taking an erasure from the queue and choosing a bucket when there is none is one step.

## Where the code and its documentation differ

- `Bucket::capacity` computes `head_size - used` without a clamp (src/bucket.rs:61). The counter
  is past the head exactly while some call sits between its miss and the slow path; then the
  subtraction underflows, which is a panic with overflow checks, and without them reports more
  slots touched than allocated. `Capacity.BucketCapacity` states this as an equivalence and
  `Witness.CapacityUnderflows` is a run that gets there. The documentation says the actual values
  may be larger but not smaller than those returned (src/lib.rs:467-469); that is so apart from
  these calls (`HighWater.CapacityDuringRun`).
- The documentation says that neither number ever decreases (src/lib.rs:473). The allocated number
  does not. The touched number read off a bucket can decrease exactly when two or more calls were
  between a miss and the slow path at the earlier reading (`Readings.NeverDropsExactly`): the
  expansion starts a new counter and forgets them. `ReadingRuns.CapacityDrops` is a run on which
  `capacity` returns 3 and later 2.
- The touched capacity is documented as the largest number of elements ever contained at the same
  time (src/lib.rs:471-473). It is at least that in every run. Between the operations of a
  sequential run it is exactly that if and only if no slot was retired whenever one was taken that
  had never been used (`DocumentedPeak.TouchedIsPeakExactly`); in any case it is the largest number
  of elements *and retired slots* at the same time (`HighWater.HighWaterMark`).
  `SequentialRuns.SequentialTouchedExceedsPeak` is a sequential run that takes one slot through all
  its IDs and then touches a second one, with never more than one element. In a concurrent run the
  touched capacity can be larger even without retired slots, because a removal holds its slot
  before it pushes the erasure (`Witness.TouchedExceedsPeak`).
- `RwStore::capacity` adds the numbers of sixteen buckets in `u32` (src/lib.rs:492-493). A bucket
  may have up to 2^31 - 1 slots, so the sums leave `u32` in a store of 2^32 slots or more; `fits`
  in `Capacity.StoreCapacity` says exactly when.

## Model

| member | source | states |
|---|---|---|
| `HeaderWord.DecodeEncode` | src/header.rs:21-33 | every meaning has a word that means it |
| `HeaderWord.EncodeDecode` | src/header.rs:21-33 | every 64-bit word is the word of its meaning, so the layout leaves no word unused |
| `HeaderWord.SameWordSameState` | src/header.rs:396-404 | comparing words is comparing meanings |
| `HeaderWord.ConstructorsAgree` | src/header.rs:406-424 | the three constructors build the words of unoccupied, unlocked and write locked |
| `HeaderWord.QueriesAgree` | src/header.rs:418-445 | ID, reader count, occupied, write locked and blocking are read off every word correctly |
| `HeaderWord.MarksAgree` | src/header.rs:447-463 | setting and clearing the notification bit, on every word |
| `HeaderWord.CountsAgree` | src/header.rs:465-491 | adding and taking a reader, on every word, with the carries the assertions exclude |
| `HeaderWord.ReadUnlockAgrees` | src/header.rs:141-148 | the word a read unlock installs, with the notification bit restored by the last reader |
| `HeaderWord.NoCarry` | src/header.rs:465-481 | below the limit one more reader touches neither ID nor notification bit and never reads as write locked |
| `Header.Header.LockRead` | src/header.rs:50-75 | granted, mismatch, timed out, sleeping or too many readers, each with the exact header that results |
| `Header.Header.UnlockRead` | src/header.rs:118-158 | one reader less; sleepers are woken exactly by the last marked reader, who restores the bit |
| `Header.Header.LockWrite` | src/header.rs:162-170 | granted exactly from unlocked with the ID |
| `Header.Header.Transition` | src/header.rs:268-310 | what the transition does from every state; busy retry only after a spurious failure |
| `Header.Header.UnlockWrite` | src/header.rs:174-193 | unlocked again; sleepers woken exactly if marked |
| `Header.Header.Occupy` | src/header.rs:197-213 | sets the one bit that makes the header occupied and returns its ID |
| `Header.Header.Remove` | src/header.rs:217-235 | unoccupied with the next ID, reusable unless that is the reserved one |
| `Header.Header.RemoveLocked` | src/header.rs:240-263 | the same from write locked, by one swap |
| `Header.Header.Reset` | src/header.rs:371-394 | unoccupied with the same ID, returning it if there was an element |
| `Header.Header.NeedsDrop` | src/header.rs:350-352 | true exactly when occupied |
| `Header.Header.IdIfOccupied` | src/header.rs:360-368 | the ID exactly when occupied |
| `SlotInvariant.StepKeepsInv` | src/header.rs:50-347 | every step of every call keeps the invariant of the slot: exact guard counts, homes, issued and removed IDs, stored element, wake-ups owed |
| `SlotFacts.ChecksHold` | src/header.rs:123-213 | no debug assertion, initialisation check or unreachable branch fails at any step; busy retry only on the expected word |
| `SlotFacts.SleeperHasWaited` | src/util/sync/park.rs:84-95 | the timeout callback always finds the result cell saying that the call waited, and overwrites it |
| `SlotFacts.IndefiniteNeverTimesOut` | src/lib.rs:188-191 | a call without a deadline never times out, so the unwrapping entry points cannot panic on it |
| `SlotFacts.GuardsCounted` | src/header.rs:57-75 | read guards are counted exactly, a write guard is alone, and the count never reaches the write pattern |
| `SlotFacts.NoConflict` | src/lock.rs:53-59 | whoever may write, move out or reuse the value is alone with it |
| `SlotFacts.GuardSeesValue` | src/lock.rs:45-51 | a guard looks at an initialised value, the one whose insertion returned its ID |
| `Guards.DerefSeesMap` | src/lock.rs:45-51 | looking through a guard yields the element, payload included, that the atomic map has at that moment |
| `Guards.GuardSeesOneElement` | src/lock.rs:116-128 | while a guard is held nobody but its own call changes or removes what it sees |
| `SlotFacts.NoLostWakeup` | src/header.rs:318-347 | while a call sleeps or is about to, an unpark is on its way or the word is marked and the guards that keep it locked exist |
| `SlotFacts.UnlockedMeansUnpark` | src/header.rs:174-193 | an unlocked or unoccupied header with sleepers has an unpark on its way |
| `SlotFacts.UnparksExactly` | src/header.rs:141-193 | an unpark is started by exactly the steps that free a marked header |
| `SlotFacts.WokenInTwoWays` | src/util/sync/park.rs:84-105 | a sleeper leaves the queue by an unpark or by its own deadline |
| `SlotFacts.SleepersDoNotBlockAll` | src/util/sync/park.rs:59-106 | while anybody sleeps, another call that can end the sleep is able to take its next step |
| `SlotFacts.DontBlockNeverSleeps` | src/header.rs:84-88 | a call that must not block never comes near the queue |
| `SlotFacts.IssuedIds` | src/block.rs:151-160 | an issued ordinal is at most the stored one, and equal exactly while the slot is occupied by the insertion that got it |
| `SlotFacts.InsertedOnce` | src/block.rs:82-96 | an ordinal is returned by one insertion, and one insertion returns one ordinal |
| `SlotFacts.RemovedOnce` | src/lib.rs:214-261 | of all racing removals of an ID at most one succeeds |
| `SlotFacts.ReservedIsFinal` | src/lib.rs:218-221 | a slot that has reached the reserved ID is never handed out, queued or occupied again |
| `SlotFacts.ElementInOnePlace` | src/block.rs:98-118 | the element of an insertion is with its inserter, in the slot, or with exactly one call that moved it out |
| `Blocks.ScrambleIsTripleModulo` | src/block.rs:210-223 | truncate and mask is three times the slot modulo the length, for every power of two |
| `Blocks.ScramblePermutes` | src/block.rs:210-223 | scrambling is a permutation of the block, with an explicit inverse |
| `Blocks.SlotsOf` | src/bucket.rs:97-121 | blocks of 1, 2, 4, ... slots have 2^n - 1 in all |
| `Blocks.HeadSizeToTotalSize` | src/bucket.rs:112-121 | the loop returns the sum of the chain, and stays in `u32` exactly up to heads of 2^30 |
| `Bucket.StepKeepsInv` | src/bucket.rs:24-45 | every step keeps: the counter is past the head by exactly the calls that have missed and not been through the slow path |
| `Bucket.OvershootBound` | src/bucket.rs:83-95 | the counter stays within head, number of calls and one, so it never wraps |
| `Bucket.HandOut` | src/bucket.rs:83-95 | a step that gets a slot hands out one location that never was before; no step skips or takes back any |
| `Bucket.ExpandsOnlyWhenFull` | src/bucket.rs:97-109 | a block is added only when every slot of every block has been handed out |
| `Bucket.RefetchHits` | src/bucket.rs:43-44 | the `unwrap` after `expand` never fails |
| `Store.StepKeepsInv` | src/lib.rs:157-267 | every step of the whole store keeps its invariant: buckets, slots, fresh slots, erasures, and where each call is |
| `Store.AllocateReady` | src/block.rs:77-80 | the slot a bucket is about to hand out exists, is untouched, and nobody else has it |
| `Spec.IdsAreNeverReused` | src/lib.rs:147-149 | in the atomic map no two insertions return the same ID |
| `Spec.RemovedIsDead` | src/lib.rs:170-174 | in the atomic map nothing takes effect on a removed ID |
| `Linearization.Simulates` | src/header.rs:50-310 | every step on a slot is the atomic event named for it, with element, readers and writer |
| `Outcomes.SupportIsJustified` | src/header.rs:63-69 | evidence for "not found" or "timed out" is read only from a state that justifies it |
| `Outcomes.StepCommits` | src/header.rs:71-74 | a call's promise of an effect is made by exactly the step that has the effect |
| `Refinement.StepRefines` | src/lib.rs:157-393 | every step of the store is one event on the atomic map from IDs to elements, or none |
| `Refinement.RunKeepsInv` | src/lib.rs:157-393 | every state of every run satisfies the invariant of the store |
| `Refinement.RunIsTrace` | src/lib.rs:157-393 | a run of the store is a run of the atomic map |
| `Refinement.OutcomeIsExplained` | src/lib.rs:157-393 | linearizability: each returned ID, element, guard, `None`, `TimedOut` or panic has one step inside the call that explains it; a call that may block timed out because its own deadline passed later than that, while it slept |
| `Refinement.OutcomeIsJustified` | src/header.rs:268-283 | `TimedOut` only if locked incompatibly at some moment inside the call, `None` only if already removed then |
| `Refinement.PanicIsJustified` | src/header.rs:465-481 | over any run a read panics only if the element had the greatest number of readers at some moment inside the call |
| `Refinement.DeadlineHasPassed` | src/header.rs:84-88 | over any run only a call that must not block times out without its own deadline passing while it is in the queue |
| `Refinement.CommitmentIsEvent` | src/lib.rs:214-261 | a completed insertion, lock or removal is an event of the run |
| `Refinement.EventHappensOnce` | src/lib.rs:157-168 | and never two |
| `Refinement.RunIdentifiers` | src/lib.rs:147-191 | over any run all returned IDs are distinct, and nothing happens to a removed one |
| `Reuse.ErasuresAreFifo` | src/util/sync/concurrent_queue.rs:28-43 | over any run the slots used again are the first of those erased, in the same order, and the rest are the queue |
| `Reuse.InsertReusesFirst` | src/lib.rs:157-160 | an insertion that begins while slots are queued gets the first of them |
| `Progress.SlotWaitsExactly` | src/util/sync/park.rs:59-106 | a call at a slot is held up exactly by a taken queue lock or its own sleep |
| `Progress.BucketWaitsExactly` | src/bucket.rs:24-45 | a call in a bucket is held up exactly by the reader-writer lock; fast paths do not exclude each other |
| `Progress.OperationsMayBegin` | src/lib.rs:214-393 | any operation on an issued ID may begin in any state |
| `Progress.NoDeadlock` | src/lib.rs:157-393 | while any operation is pending somebody can proceed, if only by dropping a guard |
| `Solo.SoloStep` | src/header.rs:268-347 | a call that runs alone comes closer to rest with each step, has at most one event, and sees only what is so |
| `RwStore.RwStore.Insert` | src/lib.rs:157-168 | returns an ID that never existed and adds exactly this element under it: at the first erasure, which is taken off the queue, or else at the next unused slot of the bucket that the thread's generator chooses next, leaving all other buckets alone |
| `RwStore.RwStore.NextInsertLocation` | src/bucket.rs:24-45 | fast path, slow path and expansion end with the first unused slot of the head, or of the next block if there is none, reserved for the insertion alone; nothing else changes |
| `RwStore.RwStore.Remove` | src/lib.rs:214-228 | succeeds exactly on a live element without guards, is absent exactly for removed IDs, and otherwise times out, or without a deadline sleeps, without effect; a success queues the slot last unless its IDs are used up |
| `RwStore.RwStore.RemoveLocked` | src/lib.rs:249-261 | removal through a write guard always succeeds, returns the element and queues the slot likewise |
| `RwStore.RwStore.Read` | src/lib.rs:318-333 | a new reader, absent, timed out, asleep or panic, each in exactly the right state |
| `RwStore.RwStore.Write` | src/lib.rs:378-393 | a write guard exactly on a live element without guards; otherwise absent, timed out or asleep |
| `RwStore.RwStore.Look` | src/lock.rs:45-51 | a guard shows the element of its ID |
| `RwStore.RwStore.Assign` | src/lock.rs:124-128 | changes the payload of the element and nothing else |
| `RwStore.RwStore.DropRead` | src/lock.rs:53-59 | takes exactly this reader away |
| `RwStore.RwStore.DropWrite` | src/lock.rs:130-134 | takes exactly this writer away |
| `RwStore.RwStore.Capacity` | src/lib.rs:487-497 | between operations: the slots ever handed out and the slots there are, without underflow |
| `StoreFacts.SlotConservation` | src/lib.rs:157-267 | every allocated slot is in exactly one of untouched, inserting, occupied, being removed, queued, retired |
| `StoreFacts.OneOwner` | src/block.rs:82-118 | two insertions never have the same slot, and a removal's late read never races a reuse |
| `StoreFacts.ElementAtOneSlot` | src/block.rs:82-118 | the element of an insertion is at its slot and at no other |
| `StoreFacts.ElementInBucket` | src/lib.rs:157-168 | while an insertion is looking for a slot its element is at no slot |
| `StoreFacts.QuiescentSlot` | src/block.rs:258-264 | at rest a slot has a value exactly when its header is occupied, so `needs_drop` is right |
| `StoreFacts.DroppedOrReturned` | src/block.rs:258-264 | an occupied header is left for dropping exactly when no removal has returned the element |
| `EndOfRun.Consume` | src/iter.rs:191-214 | at the end of any run, with `into_iter` dropped after any number of items, every inserted element was returned, moved out or dropped, exactly once |
| `EndOfRun.ElementOnceOut` | src/block.rs:98-118 | the same for one insertion |
| `Iter.BucketIter.constructor` | src/iter.rs:176-186 | starts at the clamped counter with everything in front of it |
| `Iter.BucketIter.Next` | src/iter.rs:191-214 | yields the items to come one by one, then `None`, stops right at the item it yields, drops nothing on the way, and as `iter_mut` changes nothing |
| `Iter.BucketIter.Take` | src/block.rs:162-190 | `into_iter` empties exactly the slot shown, which keeps its ID; `iter_mut` leaves the block as it is; all later items stay |
| `Iter.BucketIter.Assign` | src/block.rs:175-190 | an assignment through the reference shown changes the payload at that slot and nothing else in memory |
| `Iter.BucketIter.SizeHint` | src/iter.rs:216-227 | the upper bound is the number of slots still to visit, and at least the items to come |
| `Iter.BucketIter.Discard` | src/block.rs:192-194 | dropping the iterator drops exactly what it would have yielded |
| `Iter.DropSlots` | src/block.rs:258-264 | dropping slots drops what `needs_drop` reports, and all of it is initialised |
| `Iter.DropChain` | src/block.rs:258-264 | dropping a block drops the blocks it owns as well |
| `Iter.GenIter.Next` | src/iter.rs:144-153 | the same over all buckets, last bucket first |
| `Iter.GenIter.SizeHint` | src/iter.rs:155-166 | the bounds of the buckets added up |
| `Iter.LeftoversAreRest` | src/block.rs:192-194 | what is left in the blocks is what was not visited |
| `Iter.RemainingIsDistinct` | src/iter.rs:191-214 | no slot is yielded twice |
| `Traversal.NewIter` | src/iter.rs:29-47 | before a new iterator lies exactly the live set of the store, each element once, and it visits as many slots as were ever handed out |
| `Traversal.NewSizeHint` | src/iter.rs:216-227 | the upper bound of a new iterator is the touched capacity |
| `Traversal.IterateAll` | src/iter.rs:87-107 | a loop over `iter_mut` yields every live ID and element once, nothing else, and then `None` for good, and leaves the store as it was |
| `Assignments.AssignAll` | src/iter.rs:87-107 | a loop over `iter_mut` that assigns to what it is shown assigns to every live element once and changes nothing else |
| `Assignments.AssignedMeans` | src/iter.rs:87-107 | what that does to the map: new payloads under the same IDs |
| `Assignments.AssignedKeepsInv` | src/iter.rs:87-107 | and the store can be used on |
| `Traversal.PartialIntoIter` | src/iter.rs:191-214 | however many elements are taken before the iterator is dropped, each is moved out or dropped exactly once |
| `Traversal.ChainItems` | src/block.rs:258-264 | dropping a bucket drops exactly its live elements |
| `Traversal.DropStore` | src/block.rs:258-264 | dropping the store drops every live element once and nothing else |
| `Traversal.GetMutFindsLive` | src/block.rs:151-160 | comparing ordinals alone finds the live element of an issued ID and fails exactly on removed ones |
| `Capacity.BucketCapacity` | src/bucket.rs:47-64 | touched is the number handed out plus the pending misses; the subtraction underflows exactly when there are some |
| `Capacity.HandedGrows` | src/bucket.rs:83-109 | the number handed out grows by one with each slot and never shrinks, expansions included |
| `Capacity.SumCapacity` | src/lib.rs:487-497 | the loop adds up all buckets |
| `Capacity.StoreCapacity` | src/lib.rs:487-497 | with no miss pending the result is the number of slots ever handed out and the number there are |
| `HighWater.TouchedNeverDecreases` | src/bucket.rs:83-109 | over any run a slot once handed out stays touched, expansions included |
| `HighWater.PeakBelowTouched` | src/lib.rs:471-473 | in any run the peak number of elements is at most the number of touched slots |
| `HighWater.CapacityDuringRun` | src/lib.rs:467-469 | read while in use, the returned numbers are at least the true ones at the beginning, and the touched one exceeds the true one at the end by at most the pending misses |
| `HighWater.HighWaterMark` | src/lib.rs:471-473 | in a sequential run touched is exactly the peak of live elements and retired slots together |
| `HighWater.TouchedIsPeak` | src/lib.rs:471-473 | between operations it is at most the peak plus the retired slots, and is live plus queued plus retired |
| `DocumentedPeak.TouchedIsPeakExactly` | src/lib.rs:471-473 | between operations of a sequential run it is the documented peak if and only if no slot was retired whenever a never-used one was taken |
| `DocumentedPeak.PeakStaysBelow` | src/lib.rs:471-473 | in every run, concurrent or not: after a never-used slot was taken beside a retired one the peak stays below the touched slots |
| `SequentialRuns.SequentialTouchedExceedsPeak` | src/lib.rs:218-221 | a sequential run that retires one slot, touches a second and never has two elements |
| `Readings.NeverDropsExactly` | src/lib.rs:473 | while another block fits, the touched number of a bucket can go down exactly if two or more misses are pending |
| `ReadingRuns.CapacityKeepsUp` | src/lib.rs:473 | over any run the allocated number never goes down, nor the touched one while at most one miss is pending in each bucket |
| `ReadingRuns.CapacityDrops` | src/lib.rs:473 | a run on which the touched number returned goes from 3 to 2 |
| `Witness.CapacityUnderflows` | src/bucket.rs:61 | a run in which the subtraction underflows |
| `Witness.TouchedExceedsPeak` | src/lib.rs:471-473 | a run that touches two slots and never has two elements |
| `BucketChoice.ChosenEverySixteenth` | src/lib.rs:501-516 | for every seed a bucket is chosen at a fixed distance and then every sixteenth time |
| `BucketChoice.Balanced` | src/lib.rs:501-516 | after n choices every bucket was chosen n/16 times, rounded down or up |
| `BucketChoice.ChoiceAt` | src/lib.rs:501-516 | the choices of every thread go round one fixed cycle of the sixteen buckets |
| `BucketChoice.Chooser.ArbitraryBucketId` | src/lib.rs:501-516 | each call adds the next choice and keeps the balance |

## Left out

- Memory orderings weaker than sequential consistency.
- Raw allocation, layout, pinning and pointers: a block is a sequence of slots, and an ID is a
  slot address and an ordinal.
- Store identity and `assert_native_id`; the representation behind `DebugCheckedMaybeUninit`
  (that no uninitialised or moved value is read is proved).
- Leaked guards, unwinding, and the order of drops.
- Fairness and scheduling: that some call can go on is proved, not that a given one does.
- `get_mut_unchecked`, which promises nothing for a removed element.
- Send, Sync and unwind-safety markers, formatting, and the loom configuration.
- Interleavings inside methods: a method body cannot express what other calls do between its
  steps, so the concurrent behaviour of the store, the bucket and the block is the step machine,
  and the objects (`RwStore`, `Header`, the iterators) are the same steps without interference.
- `RwStore.RwStore.Insert`: is not specified for a bucket that would have to add a block of 2^31
  slots, see the assumption on block lengths.
