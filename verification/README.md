# Proofs for the wtc runtime

Dafny models of the concurrent runtime under `runtime/`, of the shims that
compose it with waiting, and of three sequential cores, with proofs of what
their headers and documentation promise. `dafny verify dfyconfig.toml` checks
everything.

How the models are built:

- A concurrent structure is a state, a program counter for each of any number
  of threads, and one predicate per step; one step is one access to shared
  memory. `IsRun` describes the finite runs, `Inv` an inductive invariant,
  `RunHolds` carries it to every state of every run, and the main results are
  about whole runs. Some fields are history: they record what happened and no
  step reads them to decide anything.
- What the source runs alone (the census table, the call-graph search, the
  caller's own ring, the destructors, the choice of a ring's size) is a class
  or a method with loops, proved against a specification.
- Atomics are sequentially consistent, except in `StoreBuffers`, which shows on
  a machine with store buffers why that may be assumed of the eventcount.
- Sizes fixed by the source at compile time (`kSegment`, `kSlots`,
  `WTC_LOCK_BATCH_K`) are arbitrary positive constants, so the proofs hold for
  every value.

| file | models |
|---|---|
| `SegmentQueueOne.dfy` | `runtime/segment_queue.hpp`, one consumer |
| `SegmentQueueMany.dfy` | `runtime/segment_queue.hpp`, many consumers |
| `SegmentOneHistory.dfy`, `SegmentManyHistory.dfy` | the sequential history of every run of each: they are linearisable |
| `SegmentOneMemory.dfy`, `SegmentManyMemory.dfy` | each with its segments freed beside it, as `Hazard` allows |
| `SegmentOneProgress.dfy`, `SegmentManyProgress.dfy` | the operations of each come to an end |
| `BoundedRing.dfy` | `runtime/bounded_ring.hpp`, over unbounded tickets |
| `Tickets32.dfy`, `TicketRuns.dfy` | its 32-bit tickets: each test by itself, and over runs of the ring |
| `RingProgress.dfy` | an operation of the ring that runs alone gets its tickets or its answer |
| `Eventcount.dfy`, `EventcountKept.dfy`, `Wakeups.dfy`, `WaitAnswers.dfy` | `runtime/waiter.hpp` on the two sides of `shim/bounded.hpp` and `shim/c_queue.cpp`, or on one side of an unbounded queue: the machine, its invariant, wake-ups, answers |
| `StoreBuffers.dfy` | the two fences of `runtime/waiter.hpp` on a machine with store buffers, where a read-modify-write may drain or wait |
| `Hazard.dfy` | `runtime/hazard.hpp` |
| `SpscRing.dfy` | `runtime/spsc_ring.hpp` |
| `SpmcQueue.dfy`, `SpmcProgress.dfy` | `runtime/spmc_queue.hpp`, and that a pop that runs alone answers |
| `CQueue.dfy`, `CQueueRuns.dfy` | `shim/c_queue.cpp`: the caller's ring, finishing, destroying; what its callers see of it |
| `Blocking.dfy` | `BlockingQuery` of `mlir/lib/WTC/Transforms/Blocking.cpp` |
| `Census.dfy`, `CensusOwners.dfy` | the table of `tools/census/threadcensus.c`, and one entry on which many threads note events at once |
| `LockBatch.dfy` | the batches of `shim/mutex.hpp` |
| `Positions.dfy`, `Basics.dfy` | places of cells in a list of segments, shared by the queues; what is shared by all |

Four results are worth knowing before the table, because what the source or
its comments promise holds under a condition they do not name:

- `runtime/bounded_ring.hpp:87-88` says that differences of 32-bit tickets stay
  below 2^31 because the capacity is at most 2^30. They do while no call stalls
  for long: `TicketRuns.TestsAgree` shows that every test gives the unbounded
  answer in every run in which no counter goes up, during any one call, by so
  much that this and the capacity reach half a word (a bound that is enough; it
  is not shown to be the least). Calls that stall break it,
  between two reads of the counters, before the store of `tail_seen_` or before
  a cell. `TicketRuns.StaleCopyMisread` is a run in which a pop that stalls
  before that store for 2^31 + 1 elements makes a later pop take a ticket of an
  empty queue; in `StaleTailMisread` a push stalls between its two reads. For
  each test by itself `Tickets32` gives the exact condition (`FullExactly`,
  `SeenExactly`, `SameExactly`) and the nearest inputs at which it fails.
- `mlir/lib/WTC/Transforms/Blocking.cpp:328-329` says that the sites of a call
  back into the function asked about are reported by its own walk. That walk
  asks a pass's own check about the code itself, not about a callee, so a
  function that calls itself and is refused only as its own callee is missed by
  `sitesIn`, unless an earlier query remembered it. `SitesIn` states the answer
  exactly, for what the query remembers; `Blocking.RightExactly` says when it is
  whether the function may block; `MissesItself` asks one query twice about one
  function, gets no site and then one. `SameInCallee` is the condition on the
  pass under which it cannot happen. The one pass of the repository that asks
  about whole functions has no check of its own, so it meets it.
- The eventcount's two fences (`runtime/waiter.hpp:34-57`): by
  `StoreBuffers.FencesExactly` each side needs a fence, or an announcement that
  is in memory before its reads. On x86 the consumer's fetch-and-add is, so
  there the producer's fence is the one that is needed; the consumer's is for
  C++, whose relaxed fetch-and-add may wait as a store does.

- `runtime/spsc_ring.hpp:69-71` says that the consumer must never be on the
  producer's block when the producer inserts one after it. It can be
  (`SpscRing.InsertsAtConsumer`): having moved on to that block, and not yet
  announced that it left the one before. What the insertion needs, and the
  order of the announcement gives, is that the consumer reads the next pointer
  of a block only once the producer has left it: `SpscRing.LeavesOtherBlock`.

## Model

| member | source | states |
|---|---|---|
| SegmentQueueOne.RunHolds | runtime/segment_queue.hpp:175-247 | every state of every run of any number of producers and one consumer satisfies the invariant: reserved cells are disjoint, filled cells are in counted segments, holes, walk and popped cells fit together |
| SegmentQueueOne.PushStepKeeps | runtime/segment_queue.hpp:175-247 | every step of a push keeps the invariant and leaves what is filled as it is |
| SegmentQueueOne.PopStepKeeps | runtime/segment_queue.hpp:429-537 | every step of a pop keeps it and leaves values and the producers' counts as they are |
| SegmentQueueOne.RealTimeOrder | runtime/segment_queue.hpp:16-53 | an element whose push had returned before another push began is popped before every element of that push |
| SegmentQueueOne.BatchOrder | runtime/segment_queue.hpp:175-247 | the elements of one batch are popped in their order, across segments |
| SegmentQueueOne.EarliestFull | runtime/segment_queue.hpp:483-502 | when the repeated looks end, everything that must come before the cell found has been popped |
| SegmentQueueOne.EmptyAnswer | runtime/segment_queue.hpp:429-468 | a pop answers empty only if every element filled before it began, so every element of a push that had returned, has been popped |
| SegmentQueueOne.PoppedOnce | runtime/segment_queue.hpp:533-537 | no cell is popped twice, only filled cells are popped, and a filled cell keeps its value |
| SegmentQueueOne.PushPlaces | runtime/segment_queue.hpp:175-247 | a push's items are in cells of their own at increasing positions, in order, all of them when it returns |
| SegmentQueueOne.HolesAreTheUntaken | runtime/segment_queue.hpp:509-530 | `holes` is, in order, exactly the cells before the walk's end that are not popped, none behind the head |
| SegmentQueueOne.RetiredIsBehindTail | runtime/segment_queue.hpp:290-299 | a segment is retired only when the tail has passed it and every cell of it is popped |
| SegmentQueueOne.DestructorVisitsQueued | runtime/segment_queue.hpp:151-163 | the full cells from the head on are exactly the elements pushed and not popped |
| SegmentOneHistory.StepIsFifo | runtime/segment_queue.hpp:1-18 | with one order of all elements of a run, each step is some moves of a first-in first-out queue: those that enter join the end, those that leave go from the front |
| SegmentOneHistory.History | runtime/segment_queue.hpp:1-18 | in every state the elements popped are those that entered first, in that order, and the queue is the rest |
| SegmentOneHistory.PushPoint | runtime/segment_queue.hpp:175-247 | an element enters after its push has begun, and before any state in which the push has returned |
| SegmentOneHistory.PopPoint | runtime/segment_queue.hpp:429-537 | the cell a pop takes leaves the queue at the pop's last step, alone, and the pop then returns |
| SegmentOneHistory.EmptyPoint | runtime/segment_queue.hpp:429-468 | a pop that answers empty: the queue was empty as it began |
| SegmentOneHistory.FinishedExactly | runtime/segment_queue.hpp:175-247 | the elements that the order in real time speaks of as finished are exactly those of the pushes that have returned |
| SegmentOneMemory.TouchesNoneFreed | runtime/segment_queue.hpp:290-299 | in every run in which segments behind the head that no push holds are freed, no push is at a freed one and the consumer touches none |
| SegmentOneProgress.NeverWaits | runtime/segment_queue.hpp:417-424 | in every state of every run a pop under way has a step, and each of its steps ends it or lowers a rank: it never waits |
| SegmentOneProgress.PushesLeaveLooks | runtime/segment_queue.hpp:417-424 | no step of a push raises that rank while the pop is among its holes: each is looked at once, and then at most as often as there are holes before the cell found |
| SegmentOneProgress.HolesAreOwed | runtime/segment_queue.hpp:404-407 | a cell taken and not filled, so every hole, is owed by a push on its way to fill it |
| SegmentOneProgress.PushGoesOn | runtime/segment_queue.hpp:175-247 | a push under way has a step, and each of its steps returns or lowers a rank |
| SegmentQueueMany.RunHolds | runtime/segment_queue.hpp:175-346 | the invariant holds in every state of every run of any number of producers and consumers |
| SegmentQueueMany.ClaimedNext | runtime/segment_queue.hpp:302-346 | a claim takes the next unclaimed cell of the head segment and no other |
| SegmentQueueMany.TakenInOrder | runtime/segment_queue.hpp:302-346 | pops claim the cells in their order, missing none |
| SegmentQueueMany.RealTimeOrder | runtime/segment_queue.hpp:16-53 | an element whose push had returned before another began is claimed before every element of that push, across skips, give-ups and lost link races |
| SegmentQueueMany.BatchOrder | runtime/segment_queue.hpp:175-247 | no element of a batch overtakes an earlier one of it |
| SegmentQueueMany.EmptyAnswer | runtime/segment_queue.hpp:302-346 | empty is answered only if at one instant inside the call every full cell had been claimed; so every element of every push that had returned before the pop began has been, at its end |
| SegmentQueueMany.EachOnce | runtime/segment_queue.hpp:302-346 | an element is queued, held by the one pop that claimed its cell, or handed out, and stays what it is |
| SegmentQueueMany.WaitsForPush | runtime/segment_queue.hpp:302-346 | a pop waits for a cell only while some push has it reserved and is on its way to fill it or give it up |
| SegmentQueueMany.RetiredIsDrained | runtime/segment_queue.hpp:290-299 | a segment is retired only behind the tail, with every cell of it claimed |
| SegmentQueueMany.DestructorVisitsQueued | runtime/segment_queue.hpp:151-163 | the cells the destructor visits are exactly the elements pushed and not claimed |
| SegmentManyHistory.StepIsFifo | runtime/segment_queue.hpp:1-18 | each step of a run is some moves of a first-in first-out queue: those that enter join the end, those that leave go from the front |
| SegmentManyHistory.History | runtime/segment_queue.hpp:1-18 | in every state what has left is what entered first, in that order, and the queue is the rest |
| SegmentManyHistory.PushPoint | runtime/segment_queue.hpp:175-247 | an element enters inside its push, whatever cells were skipped, given up or pushed again before |
| SegmentManyHistory.PopPoint | runtime/segment_queue.hpp:302-346 | the element a pop hands out leaves inside the pop |
| SegmentManyHistory.EmptyPoint | runtime/segment_queue.hpp:302-346 | a pop that answers empty: at one moment inside it the queue was empty |
| SegmentManyHistory.FinishedExactly | runtime/segment_queue.hpp:175-247 | the elements called finished are exactly those of the pushes that have returned |
| SegmentManyMemory.TouchesNoneFreed | runtime/segment_queue.hpp:290-346 | in every run in which segments behind the head that no push and no pop holds are freed, none of them is at a freed one |
| SegmentManyMemory.RetiredOnce | runtime/segment_queue.hpp:290-299 | a segment is retired once, with the head and the tail past it for good |
| SegmentManyProgress.PopGoesOn | runtime/segment_queue.hpp:302-346 | a pop under way has a step, and each of its steps returns or lowers a rank, but for the wait for a cell that some push owes |
| SegmentManyProgress.Decides | runtime/segment_queue.hpp:302-346 | a pop that found its cell empty waits exactly if a push had taken it, and skips it otherwise; it goes on to a cell exactly if the index is below the count or the next segment is linked |
| SegmentManyProgress.OnePerPop | runtime/segment_queue.hpp:302-346 | a pop hands out one element at most, as it ends |
| SegmentManyProgress.PushGoesOn | runtime/segment_queue.hpp:175-247 | a push under way has a step, and each of its steps returns or lowers a rank |
| BoundedRing.RunHolds | runtime/bounded_ring.hpp:11-85 | the invariant of both layouts, any number of threads on the sides built for many, in every state of every run |
| BoundedRing.Refines | runtime/bounded_ring.hpp:193-362 | the step at which an operation takes its tickets is the sequential bounded queue's move for it (push, pop, batch of adjacent elements, overrun of exactly the oldest), and no other step changes the queue |
| BoundedRing.StepRefines | runtime/bounded_ring.hpp:193-362 | the same of any step from any state that satisfies the invariant, for the thread that makes it |
| BoundedRing.BoundAndPops | runtime/bounded_ring.hpp:268-302 | the queue never holds more than its capacity, and a pop or batch hands out exactly what the sequential queue gave it at its step |
| BoundedRing.PushRefusalExact | runtime/bounded_ring.hpp:205-229 | a split push refused: at one instant inside the call the queue held exactly its capacity, though the reads are apart |
| BoundedRing.PopRefusalExact | runtime/bounded_ring.hpp:280-301 | a split pop refused, stale copy of the tail or not: at one instant inside the call the queue was empty |
| BoundedRing.SizeExact | runtime/bounded_ring.hpp:367-377 | size is the number of elements at one instant inside the call |
| BoundedRing.PackedAnswerExact | runtime/bounded_ring.hpp:198-204 | a packed refusal, or size, is the sequential queue's answer at its step |
| BoundedRing.CellsApart | runtime/bounded_ring.hpp:412-429 | no cell is touched by two operations at once |
| BoundedRing.WaitsForLower | runtime/bounded_ring.hpp:412-429 | an operation that must wait for its cell waits for one of lower rank that some operation still owes, of the cell's own ticket |
| BoundedRing.NeverStuck | runtime/bounded_ring.hpp:235-263 | while any operation is between its ticket and its cell, some operation owes the lowest event, and whichever does can go on: waits for cells never deadlock, overruns and batches included |
| BoundedRing.EachOnce | runtime/bounded_ring.hpp:235-362 | an element pushed is exactly one of queued, handed out by one pop, replaced by one overrun, or about to be one of the last two |
| BoundedRing.AtRest | runtime/bounded_ring.hpp:169-182 | once every operation has returned, the cells the destructor visits hold exactly the queue, and the count of overruns is exact |
| RingProgress.AloneSettles | runtime/bounded_ring.hpp:193-362 | from every state of every run, however stale what it has read, at most nine steps of its own give an operation its tickets or its answer |
| Tickets32.MinusIs | runtime/bounded_ring.hpp:197-226 | the wrapped difference of any two tickets |
| Tickets32.FullExactly | runtime/bounded_ring.hpp:205-226 | the wrapped fullness test gives the unbounded answer exactly unless the push looks full and the distance, but for whole words, is below the capacity |
| Tickets32.FullAgrees | runtime/bounded_ring.hpp:205-226 | so it does for a tail at most the capacity past head, as a push's is, and at most the capacity short of a word behind it |
| Tickets32.FullFailsBehind | runtime/bounded_ring.hpp:205-226 | and fails one further behind |
| Tickets32.SeenExactly | runtime/bounded_ring.hpp:282-297 | the signed test of the copy of tail gives the unbounded answer exactly when, but for whole words, the copy is at most half a word behind head, or less than half a word ahead |
| Tickets32.SeenAgrees | runtime/bounded_ring.hpp:282-297 | so it does within half a word |
| Tickets32.SeenFailsBehind | runtime/bounded_ring.hpp:282-297 | one further behind the copy reads as ahead, so the pop does not read tail |
| Tickets32.SeenFailsAhead | runtime/bounded_ring.hpp:282-297 | half a word ahead it reads as behind |
| Tickets32.SameExactly | runtime/bounded_ring.hpp:412-429 | equality of wrapped tickets is equality of the tickets exactly unless they are different and a whole number of words apart |
| Tickets32.SameAgrees | runtime/bounded_ring.hpp:412-429 | so it is for tickets less than a word apart |
| Tickets32.BatchAgrees | runtime/bounded_ring.hpp:314-362 | the sizes of batches decided from wrapped counters are those decided from unbounded ones |
| Tickets32.PackHolds | runtime/bounded_ring.hpp:397-399 | the packed word holds the two counters, and is made of nothing else |
| Tickets32.RingSize | runtime/bounded_ring.hpp:392-396 | the ring is the least power of two, at least two, that holds the capacity |
| Tickets32.CellAgrees | runtime/bounded_ring.hpp:392-429 | a wrapped ticket has the cell of the ticket, since the ring's size divides the word |
| TicketRuns.ReadsClose | runtime/bounded_ring.hpp:205-229 | in every run, what a call has read of a counter is behind it by no more than that counter goes up during one call |
| TicketRuns.CellsClose | runtime/bounded_ring.hpp:412-429 | the ticket an operation brings to its cell is ahead of the cell's by no more than the capacity and how far the counters went since |
| TicketRuns.SeenNear | runtime/bounded_ring.hpp:282-297 | head is past the copy of tail by at most one more than a counter goes up during one call |
| TicketRuns.TestsAgree | runtime/bounded_ring.hpp:87-88 | in every run in which no counter goes up by more than d during one call, d and the capacity together below half a word, every test of every operation on 32-bit tickets gives the answer on unbounded ones |
| TicketRuns.StaleCopy | runtime/bounded_ring.hpp:282-297 | for every n a run ends with an empty queue, a copy of tail n behind, and a pop about to test it |
| TicketRuns.StaleCopyMisread | runtime/bounded_ring.hpp:87-88 | so in some run that pop's test goes wrong and it takes a ticket of an empty queue |
| TicketRuns.StaleTailMisread | runtime/bounded_ring.hpp:87-88 | in some run the fullness test of a push goes wrong |
| EventcountKept.RunHolds | runtime/waiter.hpp:208-374 | in every state of every run, with waiters on both sides, batches, closes, time limits and spurious wake-ups: the invariant, and elements and room add up to the capacity |
| Wakeups.NoLostWakeUp | runtime/waiter.hpp:208-216 | while a thread is in the futex, what is available on its side is at most the wake-ups still due plus the waiters bound to look again; so some thread will wake it or look; and a closed side has a closer still to wake everybody |
| Wakeups.NoLateSleep | runtime/waiter.hpp:277-374 | for a waiter about to sleep on the current epoch, notifies already past their bump of the epoch do not count |
| Wakeups.QuietSleepers | shim/bounded.hpp:54-123 | when nothing runs any more, whoever sleeps has nothing available on its side, which is not closed, and threads do not sleep on both sides of a queue that can hold anything |
| Wakeups.FalseMeansFinished | runtime/waiter.hpp:277-327 | a wait answers false only if, during the call, it looked at a side with nothing available that was closed by then, or its time was up |
| WaitAnswers.TrueMeansTook | runtime/waiter.hpp:277-327 | a wait that answers true had a step inside its call at which something was available: a move took as much as there was up to what it asked for, it went to the other side, and that much is notified |
| WaitAnswers.QueueMoves | shim/bounded.hpp:54-123 | what is available changes only at such a step, or as an operation that does not wait begins, by what that adds |
| WaitAnswers.ClosedExactly | runtime/waiter.hpp:218-228 | a side is closed exactly from the store of the first close of it on, so once a close has returned or is waking |
| WaitAnswers.WaitLooksRight | runtime/waiter.hpp:277-374 | the next read of closed sees it, and the next look that finds nothing then answers false; a sleep begins only on the epoch read before |
| StoreBuffers.OneSeesTheOther | runtime/waiter.hpp:34-57 | of two threads that each have a fence, or a store that drains, at most one misses the other's store, in every run of any number of threads |
| StoreBuffers.UnfencedMisses | runtime/waiter.hpp:34-57 | if one has neither, there is a run in which both miss, whatever the other has |
| StoreBuffers.FencesExactly | runtime/waiter.hpp:208-216 | two threads are safe exactly if each has a fence or a store that drains |
| Hazard.RunHolds | runtime/hazard.hpp:44-131 | the invariant in every run, with records taken, linked and given up, scans under way, and addresses allocated again |
| Hazard.HeldIsNotFreed | runtime/hazard.hpp:114-124 | between a validated protect and the clear, the node is in use and in its slot |
| Hazard.ClearEmpties | runtime/hazard.hpp:124 | after a clear the slot is empty and its thread holds nothing by it |
| Hazard.SlotStillHolds | runtime/spmc_queue.hpp:177-188 | a slot kept from one pop to the next that holds what the head is holds it as one just validated: the segment is in use and held |
| Hazard.FreedOnce | runtime/hazard.hpp:78-90 | a scan frees only a retired node that no thread has validated and no shared pointer holds, and the node then waits nowhere |
| Hazard.RetiredWaits | runtime/hazard.hpp:97-131 | the retired nodes are exactly those waiting, each in one place of one record, whoever owns the records |
| Hazard.KeptWasInSlot | runtime/hazard.hpp:78-90 | a node a scan keeps was in a slot at some instant of that scan |
| Hazard.WaitingBounded | runtime/hazard.hpp:38-41 | at most max(kScanAt - 1, slots of all records) nodes wait in a record outside its scan, and one more during it |
| Hazard.ActiveExactly | runtime/hazard.hpp:60-74 | in every state a record is active exactly while a thread has it, and no two threads have one |
| Hazard.TakesGivenUp | runtime/hazard.hpp:60-74 | a thread that takes a record and runs alone gets one: a given up one if there is any, a new one only if there is none |
| Hazard.TakingEnds | runtime/hazard.hpp:60-74 | each step towards a record gets one or lowers a rank, but for the lost link that is tried again |
| SpscRing.RunHolds | runtime/spsc_ring.hpp:309-483 | from the producer's next block round to its own, `end` goes up by kSlots from block to block, and each slot holds its element exactly from its push to its release, in every state of every run |
| SpscRing.PoppedIsPrefix | runtime/spsc_ring.hpp:402-434 | what was popped is a prefix of what was published, which is a prefix of what was pushed |
| SpscRing.EmptyAnswer | runtime/spsc_ring.hpp:319-338 | a pop answers empty exactly when everything published had been popped as it read the count |
| SpscRing.PublishesAll | runtime/spsc_ring.hpp:412-415 | after a publish everything pushed is published |
| SpscRing.EmptyMeansPopped | runtime/spsc_ring.hpp:319-338 | a pop answers empty only if everything pushed before a publish that came before the answer has been popped |
| SpscRing.PushIntoRaw | runtime/spsc_ring.hpp:402-410 | a push builds its element in raw storage, never over one unread, lent or in its taker |
| SpscRing.LentStays | runtime/spsc_ring.hpp:444-451 | until the next pop begins, or the taker returns, the element lent or in its taker is in its slot, unchanged, whatever the producer does |
| SpscRing.TakerLeavesNone | runtime/spsc_ring.hpp:417-451 | a pop into a taker ends with no element in use; one that lends hands its element to no taker |
| SpscRing.LeavesOtherBlock | runtime/spsc_ring.hpp:67-71 | the consumer reads the next pointer only of a block the producer has left |
| SpscRing.InsertsAtConsumer | runtime/spsc_ring.hpp:69-71 | for every kSlots a run inserts a block after the one the consumer is on |
| SpscRing.MemoryBound | runtime/spsc_ring.hpp:460-483 | with more than two blocks, (blocks - 2) * kSlots is below a number of elements that were at some moment pushed and not yet announced left |
| SpscRing.AnnouncesLeft | runtime/spsc_ring.hpp:325-333 | the count the producer reads is that of the elements in the blocks the consumer has left, the last excepted while it is about to say so |
| SpscRing.UnmarkedOverwrites | runtime/spsc_ring.hpp:350-353 | without the constructor's line that sets the end of the first block, a run leads to a push about to overwrite an element nobody has read |
| SpscRing.Destroy | runtime/spsc_ring.hpp:365-385 | the destructor destroys exactly the queued elements, in order, and frees every block once |
| SpmcQueue.RunHolds | runtime/spmc_queue.hpp:139-224 | the invariant in every run of the producer and any number of consumers |
| SpmcQueue.ClaimedInOrder | runtime/spmc_queue.hpp:191-224 | elements are claimed in the order pushed, each once, only published ones; deq and seen never exceed the published count; a linked next segment means this one is published whole |
| SpmcQueue.GotItsOwn | runtime/spmc_queue.hpp:204-216 | a pop that claimed a cell takes the element pushed into it |
| SpmcQueue.EmptyAnswer | runtime/spmc_queue.hpp:191-224 | a false answer: at that step everything published had been claimed |
| SpmcQueue.PublishesAll | runtime/spmc_queue.hpp:144-157 | after a publish, and before a full segment is linked to the next, everything pushed is published |
| SpmcQueue.EmptyMeansClaimed | runtime/spmc_queue.hpp:191-224 | a pop answers empty only if everything pushed before a publish that came before the answer has been claimed |
| SpmcProgress.AloneAnswers | runtime/spmc_queue.hpp:191-224 | from every state of every run, however stale what it has read, at most twenty-one steps of its own give a pop its answer |
| SpmcProgress.SeenIsTold | runtime/spmc_queue.hpp:200-204 | the count a pop has read is what the other consumers find in seen |
| SpmcQueue.Destroy | runtime/spmc_queue.hpp:112-125 | the destructor destroys the elements not yet claimed, published or not, in order |
| CQueue.OwnRing.Count | shim/c_queue.cpp:99-101 | the number of elements in the caller's ring |
| CQueue.OwnRing.Room | shim/c_queue.cpp:102 | the room in it |
| CQueue.OwnRing.Insert | shim/c_queue.cpp:103-106 | appends, round the end |
| CQueue.OwnRing.Remove | shim/c_queue.cpp:107-111 | takes the oldest, round the end |
| CQueue.PushBatch | shim/c_queue.cpp:173-194 | as many as there are, as the limit allows and as there is room for go from the caller's ring to the queue, with nothing lost, repeated or reordered |
| CQueue.PopBatch | shim/c_queue.cpp:196-214 | the same from the queue to the caller's ring |
| CQueue.RunHolds | shim/c_queue.cpp:73-214 | counts of operations under way, elements and terminations agree in every state of every run of single and batched pushes and pops |
| CQueue.ToldMeansDelivered | shim/c_queue.cpp:148-214 | a pop, single or batched, told the queue is finished: the awaited producers have all terminated and everything pushed before the last of them did has been popped, once and in order; that this is what callers were handed is `CQueueRuns.HandedInOrder` |
| CQueue.OneCloses | shim/c_queue.cpp:158-171 | exactly one terminate closes the queue, the last awaited |
| CQueue.FreedUnderNobody | shim/c_queue.cpp:133-138 | destroy, called by a thread that has seen the effect of every operation, frees the queue only when none is still in one |
| CQueueRuns.HandedInOrder | shim/c_queue.cpp:140-214 | in every state what callers have been handed is what callers were told went in first, in that order, and the queue is the rest |
| CQueueRuns.HowMany | shim/c_queue.cpp:173-214 | a push puts in the first of its elements, as many as it has and there is room for; a pop hands out as many as it asks for and there are |
| CQueueRuns.EndedExactly | shim/c_queue.cpp:158-171 | the count of terminated producers is the number of terminates, and the program is ended only by one of a queue built without a number, or by one more than exactly that number |
| CQueueRuns.TerminateDoes | shim/c_queue.cpp:158-171 | which of these a terminate does: end the program, close the queue as the last awaited, or nothing more |
| CQueueRuns.ToldExactly | shim/c_queue.cpp:148-156 | a pop is told the queue is finished exactly if it finds nothing after it had read that the queue was closed; then everything that went in has been handed out |
| CQueueRuns.ReadsClosed | shim/c_queue.cpp:148-156 | it reads closed as it is |
| CQueueRuns.DestroyEnds | shim/c_queue.cpp:133-138 | once no operation is under way a destroy frees the queue in two steps of its own at most |
| Blocking.RealReaches | mlir/lib/WTC/Transforms/Blocking.cpp:254-292 | a site whose chain is a real call path shows a blocking leaf reachable, without any function not on its way |
| Blocking.BodyAnswer | mlir/lib/WTC/Transforms/Blocking.cpp:294-311 | finding nothing in a body means nothing reachable but through functions being walked, and nothing at all if no cycle was met |
| Blocking.BlockingQuery.SiteAt | mlir/lib/WTC/Transforms/Blocking.cpp:233-252 | at one operation: a site found is real, none means clear, but for functions being walked and not remembered; what is remembered stays true, and holds every function on the way of a site |
| Blocking.BlockingQuery.CallSite | mlir/lib/WTC/Transforms/Blocking.cpp:254-292 | the same of a call, over all its targets; the site is of the first of them that blocks, of the first kind the source looks for |
| Blocking.BlockingQuery.TargetSite | mlir/lib/WTC/Transforms/Blocking.cpp:266-290 | the same of one target, followed or not |
| Blocking.ExternalKindExactly | mlir/lib/WTC/Transforms/Blocking.cpp:270-282 | a call of a function that is not followed is reported exactly as an unaccepted wait, else as an unaccepted throw, else as the unaccepted kind its name says, and not at all if there is none |
| Blocking.BlockingQuery.FirstIn | mlir/lib/WTC/Transforms/Blocking.cpp:294-311 | the same of a function, on any call graph; no operation before the one reported blocks by itself, there or in any function on the way; the recursion ends |
| Blocking.BlockingQuery.FirstOf | mlir/lib/WTC/Transforms/Blocking.cpp:294-311 | the walk of a body reports its first: no operation before blocks, by itself or below, but through functions being walked |
| Blocking.BlockingQuery.At | mlir/include/WTC/Transforms/Blocking.h:132-133 | after any queries, a site is reported exactly when the operation or anything it calls may block, and its chain is a real call path |
| Blocking.BlockingQuery.SitesIn | mlir/lib/WTC/Transforms/Blocking.cpp:313-338 | the operations of f that block, by themselves or below, without f unless the query remembers it, are reported up to the key of their sites, in their order, and no others; the sites are real, no two with one key; there is one exactly if f then may block |
| Blocking.BlocksExactly | mlir/lib/WTC/Transforms/Blocking.cpp:313-338 | f may block exactly when it does without itself, or it calls itself and blocks as its own callee |
| Blocking.RightExactly | mlir/lib/WTC/Transforms/Blocking.cpp:313-338 | a query lists a site exactly if f may block, but for an f it does not remember, that calls itself, of which an operation is refused in a callee alone and nothing else blocks |
| Blocking.SameInCallee | mlir/lib/WTC/Transforms/Blocking.cpp:313-338 | with a check that refuses no more in callees, the answer is always right |
| Blocking.RefusedInCalleeAlone | mlir/lib/WTC/Transforms/Blocking.cpp:313-338 | a module of which function 0 may block, and not without itself |
| Blocking.MissesItself | mlir/lib/WTC/Transforms/Blocking.cpp:328-329 | a fresh query of it lists no site; the same query does after it has been asked about the call |
| Census.SweepOk | tools/census/threadcensus.c:252-281 | a slot before a never-used one can become never-used: no key is cut off from its home |
| Census.InsertOk | tools/census/threadcensus.c:195-215 | a key in the first free slot of its probe keeps every key once and reachable |
| Census.Table.Lookup | tools/census/threadcensus.c:180-189 | finds the slot of a key, or there is none anywhere in the table |
| Census.Table.Find | tools/census/threadcensus.c:195-215 | as a finite map: finds, or with insert adds an empty entry, unless the table is full |
| Census.Table.NoteIn | tools/census/threadcensus.c:285-316 | the key has one more event, and the thread among its threads, every other key is as it was; or one more overflow and nothing else; recorded events equal live plus retired plus overflow |
| Census.AddOwner | tools/census/threadcensus.c:285-305 | the threads of an entry, remembered while there is room |
| Census.OwnerRecords | tools/census/threadcensus.c:285-305 | the entry's count is the number of distinct threads, up to one more than it remembers |
| CensusOwners.RunHolds | tools/census/threadcensus.c:285-305 | in every run of any number of threads noting events on one entry: the slots counted are taken by different threads, the next is taken exactly while its thread is about to count it, the rest are free |
| CensusOwners.EveryEvent | tools/census/threadcensus.c:285-288 | the entry's count is the number of notes begun, each counted at the step at which a thread enters it |
| CensusOwners.CountedOnce | tools/census/threadcensus.c:285-305 | in every state no thread has two slots, no more are counted than have noted an event, and one that has returned has a slot unless there were too many |
| CensusOwners.AtRest | tools/census/threadcensus.c:285-305 | when no thread is noting, the entry records exactly the number of notes begun and the threads that began them, as noting them one at a time does |
| CensusOwners.WaitsForBump | tools/census/threadcensus.c:294-305 | a thread waits for a slot to be counted only while the thread that took it is about to |
| CensusOwners.NoteEnds | tools/census/threadcensus.c:285-305 | a note under way has a step, and each of its steps lowers a rank, but for the wait for a slot that another is about to count |
| CensusOwners.OthersLeaveRank | tools/census/threadcensus.c:285-305 | no step of another raises that rank |
| Census.Table.Retire | tools/census/threadcensus.c:252-281 | removes exactly the key; its events and its number of threads, as far as it was counted, join what is gone, of which the totals are kept; an object without events leaves nothing; keeps every invariant through the backward sweep, the one that nothing retired is left before a never-used slot with them |
| Census.Table.Sweep | tools/census/threadcensus.c:248-278 | the sweep ends, changes no entry, and leaves no retired slot before a never-used one, as every operation does |
| Census.RetiredLeadsOn | tools/census/threadcensus.c:247-250 | so the slots after a retired one lead to a live one with only retired ones between, or are all retired |
| Census.Table.Keep | tools/census/threadcensus.c:218-245 | `top` holds the TOP retired objects with the most events: nothing dropped has more than anything kept |
| LockBatch.EveryTraceIsPlain | shim/mutex.hpp:45-62 | every trace of accesses, section ends and own work of any threads' batched loops is a trace of the plain lock/unlock loops |
| LockBatch.UnderTheMutex | shim/mutex.hpp:45-62 | each access of a section is made under the mutex, with no other thread in a batch |
| LockBatch.LetGoEveryK | shim/mutex.hpp:52-57 | the mutex is let go at every K-th section since it was taken, and no later |

## Left out

- Full C++ memory-order reasoning for the queues: their atomics are taken as sequentially consistent, and plain slot and cell accesses as ordered by them.
- `slip`, the patience spins and `runtime/stream_gate.hpp`: timing only; a repeated read of a counter is a step that may happen any number of times.
- The steps of `protect`, and of `held_head`, inside the queues: there each is one read of the shared pointer, and what `Hazard` proves of a validated segment is what `SegmentOneMemory` and `SegmentManyMemory` take as the rule for freeing. The SPMC queue's segments are not freed in its model.
- The bounded ring as a machine on 32-bit tickets alone: `TicketRuns` is about the tests on them, in runs of the ring with unbounded ones.
- The futex: a sleep ends by a wake-up, by a changed epoch, or unasked; a wake-up of n sleepers wakes them one by one. The 32-bit wrap of the epoch, the cap of INT_MAX sleepers and the clocks are not modelled.
- `reset_overrun_counter` and the topology tags of `shim/bounded.hpp`: the ring is built with the sides given.
- Cache lines, raw storage, copying and moving of elements, exceptions, and the aborts of `WTC_CHECK`.
- A batch of a ring whose slots are none (`shim/c_queue.cpp`, a division by zero in the caller's ring as in the original).
- Census: lookups that run beside an insertion, and the stacks recorded with entries; the table is what it is under its lock, one operation at a time.
- Census.Table.NoteIn: the numbers of events and threads are unbounded, where the source's are machine words, and the note is one operation; threads that note events on one entry at the same time are `CensusOwners`.
- Census.AddOwner: one thread at a time; the race for an owner slot is `CensusOwners`.
- Blocking: which names, operations and assembly strings block is given, not computed (`externalBlocking`, `onlyNonBlockingInstructions`); the order in which a function's operations are walked is the order of its body.
- LockBatch: that the compiler pass batches only loops without waits; fairness of the mutex.
- `shim/queue.hpp`, `shim/lifted.hpp`, the passes and dialects under `mlir/` other than the search, benchmarks, ports and scripts.
