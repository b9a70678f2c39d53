# Models and proofs for the usbtv007 capture library

The library captures video from a USB device. Its USB thread rebuilds frames from isochronous
packets and passes them to a worker thread through a lock-free queue (the vendored
`concurrentqueue.h` and `blockingconcurrentqueue.h`); the frame buffers come from a pool with one
lock per frame and come back when the application returns them. This project models that path in
Dafny 4.11 and proves what each part promises, over every interleaving and every packet stream.
`dafny verify dfyconfig.toml` checks all of it.

Two kinds of model are used.

* Code shared by threads is a state machine on values. One step is one atomic load, store,
  compare-and-swap or fetch-and-add of one thread, every atomic is sequentially consistent, and the
  numbers of threads, nodes, blocks and elements are unbounded. `Next` gives the step, `Inv` the
  inductive invariant, `Behaviour` the runs. History variables are named in each module's header;
  no step depends on them.
* Code that one thread runs on its own fields is a class with arrays and loops
  (`UsbDriver.UsbTvDriver`, `DeviceParameters.Builder`, `JavaFrame.UsbTvFrame`), proved against
  functions of the state; the theorems are about those functions.

| module | what it models |
|---|---|
| FreeList | the CAS stack of free blocks, with its reference counts and should-be-on-list bit |
| Tickets | how dequeuers of one producer share out its elements: optimistic count, overcommit, head index |
| ImplicitQueue | one implicit producer: blocks of 32, the growable circular block index with its stale headers, bulk enqueue with its undo, recycling; module Tickets is embedded in it |
| ImplicitInvariant, ImplicitShape, ImplicitProof, ImplicitProducer, ImplicitConsumer, ImplicitTheorems | its invariant, the proof that every step keeps it, and what follows for whole runs |
| ImplicitProgress | when an enqueue succeeds and the index grows, and how many steps enqueues and dequeues take |
| Semaphore, BlockingQueue | `LightweightSemaphore`, and the queue that puts it in front of all producers |
| BlockingCalls | what one dequeue comes to between its call and its return |
| ProducerHash | the chained lock-free hash from thread to producer |
| ProducerProgress | that its calls come to an end |
| Wraparound | the same indices on N-bit machine integers |
| Packets, Geometry, DeviceParameters | packet headers, buffer addresses, the picture geometry |
| Reassembly, UsbDriver | the USB thread: packets to frames |
| RequestBlocks | which bytes of a request block are packets, and what they say |
| FieldHistory | what the packet count says about the packets of a field, in every scan mode |
| ProgressiveFields, DiscardFields, InterleavedFields, InterleavedFrames | what the queued frames contain, how fields are paired, and what the flags mean |
| JavaFrame, FrameOwnership | the application's side of a frame, and who owns the pool's frames |
| FrameReturns | what becomes of returned frames, and of a stop that has begun |
| Counting, Modular | cardinalities, sums, congruences |

Four statements that one would expect are not what the code does. They are proved in the form in
which they hold, with a witness for the rest:

* FRAME_COMPLETE counts packets modulo 2^16, and a new session starts with the packet count and the
  frame id of the last one (UsbTvDriver.cpp:123-128 resets neither). `FlagIsRight` says, for every
  packet stream, exactly when the flag is right; `DuplicateHidesLoss` and `StaleCountHidesLoss` are
  streams for which it is not. With packet numbers increasing within a field only the stale count
  can mislead, and only until a field has been opened (`CompleteIffAllPresent`,
  `StaleUntilOpened`).
* In INTERLEAVED mode the flag of a frame speaks of its second field only
  (`LossInFirstFieldIsForgotten`); together with the verdict on the first field, which the frame
  does not keep, it says that both came whole (`CompleteIffBothPresent`). The second field need not
  be even (`LostPacketMispairs`); pairing recovers by itself (`PairingResynchronises`,
  `AlternatingFieldsWeave`).
* Frames queued or outstanding can number the whole pool: they are fewer exactly if the USB thread
  has a frame or one is free (`FramesAway`), and an application that keeps its frames empties a pool
  of any size from two up (`WholePoolAway`). With a pool of one the queue has capacity zero and no
  block, so its first session queues no frame (UsbTvDriver.cpp:46, concurrentqueue.h:2948-2955,
  3000-3016).
* The comment at concurrentqueue.h:2867-2868 says that the division preserves a sign. Its right
  operand is unsigned, so the division is unsigned (usual arithmetic conversions, clause 5 of
  ISO/IEC 14882:2011). The slot found is right all the same, because capacities are powers of two
  (`LookupIsExact`, `SignedDivisionAgrees`).

## Model

| member | source | states |
|---|---|---|
| FreeList.StepKeepsInv | libusbtv/src/main/cpp/ConcurrentQueue/concurrentqueue.h:1372-1451 | every step of every thread keeps the invariant that ties each node's word to the list's reference, the pending pushes and pops, and the threads that hold a reference |
| FreeList.PopIsExact | libusbtv/src/main/cpp/ConcurrentQueue/concurrentqueue.h:1402-1406 | when the pop CAS succeeds, the successor read earlier is still the node's successor and the should-be-on-list bit is clear: no ABA |
| FreeList.HandedOutOncePerAdd | libusbtv/src/main/cpp/ConcurrentQueue/concurrentqueue.h:1386-1423 | between two hand-outs of a node some client has added it again |
| FreeList.NothingLost | libusbtv/src/main/cpp/ConcurrentQueue/concurrentqueue.h:1379-1451 | in every reachable state an added node is on the list once, or has exactly one thread inserting it, or waits with its bit set for a reference whose release adds it |
| FreeList.QuiescentWords | libusbtv/src/main/cpp/ConcurrentQueue/concurrentqueue.h:1372-1451 | with all threads idle a node's word is 1 if it is listed and 0 if a client has it |
| FreeList.SoloAdd | libusbtv/src/main/cpp/ConcurrentQueue/concurrentqueue.h:1372-1384 | in any reachable state an add of a node nobody holds, if undisturbed, puts it at the head in five steps |
| FreeList.SoloGet | libusbtv/src/main/cpp/ConcurrentQueue/concurrentqueue.h:1386-1423 | in any reachable state, wherever the other threads are suspended, an undisturbed try_get takes the head off the list and hands it out |
| FreeList.EmptyHandedIfEmpty | libusbtv/src/main/cpp/ConcurrentQueue/concurrentqueue.h:1386-1423 | over every run: a try_get that has returned without a node saw the list empty at some step of its own call |
| FreeList.AddDelivers | libusbtv/src/main/cpp/ConcurrentQueue/concurrentqueue.h:1425-1451 | a step with which a thread leaves the insertion of a node has put it at the front of the list, or has left it with its bit set to threads that still hold references |
| FreeList.LoneAddEnds | libusbtv/src/main/cpp/ConcurrentQueue/concurrentqueue.h:1425-1451 | in any reachable state a thread inserting a node, at whatever step, is through after at most eight steps on its own |
| FreeList.LoneOperationEnds | libusbtv/src/main/cpp/ConcurrentQueue/concurrentqueue.h:1386-1451 | in any reachable state any operation under way returns after at most eighteen steps on its own |
| Tickets.StepKeepsInv | libusbtv/src/main/cpp/ConcurrentQueue/concurrentqueue.h:2694-2715 | every step keeps the accounting of tickets pending, won, lost, spent and given back |
| Tickets.DecidedTicket | libusbtv/src/main/cpp/ConcurrentQueue/concurrentqueue.h:2703-2710 | a ticket won after stale reads lies, less the failures below it, within the tail |
| Tickets.ClaimsWithinTail | libusbtv/src/main/cpp/ConcurrentQueue/concurrentqueue.h:2713-2715 | elements claimed and tickets about to claim never outnumber the elements enqueued |
| Tickets.NextClaimExists | libusbtv/src/main/cpp/ConcurrentQueue/concurrentqueue.h:2713-2715 | the fetch_add on the head index never passes the tail |
| Tickets.OvercommitBehindTicket | libusbtv/src/main/cpp/ConcurrentQueue/concurrentqueue.h:2480-2481 | the source's assertion: the overcommit read never exceeds the ticket |
| Tickets.TicketsBalance | libusbtv/src/main/cpp/ConcurrentQueue/concurrentqueue.h:2474-2536 | optimistic count == head + overcommit + open tickets |
| Tickets.QuiescentCounters | libusbtv/src/main/cpp/ConcurrentQueue/concurrentqueue.h:2474-2536 | at rest optimistic count - overcommit == head <= tail |
| Tickets.HeadNeverPassesTail | libusbtv/src/main/cpp/ConcurrentQueue/concurrentqueue.h:2474-2483 | head <= tail in every reachable state |
| Tickets.ClaimsAreDisjoint | libusbtv/src/main/cpp/ConcurrentQueue/concurrentqueue.h:2715 | claims of one run never overlap and are made in increasing order |
| Tickets.SoloDequeue | libusbtv/src/main/cpp/ConcurrentQueue/concurrentqueue.h:2693-2715 | an undisturbed dequeue claims min(max, tail - (optimistic - overcommit)) elements, or changes nothing if that is not positive |
| Tickets.DequeueGetsWhatIsLeft | libusbtv/src/main/cpp/ConcurrentQueue/concurrentqueue.h:2693-2720 | over every run, whatever the other threads do: a dequeue claims at least min(max, elements free when it was called less tickets taken since), so it comes back empty-handed only if none of these is left |
| ImplicitProof.NumberAtPos | libusbtv/src/main/cpp/ConcurrentQueue/concurrentqueue.h:2857-2873 | in the newest index a block number of the current window is found at its position |
| ImplicitProof.GrowLayout | libusbtv/src/main/cpp/ConcurrentQueue/concurrentqueue.h:2875-2921 | a larger index still lists the old entries where every header, old or new, looks for them |
| ImplicitProof.StoreKeyLayout | libusbtv/src/main/cpp/ConcurrentQueue/concurrentqueue.h:2821-2829 | giving an entry a new key moves it on by whole laps, so no header loses its place |
| ImplicitProof.OpenIsLive | libusbtv/src/main/cpp/ConcurrentQueue/concurrentqueue.h:2483-2491 | an element claimed and not dealt with lies in a block that is in use |
| ImplicitProducer.ProduceKeepsInv | libusbtv/src/main/cpp/ConcurrentQueue/concurrentqueue.h:2543-2690 | every step of the producing thread keeps the invariant, including growth and undo |
| ImplicitProducer.TargetIsLive | libusbtv/src/main/cpp/ConcurrentQueue/concurrentqueue.h:2618-2686 | the next element is written to a live block of its number |
| ImplicitProducer.UndoEntry | libusbtv/src/main/cpp/ConcurrentQueue/concurrentqueue.h:2584-2590 | the undo loop finds the entry of the block it takes back, even if the index has grown |
| ImplicitConsumer.ReadKeepsInv | libusbtv/src/main/cpp/ConcurrentQueue/concurrentqueue.h:2717-2785 | every step of a dequeuing thread after its claim keeps the invariant |
| ImplicitConsumer.TicketKeepsInv | libusbtv/src/main/cpp/ConcurrentQueue/concurrentqueue.h:2693-2715 | so does every step of the ticket protocol |
| ImplicitConsumer.TailHasKey | libusbtv/src/main/cpp/ConcurrentQueue/concurrentqueue.h:2863-2866 | the entry at the tail of any header a dequeuing thread holds has a valid key, the source's assertion |
| ImplicitConsumer.LocateFromKey | libusbtv/src/main/cpp/ConcurrentQueue/concurrentqueue.h:2862-2870 | the position computed from any valid entry of a header is that of the block sought |
| ImplicitConsumer.EntryFound | libusbtv/src/main/cpp/ConcurrentQueue/concurrentqueue.h:2869-2872 | the entry found carries the block base sought and the live block |
| ImplicitConsumer.ElementFound | libusbtv/src/main/cpp/ConcurrentQueue/concurrentqueue.h:2735-2741 | what is about to be moved out is the element enqueued with that index, and it is moved out only now |
| ImplicitTheorems.StepKeepsInv | libusbtv/src/main/cpp/ConcurrentQueue/concurrentqueue.h:2406-2917 | every step of every thread keeps the invariant |
| ImplicitTheorems.DeliversInOrder | libusbtv/src/main/cpp/ConcurrentQueue/concurrentqueue.h:2471-2540 | what is moved out under index i is the i-th element enqueued |
| ImplicitTheorems.MovedOutOnce | libusbtv/src/main/cpp/ConcurrentQueue/concurrentqueue.h:2471-2540 | no element is moved out twice in a run |
| ImplicitTheorems.UnreadIsStored | libusbtv/src/main/cpp/ConcurrentQueue/concurrentqueue.h:2406-2468 | until it is moved out an element sits in the live block of its number: nothing overwrites it |
| ImplicitTheorems.AtRestAllClaimedAreOut | libusbtv/src/main/cpp/ConcurrentQueue/concurrentqueue.h:2717-2785 | with no dequeue under way exactly the first head elements have been moved out |
| ImplicitTheorems.LookupIsCorrect | libusbtv/src/main/cpp/ConcurrentQueue/concurrentqueue.h:2814-2917 | through whatever header, tail and key a thread loaded, it reaches the entry with its block base and the live block |
| ImplicitTheorems.NobodyCrashes | libusbtv/src/main/cpp/ConcurrentQueue/concurrentqueue.h:2856-2873 | no thread ever dereferences an empty entry |
| ImplicitTheorems.SubQueueIsNeverFull | libusbtv/src/main/cpp/ConcurrentQueue/concurrentqueue.h:2573-2575 | the test for a full sub-queue never succeeds |
| ImplicitTheorems.UnlinkedAfterAllMoved | libusbtv/src/main/cpp/ConcurrentQueue/concurrentqueue.h:2771-2781 | a block leaves the index only after all 32 elements in it were moved out |
| ImplicitTheorems.UnlinkedOnce | libusbtv/src/main/cpp/ConcurrentQueue/concurrentqueue.h:2771-2781 | and does so once |
| ImplicitTheorems.HandedBackByOne | libusbtv/src/main/cpp/ConcurrentQueue/concurrentqueue.h:1529-1548 | one thread hands an emptied block back, and nobody else can have it meanwhile |
| ImplicitTheorems.NothingIsLeaked | libusbtv/src/main/cpp/ConcurrentQueue/concurrentqueue.h:2999-3018 | at rest the blocks held are those of the published numbers not emptied yet, one for each |
| ImplicitTheorems.AllOrNothing | libusbtv/src/main/cpp/ConcurrentQueue/concurrentqueue.h:2543-2690 | an enqueue appends all of its elements or none; which of the two is said by ImplicitProgress.SucceedsUnlessRefused |
| ImplicitTheorems.FailureIsUndone | libusbtv/src/main/cpp/ConcurrentQueue/concurrentqueue.h:2575-2596 | after a failure the tail, the tail block, the number at the index tail and the live entries are as before, save blocks emptied meanwhile, and no block is kept |
| ImplicitProgress.SucceedsUnlessRefused | libusbtv/src/main/cpp/ConcurrentQueue/concurrentqueue.h:2543-2690 | over every run: an enqueue that has ended has appended all of its elements, unless it was refused a block or memory for a larger index; then, and only then, it has failed and appended nothing |
| ImplicitProgress.GrowsExactlyWhenFull | libusbtv/src/main/cpp/ConcurrentQueue/concurrentqueue.h:2814-2842 | with n entries the index is enlarged for block number p exactly if block number p - n is still in use; otherwise the next entry is taken, and with all blocks in place the elements are written |
| ImplicitProgress.EnqueueIsWaitFree | libusbtv/src/main/cpp/ConcurrentQueue/concurrentqueue.h:2543-2690 | an enqueue of n elements takes at most n + 11 steps per block + 10, whatever the other threads do |
| ImplicitProgress.DequeueIsWaitFree | libusbtv/src/main/cpp/ConcurrentQueue/concurrentqueue.h:2717-2785 | a dequeue that has claimed n elements is through after at most 5 n + 5 more steps, whatever the other threads do |
| Semaphore.StepKeepsInv | libusbtv/src/main/cpp/ConcurrentQueue/blockingconcurrentqueue.h:260-405 | every step keeps the balance of waiters, count, posted permits and posts still owed |
| Semaphore.PermitsConserved | libusbtv/src/main/cpp/ConcurrentQueue/blockingconcurrentqueue.h:260-405 | permits granted, in the count, posted and owed add up to those ever made |
| Semaphore.NoLostWakeup | libusbtv/src/main/cpp/ConcurrentQueue/blockingconcurrentqueue.h:396-405 | with no signal in flight and a count not negative every waiter has a posted permit to take; a waiter without one means all permits are granted |
| Semaphore.TimedOutWaiterCanLeave | libusbtv/src/main/cpp/ConcurrentQueue/blockingconcurrentqueue.h:288-295 | the loop after a timeout always has a way out |
| Semaphore.ReleaseIsSmall | libusbtv/src/main/cpp/ConcurrentQueue/blockingconcurrentqueue.h:399-404 | signal posts at most once per thread, so the cast to int loses nothing |
| Semaphore.ResultInRange | libusbtv/src/main/cpp/ConcurrentQueue/blockingconcurrentqueue.h:379-394 | a wait acquires at most what it asked for, and at least one permit if it has no timeout |
| Semaphore.CallGetsWhatItAskedFor | libusbtv/src/main/cpp/ConcurrentQueue/blockingconcurrentqueue.h:343-394 | over every run: a call is told of no more permits than it asked for, and of at least one if it was a wait for some without a timeout |
| Semaphore.TakesWhatIsThere | libusbtv/src/main/cpp/ConcurrentQueue/blockingconcurrentqueue.h:366-387 | tryWaitMany alone takes min(max, count) permits, from any state; wait and waitMany do so at once if the count is positive, and go on to spin otherwise |
| Semaphore.SpinsAlone | libusbtv/src/main/cpp/ConcurrentQueue/blockingconcurrentqueue.h:304-312 | a spin that finds no permit changes nothing and comes to the decrement |
| Semaphore.TimeoutUndoesWait | libusbtv/src/main/cpp/ConcurrentQueue/blockingconcurrentqueue.h:312-337 | a lone wait that finds no permit and times out returns none and leaves the semaphore as it was |
| BlockingQueue.StepKeepsInv | libusbtv/src/main/cpp/ConcurrentQueue/blockingconcurrentqueue.h:519-868 | every step of enqueues, waits and retry loops keeps permits and elements in balance; what one call comes to is said by BlockingCalls.DequeueClaimsItsPermits |
| BlockingQueue.DequeueKeepsWithinMax | libusbtv/src/main/cpp/ConcurrentQueue/concurrentqueue.h:2693-2715 | a dequeue never wants more elements than its caller has permits left |
| BlockingQueue.PermitsStandForElements | libusbtv/src/main/cpp/ConcurrentQueue/blockingconcurrentqueue.h:519-761 | permits available, held in retry loops and about to be made number exactly the elements unclaimed |
| BlockingQueue.TicketsCovered | libusbtv/src/main/cpp/ConcurrentQueue/concurrentqueue.h:2700-2715 | open tickets of suspended threads never exceed the permits these threads hold |
| BlockingQueue.FreeForHolder | libusbtv/src/main/cpp/ConcurrentQueue/blockingconcurrentqueue.h:690-761 | a permit holder finds at least as many free elements as it has permits, however the others are suspended |
| BlockingQueue.HolderSucceedsAlone | libusbtv/src/main/cpp/ConcurrentQueue/concurrentqueue.h:1041-1072 | running alone, a thread past its wait succeeds on its first call of try_dequeue |
| BlockingQueue.BulkHolderSucceedsAlone | libusbtv/src/main/cpp/ConcurrentQueue/concurrentqueue.h:1147-1157 | and one call of try_dequeue_bulk yields an element for every permit |
| BlockingQueue.AtRestPermitsAreElements | libusbtv/src/main/cpp/ConcurrentQueue/blockingconcurrentqueue.h:519-761 | with every thread idle the permits available are the elements left |
| BlockingCalls.DequeueClaimsItsPermits | libusbtv/src/main/cpp/ConcurrentQueue/blockingconcurrentqueue.h:685-761 | over every run: a dequeue that has returned has claimed one element for each permit its semaphore operation got, at most as many as asked for; an untimed wait for some at least one, and wait_dequeue exactly one |
| BlockingCalls.DequeueSucceedsAlone | libusbtv/src/main/cpp/ConcurrentQueue/blockingconcurrentqueue.h:685-761 | in any reachable state with a positive count, a dequeue that runs alone gets min(max, count) permits in three steps after the call and returns from its first call of the inner queue |
| ProducerHash.StepKeepsInv | libusbtv/src/main/cpp/ConcurrentQueue/concurrentqueue.h:3293-3441 | every step keeps each key on its thread's probe path, with the right producer |
| ProducerHash.OneProducerForEver | libusbtv/src/main/cpp/ConcurrentQueue/concurrentqueue.h:3293-3441 | all calls of one thread return one producer, through any number of resizes |
| ProducerHash.ProducersAreNotShared | libusbtv/src/main/cpp/ConcurrentQueue/concurrentqueue.h:3293-3441 | no two threads get the same producer |
| ProducerHash.LaterCallsFindIt | libusbtv/src/main/cpp/ConcurrentQueue/concurrentqueue.h:3312-3357 | a thread that has returned once never creates another producer |
| ProducerHash.MissedIsBounded | libusbtv/src/main/cpp/ConcurrentQueue/concurrentqueue.h:3360-3362 | occupied slots passed stand for distinct count tickets below three quarters of the capacity |
| ProducerHash.ProbesAreShort | libusbtv/src/main/cpp/ConcurrentQueue/concurrentqueue.h:3316-3356 | every probe loop has passed fewer than three quarters of the slots |
| ProducerHash.SomeSlotIsFree | libusbtv/src/main/cpp/ConcurrentQueue/concurrentqueue.h:3316 | no table is ever full |
| ProducerHash.ResizerHasRoom | libusbtv/src/main/cpp/ConcurrentQueue/concurrentqueue.h:3363-3404 | the thread that took the resize lock has room afterwards and never waits |
| ProducerProgress.LoneCallReturns | libusbtv/src/main/cpp/ConcurrentQueue/concurrentqueue.h:3293-3441 | in any reachable state a call that runs alone returns a producer, unless another thread is suspended with the resize lock |
| ProducerProgress.LockIsHeld | libusbtv/src/main/cpp/ConcurrentQueue/concurrentqueue.h:3363-3404 | while the resize lock is set the thread that took it is resizing: no path leaves it set |
| Wraparound.CircularIsExact | libusbtv/src/main/cpp/ConcurrentQueue/concurrentqueue.h:406-417 | circular_less_than agrees with the comparison of unbounded indices exactly if their difference is above -2^(N-1) and at most 2^(N-1) |
| Wraparound.TicketBranch | libusbtv/src/main/cpp/ConcurrentQueue/concurrentqueue.h:2477-2482 | the branch of a dequeue is that of the unbounded counters exactly if the difference is within half the range, and then the amount is right |
| Wraparound.TicketStepRefined | libusbtv/src/main/cpp/ConcurrentQueue/concurrentqueue.h:2695-2698 | within that range a thread takes the step module Tickets gives it before it takes its tickets |
| Wraparound.ClaimStepRefined | libusbtv/src/main/cpp/ConcurrentQueue/concurrentqueue.h:2703-2710 | and after the second load of the tail: as many of its tickets win as in module Tickets, and the rest are given back |
| Wraparound.MaskingCommutes | libusbtv/src/main/cpp/ConcurrentQueue/concurrentqueue.h:2862 | the offset in a block and the block base survive wrapping |
| Wraparound.MasksAreRemainders | libusbtv/src/main/cpp/ConcurrentQueue/concurrentqueue.h:2862 | the bit masks of the source compute this offset and this base on words of 32 and 64 bits |
| Wraparound.LookupIsExact | libusbtv/src/main/cpp/ConcurrentQueue/concurrentqueue.h:2862-2870 | the slot is that of the unbounded computation for all indices exactly if capacity * 32 divides 2^N |
| Wraparound.PowersDivide | libusbtv/src/main/cpp/ConcurrentQueue/concurrentqueue.h:2914-2919 | powers of two up to 2^N / 32 are such capacities |
| Wraparound.LocateRefined | libusbtv/src/main/cpp/ConcurrentQueue/concurrentqueue.h:2857-2873 | on N-bit keys a thread computes the position module ImplicitQueue says |
| Wraparound.SignedDivisionAgrees | libusbtv/src/main/cpp/ConcurrentQueue/concurrentqueue.h:2867-2870 | a signed division would give another offset behind the tail, and the same slot |
| Wraparound.BlocksNeeded | libusbtv/src/main/cpp/ConcurrentQueue/concurrentqueue.h:2561-2564 | blockBaseDiff is 32 for every block the operation needs |
| Wraparound.EndIndexRefined | libusbtv/src/main/cpp/ConcurrentQueue/concurrentqueue.h:2722-2724 | endIndex is the end of the claim or of the block, whichever comes first |
| Wraparound.NotFull | libusbtv/src/main/cpp/ConcurrentQueue/concurrentqueue.h:2415 | the test for a full sub-queue does not fire while the head is within half the range |
| Packets.ReadsWhatIsWritten | libusbtv/src/main/cpp/usbtv_definitions.h:46-49 | a header written with any id, parity and packet number is read back, whatever the ignored bits |
| Packets.AcceptsOnlyHeaders | libusbtv/src/main/cpp/usbtv_definitions.h:46-49 | every word accepted is the header of what is read from it |
| Packets.WordRoundTrip | libusbtv/src/main/cpp/usbtv_definitions.h:46-49 | the four big-endian bytes determine the word |
| RequestBlocks.DecodesWhatIsSent | libusbtv/src/main/cpp/UsbTvDriver.cpp:539-551 | a packet of 1024 bytes as the device sends it, big-endian header and then 960 bytes of picture, is read as its frame id, parity, number and exactly these 960 bytes |
| RequestBlocks.RejectsByMarker | libusbtv/src/main/cpp/usbtv_definitions.h:38 | a packet is ignored if and only if its first byte is not 0x88 |
| RequestBlocks.ReadsOnlyWhatIsThere | libusbtv/src/main/cpp/usbtv_definitions.h:38-41 | whatever is read from a packet was sent in it: header, payload and the rest are its bytes |
| RequestBlocks.RequestBlockIsRead | libusbtv/src/main/cpp/UsbTvDriver.cpp:502-528 | isochronous packet i begins where the lengths asked for before it add up to, its packet j 1024 j bytes later; every packet received whole is read in its turn and nothing else is |
| Geometry.PlaceOfOffset | libusbtv/src/main/cpp/UsbTvDriver.cpp:698-724 | each byte of an interleaved field is found again from the offset it is written to: the map is injective |
| Geometry.OffsetOfPlace | libusbtv/src/main/cpp/UsbTvDriver.cpp:698-724 | each offset is written by the byte that belongs there: the map is onto |
| Geometry.FieldsAlternate | libusbtv/src/main/cpp/UsbTvDriver.cpp:702-715 | odd fields go to lines 0, 2, 4, ..., even fields to the others |
| Geometry.InterleavedTilesExactly | libusbtv/src/main/java/com/arksine/libusbtv/DeviceParams.java:218-239 | the packets of two fields fill the buffer exactly if the height is divisible by four |
| Geometry.ProgressiveTilesExactly | libusbtv/src/main/cpp/UsbTvDriver.cpp:667-673 | the packets of one field fill a half-height buffer exactly if the height is 0 or 1 modulo four |
| DeviceParameters.Builder.constructor | libusbtv/src/main/java/com/arksine/libusbtv/DeviceParams.java:131-145 | the default settings |
| DeviceParameters.Builder.SetFrameSize | libusbtv/src/main/java/com/arksine/libusbtv/DeviceParams.java:218-239 | width, height and packets per field by norm and scan type, the packets computed before the height is halved |
| DeviceParameters.Builder.Build | libusbtv/src/main/java/com/arksine/libusbtv/DeviceParams.java:199-216 | the result is consistent with the settings, whatever geometry the builder held: 720 pixels by 480 lines and 360 packets for NTSC, 576 and 432 for PAL, half the lines unless interleaved |
| DeviceParameters.Rebuild | libusbtv/src/main/java/com/arksine/libusbtv/DeviceParams.java:147-164 | building again from parameters gives the same parameters |
| DeviceParameters.Rescan | libusbtv/src/main/java/com/arksine/libusbtv/UsbTv.java:581-586 | changing the scan type doubles or halves the buffer and keeps the packets per field |
| DeviceParameters.BuiltFramesAreFilled | libusbtv/src/main/java/com/arksine/libusbtv/DeviceParams.java:45 | for built parameters the packets of a field, or of two, fill the buffer byte for byte |
| Reassembly.InterleavedWrites | libusbtv/src/main/cpp/UsbTvDriver.cpp:698-724 | a packet changes exactly the offsets of its bytes |
| Reassembly.RunConcat | libusbtv/src/main/cpp/UsbTvDriver.cpp:539-625 | a run over two streams is the run over the second from where the first ended |
| UsbDriver.FetchTakesFreeFrame | libusbtv/src/main/cpp/UsbTvDriver.cpp:463-494 | a frame fetched while streaming was free or was returned meanwhile, it alone is locked; an inactive stream yields frame 0 unowned |
| UsbDriver.FetchFindsFreeFrame | libusbtv/src/main/cpp/UsbTvDriver.cpp:472-489 | a free frame is found within one round of the pool |
| UsbDriver.UsbTvDriver.FetchFrameFromPool | libusbtv/src/main/cpp/UsbTvDriver.cpp:463-494 | the loop computes Fetch and flags an owned frame as started |
| UsbDriver.UsbTvDriver.StartStreaming | libusbtv/src/main/cpp/UsbTvDriver.cpp:123-186 | a new session has its counters at zero and its first frame fetched and flagged as started, but the packet count, the frame id and _secondFrame of the last one |
| UsbDriver.UsbTvDriver.PacketToProgressiveFrame | libusbtv/src/main/cpp/UsbTvDriver.cpp:667-673 | the payload overwrites its place in the buffer |
| UsbDriver.UsbTvDriver.PacketToInterleavedFrame | libusbtv/src/main/cpp/UsbTvDriver.cpp:698-724 | the two halves overwrite their places |
| UsbDriver.UsbTvDriver.AddCompleteFrameToQueue | libusbtv/src/main/cpp/UsbTvDriver.cpp:730-739 | the frame goes on the queue and the next one is fetched, or it is counted as dropped and kept |
| UsbDriver.UsbTvDriver.CheckFinishedFrame | libusbtv/src/main/cpp/UsbTvDriver.cpp:627-657 | flag, counters, pairing and queueing of a finished field; a frame queued keeps its flag and contents, the next one is fetched with its lock and, if owned, carries FRAME_START, and no other frame changes |
| UsbDriver.UsbTvDriver.ProcessPacket | libusbtv/src/main/cpp/UsbTvDriver.cpp:539-625 | a packet with a bad header changes nothing, any other, read as RequestBlocks.DecodesWhatIsSent says, takes one step of module Reassembly, writes no buffer but that of the input frame and changes no flag but those of the old and the new one; what is queued and fetched is as in the row before |
| UsbDriver.UsbTvDriver.OnUrbReceived | libusbtv/src/main/cpp/UsbTvDriver.cpp:502-531 | all whole packets of the good isochronous packets are processed in order; the queue has grown by exactly the frames of the events, each of which has the flag and the contents of its event until it becomes the input frame again; the input frame and the locks are those of the fetches made, and every owned one carried FRAME_START |
| UsbDriver.OwnedWhileStreaming | libusbtv/src/main/cpp/UsbTvDriver.cpp:463-494 | if every fetch found a frame, the run meets what module ProgressiveFields asks of its surroundings |
| FieldHistory.StepTracks | libusbtv/src/main/cpp/UsbTvDriver.cpp:587-634 | in every scan mode and for packets in any order, the count is the stale one plus the packets since a field was opened, modulo 2^16, and the verdict on a field is that of the count |
| ProgressiveFields.RunsAreBehaviours | libusbtv/src/main/cpp/UsbTvDriver.cpp:539-625 | every run of module Reassembly with frames fetched while streaming is a behaviour of this module, with the same events |
| ProgressiveFields.CompleteIffAllPresent | libusbtv/src/main/cpp/UsbTvDriver.cpp:587-634 | with packet numbers increasing within a field, a frame is queued as complete if and only if all its packets came or a stale count equals the number of those missing; with all packets it is the concatenation of their payloads; otherwise it is partial |
| ProgressiveFields.EveryFieldIsAccountedFor | libusbtv/src/main/cpp/UsbTvDriver.cpp:587-634 | with packet numbers increasing and the first packet opening a field, every field opened is queued, dropped or in progress, and the two counters count drops and incomplete fields modulo 2^32 |
| ProgressiveFields.AlwaysBalanced | libusbtv/src/main/cpp/UsbTvDriver.cpp:587-739 | for any packet stream: fields opened and last packets without an open field == frames queued, dropped and in progress |
| ProgressiveFields.FlagIsTheCount | libusbtv/src/main/cpp/UsbTvDriver.cpp:618-634 | over every run: a queued frame is complete exactly if stale count and packets seen number those of a field modulo 2^16, otherwise partial |
| ProgressiveFields.StaleUntilOpened | libusbtv/src/main/cpp/UsbTvDriver.cpp:587-599 | the stale count is what the last session left until the first field is opened, and zero from then on |
| ProgressiveFields.FlagIsRight | libusbtv/src/main/cpp/UsbTvDriver.cpp:618-634 | over every run, for packets in any order: the flag of a queued frame is right about the packets seen if and only if none is missing and those that came twice number a multiple of 2^16, or some are missing and those that came twice and the stale count do not make up for them |
| ProgressiveFields.DuplicateHidesLoss | libusbtv/src/main/cpp/UsbTvDriver.cpp:627-634 | for every field size from 3 up, the packets 1, 1, 2, ..., n - 1 are queued as a complete frame, though packet 0 never came |
| ProgressiveFields.StaleCountHidesLoss | libusbtv/src/main/cpp/UsbTvDriver.cpp:587-634 | after a session that ended one packet short, a single last packet of the same id is queued as a complete frame |
| DiscardFields.QueuedExactly | libusbtv/src/main/cpp/UsbTvDriver.cpp:603-657 | in DISCARD mode, over every run: a frame is queued exactly with the last packet of an odd field if the queue takes it, complete exactly if the packets counted number those of a field; even packets change nothing in the frame |
| DiscardFields.OddFieldsAreQueued | libusbtv/src/main/cpp/UsbTvDriver.cpp:603-657 | in DISCARD mode, with packet numbers increasing within a field and fields of one parity: a queued frame is complete if and only if all packets of its odd field came, stale count apart, and then it is the concatenation of their payloads, whatever even fields came before |
| InterleavedFields.PairingFollowsFields | libusbtv/src/main/cpp/UsbTvDriver.cpp:649-656 | whatever packets come, _secondFrame depends on nothing but the parities of the fields that finish |
| InterleavedFields.QueuedExactly | libusbtv/src/main/cpp/UsbTvDriver.cpp:649-656 | in a run a frame is queued with exactly the last packets that find _secondFrame set and the queue ready; unless its field is the first to finish, the field before it is odd, so the pair is proper if and only if the field is even |
| InterleavedFields.PairingResynchronises | libusbtv/src/main/cpp/UsbTvDriver.cpp:649-656 | in a run whose finished fields alternate, from either value of _secondFrame, every frame but possibly one with the first field is an odd field and the even one after it, and from the third field on every even field yields one |
| InterleavedFields.WholeField | libusbtv/src/main/cpp/UsbTvDriver.cpp:603-657 | a field that arrives whole is laid over what the frame held and queued if it is the second one |
| InterleavedFields.PairsAreWoven | libusbtv/src/main/cpp/UsbTvDriver.cpp:698-724 | in a run over any number of whole odd and even fields, from _secondFrame clear, each pair yields exactly one frame, with its last packet, complete, whose lines are alternately those of its two fields |
| InterleavedFields.LostPacketMispairs | libusbtv/src/main/cpp/UsbTvDriver.cpp:649-656 | a run: an even field that loses its last packet between two odd ones lets the odd ones be paired and queued as complete |
| InterleavedFields.LossInFirstFieldIsForgotten | libusbtv/src/main/cpp/UsbTvDriver.cpp:627-656 | a run: an odd field with only its last packet and a whole even field are queued as complete |
| InterleavedFrames.VerdictsAreRight | libusbtv/src/main/cpp/UsbTvDriver.cpp:618-656 | over every run: the flag of a queued frame and the verdict that was on its first field are right about their fields exactly if the count does not mislead |
| InterleavedFrames.CompleteIffBothPresent | libusbtv/src/main/cpp/UsbTvDriver.cpp:618-656 | with packet numbers increasing within a field: all packets of both fields of a queued frame came if and only if its flag and the verdict on the first field are complete, except exactly for a first field whose stale count equals the number of its packets missing |
| InterleavedFrames.StaleIsLastSession | libusbtv/src/main/cpp/UsbTvDriver.cpp:587-599 | a count is stale only with the value the last session left, on the field it left |
| InterleavedFrames.FrameIsWoven | libusbtv/src/main/cpp/UsbTvDriver.cpp:698-724 | an odd field and an even one, all of whose packets came and between which no odd packet came, are queued as their weave |
| InterleavedFrames.AlternatingFieldsWeave | libusbtv/src/main/cpp/UsbTvDriver.cpp:587-657 | from any value of _secondFrame and of the count, with alternating fields that may lose any packets but their last: every frame but possibly one with the first field pairs an odd field with the even one after it, it is complete and their weave if both came whole, and they came whole if it and the odd field were judged complete, stale count apart |
| JavaFrame.UsbTvFrame.ReturnFrame | libusbtv/src/main/java/com/arksine/libusbtv/UsbTvFrame.java:92-101 | the first return after an unlock clears the native lock, further ones do not |
| JavaFrame.UsbTvFrame.CopyOfFrame | libusbtv/src/main/java/com/arksine/libusbtv/UsbTvFrame.java:76-87 | a copy has the readable bytes of the original, which is unchanged but rewound, and can never be returned to the pool |
| JavaFrame.UsbTvFrame.ReturnAndCopy | libusbtv/src/main/java/com/arksine/libusbtv/UsbTvFrame.java:103-107 | the copy is taken before the frame is given back, which happens at most once |
| FrameOwnership.StepKeepsInv | libusbtv/src/main/cpp/UsbTvDriver.cpp:356-786 | every step of the USB thread, the worker, the application and the stopping thread keeps the invariant |
| FrameOwnership.LockedIffInOnePlace | libusbtv/src/main/cpp/UsbTvDriver.cpp:463-494 | while streaming a lock is set exactly if its frame is in exactly one of: input, queue, worker, delivered, on its way back, leaked |
| FrameOwnership.WriterIsAlone | libusbtv/src/main/cpp/UsbTvDriver.cpp:667-739 | the buffer the USB thread writes to is with nobody else |
| FrameOwnership.FramesAway | libusbtv/src/main/cpp/UsbTvDriver.cpp:730-739 | while streaming, frames queued or outstanding are fewer than the pool if and only if the USB thread has a frame or one is free |
| FrameOwnership.WholePoolAway | libusbtv/src/main/cpp/UsbTvDriver.cpp:730-733 | for every pool size from two up, a run in which all of them are away |
| FrameOwnership.ClearedOncePerDelivery | libusbtv/src/main/java/com/arksine/libusbtv/UsbTvFrame.java:37-39 | the native lock is cleared at most once per delivery, however often and from however many threads a frame is returned; that it is cleared is said by the FrameReturns rows |
| FrameReturns.ReturnTakesEffectOnce | libusbtv/src/main/java/com/arksine/libusbtv/UsbTvFrame.java:95-101 | the first return of a delivered frame locks the Java frame and starts the native clearing; any other return changes nothing |
| FrameReturns.OnItsWayUntilCleared | libusbtv/src/main/java/com/arksine/libusbtv/UsbTvFrame.java:95-101 | a returned frame can be cleared until it is |
| FrameReturns.ReturnedFrameIsReused | libusbtv/src/main/cpp/UsbTvDriver.cpp:356-372 | a frame that is returned and cleared is unlocked and stays free until the USB thread looks at it, and then, while streaming, it is the next input frame |
| FrameReturns.DeliveriesBalance | libusbtv/src/main/java/com/arksine/libusbtv/UsbTvFrame.java:37-39 | while streaming, each delivery of a frame is matched by one clearing, made or under way, or the application still has the frame |
| FrameReturns.SearchFinds | libusbtv/src/main/cpp/UsbTvDriver.cpp:472-489 | if a frame is free, a search that runs alone takes a free one, and it alone, within one round of the pool |
| FrameOwnership.LeakedForGood | libusbtv/src/main/java/com/arksine/libusbtv/UsbTv.java:438-444 | a frame dequeued without callback or listener stays locked in every later state while the stream lasts |
| FrameOwnership.AtMostOneMore | libusbtv/src/main/cpp/UsbTvDriver.cpp:768-786 | after the running flag is cleared the worker dequeues at most one more item |
| FrameOwnership.WorkerIsNotStuck | libusbtv/src/main/cpp/UsbTvDriver.cpp:255-262 | once the sentinel is in the worker is never blocked |
| FrameOwnership.WorkerLeaves | libusbtv/src/main/cpp/UsbTvDriver.cpp:768-786 | each step brings a worker that is told to stop closer to leaving |
| FrameReturns.StopCanFinish | libusbtv/src/main/cpp/UsbTvDriver.cpp:242-284 | wherever the threads are when a stop has begun, it can be completed: some thread can always take the step that brings it forward |
| FrameOwnership.StoppedClean | libusbtv/src/main/cpp/UsbTvDriver.cpp:269-284 | after join and drain the queue is empty and no queued or input frame is locked |

## Left out

- Weak memory orders and fences: every atomic is sequentially consistent.
- The explicit producers, producer and consumer tokens, swap and move, and the statistics and debug code: the driver never uses them.
- Exceptions from element constructors: elements are pointers.
- Failure of the first index allocation in the constructor of an implicit producer; later index and block allocations may fail.
- The composition of FreeList with ImplicitQueue: the producer's model takes blocks from one pool of which FreeList proves that a node is handed out once per add; the initial block pool is part of that pool.
- Destructors of the queue, and the MAX_SUBQUEUE_SIZE limit, which the traits leave at its maximum.
- Single enqueue and dequeue are modelled as bulk operations of one element, whose branches and amounts they share.
- ProducerHash.StepKeepsInv: no allocation failure, and thread-local storage off, so no key is removed and no producer recycled.
- Semaphore.StepKeepsInv: the operating-system semaphore is a counter whose timed wait may fail at any time; counts are unbounded integers.
- FreeList.StepKeepsInv: the number of threads plus one is below 2^31, so a count never runs into the bit above it.
- Wraparound.TicketStepRefined: it and ClaimStepRefined state the steps for loads within half the range; a bound on how long a thread may sleep between its loads is not part of the model.
- Fairness: the retry loops of the free list, the semaphore and the dequeues are shown to end alone, not while other threads keep interfering, and a call may wait for another thread's resize.
- AndroidUsbDevice.cpp, the JNI helpers, register tables, startStreaming's device set-up, logging and profiling, the Android user interface and rendering.
- Pools of more than 255 frames: the pool loops use an eight-bit index.
- `_lastOdd`, which is written and never read, and `frameId`, which the driver never sets.
- Frames kept across a restart of the stream: ownership is stated for one session, up to freeFramePool.
- FrameOwnership.StoppedClean: after the stream is inactive the USB thread may borrow frame 0 without owning it, so one place per frame is stated for the active stream only; the sentinel's enqueue is taken to succeed.
- Integer widths of buffer offsets: they stay below 2^32 for every 16-bit packet count.
