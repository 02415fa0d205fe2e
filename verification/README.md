# Verification of the NumaChip user-space library

Dafny models of five components of the repository, and proofs about them. `dafny verify dfyconfig.toml`
checks everything.

**The dynamically queued ticket lock** (`QLock*.dfy`, `lib/tktqlock.c` with `lib/ncutils_lock.h`).
Any number of locks share 514 queue slots. `QLockModel` is a deterministic state machine: one step is one
shared access of one context (one thread's use of one lock), so a run is a schedule of contexts. The
constructors of `PC` carry the source lines of the accesses. `QLockInvariant` is the invariant of one lock
with a history (line, queue, phase, token) that only the proofs see; `QLockPreservation`, `QLockReservation`,
`QLockQueue`, `QLockHandOff`, `QLockTickets`, `QLockPhases` and `QLockSafety` show that every step keeps it;
`QLockTheorems`, `QLockOrder` and `QLockProgress` hold the results. `QLockSlots` says who has the shared slots and that
they all come back, `QLockDrain` that a lock can always be left by those that use it, and `QLockStart` when a queue starts
and which slot it gets. Assumptions: sequential consistency; fewer
than 2^15 threads for a lock; and one granularity assumption, `Quiet`: no context of a lock performs the
compare-exchange that attaches a queue (line 298) while another one is between clearing the queue bit (line 114)
and clearing `ref` (line 119) of the same lock. Lines 114 and 119 are two steps of the model. `QLockFew` proves
that the assumption holds by itself on every schedule when each lock that shares the slots has at most nine contexts
(for a threshold sw, n contexts with 2 * (n - 2) < sw): tickets drawn between the two lines are too close to the head
word to start a queue. `QLockWindow` gives, for the threshold 16 and ten contexts, and in general for 2 * m and m + 2, a
schedule that leaves a waiter on a queue that was given back. Together: exactly up to nine contexts are safe
(`QLockWindow.NineContexts`).

**The plain ticket lock** (`TicketLock.dfy`, `lib/ncutils_lock.h`) with 16-bit words refines one with unbounded
tickets; mutual exclusion holds for n threads if and only if n <= 2^16, and then each thread with a ticket is served after
as many releases as there are tickets before its own.

**The allocator** (`SizeClasses.dfy`, `Heap*.dfy`, `numaplace/ncalloc.c`). `HeapModel` has one function for each
critical section of a heap (small and big, malloc and free) over values: the records of the owned blocks, the bins,
the cache of unused blocks and the list of recently used big blocks. `HeapLists` and `HeapObject` are the same
heap as objects that are changed in place: blocks with free-pointer cells, doubly linked lists with heads and tails;
each method is proved against the function. `HeapInvariant` shows that each section keeps the heap well formed and
changes the set of held chunks by exactly one. `HeapRuns`, `HeapSafety` and `HeapTheorems` build the process
from the heaps of all threads, with headers, memalign, realloc and frees by other threads, and prove safety over all
runs; a header is written only where the code writes one, so that a chunk from a free stack is served with the header
that it was left with. `HeapReuse` says when memory is mapped and unmapped and what is used again first, `HeapRecency`
ties the order of the big-block cache to the history of frees, and `HeapCopy` is what realloc does to the bytes. The two arrays `binhead` and `bintail` are grouped by bin into list objects.

**The block-transfer splitter** (`BteTransfer.dfy`, `BteCopy.dfy`, `lib/libncbte.c`). The emitted descriptors,
expanded dword by dword, are compared with a walk of the page tables.

**The block copies** (`MemOps.dfy`, `lib/memops.c`) leave memory as it was but for exactly the bytes that were moved.

**The range lists** (`RangeList.dfy`, `numaplace/numaplace.cc`). `List` prints the maximal runs of the numbers that were
added; `string_to_mask` parses such texts.

## What the code does not do

- `lib/tktqlock.c:114-119`: with ten or more contexts of one lock a second queue can be attached between the two lines,
  and a waiter may then enqueue in the old slot, which is given back under it (`QLockWindow.WaiterOnDetachedQueue`).
- `lib/memops.c:29-41`: when n is not a multiple of four and does not reach the alignment boundary, `n-=4` wraps,
  and exactly 64 bytes too many are copied (`MemOps.CopyIsExact`).
- `numaplace/ncalloc.c:391`: because of `>=`, a request whose size with the header is exactly 64 KiB shares bin 24
  with smaller requests but has another chunk size. Chunks still never overlap, but `nc_realloc` in place then
  believes a chunk is larger than it is (`HeapCopy.InPlaceOverlap`); the same holds for buffers from memalign.
  `HeapSafety.InPlaceIff` is the exact condition on a call.
- `numaplace/ncalloc.c:696-700`: when `nc_realloc` moves a buffer from memalign, it copies the size of the whole chunk from
  where the buffer starts, and so reads behind a big block: for 3 MiB aligned to pages up to 4016 bytes behind the mapping
  (`HeapCopy.CopyBehindBlock`). `HeapCopy.CopyReadsIff` is the exact condition.
- `numaplace/ncalloc.c:390-403`: sizes above 64 KiB are stretched "to make use of left over space", but rounding up
  to 16 costs every such bin one chunk (`SizeClasses.StretchingLosesAChunk`).
- `numaplace/ncalloc.c:332-338`: the block is aligned to a huge page only when the mapping was aligned to half of
  one (`HeapTheorems.BlockIsKept`).
- `lib/libncbte.c:436-440`: a transfer that starts inside a 64-byte line and ends before the next one, also an empty one,
  submits 64 bytes too many; the wrapped length then has no end in any region, so that -1 is returned (`BteCopy.CopyAny`).
  A transfer of length 0 at the very end of a region is refused, and so is one whose end wraps in 64 bits, but only
  after the dwords up to the end of the region were submitted (`BteCopy.MoveRegion`).
- `numaplace/numaplace.cc:91-97`: an empty list prints as an empty text, which `string_to_mask` takes for core 0
  (`RangeList.EmptyList`).

## Model

| member | source | states |
|---|---|---|
| QLockSafety.EveryStepIsGood | lib/tktqlock.c:102-346 | every shared access of every context keeps the invariant of its lock and touches only slots that are its lock's or free |
| QLockTheorems.StepKeeps | lib/tktqlock.c:102-346 | one step of one context keeps the invariants of all locks, which share the slots |
| QLockTheorems.RunKeeps | lib/tktqlock.c:102-346 | the invariants hold after every run from the initial state |
| QLockTheorems.OneToken | lib/tktqlock.c:131-305 | in every reachable state at most one context of a lock has the right to enter, in any of its forms: critical section, grant, waking releaser, ticket equal to head, ticket equal to head_tkt |
| QLockTheorems.MutualExclusion | lib/ncutils_lock.h:113-137 | two contexts of one lock are never in the critical section together, over ticket mode, queue formation, queue mode and teardown |
| QLockTheorems.TokenNotLost | lib/tktqlock.c:131-199 | whenever a ticket is outstanding or a release is in progress, some context has the right to enter |
| QLockTheorems.QueueBit | lib/tktqlock.c:294-303 | the queue bit is set exactly when one slot is bound to the lock, or about to be published for it, and is not being given back; that slot is unique |
| QLockTheorems.NobodyOnDetachedQueue | lib/tktqlock.c:184-253 | a context that works on a queue works on the slot that is bound to its lock, with the queue bit set |
| QLockTheorems.BitClearedWhenUnused | lib/tktqlock.c:108-116 | the step that clears the queue bit happens only when every other context of the lock is outside |
| QLockPhases.NobodyLeft | lib/tktqlock.c:108-116 | when the compare-exchange that detaches the queue succeeds, line and queue are empty |
| QLockOrder.QueueIsOneChain | lib/tktqlock.c:195-254 | the elements from spin on, with the link writes still pending, are one chain without repetition that ends at spin_tail |
| QLockOrder.WalkMeetsEverybody | lib/tktqlock.c:195-254 | when no link write is pending, following next from spin meets exactly the waiters, in order, and ends at spin_tail |
| QLockOrder.GrantGoesToFirst | lib/tktqlock.c:150-153 | the grant goes to the first waiter of the attached queue, who was not granted before, and head_tkt is already reset |
| QLockOrder.HeadTicketGoesFirst | lib/tktqlock.c:184-188 | while a context waits with the ticket in head_tkt, nobody else is inside, granted, dequeuing or waking: it enters first |
| QLockOrder.HeadTicketOnce | lib/tktqlock.c:150-151 | once head_tkt is reset it stays so as long as the slot is bound, so that such an entry happens at most once |
| QLockOrder.EntryNeedsToken | lib/tktqlock.c:184-254 | a step into the critical section is taken only with the token, or by drawing a ticket of a free lock |
| QLockOrder.HandOffInExchangeOrder | lib/tktqlock.c:195-254 | over every run, the entries through the queue are a prefix of the exchanges of spin_tail: each waiter enters once, in the order of the exchanges |
| QLockOrder.TicketsAreConsecutive | lib/ncutils_lock.h:113-137 | without a queue the outstanding tickets count up by two from head to tail |
| QLockOrder.ServedInTicketOrder | lib/ncutils_lock.h:113-137 | as long as no queue forms, releases follow the order of the tickets drawn |
| QLockProgress.LockProgresses | lib/tktqlock.c:136-153 | in every state with an outstanding ticket and nobody inside, some context of the lock has a step that brings the next entry nearer |
| QLockProgress.EventuallyEnters | lib/tktqlock.c:136-254 | from every such state steps of the lock's own contexts alone lead into the critical section |
| QLockProgress.NoLostWakeup | lib/tktqlock.c:199-242 | in every reachable state with an outstanding ticket, steps of the lock's own contexts lead to an entry: no wakeup is lost |
| QLockProgress.EveryWaiterServed | lib/tktqlock.c:136-254 | in every reachable state each single context with an outstanding ticket can be brought into the critical section by steps of the lock's own contexts |
| QLockSlots.RunHeld | lib/tktqlock.c:256-343 | on every schedule a slot that is reserved is being prepared by a context, which stands between its claim and its publication or return of this slot |
| QLockSlots.ReservedIffPrepared | lib/tktqlock.c:256-343 | in every reachable state a slot is reserved if and only if a context stands there with it, and that context is the only one |
| QLockSlots.UnusedLockHasNoSlot | lib/tktqlock.c:108-122 | a lock whose contexts are all outside has no slot, neither bound nor reserved |
| QLockSlots.FreeIffUnused | lib/tktqlock.c:256-343 | a slot is free if and only if no context prepares it and no lock is bound to it |
| QLockSlots.AllSlotsComeBack | lib/tktqlock.c:108-343 | whenever all contexts of all locks are outside, every slot is free |
| QLockDrain.LockDrains | lib/tktqlock.c:102-254 | from every reachable state all contexts that use a lock, releasers included, can leave it by steps of their own and without a newcomer, and the lock is then bound to no slot |
| QLockStart.StartsExactly | lib/tktqlock.c:345-369 | without a queue a context that looks at the head word enters if and only if no ticket before its own is out, and goes to start a queue if and only if exactly half the threshold of them are and the ticket words have not wrapped around in between |
| QLockStart.SearchFindsFirstFree | lib/tktqlock.c:312-343 | a context that searches a slot, undisturbed, reserves the first free one from the lock's hash on, round all slots; if none is free it goes back to spinning |
| QLockStart.HashSpreads | lib/tktqlock.c:69-84 | locks in the same 256 bytes start their search at the same slot, those 256 bytes further at the next |
| QLockFew.StartsLater | lib/tktqlock.c:348-369 | between lines 114 and 119 no context of a lock with few contexts draws or holds a ticket that starts a queue |
| QLockFew.FewAreQuiet | lib/tktqlock.c:108-298 | when every lock has n contexts with 2 * (n - 2) below the threshold, every schedule from an initial state meets the granularity assumption |
| QLockFew.FewReach | lib/tktqlock.c:102-346 | all results about reachable states then hold after every schedule |
| QLockWindow.FewExclude | lib/ncutils_lock.h:113-137 | with so few contexts mutual exclusion holds over every schedule, without an assumption |
| QLockWindow.FewLoseNoWakeup | lib/tktqlock.c:136-254 | with so few contexts no wakeup is lost, without an assumption |
| QLockWindow.FewServeEverybody | lib/tktqlock.c:136-254 | with so few contexts each context with a ticket can be served, without an assumption |
| QLockWindow.WaiterOnDetachedQueue | lib/tktqlock.c:108-119 | for the threshold 2 * m and m + 2 contexts of one lock there is a schedule that leaves a waiter on a slot that was given back |
| QLockWindow.SafeIffFew | lib/tktqlock.c:108-303 | for an even threshold every schedule keeps everybody on the queue of their lock if and only if no lock has half the threshold and two contexts |
| QLockWindow.NineContexts | lib/tktqlock.c:46-52 | with TKT_Q_SWITCH 16 that is: at most nine contexts of each lock |
| TicketLock.WordRefinesIdeal | lib/ncutils_lock.h:86-106 | with at most 2^16 threads, after every schedule the lock with 16-bit words is where the lock with unbounded tickets is, its words being the counters modulo 2^16 |
| TicketLock.ExclusiveIffWordSuffices | lib/ncutils_lock.h:76-106 | every run of n threads keeps mutual exclusion if and only if n <= 2^16 |
| TicketLock.FirstComeFirstServed | lib/ncutils_lock.h:86-106 | the threads leave in the order in which they drew their tickets |
| TicketLock.EntersIffFirst | lib/ncutils_lock.h:86-98 | in every state of every run a thread that takes a step enters if and only if no ticket before its own is out |
| TicketLock.OneIsServed | lib/ncutils_lock.h:86-106 | whenever a ticket is out, one thread and no other is inside or enters with its next step |
| TicketLock.EverybodyIsServed | lib/ncutils_lock.h:86-106 | every thread with a ticket can be brought inside by steps of threads with tickets alone, after exactly as many releases as there are tickets before its own |
| SizeClasses.NominalClass | numaplace/ncalloc.c:370-388 | the computed bin is the least one whose size is large enough |
| SizeClasses.SizeClass | numaplace/ncalloc.c:370-403 | bin and chunk size of every small request |
| SizeClasses.ClassIsGood | numaplace/ncalloc.c:370-403 | bins are below 48; chunk sizes are multiples of 16, hold the request with its header, leave at least two chunks in a block, and waste at most half of it below 64 KiB |
| SizeClasses.BinFixesSize | numaplace/ncalloc.c:391 | equal bins give equal chunk sizes, exactly with the exception of requests of 64 KiB |
| SizeClasses.BlockHolds | numaplace/ncalloc.c:355 | all chunks of a block end before its free pointers, even when the two sizes of bin 24 are mixed |
| SizeClasses.StretchingLosesAChunk | numaplace/ncalloc.c:390-397 | every stretched bin has one chunk less than it would have without stretching |
| HeapBlocks.ChunkInside | numaplace/ncalloc.c:353-365 | every carved chunk lies behind the block header and in front of the whole free-pointer stack |
| HeapBlocks.TakeOk | numaplace/ncalloc.c:414-426 | taking a chunk makes exactly one chunk live that was not, and keeps the block well formed |
| HeapBlocks.GiveOk | numaplace/ncalloc.c:262-265 | giving a chunk back makes exactly that chunk not live, and keeps the block well formed |
| HeapBlocks.SpaceIsOwn | numaplace/ncalloc.c:353-365 | no byte of a chunk up to the next chunk, or the lowest free pointer, is another chunk's, uncarved, a free pointer's or outside the block |
| HeapBlocks.EndIsForeign | numaplace/ncalloc.c:353-365 | the first byte behind that is one of these |
| HeapBlocks.LastChunkGone | numaplace/ncalloc.c:262-290 | when the free count reaches the chunk count no other chunk is live |
| HeapBlocks.ChunksConserved | numaplace/ncalloc.c:262-426 | live, free and uncarved chunks add up to the chunk count |
| HeapInvariant.MallocSmallOk | numaplace/ncalloc.c:368-482 | nc_malloc_small keeps the heap well formed and hands out one chunk of the right bin that nobody held |
| HeapInvariant.FreeSmallOk | numaplace/ncalloc.c:258-323 | nc_free_small keeps the heap well formed and takes back exactly the chunk it was given |
| HeapInvariant.MallocBigOk | numaplace/ncalloc.c:485-539 | nc_malloc_big keeps the heap well formed and hands out one block that nobody held, large enough for request and headers |
| HeapInvariant.FreeBigOk | numaplace/ncalloc.c:574-610 | nc_free_big keeps the heap well formed and takes back exactly the block it was given |
| HeapInvariant.FullHead | numaplace/ncalloc.c:408-442 | when the head of a bin is full all its blocks are, so that testing the head alone misses nothing |
| HeapReuse.MapsOnlyWhenNeeded | numaplace/ncalloc.c:408-477 | a small request is served by a block that has a chunk of its bin, if there is one, else by an unused block that was kept; only if there is none either, one block is mapped |
| HeapReuse.UnmapsOnlySurplus | numaplace/ncalloc.c:258-323 | freeing a small chunk unmaps exactly its block if it was the last chunk and 64 unused blocks are kept, and nothing otherwise; a block whose last chunk was freed is kept |
| HeapReuse.FreedIsTakenNext | numaplace/ncalloc.c:262-426 | the next request of the bin is served by the block that a chunk was freed in, and by this chunk if all chunks of the block have been carved |
| HeapReuse.UnusedIsTakenNext | numaplace/ncalloc.c:308-450 | the block that became unused last is the first to be used again |
| HeapReuse.MallocServesRight | numaplace/ncalloc.c:553-558 | the block that serves a request is of the least bin that is large enough, or a big one |
| HeapReuse.MemalignServesRight | numaplace/ncalloc.c:713-750 | the same for memalign, which asks for the alignment more when it is above 16 |
| HeapLists.BlkList.PushFront | numaplace/ncalloc.c:466-476 | a block becomes the head of a well-formed doubly linked list |
| HeapLists.BlkList.Remove | numaplace/ncalloc.c:290-305 | a block leaves the list, and everything else keeps its order |
| HeapLists.BlkList.MoveToFront | numaplace/ncalloc.c:267-285 | a block moves to the head of the list |
| HeapLists.BlkList.HeadToTail | numaplace/ncalloc.c:429-439 | the head moves to the tail of the list |
| HeapLists.BlkList.DropTail | numaplace/ncalloc.c:593-602 | the tail leaves the list |
| HeapLists.Blk.TakeChunk | numaplace/ncalloc.c:414-426 | the counters, the rest pointer and the free stack change as the record does |
| HeapLists.Blk.GiveChunk | numaplace/ncalloc.c:262-265 | the freed chunk is on top of the stack that grows down from the block end |
| HeapObject.HeapT.constructor | numaplace/ncalloc.c:216-230 | a new heap is empty |
| HeapObject.HeapT.MallocSmall | numaplace/ncalloc.c:368-482 | the heap object changes exactly as the heap model does and returns the same chunk; all lists stay linked, with their heads, tails and counts |
| HeapObject.HeapT.FreeSmall | numaplace/ncalloc.c:258-323 | the heap object changes exactly as the heap model does |
| HeapObject.HeapT.FindFit | numaplace/ncalloc.c:495-501 | the walk finds the first, that is the most recently freed, block that is large enough |
| HeapObject.HeapT.MallocBig | numaplace/ncalloc.c:485-539 | the heap object changes exactly as the heap model does, and returns the same chunk |
| HeapObject.HeapT.FreeBig | numaplace/ncalloc.c:574-610 | the heap object changes exactly as the heap model does |
| HeapRuns.AllChunksClear | numaplace/ncalloc.c:368-537 | two held chunks never overlap, whatever blocks and heaps they are from |
| HeapRuns.BuffersDisjoint | numaplace/ncalloc.c:542-571 | two held buffers with their headers never overlap, and buffers are aligned to 16 |
| HeapRuns.BufferInBlock | numaplace/ncalloc.c:353-482 | a held buffer lies in its block, behind the block header and in front of the free-pointer stack in use |
| HeapRuns.MallocInOk | numaplace/ncalloc.c:553-558 | whichever allocator serves a request, the chunk has room for header and request and is new |
| HeapInvariant.MallocSmallStacks | numaplace/ncalloc.c:414-426 | a chunk whose header is not written comes from the free stack, and no chunk enters a stack |
| HeapRuns.StackedClear | numaplace/ncalloc.c:258-265 | the space of a held chunk has no header of a chunk on any free stack |
| HeapRuns.MallocKeeps | numaplace/ncalloc.c:542-571 | nc_malloc keeps the process well formed, in which every chunk on a free stack has the header it needs, and returns a new buffer of the size asked for, at a pointer that is not null and aligned to 16, with all other buffers as they were; the header of a chunk from the stack is the one that it was left with |
| HeapRuns.MemalignKeeps | numaplace/ncalloc.c:713-750 | nc_memalign returns a new buffer at the first aligned address behind the header of a chunk of its own for every power of two, and nothing for other alignments; all other buffers are as they were |
| HeapSafety.FreeFindsChunk | numaplace/ncalloc.c:626-656 | from the pointer alone nc_free finds block, owner heap and original chunk, also after memalign and from another thread |
| HeapSafety.FreeKeeps | numaplace/ncalloc.c:613-676 | nc_free takes back exactly the buffer's chunk and resets the header that memalign marked, so that the chunk is on its stack with the header that the next owner needs |
| HeapSafety.InPlaceIff | numaplace/ncalloc.c:687-704 | a buffer can have the new size where it is if and only if it ends before the next chunk, the lowest free pointer or the end of a big block: then and only then no byte of it is another chunk's, a free pointer's or outside |
| HeapSafety.InPlaceExact | numaplace/ncalloc.c:687-704 | what realloc does in place keeps the process well formed if and only if no byte of the buffer is then another chunk's, a free pointer's or outside |
| HeapSafety.PlainFits | numaplace/ncalloc.c:687-704 | every size that realloc accepts in place fits, unless the buffer is from memalign or its block was set up by a request of 64 KiB |
| HeapSafety.ReallocKeeps | numaplace/ncalloc.c:679-710 | realloc moves the buffer to a chunk that nobody held if the new size is larger than the chunk's, and leaves it where it is otherwise; it has the new size then, and all other buffers are as they were |
| HeapSafety.ReallocNullKeeps | numaplace/ncalloc.c:705-707 | realloc of a null pointer returns a new buffer of the size asked for, at a pointer that is not null and aligned to 16, and keeps the process well formed, with all other buffers as they were |
| HeapTheorems.NextKeeps | numaplace/ncalloc.c:542-750 | every call by any thread keeps the process well formed |
| HeapTheorems.RunKeeps | numaplace/ncalloc.c:542-750 | every state of every run of calls is well formed |
| HeapTheorems.SomeBufferIsHeld | numaplace/ncalloc.c:542-571 | there are runs in which buffers are held |
| HeapTheorems.RunDisjoint | numaplace/ncalloc.c:542-750 | in every state of every run held buffers are aligned and disjoint |
| HeapTheorems.BufferIsPrivate | numaplace/ncalloc.c:258-482 | no byte of a held buffer is the allocator's own: no block header, free pointer or chunk header |
| HeapTheorems.BlocksConserved | numaplace/ncalloc.c:262-321 | every owned block is in exactly one list, and of the bins in one only; its chunks add up, and mapped is the sum of the owned blocks |
| HeapTheorems.HeadDecides | numaplace/ncalloc.c:408-412 | the assertions on the head's counters never fail |
| HeapRecency.RunRecency | numaplace/ncalloc.c:495-609 | in every state of every run the big-block cache of each heap is strictly ordered by the times of the blocks' last frees |
| HeapRecency.MostRecentFit | numaplace/ncalloc.c:495-530 | in every state of every run, a big request takes the spare block that was freed last among those that are large enough, and maps a new one only if none is |
| HeapRecency.LeastRecentGoes | numaplace/ncalloc.c:578-609 | in every run, freeing a big buffer makes its block the last freed; with 16 spare blocks exactly one is unmapped, and it is the one whose last free is the earliest |
| HeapRecency.LeastRecentGoesOnRealloc | numaplace/ncalloc.c:578-702 | the same when realloc moves a big buffer, after its inner malloc |
| HeapCopy.CopyReadsIff | numaplace/ncalloc.c:691-700 | memcpy reads inside the buffer's block if and only if memalign moved the buffer by no more than the block has behind the chunk; for a big block, if it did not move it |
| HeapCopy.CopyBehindBlock | numaplace/ncalloc.c:691-700 | moving a page-aligned buffer of 3 MiB to 5 MiB reads up to 4016 bytes behind its block of 4 MiB |
| HeapCopy.ServeMoves | numaplace/ncalloc.c:695-702 | the chunk for the larger size is of another block, and the old buffer is still held |
| HeapCopy.ReallocKeepsContents | numaplace/ncalloc.c:696-703 | when memcpy reads inside the block, its source and target do not overlap and the moved buffer has the contents of the old, whatever happens meanwhile to the allocator's own bytes, to new memory, to the freed chunk and to blocks that are unmapped |
| HeapCopy.InPlaceOverlap | numaplace/ncalloc.c:687-703 | a run of three requests after which growing in place, as realloc accepts it, runs into the next chunk |
| HeapTheorems.BlockIsKept | numaplace/ncalloc.c:328-350 | the block lies in the mapping, all other bytes are given back, and it is aligned to a huge page exactly when the mapping was to half of one |
| BteTransfer.GetRegionPhysAddr | lib/libncbte.c:346-379 | the address and length of a maximal physically contiguous run, by the page table |
| BteTransfer.SetupBtce | lib/libncbte.c:381-398 | the descriptor loop cuts a run into consecutive descriptors |
| BteTransfer.ChunksCover | lib/libncbte.c:381-398 | cut descriptors touch exactly the dwords they were cut from, each once and in order |
| BteTransfer.PassCovers | lib/libncbte.c:430-470 | head, whole lines and tail of a pass together touch exactly its dwords |
| BteTransfer.PassWellFormed | lib/libncbte.c:436-470 | whole-line descriptors are aligned to 64 bytes, the others have at most four dwords inside one line |
| BteTransfer.PassCount | lib/libncbte.c:436-470 | the number of descriptors of a pass |
| BteTransfer.OverrunCovers | lib/libncbte.c:436-470 | when a run stops before the next line boundary, head and tail of its pass touch exactly 16 dwords more than it has |
| BteTransfer.Pass | lib/libncbte.c:430-470 | in 32- and 64-bit arithmetic, a pass emits exactly these descriptors and advances length and offsets by them; when the run stops before the next line boundary it emits the overrun, and the length wraps |
| BteCopy.PassEndsAtBreak | lib/libncbte.c:423-471 | every pass but the last ends where physical contiguity ends |
| BteCopy.CopyRuns | lib/libncbte.c:417-471 | the loop ends; its descriptors copy exactly the dwords that lie in both regions, and -1 is returned exactly when the transfer does not fit |
| BteCopy.CopyAny | lib/libncbte.c:417-471 | the same for every start; one that stops short of its next line submits 16 dwords too many at first and ends with -1 |
| BteCopy.Transfer | lib/libncbte.c:407-490 | a completion is signalled by the last descriptor and by no other: one dword, fenced, to the completion address, the other fields zero; without a completion, and when the transfer fails, no descriptor is fenced |
| BteCopy.MoveRegion | lib/libncbte.c:508-562 | failed checks submit nothing; otherwise 0 is returned exactly when the transfer reaches its next line and fits, and then the descriptors are exactly the pairs of physical local and remote dwords of the transfer, in order, and few, with the completion behind them |
| BteCopy.ClearRegion | lib/libncbte.c:577-592 | the same for clearing, on the remote side; when -1 is returned after the checks, exactly the dwords up to the end of the region were cleared |
| MemOps.AlignDest | lib/memops.c:29-41 | the alignment loop in 64-bit arithmetic |
| MemOps.CopyTail | lib/memops.c:43-67 | the tail copies the rest rounded up to four bytes |
| MemOps.NtCopy | lib/memops.c:75-110 | memory afterwards is memory before with exactly the written bytes moved; every store is aligned |
| MemOps.XmmCopy | lib/memops.c:118-187 | the same with 16-byte stores, and aligned 16-byte loads where movdqa is used |
| MemOps.CopyIsExact | lib/memops.c:29-41 | for every memory the copies leave what a copy of n bytes, rounded up to four, leaves if and only if n is a multiple of four or reaches the boundary; otherwise there is a memory in which the next byte behind changes |
| MemOps.CopyMeaning | lib/memops.c:75-187 | every byte asked for is copied and no byte outside the written range changes |
| RangeList.List.Add | numaplace/numaplace.cc:60-82 | the number is the last one added; the text and the open range are always the maximal runs of consecutive numbers in the order of the additions, and the sentinel prints the last one |
| RangeList.List.AddSet | numaplace/numaplace.cc:84-89 | exactly the cores of the set below the limit are added, in increasing order |
| RangeList.List.Str | numaplace/numaplace.cc:91-97 | the text is the print of the maximal runs of the added numbers, and so names exactly them; asking again gives the same text |
| RangeList.RunsAreUnique | numaplace/numaplace.cc:60-82 | there is only one way to cut numbers into ranges that count up through them so that no range goes on where the one before it ends |
| RangeList.RunsSeparated | numaplace/numaplace.cc:48-82 | for increasing numbers, as the comment asks for, there is a number between any two ranges that is in neither |
| RangeList.SeparatedIsShortest | numaplace/numaplace.cc:67-71 | no list of ranges of the same numbers is shorter than such a one |
| RangeList.SetText | numaplace/numaplace.cc:547-552 | the text for a set of cores is the shortest list of disjoint ranges of exactly this set, the first time and the second |
| RangeList.ParsePrint | numaplace/numaplace.cc:148-161 | parsing a printed list of ranges gives the same ranges |
| RangeList.StringToMask | numaplace/numaplace.cc:148-161 | exactly the bits of the text's ranges are set, or cleared |
| RangeList.PrintAndParse | numaplace/numaplace.cc:60-161 | any nonempty collection of added numbers, printed and parsed, sets or clears exactly those bits |
| RangeList.EmptyList | numaplace/numaplace.cc:91-161 | an empty list prints as the empty text, which names core 0 |

## Left out

- Weak memory, and the x86 assembly of `lib/ncutils_atomic.h`: every primitive is one atomic step.
- `mmap`, `munmap`, `ioctl`, PCI scan, NUMA binding: fresh memory and pinned pages are parameters.
- The spinning of waiters is any number of steps; there are no fairness assumptions, so progress says that an entry
  of a given waiter can be reached, not that a scheduler will reach it.
- The lock that guards a heap and the global lock: each critical section is one step.
- nc_free, nc_memalign and nc_realloc outside the heap lock are modelled on values, so aliasing of headers is
  expressed by the disjointness theorems and not by objects.
- The contents of buffers, but for what realloc copies.
- `exit_heap`, the statistics other than mapped, timing, and the malloc hooks of `numaplace/ncalloc.c`. A thread that
  ends and a heap index that is used again are not part of this model.
- Requests so large that size computations overflow 64 bits.
- HeapSafety.ReallocKeeps: what realloc keeps in place is claimed only under the condition of HeapSafety.InPlaceIff, because it is wrong otherwise.
- HeapCopy.ReallocKeepsContents: requires the condition of HeapCopy.CopyReadsIff, because reading behind the block is an access to memory that may not be mapped.
- BteCopy.MoveRegion: offsets are not negative, and every run that is physically contiguous on both sides is below 4 GiB, because the shifts of lines 400-405 have 32 bits.
- BteCopy.ClearRegion: the same bound on contiguous runs.
- The memory word of a completion, which the transfer sets to -1 and the waiting functions poll, and in which of the
  hardware's queues descriptors are stored.
- Pinned pages in the very last page of the 48-bit physical space, and regions of 2^63 bytes or more.
- MemOps.AlignDest: destinations are aligned to four; with others the stores are not aligned.
- MemOps.NtCopy: destinations are aligned to four, and n is below 2^37, from where on the block count is truncated to 32 bits.
- MemOps.XmmCopy: the same as for MemOps.NtCopy.
- The local side of a clear: it has no region, and the hardware does not use its addresses.
- `_block_avx_copy`, which is compiled only with HAVE_AVX.
- RangeList.StringToMask: white space and signs, which strtoul skips, and ranges up to the largest unsigned, where the loop does not end.
- RangeList.List.Add: the number 0xFFFFFFFE, which the closing sentinel would swallow; cores are far below. The fixed buffer of the list is an unbounded text.
- `allocate`, `dist` and `node_of_core` of `numaplace/numaplace.cc`; `numaplace/libnumaplace.c`; `lib/pcounter.c`,
  `lib/device.c`, `lib/init.c`, tools and benchmarks.
