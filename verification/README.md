# Verification of the kernel's allocators, process kernel and arithmetic

This project models, in Dafny, the parts of the system that are sequential state machines running with interrupts off,
and proves what they keep over every run. Each kernel entry, up to the context switch, is one method; a context switch
is the assignment of the active process.

- **The boundary-tag allocator** (`MallocSizes`, `BoundaryTags`, `FreeLists`, `Malloc`, `MallocArena`). The arena is a
  tiling of chunks with sizes, PREV_INUSE bits and footers, plus bins, sorted large bins, fastbins, the unsorted list, a
  conservative bitmap and the top. Class `Arena` holds the allocator's fields. Every operation keeps the invariant that
  the file's own debug checks describe, and a victim taken by scanning the bins is a best fit. The one exception to best
  fit that the code makes is pinned too: the chunk that `last_remainder` names, alone in the unsorted list.
- **The kernel heap** (`Pages`, `Dyadic`, `KernelPieces`, `KernelMemory`, `KernelSound`, `KernelPlaces`,
  `KernelHeap`). A bitmap first-fit page allocator, a buddy allocator, a pool of small chunks and large blocks, over a
  memory of words that holds the marks and the links. Every request is served from exactly one place, and fails exactly
  when that has nothing left (`PlaceOf`). Merges never leave their block, no two buddies are ever both free, and when
  everything is freed the lists hold exactly the original blocks.
- **The process kernel** (`IdPools`, `ProcessLinks`, `SleepWalks`, `Processes`, `ProcessTree`, `ProcessOrder`,
  `MessageQueues`, `ProcessState`, `ProcessSteps`, `ProcessLife`, `ProcessDeath`, `ProcessSwitch`, `ProcessAway`,
  `ProcessQueues`, `ProcessSteady`, `ProcessKernel`, `ProcessRuns`, `ProcessHistory`, `ProcessEffects`, `ProcessFlows`,
  `ProcessLines`, `ProcessLogs`, `ProcessCalls`). Rings for each priority, the tagged state of a process, the tree with
  zombies, message queues with hand-over, console readers and sleepers. Class `Kernel` holds the kernel's variables;
  `Sys` is their value. `Steady` says that every process is in exactly the list its state names, that the tree, the
  queues, the console and the sleepers agree, and that nobody is in the middle of being killed. Every entry keeps it,
  whoever is active, with one exact exception (`EventKept`), and a run ends before that exception. `Sound` says also that
  the active process is the most urgent ready one; an entry keeps it exactly when it is safe (`EventSound`). The methods
  of `Kernel` ask for `Sound` only where they look for a process below the active priority. `ProcessEffects` and
  `ProcessFlows` say what each entry changes and what it leaves, in terms of its arguments and the state before it:
  every record (`EventRecords`), every ring and list (`EventLists`), every buffer (`EventBuffers`), and who runs
  (`EventRuns`). From these follow, over whole runs, that no message is lost or made up between a queue and its receivers
  (`RunBuffer`, `RunHeld`, `ReadsOnce`) and that every wait list behaves like the sorted queue (`RunLines`).
  `ProcessLinks` has the rings and lists with their pointers; its methods do to the list of process numbers what `Kernel`
  does.
- **Order of waiters** (`WaitOrder`, `SortedQueue`), **division** (`Division`), **printing and parsing** (`Numbers`),
  **the dining philosophers** (`Philosophers`) and **the run-length encoder of the GDB stub** (`RunLength`).
  `Lists`, `Integers`, `Texts` and `Options` are shared.

## Where the code does not do what its comments say

- Exit (`kernel/process/process.c:63-69`): the successor taken from the ring can be a child that is freed in the same
  call. `ExitSafe` is the exact condition; `ExitToOwnChild` is a system in which it fails.
- Kill (`kernel/process/process.c:107-110`): when the target is an ancestor of the caller the recursion switches away and
  the call never comes back; `Kill` returns `Switched` exactly then, and `SwitchedAway` gives the whole state. The
  processes between the target and the caller have left their lists, but their stored states have not changed and later
  entries look at them. So each process is in the list its state names afterwards if and only if they all waited for a
  child (`AwayKept`), and the system is sound if and only if, moreover, nobody waited for the target and the process that
  takes over does not die with the caller (`AwaySound`). `KillsOwnParent` is a system in which a process ends up ready
  and in no ring; `KilledParentLivesOn` is one in which the target waits on and will be woken by its other child. When
  the parent of the caller waited for it, that parent waits for a zombie from then on (`EventWaiting`).
- When a more urgent parent waits for the target of a kill it is woken but does not run (`KillSafe`,
  `KillWakesUrgentParent`).
- `process_sched_set_priority` (`kernel/process/scheduler.c:207-224`): raising another ready process above the active one
  sets `next_process` to it, and the last test then refuses to switch to it (`PrioritySafe`). `RaisedIdle` shows that the
  next process to block can then find nobody below its priority.
- `do_div64` divides by zero when the shifted divisor is 2**32 - 1 (`TooClose`, `FaultsAtTop`).
- `cons_flush_line_buffer` computes a room that wraps around when the buffer is full, and copies past its end (`FlushFits`,
  `ConsFlush`); `FullBuffer` is a system with a full buffer.
- `strtol` recognises a plus sign without skipping it, so that "+5" reads as 0 (`RoundTrip` says exactly when).
- The walks of `process_time_queue_add` and `process_time_queue_remove` (`kernel/process/time.c:21-28`, `42-48`) never move
  on. The first ends exactly when the list is empty or its head is not earlier (`InsertionEndsAtHead`), the second
  exactly when the list is empty or the process is at its head (`RemovalEndsAtHead`). `WaitClock` returns `Hung`, and a
  kill `Hangs`, exactly when such a walk does not end; for a kill that is when the sleepers it reaches are not the first
  ones of the list in the order of the recursion (`WalksEnd`). `SecondSleeperHangs` is a system in which both happen.

## Conventions

Processes are known by their PIDs and chunks by their addresses. Clocks, whether an allocation for a process or a queue
succeeds, and the contents of a console line are parameters. Integers are unbounded; widths are written out where they
matter (word sizes, page counts, marked sizes, bitmap words, 64-bit division). A process that blocks in a kernel call
keeps what it finds on waking in its state (`Resume`), and `Continue` is the rest of the call. A receiver that was handed a
message keeps the number of the queue with it, as its blocked call does. It can go on after another process has received
a later message directly, so `RunHeld` counts messages and does not compare their order. A process in the middle of
being killed is `Dying`, which holds its old state; the C code leaves that in place. When a kill switches away the old
states show again (`AsStored`), because later entries read them. Where the C code empties a
queue or fills the console buffer before it wakes waiters, the model does both before any switch, in the other order.
Idle never blocks.

## Model

| member | source | states |
|---|---|---|
| MallocSizes.Request2Size | shared/malloc.c.h:1997-2000 | a padded request is aligned, at least the minimum, holds the request and its header, and wastes at most what alignment and the minimum cost |
| MallocSizes.RetryPadsToSameSize | shared/malloc.c.h:2910-2921 | padding a padded size minus its header again gives the same padded size |
| MallocSizes.BinIndexRange | shared/malloc.c.h:2188-2225 | every legal size has a bin behind the unsorted list and inside the table; small sizes get small bins |
| MallocSizes.BinIndexMonotone | shared/malloc.c.h:2188-2225 | the bin index never decreases with the size, across the small, cubic and quarter-power ranges |
| MallocSizes.LaterBinIsLarger | shared/malloc.c.h:3608-3655 | a chunk of a later bin is larger than the request: the first chunk found is big enough |
| MallocSizes.SmallBinIsExact | shared/malloc.c.h:3439-3460 | two sizes of the same small bin are equal |
| MallocSizes.BitAboveMap | shared/malloc.c.h:3619-3640 | the test "bit > map" tells exactly that no bit from this position up is set |
| MallocSizes.ZeroWordIsEmpty | shared/malloc.c.h:3622-3629 | a zero word has no bit set |
| BoundaryTags.TakeWholeSound | shared/malloc.c.h:3584-3590 | handing out a free chunk whole keeps the tiling, the PREV_INUSE bits and the footers right |
| BoundaryTags.SplitFreeSound | shared/malloc.c.h:3591-3603 | so does splitting a free chunk |
| BoundaryTags.SplitTopSound | shared/malloc.c.h:3707-3719 | so does splitting the top chunk |
| BoundaryTags.NeighboursRead | shared/malloc.c.h:3789-3806 | the two tests that read boundary tags find exactly the free neighbours |
| BoundaryTags.Predecessor | shared/malloc.c.h:3789-3793 | when PREV_INUSE is clear the footer in front leads to the free chunk before |
| BoundaryTags.FreedSound | shared/malloc.c.h:3782-3836 | merging a freed chunk with its free neighbours or the top keeps tiling and tags, and leaves no two free chunks next to each other |
| BoundaryTags.EveryAddressInOneChunk | shared/malloc.c.h:2617-2651 | chunks tile the arena: every address up to the end of the top lies in exactly one of them |
| BoundaryTags.PayloadIsPrivate | shared/malloc.c.h:2617-2697 | a live payload overlaps no other chunk, no tag that is read and no footer of a free chunk |
| FreeLists.UnlinkIn | shared/malloc.c.h:2149-2155 | unlinking keeps every free chunk in exactly one bin, bins without repetition and large bins sorted |
| FreeLists.InsertIn | shared/malloc.c.h:3530-3565 | binning at the chosen position keeps large bins sorted and every free chunk in exactly one bin |
| FreeLists.PushFastIn | shared/malloc.c.h:3772-3775 | pushing on a fastbin keeps each fast chunk in the fastbin of its size |
| Malloc.FreedConsistent | shared/malloc.c.h:3782-3836 | tags, bins and fastbins agree again after a free with merging |
| Malloc.Rebinned | shared/malloc.c.h:3530-3565 | moving an unsorted chunk to its bin keeps tags and lists consistent |
| MallocArena.Arena.constructor | shared/malloc.c.h:2488-2519 | the empty arena satisfies the invariant |
| MallocArena.Arena.Sbrk | shared/malloc.c.h:11-18 | the break moves by the step if it stays inside the heap; negative steps are refused |
| MallocArena.Arena.SysTrim | shared/malloc.c.h:3317-3375 | trimming changes nothing here |
| MallocArena.Arena.Coalesce | shared/malloc.c.h:3782-3836 | a freed chunk is merged with both neighbours; exactly it is no longer live |
| MallocArena.Arena.DrainFastbin | shared/malloc.c.h:3941-3989 | one fastbin is emptied through merging; live blocks are untouched |
| MallocArena.Arena.MallocConsolidate | shared/malloc.c.h:3900-3995 | afterwards no fast chunk is left and the live blocks are the same |
| MallocArena.Arena.Free | shared/malloc.c.h:3732-3882 | the invariant holds again and exactly the freed block is no longer live: a small one is in front of its fastbin, another one, merged, in front of the unsorted list or in the top; NULL changes nothing |
| MallocArena.Arena.ScanOwnBin | shared/malloc.c.h:3576-3606 | what is taken from the own bin is the last chunk of it that fits, which is a best fit; nothing is taken only if nothing there fits |
| MallocArena.Arena.FindBin | shared/malloc.c.h:3614-3650 | the bitmap search finds the first non-empty later bin, and clears only bits of empty bins |
| MallocArena.Arena.ScanBins | shared/malloc.c.h:3608-3689 | a taken chunk is large enough and no binned chunk is both large enough and smaller; else none fits |
| MallocArena.Arena.PlaceInBin | shared/malloc.c.h:3530-3565 | the unsorted chunk is at the position that keeps the order of its bin, behind older chunks of its size; the bitmap covers it, other bins are unchanged |
| MallocArena.Arena.DrainOne | shared/malloc.c.h:3486-3565 | the oldest unsorted chunk is handed out when it is an exact fit, or when it is the last remainder, alone in the list and larger than a small request by more than the minimum; else it is binned |
| MallocArena.Arena.DrainUnsorted | shared/malloc.c.h:3486-3565 | the unsorted list is emptied, unless an exact fit or the last remainder is handed out on the way: the exact fit that waited longest; or exactly the chunk that last_remainder names, alone in the list, when all others were binned; the rest of that split is the new last remainder and nothing else changes it; a last remainder that fits is never binned |
| MallocArena.Arena.GrowTop | shared/malloc.c.h:3040-3271 | the top grows by pages obtained from sbrk, or nothing changes |
| MallocArena.Arena.SysMalloc | shared/malloc.c.h:2882-3305 | the request is served after consolidating or growing, else nothing is lost |
| MallocArena.Arena.TakeFast | shared/malloc.c.h:3426-3436 | exactly when the fastbin of the size is not empty its first chunk, an exact fit |
| MallocArena.Arena.TakeSmall | shared/malloc.c.h:3446-3460 | exactly when the small bin of the size is not empty its oldest chunk, an exact fit |
| MallocArena.Arena.UseTop | shared/malloc.c.h:3691-3726 | the top is split if it is large enough, else the system is asked |
| MallocArena.Arena.MAlloc | shared/malloc.c.h:3379-3727 | the invariant holds, the result is NULL or a new live block of at least the request, the other blocks are unchanged, and the source it came from is justified: exact fit, the last remainder, a best fit of the bins, or the top when no binned chunk fits; the last remainder is the chunk that last_remainder named, which was the only unsorted one; last_remainder becomes the rest of a split made for a small request and is unchanged else; a hit in a fastbin or small bin takes its first or oldest chunk; sbrk is called only when nothing present will do, for at most two pages more than needed |
| MallocArena.NothingFits | shared/malloc.c.h:3608-3629 | when all later bins are empty no binned chunk fits |
| Pages.PageCountPadded | kernel/memory/page.c:31-33 | the least number of pages that hold a size |
| Pages.PageAllocator.constructor | kernel/memory/page.c:36-64 | exactly the pages of the bitmap itself are in use |
| Pages.PageAllocator.SetAllocated | kernel/memory/page.c:20-29 | one flag changes and no other |
| Pages.PageAllocator.FirstFit | kernel/memory/page.c:66-115 | the scan finds the lowest run of enough free pages, if and only if there is one |
| Pages.PageAllocator.Alloc | kernel/memory/page.c:66-128 | exactly that run is marked; NULL exactly when there is none |
| Pages.PageAllocator.Free | kernel/memory/page.c:130-149 | exactly the run is marked free |
| Pages.FreeUndoesAlloc | kernel/memory/page.c:66-149 | freeing what was allocated restores the bitmap |
| Pages.AllocThenFree | kernel/memory/page.c:66-149 | an allocation and its release leave no trace in the bitmap |
| Dyadic.Power2 | kernel/memory/mem_medium.c:11-22 | the least order whose power of two holds the size |
| Dyadic.BuddyFacts | kernel/memory/mem_medium.c:101-105 | the XOR of an aligned address with its size is the other half of the next larger aligned chunk |
| Dyadic.BuddyInside | kernel/memory/mem_medium.c:101-136 | inside a block aligned to its own size the buddy of a smaller chunk, and the merged chunk, stay inside |
| Dyadic.Nested | kernel/memory/mem_medium.c:101-136 | aligned chunks of different sizes are nested or disjoint |
| KernelPieces.SplitTiled | kernel/memory/mem_medium.c:46-71 | splitting keeps pieces aligned, disjoint and tiling exactly the blocks |
| KernelPieces.SplitCoalesced | kernel/memory/mem_medium.c:46-71 | after a split the only free buddies are the two halves, one of which is about to be taken |
| KernelPieces.BuddySameBlock | kernel/memory/mem_medium.c:101-136 | a free buddy found by the XOR test is in the same block, although the test does not look at blocks |
| KernelPieces.MergeTiled | kernel/memory/mem_medium.c:107-123 | merging keeps pieces aligned, disjoint and tiling the blocks, and stays below the size of the block |
| KernelPieces.NewBlockTiled | kernel/memory/mem_internals.c:82-104 | a new block, aligned and larger than all before it, keeps the tiling |
| KernelPieces.NoSmallPiece | kernel/memory/mem_medium.c:101-136 | without live chunks and free buddies no piece is smaller than its block |
| KernelPieces.AllFreeIsAllBlocks | kernel/memory/mem_medium.c:79-141 | once every medium chunk is freed the free chunks are exactly the blocks obtained from the page allocator |
| KernelSound.PopSound | kernel/memory/mem_medium.c:87-96 | taking the first chunk off a list keeps tiling, coalescing, lists, links, marks and pages right |
| KernelSound.PushSound | kernel/memory/mem_medium.c:130-134 | so does putting back a chunk whose buddy is not free |
| KernelSound.SplitSound | kernel/memory/mem_medium.c:57-70 | so does threading the two halves of a chunk onto the lower list, except for that pair of buddies |
| KernelSound.CutSound | kernel/memory/mem_medium.c:107-116 | so does unlinking the buddy from the middle of its list |
| KernelSound.MergeSound | kernel/memory/mem_medium.c:107-123 | so does merging two holes |
| KernelSound.MarkSound | kernel/memory/mem_internals.c:24-41 | so does writing the marks of a block |
| KernelSound.BlockSound | kernel/memory/mem_internals.c:82-104 | so does a new block |
| KernelSound.PoolSound | kernel/memory/mem_small.c:16-38 | so does a new pool of small chunks |
| KernelSound.LargeSound | kernel/memory/mem_large.c:11-18 | so does a large block |
| KernelSound.ReleaseLargeSound | kernel/memory/mem_large.c:20-22 | so does giving the pages of a large block back |
| KernelSound.LiveMarks | kernel/memory/mem_internals.c:43-63 | the check of the marks recovers the class and the size of every live block |
| KernelSound.PayloadsPrivate | kernel/memory/malloc.c:7-42 | payloads of the three classes are pairwise disjoint and hold no mark and no link |
| KernelSound.LargeSizeWraps | kernel/memory/mem_large.c:11-18 | the marked size wraps, and the tail mark lies before the payload, exactly when size + 16 does not fit in 32 bits |
| KernelHeap.Heap.SplitHole | kernel/memory/mem_medium.c:46-71 | the halves are on the lower list, nothing else changed |
| KernelHeap.Heap.ReallocMedium | kernel/memory/mem_internals.c:82-104 | NULL exactly when no run of pages holds a block of twice the size, else the lowest such run, and one new free block of the next order at the next multiple of its size |
| KernelHeap.Heap.AllocTzlChunk | kernel/memory/mem_medium.c:26-77 | the list of the order has a chunk afterwards: its own first one, else the lower part of the first one of the smallest larger order that has any, else a new block; it fails exactly when there is none and no pages are left, and pages are taken only for a new block; only free chunks changed; the recursion ends |
| KernelHeap.Heap.NewMedium | kernel/memory/mem_medium.c:34-45 | only when all lists from this order on are empty: a new block of exactly this order, or failure without pages |
| KernelHeap.Heap.SplitHigher | kernel/memory/mem_medium.c:47-75 | the first chunk that serves the next order is split, and its lower half is first in the list of this one |
| KernelPlaces.NoneBeyond | kernel/memory/mem_medium.c:34-45 | no list of the order of the next block or above has a chunk, so that a new block never hides one |
| KernelHeap.Heap.KallocMedium | kernel/memory/mem_medium.c:79-98 | the invariant holds; NULL with no block gained, or one new live block that holds the request, at the first chunk of the smallest order that has one and is large enough, else in a new block; NULL exactly when neither is there |
| KernelHeap.Heap.FreeTzlChunk | kernel/memory/mem_medium.c:101-136 | the chunk goes back merged as far as possible, in front of the list of the merged order; one buddy was taken from each list between; only it and free chunks changed |
| KernelHeap.Heap.KfreeMedium | kernel/memory/mem_medium.c:138-141 | exactly this block is gone, returned at the order it was taken from, merged as far as possible, in front of its list |
| KernelHeap.Heap.ThreadChunks | kernel/memory/mem_small.c:24-37 | each chunk links to the next one, the last one to NULL, and no other memory changed |
| KernelHeap.Heap.KallocSmall | kernel/memory/mem_small.c:11-47 | the invariant holds; one new live chunk, the first of the pool, or of new pages when the pool is empty; NULL exactly when it is empty and no pages are left |
| KernelHeap.Heap.KfreeSmall | kernel/memory/mem_small.c:49-56 | exactly this chunk is gone and is in front of the pool |
| KernelHeap.Heap.KallocLarge | kernel/memory/mem_large.c:11-18 | the invariant holds; one new live block, the lowest run of exactly the pages it needs; NULL exactly when there is none |
| KernelHeap.Heap.KfreeLarge | kernel/memory/mem_large.c:20-22 | exactly this block is gone |
| KernelHeap.Heap.MarkCheck | kernel/memory/mem_internals.c:43-63 | the block, class and size when both marks agree, else nothing |
| KernelHeap.Heap.KAlloc | kernel/memory/malloc.c:7-20 | a block of the class of the size that holds the request, from the place its class prescribes, or NULL with nothing gained, exactly when that place has nothing left |
| KernelHeap.Heap.KFree | kernel/memory/malloc.c:22-42 | the block goes back to the class and order it came from; a pointer with disagreeing marks changes nothing |
| KernelHeap.Heap.StoreByte | kernel/memory/malloc.c:7-42 | a program that writes into its own payload does not disturb the heap |
| KernelHeap.Heap.AllMediumFreed | kernel/memory/mem_medium.c:79-141 | when no medium block is live each list holds exactly the original block of its order |
| IdPools.IdPool.Empty | kernel/include/pool.h:47-48 | the counter says exactly whether all identifiers are in use |
| IdPools.IdPool.Alloc | kernel/include/pool.h:22-39 | the next fresh identifier while there is one, then the one freed last, -1 exactly when all are in use; used, freed and fresh ones partition the capacity |
| IdPools.IdPool.Free | kernel/include/pool.h:41-45 | exactly this identifier is no longer in use, and it is the first of the freed ones |
| ProcessLinks.SchedRing.Insert | kernel/process/scheduler.c:19-54 | the circular list is well formed with the process in front; its number is in front of the list of numbers |
| ProcessLinks.SchedRing.Remove | kernel/process/scheduler.c:56-106 | the circular list is well formed without the process; rest and successor are those that the model of the kernel computes on the list of numbers; a process that has left its ring already changes nothing and gives NULL |
| ProcessLinks.WaitList.Add | kernel/process/queue.c:28-34 | the wait list is well formed with the process in front; its number is in front of the list of numbers |
| ProcessLinks.WaitList.Remove | kernel/process/queue.c:38-51 | the wait list is well formed without the process; its number is out of the list of numbers, the others in order |
| ProcessLinks.WaitList.PopNext | kernel/process/queue.c:78-100 | the last one of the highest priority leaves the list, which is the waiter that the model of the kernel chooses |
| ProcessLinks.ForwardList.Push | kernel/process/cons.c:50-55 | the forward list is well formed with the process in front |
| ProcessLinks.ForwardList.Remove | kernel/process/overall.c:120-137 | the walk links around the process, wherever it is in the list; the numbers are those without it |
| ProcessLinks.SameAsLists | kernel/process/scheduler.c:56-106 | the linked ring and the list of process numbers agree on the rest and on the successor |
| Processes.MoveHomed | kernel/process/internals.h:27-43 | moving a process between lists keeps every process in exactly the list its state names, once |
| ProcessState.MoveKept | kernel/process/internals.h:122-135 | such a move also keeps the tree, the queues, the console and the sleepers right |
| ProcessState.HighestIsTop | kernel/process/scheduler.c:108-122 | the search returns the most urgent ready process |
| ProcessSteps.SearchFails | kernel/process/scheduler.c:108-122 | the search fails exactly when no ready process is below the given priority |
| ProcessSteps.BlockSound | kernel/process/queue.c:56-74 | when a process other than idle blocks, the search finds a successor and the most urgent ready process runs |
| ProcessSteps.WokenSound | kernel/process/queue.c:104-133 | waking any list of processes and switching to the most urgent one if it outranks the active process keeps the invariant |
| MessageQueues.ReadTakesFirst | kernel/process/queue.c:146-152 | a read takes the oldest message out of the circular buffer |
| MessageQueues.WriteAppends | kernel/process/queue.c:137-142 | a write appends to the contents of the circular buffer |
| ProcessKernel.Kernel.constructor | kernel/process/process.c:119-134 | the system with idle alone satisfies the invariant |
| ProcessKernel.Kernel.RingFind | kernel/process/scheduler.c:108-122 | the head of the highest non-empty ring below a priority |
| ProcessKernel.Kernel.Advance | kernel/process/scheduler.c:124-166 | the given process, else the next one of the ring, else the most urgent one below becomes active |
| ProcessKernel.Kernel.Tick | kernel/process/scheduler.c:228-235 | the next process of the active ring runs; nothing else changes |
| ProcessRuns.RoundRobin | kernel/process/scheduler.c:124-166 | k ticks move the processor k places around the ring and change nothing else |
| ProcessRuns.EveryTurn | kernel/process/scheduler.c:124-166 | every process of the active ring runs within one round |
| ProcessKernel.Kernel.BlockActive | kernel/process/queue.c:56-74 | the active process is in the list of its new state, its successor is active, the invariant holds |
| ProcessKernel.Kernel.Start | kernel/process/process.c:136-174 | -1 exactly for a bad priority, a full pool or no memory; else a new child in front of its ring, running at once if it outranks its parent |
| ProcessLife.BornSound | kernel/process/process.c:136-174 | starting a process keeps the whole invariant |
| ProcessKernel.Kernel.FreeProc | kernel/process/overall.c:113-153 | a zombie disappears from the tree and its PID is free; nothing else changes |
| SleepWalks.RemovalEndsAtHead | kernel/process/time.c:36-50 | the removal walk ends if and only if the list is empty or the process is at its head, and then the process is out |
| SleepWalks.InsertionEndsAtHead | kernel/process/time.c:8-34 | the insertion walk ends if and only if the list is empty or its head is not earlier, and then the process is the new head |
| ProcessKernel.Kernel.TimeQueueRemove | kernel/process/time.c:36-50 | says whether the walk ends; if so the process is out of the sleeper list |
| ProcessOrder.ReachedMembers | kernel/process/process.c:57-104 | the recursion reaches the whole subtree when the active process is not under the target; else it reaches the active process |
| ProcessOrder.ReachesStop | kernel/process/process.c:87-110 | the subtree of the active process is reached as a whole before the switch |
| ProcessKernel.Kernel.KillTree | kernel/process/process.c:57-104 | never ends exactly when the sleepers it reaches, in the order of the recursion, are not the first of the list; else switches away exactly when the active process is a descendant; else exactly the strict descendants are gone with their PIDs and list entries and the process is a zombie |
| ProcessSwitch.OnWayNext | kernel/process/process.c:87-101 | when a child with its subtree is gone, the walks and processes still to come are those of the other children |
| ProcessSwitch.SwitchHere | kernel/process/process.c:103-110 | when the recursion kills the active process there is one to switch to, and the switch is the one described by SwitchedAway |
| ProcessSwitch.SwitchUp | kernel/process/process.c:87-110 | the state in which a kill of a child switched away is the state in which the kill of its parent did: records, lists in their order, buffers, logs and console, and who runs next |
| ProcessAway.AwayKept | kernel/process/process.c:57-110 | after a kill that switched away each process is in the list its stored state names, if and only if all processes between the target and the active one waited for a child |
| ProcessAway.StoredBroken | kernel/process/process.c:57-110 | a process that was to be killed and whose stored state names a list is not in that list |
| ProcessAway.AwaySound | kernel/process/process.c:24-112 | a kill that switched away leaves a sound system if and only if nobody waited for the target, all processes between it and the active one waited for a child, and the process that takes over does not die with the active one |
| ProcessAway.AwayRuns | kernel/process/process.c:103-110 | the processor goes to a most urgent ready process if and only if the next process of the ring does not die with the active one |
| ProcessDeath.KilledKept | kernel/process/process.c:24-112 | a kill keeps lists, tree, queues, console and sleepers right and removes exactly the strict descendants |
| ProcessDeath.KilledProcs | kernel/process/process.c:87-104 | every process outside the subtree keeps its record, parent and children included; the target is a childless zombie with its exit code |
| ProcessDeath.KilledThenFreed | kernel/process/process.c:89-100 | killing a child and freeing it removes its subtree from the system and nothing else |
| ProcessDeath.CutAll | kernel/process/process.c:87-101 | when the loop over the children ends all strict descendants are gone |
| ProcessKernel.Kernel.Exit | kernel/process/process.c:176-195 | ends exactly when the sleepers under the active process are the first of the list in the order of the kill; then the state after it, which is sound exactly when the chosen successor is not a strict descendant |
| ProcessDeath.ExitSound | kernel/process/process.c:24-112 | an exit leaves a sound system if and only if the chosen successor is not one of the descendants that die |
| ProcessRuns.ExitToOwnChild | kernel/process/process.c:63-69 | a concrete system in which the exiting process switches to the child it has just freed |
| ProcessKernel.Kernel.Kill | kernel/process/process.c:305-326 | -1 for idle, unknown and dead targets; else it never ends, switches away for good, or comes back, each under its exact condition, with the whole state afterwards and the exact condition under which a sound system stays sound |
| ProcessDeath.KillSound | kernel/process/process.c:39-55 | killing another process leaves a sound system if and only if no waiting parent outranks the active process |
| ProcessRuns.KillWakesUrgentParent | kernel/process/process.c:39-55 | a concrete system in which a more urgent parent is woken and does not run |
| ProcessRuns.KillsOwnParent | kernel/process/process.c:103-110 | a concrete system in which a process kills its parent, which was ready: the call never comes back, idle runs, and the parent is ready by its state and in no ring |
| ProcessRuns.KilledParentLivesOn | kernel/process/process.c:24-110 | a concrete system in which the killed parent waited for another child: the system stays sound, the parent waits on, and the death of that child will wake it |
| ProcessRuns.SecondSleeperHangs | kernel/process/time.c:8-50 | a concrete system with two sleepers in which a later third one and the death of the second hang the kernel, and the death of the first does not |
| ProcessKernel.Kernel.Wait | kernel/process/process.c:241-303 | fails without a matching child, reaps a zombie child with the exit code it died with, else blocks |
| ProcessKernel.Kernel.Continue | kernel/process/process.c:278-303 | a woken process reaps the zombie it was told about, gets its message, or fails after a reset |
| ProcessDeath.FirstChildIs | kernel/process/process.c:250-276 | a wait takes the first child in the list that it accepts: the one it asks for, or for any child the first zombie; none only when there is none |
| ProcessDeath.ReapSound | kernel/process/process.c:292-303 | reaping keeps the whole invariant |
| ProcessHistory.EventKept | kernel/process/process.c:24-326 | a kernel entry, whoever is active, keeps lists, tree, queues, console and sleepers right if and only if it is not a kill that switches away from a process that was ready or in a wait list; a zombie keeps its exit code unless this entry reaps it or kills its parent; new zombies are those that died in it, with their exit code |
| ProcessHistory.RunKept | kernel/process/process.c:24-326 | in every state of every run without such a kill each process is in exactly the list its state names |
| ProcessHistory.EventSound | kernel/process/process.c:24-326 | a kernel entry leaves a sound system sound if and only if it is safe; only an exit, a kill and a priority change can be unsafe |
| ProcessHistory.RunSound | kernel/process/process.c:24-326 | in every run the most urgent ready process is active as long as all entries are safe; the first that is not leaves the system unsound |
| ProcessHistory.DeathBefore | kernel/process/process.c:87-104 | whoever is a zombie in a run has died in an earlier entry with this exit code, and has been a zombie since |
| ProcessHistory.ReapedOnce | kernel/process/process.c:241-303 | in every run a zombie is reaped with the exit code it died with, and between its death and that entry no other entry reaps it |
| ProcessSteady.WokenGoesOn | kernel/process/queue.c:104-133 | waking processes, and running the most urgent one if it outranks the active process, keeps the lists right whoever is active |
| ProcessLogs.EventConsole | kernel/peripheral/cons.c:136-157 | in each entry what was flushed and what is typed is what is read and what is flushed afterwards; the reader gets what is taken off without its line break, and no more than it asked for is taken off |
| ProcessLogs.RunConsole | kernel/peripheral/cons.c:295-339 | over every run the characters read, with their line breaks, and those still flushed are, in order, the characters flushed at the start and typed since |
| ProcessLogs.EventSender | kernel/process/queue.c:215-326 | in each entry a blocked sender waits on, or its message goes in, or a reset refuses it, or it dies; only in the second case the queue gets its message |
| ProcessLogs.SendsOnce | kernel/process/queue.c:215-326 | over every run the message of a blocked sender goes into its queue exactly once, at the entry that lets it in, or not at all |
| ProcessEffects.EventRecords | kernel/process/process.c:24-326 | what each entry does to each process: who vanishes, who is born, and the state, priority, parent and children that everybody else has afterwards; who is not named keeps his record |
| ProcessEffects.EventLists | kernel/process/scheduler.c:19-106 | what each entry does to each ring and list: the processes that move are in front of the list that their new state names, the last one first, those that die are out, all others keep their order |
| ProcessEffects.EventRuns | kernel/process/scheduler.c:108-235 | who runs after each entry: a woken process only when it strictly outranks the active one, the first of the most urgent ones; a process that gives way is followed by the next in its ring, around the end, or by the head of the highest non-empty ring below; ties with the active process never switch |
| ProcessEffects.EventWaiting | kernel/process/process.c:39-55 | no process waits for a child that is a zombie already, and every entry keeps that, if and only if it is not a kill that switches away from the active process while the parent of that process waits for it |
| ProcessFlows.EventBuffers | kernel/process/queue.c:135-326 | what each entry does to the buffer of each queue and to what went in and came out: a send appends unless a receiver is handed the message, a receive takes the oldest and appends that of the sender let in, a reset empties, all else changes nothing |
| ProcessFlows.NewBuffer | kernel/process/queue.c:154-189 | a new queue is empty, has its capacity, and nobody waits at it |
| ProcessFlows.SendHands | kernel/process/queue.c:236-255 | a message sent to an empty queue where somebody waits is handed to the first in line, who is ready with exactly this message; every other record is as it was |
| ProcessFlows.EventHeld | kernel/process/queue.c:267-292 | in each entry the messages that come out of a queue and those that receivers held are those given as answers, those held now and those of holders that die, each as often |
| ProcessFlows.RunHeld | kernel/process/queue.c:215-326 | the same over every run: what came out of a queue is what its receivers got as answers, directly or when they went on, what they still hold, and what died with its holder |
| ProcessFlows.RunBuffer | kernel/process/queue.c:215-326 | over every run, for a queue that is not reset or deleted, the messages that were in it and those that went in are, in order, those that came out and those that are in it now |
| ProcessFlows.ReadsOnce | kernel/process/queue.c:286-292 | a receiver that was handed a message holds it in every state until the entry in which it goes on with exactly that message as its answer, or dies |
| ProcessLines.RankMoves | kernel/process/queue.c:394-402 | after a priority change a waiter is in front of its wait list, a ready process in front of the ring of its new priority; all else in the lists keeps its place |
| ProcessLines.EventWaits | kernel/process/queue.c:28-133 | what each entry does to each wait list is what the operations of the sorted queue say: an addition, a pop, a removal of those that die, a removal and an addition for a priority change |
| ProcessLines.RunLines | kernel/process/queue.c:28-133 | over every run, as long as a queue is there, the waiters in it and those that were let go, in order, are those that the same operations leave in and deliver from the sorted queue |
| ProcessCalls.Dispatch | kernel/process/syscall.c:50-77 | every system call that changes processes, queues, sleepers or the console is one of the events of a run that belong to it, or never ends; the system must be sound only for calls that look for a process below the active priority |
| ProcessCalls.Interrupt | kernel/process/process.c:114-117 | timer interrupts, flushed lines and the rest of blocked calls are events of a run whoever is active, except exactly a flush into a full buffer |
| ProcessKernel.Kernel.SchedSetPriority | kernel/process/scheduler.c:168-226 | the process is in front of its new ring and the process the code picks runs |
| ProcessKernel.Kernel.SetPriority | kernel/process/process.c:212-239 | -1 for bad input; else the old priority and the new state, whoever is active; a sound system stays sound exactly when no other ready process was raised above the active one |
| ProcessLife.PrioritySound | kernel/process/scheduler.c:168-226 | a priority change leaves a sound system if and only if it does not raise another ready process above the active one |
| ProcessRuns.RaisedIdle | kernel/process/scheduler.c:207-224 | a concrete system in which raising idle does not switch, and the next block finds nobody to run |
| ProcessKernel.Kernel.QueueSetPriority | kernel/process/queue.c:394-402 | a waiter gets its priority and becomes the newest of its wait list; the others keep their places, and all other queues are as they were |
| ProcessKernel.Kernel.QueueCreate | kernel/process/queue.c:154-189 | -1 exactly for a bad capacity, a full pool, an overflow or no memory; else a new empty queue |
| ProcessKernel.Kernel.WakeWaiters | kernel/process/queue.c:104-125 | all waiters are ready with the reset flag, and the first one of the highest priority is found |
| ProcessKernel.Kernel.QueueReset | kernel/process/queue.c:374-392 | the queue is empty, all waiters are woken with an error, the most urgent one runs if it outranks the active process |
| ProcessKernel.Kernel.QueueDelete | kernel/process/queue.c:191-213 | the same, and the queue and its identifier are gone |
| ProcessKernel.Kernel.PopNext | kernel/process/queue.c:78-100 | the waiter of the highest priority that waits longest leaves the list |
| ProcessKernel.Kernel.Send | kernel/process/queue.c:215-265 | blocks exactly when full; hands over to a waiting receiver exactly when empty with waiters; else appends to the buffer |
| ProcessKernel.Kernel.Receive | kernel/process/queue.c:267-326 | blocks exactly when empty; else takes the oldest message and, if the queue was full, lets the first blocked sender write once |
| ProcessQueues.HandedSound | kernel/process/queue.c:236-255 | a direct hand-over keeps the invariant |
| ProcessQueues.RefilledSound | kernel/process/queue.c:294-322 | taking from a full queue and letting a blocked sender write keeps the invariant |
| ProcessRuns.FirstInFirstOut | kernel/process/queue.c:215-326 | messages that came out are, in order, the beginning of those that went in; the rest is in the buffer |
| ProcessRuns.WaitersAgree | kernel/process/queue.c:215-326 | waiters exist only at a full queue, all senders, or at an empty one, all receivers |
| ProcessKernel.Kernel.TryRead | kernel/peripheral/cons.c:295-339 | the longest beginning without a line break of at most the length; a line break is taken off exactly when it comes within that many characters; armed when nothing is flushed |
| ProcessKernel.LongestLine | kernel/peripheral/cons.c:295-339 | what a read returns is the longest beginning without a line break within the length; it never takes off more characters than the length; a line break behind exactly that many characters stays |
| ProcessKernel.OneLine | kernel/peripheral/cons.c:295-339 | so a read has one answer |
| ProcessKernel.Kernel.ConsRead | kernel/process/cons.c:37-60 | the same, or the process blocks on an armed console with nothing flushed |
| ProcessKernel.Kernel.ConsFlush | kernel/peripheral/cons.c:136-157 | stays inside the buffer exactly when it is not full; then the line, as far as it fits, and a line break are appended and all readers are woken before any switch |
| ProcessQueues.FlushSound | kernel/process/cons.c:14-35 | waking all readers keeps the invariant: nobody waits while there is something to read |
| ProcessKernel.FlushFits | kernel/peripheral/cons.c:136-147 | the copy, with the wrapped room, stays inside the buffer exactly when the buffer is not full |
| ProcessRuns.FullBuffer | kernel/peripheral/cons.c:24-30 | two lines of at most the length of the line buffer that nobody reads lead to a sound system with a full buffer |
| ProcessKernel.FlushFills | kernel/peripheral/cons.c:136-147 | a flush fills the buffer exactly when the line takes all the room |
| ProcessKernel.Kernel.WaitClock | kernel/process/process.c:386-411 | a passed time only yields; else it hangs exactly when the insertion walk never ends, and otherwise the process sleeps at the head of the ordered list |
| ProcessKernel.Kernel.TimeHandler | kernel/process/time.c:52-91 | all sleepers that are due are ready and the most urgent one runs if it outranks the active process |
| ProcessQueues.DueIsAll | kernel/process/time.c:52-82 | the woken prefix of an ordered list is exactly the sleepers whose time has come |
| WaitOrder.SamePop | shared/queue.h:129-147 | the element that leaves the unsorted list is at the tail of the sorted queue, and the rest agree |
| WaitOrder.SameRemove | shared/queue.h:155-163 | taking any element out of both keeps them the same |
| WaitOrder.SameRuns | kernel/process/queue.c:28-100 | for every run of insertions, pops, removals and priority changes both deliver the same elements in the same order |
| WaitOrder.LastHighest | kernel/process/queue.c:78-100 | the last of the highest priority: the longest waiting one of the most urgent |
| SortedQueue.Queue.Add | shared/queue.h:73-88 | the element is linked in front of the first one that is at least as urgent |
| SortedQueue.Queue.Out | shared/queue.h:129-147 | the tail is unlinked and returned, NULL when the queue is empty |
| SortedQueue.Queue.Del | shared/queue.h:155-163 | the element is unlinked and dropped from the contents as in the runs of WaitOrder, the others stay in order |
| Division.EstimateFacts | shared/div64.c:37-43 | the estimate fits in a word, never exceeds the quotient, and is at most two too small |
| Division.DoDiv64 | shared/div64.c:28-64 | faults exactly when the shifted divisor is 2**32 - 1; else quotient and remainder, with at most two corrections |
| Division.Div64 | user/test.c:783-814 | quotient and remainder by shifting and subtracting |
| Division.BothDivisions | user/test.c:783-814 | the two divisions agree exactly where the first one does not fault |
| Division.FaultsAtTop | shared/div64.c:38-42 | a divisor for which the first one faults |
| Philosophers.Monitor.Take | user/test.c:2559-2577 | both forks are taken or the philosopher is blocked, exactly when one of them is in use |
| Philosophers.Monitor.Sit | user/test.c:2576-2577 | passing the private semaphore keeps the table sound |
| Philosophers.Monitor.Put | user/test.c:2579-2605 | each fork goes to the neighbour that waits and can have its other one; the table stays sound |
| Philosophers.NeighboursTakeTurns | user/test.c:2559-2605 | no two neighbours eat at once, and who eats has both forks |
| Philosophers.NoLostWakeUp | user/test.c:2579-2605 | a blocked philosopher has a fork taken by a neighbour that is not blocked |
| Philosophers.NeverAllBlocked | user/test.c:2559-2605 | some philosopher is not blocked, and no private semaphore exceeds one |
| Numbers.PrintSigned | shared/doprnt.c:516-597 | the loops put out exactly the specified characters, for every width, precision and flags |
| Numbers.EmittedLength | shared/doprnt.c:545-590 | the number of characters is the larger of the width and of sign plus the larger of digits and precision |
| Numbers.PrintedShape | shared/doprnt.c:541-590 | blanks, the sign, digits of the right value, blanks: how many of each, and on the side that the flags name; zeros fill the width with the flag 0, which overrides the flag - |
| Numbers.BlanksAside | shared/doprnt.c:557-590 | with the flag 0 no blank but the sign is put out; without the flag - the text ends with the numeral; with it and without 0 the text begins with the sign and a digit; every other blank is before or behind the number, as the flags say |
| Numbers.Strtol | shared/strtol.c:21-62 | skips white space, a minus sign and a hexadecimal prefix, settles the base, reads the digits, and ends at the text behind them |
| Numbers.ReadInBase | shared/strtol.c:21-62 | digits of any base, after white space, a minus sign and the mark of the base, and before other characters, are read as the number they stand for, and the text behind them is left; base 0 takes the base that the number announces |
| Numbers.OnlyDigits | shared/strtol.c:43-53 | the digits of a base up to 36 are the first ones of 0 to 9 and the letters, in both cases |
| Numbers.RoundTrip | shared/strtol.c:21-62 | reading what was printed gives the number, exactly unless a plus sign was printed before a positive number |
| Numbers.PrintAndRead | shared/doprnt.c:500-597 | the same for the two programs one after the other |
| RunLength.Line.PutUnit | kernel/debug/gdb_serial.c:155-203 | a whole run of equal digits, as far as one unit reaches, or one byte is sent as a unit that expands to its digits |
| RunLength.Line.PutFrag | kernel/debug/gdb_serial.c:147-207 | the body sent for a fragment is its encoding, ends between units, has printable counts, and expands to its digits; the checksum is their sum |
| RunLength.EncodeShorter | kernel/debug/gdb_serial.c:155-203 | the encoding is never longer than two digits a byte, and shorter exactly when two equal bytes with equal digits stand side by side |
| RunLength.HexOfRun | kernel/debug/gdb_serial.c:163-200 | a run of bytes with equal digits is that digit twice as often |
| RunLength.WholeAppend | kernel/debug/gdb_serial.c:147-207 | expanding distributes over whole bodies |
| RunLength.Hex2Bin | kernel/debug/gdb_serial.c:55-66 | decodes digits to bytes and fails exactly on a character that is no digit |
| RunLength.SendAndDecode | kernel/debug/gdb_serial.c:55-66 | sending, expanding and decoding gives the fragment back |

## Left out

- MallocArena.Arena.Free: does not model the fd and bk pointers of bins and fastbins; each list is a sequence of chunks, so the pointer writes of `unlink` and the insertions are changes of sequences.
- MallocArena.Arena.SysMalloc: does not model another caller of `sbrk`; the heap end is page aligned and below 2**31, as the linker scripts place it, and the paths with mmap and foreign breaks are absent.
- MallocArena.Arena.MallocConsolidate: takes fast chunks off one at a time instead of detaching the whole fastbin first, which no reader can tell apart.
- KernelHeap.Heap.KAlloc: asks for size + 16 < 2**32; `LargeSizeWraps` says what happens otherwise.
- KernelHeap.Heap.KFree: asks for a live block or for marks that disagree; a stale pointer whose old marks are still in memory is not covered.
- ProcessKernel.Kernel.RingInsert: works on rings as sequences; the pointer writes are in `ProcessLinks`, whose methods are stated with the same functions on the list of numbers, one list at a time; no invariant ties all linked lists at once to those of `Kernel`. The links of the sleeper list are walked as positions of a sequence in `SleepWalks`.
- ProcessKernel.Kernel.ConsFlush: takes the edited line as given; line editing and echo are not modelled, nor is what a copy past the end of a full buffer overwrites.
- ProcessKernel.Kernel.Kill: says nothing of the state when a walk over the sleepers never ends, because no code runs after it.
- ProcessHistory.RunKept: a run ends before a kill that leaves a process in a list its state does not name, and before a search that finds nobody or a switch to a freed process; what the kernel does after those is not modelled.
- ProcessKernel.Kernel.Exit: asks for a sound system, as do the calls that block, because they look for a process below the active priority, where the kernel panics if there is none.
- Numbers.Strtol: for numbers that fit in a long; overflow is not modelled.
- Numbers.PrintSigned: %d only, without other bases, strings and output truncation.
- RunLength.Line.PutFrag: hexadecimal fragments of fixed length; text fragments, framing and acknowledgements are not modelled.
- Reads of a structure just after it was freed are values read before the free.
- rEALLOc, mEMALIGn, iALLOc, cALLOc and the statistics of the allocator are not used here.
- `page_used` and the middle case of `process_queue_count` do not compute what their names say.
- Context switching, stacks, segments, page tables, devices, the assembly of system calls, user pointer checks and the shell are hardware access or thin wrappers.
