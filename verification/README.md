# DAM, modelled and verified in Dafny

DAM is a three-tier memory allocator. This project models its tiers down to the bytes they write and proves that the
allocator gives its clients a heap: allocations that are disjoint, aligned, keep their contents whatever else happens,
and survive every resize as far as both sizes go.

The model has one memory, a map from addresses to bytes, in which the clients' data and the allocator's headers, free
links and canaries lie side by side. Every store of a member is a little-endian store of its bytes at the offset it has
on an LP64 platform. So "this operation does not disturb that allocation" is a statement about bytes, not about data
structures that cannot alias.

## How it is built

Memory and layout:

- `Bytes`, `Layout`, `Machine` (Ram.dfy): bytes and words, the four structures and their members, and the process's
  memory with loads, stores, `memcpy`, `memset`, `mmap` and `munmap`. `mmap` is an oracle: it answers with any
  page-aligned, unmapped, zeroed region, or fails; its calls are recorded.

The general tier, each step as a method on memory that is proved against a function on values:

- `FreeList`: the intrusive doubly linked list. `PoolModel`: what a pool is (blocks in address order, free list front
  first), every step of malloc, free and realloc as a function on that value, and the invariant `WF` with its
  preservation.
- `GeneralPool`, `GeneralOps`: the code's steps on bytes. `Image(m, p)` says that the bytes of the pool are those of the
  value `p`, that `p` is well formed and that every canary is intact.
- `PoolTheorems`: what follows for pools: conservation, the exact effect of one-sided coalescing, when free undoes
  malloc, LIFO runs, how much a block can waste.
- `GeneralTier`, `PoolGrowth`: the searches over all the pools, the creation of pools and how they grow.

The other tiers and the registry:

- `Registry`, `Regions`: the global list of pools, the lookup by address, and what operations in one region leave alone.
- `SmallModel`: the ownership of small blocks as a step system over any number of threads. `SmallRep`, `SmallCarve`,
  `SmallTier`: the lists, headers, pools and per-thread bins in memory. `ThreadCache`: the per-thread cache pointer.
- `DirectTier`: one mapping per allocation and the shrink policy.

The whole:

- `WorldModel`, `WorldSteps`, `HeapView`: the invariant over all the tiers (`World`), what each kind of step does to it,
  and the heap of allocations that the bytes stand for.
- `IdealHeap`: the promise to the client, free of data structures: what one call may do to a heap (`Next`), and what
  follows for whole runs.
- `Calls`: what each call does to the pools, the free lists, the owners of small blocks, the threads' caches and the
  calls of `mmap`. Nothing but the answers of `mmap` is left open.
- `DamFacts`, `Dam`: the allocator as a class. Each public call ensures `Next(old(Heap()), event, Heap())`
  and the clause of `Calls` for it.
- `Client`: a client that makes any list of calls from any threads; the allocator's history is a run with one event for
  each.
- `Diagnostics`: fragmentation, pressure and the validation of pointers.

`Valid()` of class `Dam` contains the invariants of all the tiers, so each of them holds in every reachable state. A
client may free, resize and write only what it was given (or pass NULL, or a pointer outside all the pools, where the
code handles those).

## What the proofs found

- `dam_get_thread_cache` keeps `MAP_FAILED` in the thread's pointer when its `mmap` fails. The first call answers NULL,
  every later call answers `MAP_FAILED` as if it were a cache. `ThreadCache.BadPointerIff` says exactly when. Only calls
  that come to read the cache are affected, and only those require of class `Dam` that the thread is not in that state:
  a malloc or calloc of 1 to 256 bytes, a free in the small tier, and the reallocs of `DamFacts.ReadsCache`, which
  contain one of the two. A move out of the small tier reads the cache once its malloc succeeded: `Realloc` answers
  `strayed` exactly when a thread in that state got so far, and then promises nothing. All other calls leave the pointer
  alone.
- A direct request above `2^64 - 96` bytes wraps around and is served by a mapping of one page. From `2^64 - 4191` to
  `2^64 - 96` the computed size is 0, which `mmap` refuses, so the answer is NULL (`DirectTier.MappingFits`, both bounds
  exact; `DirectTier.MappingTooSmall` is an instance). The calls require `size <= MAX_REQUEST`, which is `2^64 - 96`.
- From `2^64 - 19` on, `dam_general_realloc` computes a new size of at most 16 (`PoolModel.ResizeFits`). Unless its pool
  is in quarantine, any block is then judged large enough, and the address of its canary wraps around into the block's
  own header (`PoolTheorems.ResizeWraps`, an instance is `PoolTheorems.ResizeWrapped`).
- `dam_calloc` multiplies without a check. `DamFacts.CallocCovers` says that the result covers the product exactly when
  the product fits `size_t`; `DamFacts.CallocTooSmall` is an instance where it does not.
- `free` undoes a `malloc` exactly when the chosen block had no free predecessor and was split or had no free successor
  (`PoolTheorems.FreeUndoesMalloc`, with `PoolTheorems.FreeUndoesNot` for an instance where it does not). When it does, the
  only trace is the stale `user_size` in a free header.
- Coalescing is one-sided: freeing a block between two free ones leaves one more pair of adjacent free blocks
  (`PoolTheorems.FreePairs`). docs/DESIGN.md:44 and :88 call it full and aggressive coalescing.
- docs/DESIGN.md:68 describes all pools as multiples of the page size; a small pool is 48 + 1000 * (16 + block size)
  bytes. The README of the allocator, line 16, starts the small classes at 32 bytes, the code at 16.
- `MAX_POOLS` is compared with the number of pools of all tiers: pools of the other tiers alone can fill the list, and
  then every general malloc is refused (`DamFacts.OthersExhaust`). After nineteen direct
  allocations beside the initial pool, if `mmap` grants them, one that the initial pool cannot serve is refused
  (`Client.MappingsFill`).
- The minimum that malloc asks of a new pool never decides its size (`DamFacts.MinNeverDecides`). The branch "still no
  space after creating pool" cannot be reached (`DamFacts.NewPoolServes`).

## Model

| member | source | states |
|---|---|---|
| Dam.Dam.Malloc | src/core/core.c:53-61 | NULL and an unchanged heap, or a new allocation of exactly the size: aligned, disjoint from all others, in no pool in quarantine, in a pool of the tier of its size, every other allocation unchanged byte for byte; which block of which pool, bin or list it is, what is asked of mmap and what the pools and lists are afterwards, up to the answers of mmap; the thread's cache matters for 1 to 256 bytes only |
| Dam.Dam.Free | src/core/core.c:97-128 | the allocation is gone, all others keep every byte; NULL and foreign pointers change nothing; what becomes of the block: merged and first on its pool's free list, first in the thread's bin, first on the central list, or unmapped |
| Dam.Dam.Realloc | src/core/core.c:63-95 | NULL leaves the old allocation live and unchanged; success keeps the first min(old, new) bytes across all tiers; the same pointer exactly when its tier can resize in place, else a malloc in the tier of the new size and a free, step for step; size 0 frees; a foreign pointer is refused; strayed exactly if a move out of the small tier came to free with MAP_FAILED as the cache |
| Dam.Dam.Calloc | src/core/core.c:130-136 | every byte of the result is zero after arbitrary reuse; it has count * size bytes when that fits size_t; its block is the one malloc answers |
| DamFacts.CallocCovers | src/core/core.c:130-136 | the result covers the product if and only if the product fits size_t |
| DamFacts.CallocTooSmall | src/core/core.c:131 | an instance: 2^63 + 1 elements of two bytes become two bytes |
| Dam.Dam.Init | src/core/core.c:26-45 | mmap is asked for 2 MiB, once; after it the invariants of all tiers hold and the general tier has that one free pool, or none if it was refused; a second call changes nothing |
| Dam.Dam.Write | src/core/general.c:80-81 | a client's store inside its allocation breaks no header, link, canary or other allocation |
| Dam.Dam.SoundState | src/core/core.c:53-61 | in every valid state all allocations of all tiers are disjoint, aligned and not NULL |
| Dam.Dam.OnePool | src/util/util.c:45-55 | every allocation lies behind the header of exactly one pool, and the lookup of its address finds that pool |
| Dam.Dam.PoolFacts | src/core/general.c:284-364 | in every valid state each general pool is well formed in its bytes and as large as its rank demands, and at most MAX_POOLS general pools exist |
| Dam.Dam.MappingFacts | src/core/direct.c:74-103 | in every valid state, so after any chain of reallocs, each mapping holds one allocation whose size fits the recorded one and exceeds 80 percent of it |
| Dam.Dam.NowSound | src/core/core.c:53-136 | in every valid state the invariants of all tiers hold |
| Dam.Dam.GeneralMallocInternal | src/core/general.c:30-85 | the first fit of the newest pool that offers one; only if none does and fewer than MAX_POOLS pools are listed is mmap asked for a pool, whose first payload is then the answer; the pool's new value; NULL changes nothing but the record of mmap |
| DamFacts.NewPoolServes | src/core/general.c:40-55 | the pool created for a request offers a block for it, so the second search cannot fail |
| DamFacts.MinNeverDecides | src/core/general.c:41-42 | the size of a new pool is the same as without the minimum that malloc asks for |
| DamFacts.OthersExhaust | src/core/general.c:305-316 | with MAX_POOLS pools of other tiers there is no general pool and none offers a block |
| Client.MappingsAdd | src/core/direct.c:13-49 | over any list of calls, each direct malloc that gets its mapping lengthens the list of pools by one and leaves the general pools as they are |
| Client.MappingsFill | src/core/general.c:305-316 | over any list of calls, once direct allocations have brought the list to MAX_POOLS pools, a general malloc is refused as soon as the general pools offer no block |
| Dam.Dam.GeneralFree | src/core/general.c:87-128 | for a live pointer every check passes, the canary is intact, exactly that allocation goes, and its pool becomes the value that free gives |
| Dam.Dam.GeneralRealloc | src/core/general.c:214-282 | contents kept; in place if and only if the pool is not in quarantine and the block, alone or with its free successor, is large enough; else a malloc in the tier of the new size and, if it succeeds, a free |
| Dam.Dam.SmallMalloc | src/core/small.c:152-191 | a block of the least class that holds the size: the front of the thread's own bin if it has a cache and the bin is not empty, else the front of the central list, else the block carved last of a pool asked of mmap |
| Dam.Dam.SmallMallocInternal | src/core/small.c:118-150 | the front of the class's central list, after carving a pool when the list is empty |
| Dam.Dam.SmallFree | src/core/small.c:252-277 | to the front of the thread's own bin if it has a cache and the bin fewer than 64 blocks, else to the front of the central list, whichever thread allocated it |
| Dam.Dam.SmallFreeInternal | src/core/small.c:229-250 | the block is put in front of its class's central list |
| Dam.Dam.SmallRealloc | src/core/small.c:193-227 | contents kept; in place if and only if the block's class holds the new size; growing inside the tier is one step; strayed exactly if the request leaves the tier, its malloc succeeded and the thread's cache is MAP_FAILED |
| Dam.Dam.DirectMalloc | src/core/direct.c:13-49 | a new, zeroed allocation in a mapping of its own, of the size computed in size_t, in front of the list; NULL only if mmap refused it |
| Dam.Dam.DirectFree | src/core/direct.c:51-58 | the mapping goes, and no other pool or allocation is disturbed |
| Dam.Dam.DirectRealloc | src/core/direct.c:74-103 | contents kept, down to other tiers too; in place if and only if the size is above 65536, at most the size in the header and more than 80 percent of it; else a malloc in the tier of the size and an unmapping |
| Dam.Dam.ValidatePtr | src/core/core.c:291-372 | for NULL, foreign pointers and every pointer whose metadata can be read: yes if and only if it is intact; otherwise the general pool that holds it is put in quarantine if asked, and nothing else changes |
| Dam.Dam.BlockPasses | src/core/core.c:291-372 | every allocation, and every freed block that is still part of a pool, can be read and is intact, so it is never reported |
| Dam.Dam.Quarantine | src/core/general.c:529-532 | only the pool's quarantine changes |
| IdealHeap.ContentsSurvive | src/core/core.c:53-136 | over any run, an allocation that no call concerns keeps every byte |
| IdealHeap.ResizesKeep | src/core/core.c:63-95 | over any run, an allocation that is resized any number of times keeps the bytes that no resize cut off |
| IdealHeap.QuarantineDrains | src/core/general.c:149-167 | over any run, a pool in quarantine stays there, gets no new allocation and resizes none |
| IdealHeap.RunSound | src/core/core.c:53-136 | over any run, allocations never overlap |
| IdealHeap.NextUntouched | src/core/core.c:53-136 | one call leaves the allocations it does not concern alone |
| IdealHeap.MoveNext | src/core/general.c:272-281 | allocate, copy and free together are a realloc |
| Client.Perform | src/core/core.c:53-136 | a call is made exactly when the contract permits it at that moment, and then it is one step of the ideal heap, the one that was asked for |
| Client.Play | src/core/core.c:53-136 | for any list of calls: call by call, each is the step that was asked for, or no step exactly where it was not permitted, and pools, lists, caches and calls of mmap change as the call is meant to change them; the invariants of all tiers hold before and after each |
| Client.PlayedRun | src/core/core.c:53-136 | what was played is a run of the ideal heap, one event a call |
| Client.CallsKeep | src/core/core.c:53-136 | for any list of calls, an allocation that none of the calls from j to k names has the same size and bytes at k as at j |
| Calls.OldPoolsFirst | src/core/general.c:38-40 | while a pool offers a block, a general malloc answers the first fit of the newest one that does, asks nothing of mmap and adds no pool |
| Calls.NewPoolOtherwise | src/core/general.c:40-49 | otherwise it answers the first payload of the one pool that was added, or NULL |
| Calls.NullGrounds | src/core/core.c:53-61 | NULL for some bytes only if the tier had no block, and mmap had just refused or, in the general tier, the list was full |
| Calls.LastFreedFirst | src/core/small.c:157-165 | a thread with room in its bin is answered the block it just freed, and bins, central lists and mmap are as before |
| Calls.MallocStep | src/core/small.c:152-191 | a small malloc is one step of the ownership system, with the cache that the thread has |
| Calls.FreeStep | src/core/small.c:252-277 | so is a small free |
| Calls.ReallocStep | src/core/small.c:217-223 | so is growing inside the tier |
| Calls.ShrinkInstances | src/core/direct.c:91 | 1000000 bytes resized to 900000 stay, to 800000 they move |
| Client.PlayedSlack | src/core/direct.c:74-103 | after any list of calls, so after any chain of reallocs, each direct allocation fits the recorded size and exceeds 80 percent of it |
| WorldModel.WindowsDisjoint | src/core/core.c:53-61 | no two allocations of any tiers share a byte |
| WorldModel.LiveInside | src/util/util.c:45-55 | an allocation is aligned and lies inside its pool, behind the header |
| WorldSteps.PayloadStep | src/core/general.c:80-81 | bytes written inside an allocation touch no metadata of any tier |
| WorldSteps.GeneralStep | src/core/general.c:87-128 | a step inside one general pool keeps the invariants of all tiers |
| WorldSteps.SmallStep | src/core/small.c:152-183 | handing out or taking back one small block keeps the invariants of all tiers |
| WorldSteps.RemoveStep | src/core/direct.c:51-58 | unmapping one direct allocation keeps the invariants of all tiers |
| WorldSteps.AddStep | src/util/util.c:28-31 | a new pool of any tier keeps the invariants of all tiers and every allocation's bytes |
| Registry.PoolFromPtr | src/util/util.c:45-55 | the pool that holds the address, NULL if there is none |
| Registry.LookupStable | src/util/util.c:28-55 | the pool found for an address does not depend on the order of the list nor on the other pools in it |
| Registry.RegisterPool | src/util/util.c:28-31 | the pool is in front of the list; only its link is written |
| Registry.UnregisterPool | src/util/util.c:33-43 | exactly that pool leaves the list, or none if it is not listed; at most one link is written |
| GeneralTier.FindFreeBlockInPools | src/core/general.c:149-167 | the first fit in newest-pool-first, free-list order, unlinked; none if and only if no pool offers one |
| GeneralTier.FindBlockInPools | src/core/general.c:366-389 | the first free block that fits in the scan of all blocks; none if and only if no pool holds one |
| GeneralTier.OffersIffHolds | src/core/general.c:149-182 | a pool's free list offers a block if and only if the scan of its blocks finds one |
| GeneralTier.SearchesAgree | src/core/general.c:366-389 | the fast and the full search succeed together and in the same pool |
| GeneralTier.ServeFromPools | src/core/general.c:38-84 | the served pool becomes the value that malloc of the first-fit block gives; the payloads of live blocks and all other memory stay |
| GeneralTier.NextPoolSize | src/core/general.c:284-303 | at least the minimum, 2 MiB and twice every listed pool, and equal to one of these |
| GeneralTier.CreateGeneralPool | src/core/general.c:305-364 | a fresh pool of exactly that size in front of the list, the old ones untouched; refused from MAX_POOLS on |
| GeneralTier.InitGeneralPool | src/core/general.c:336-357 | zeroed memory becomes a pool with one free block |
| PoolGrowth.GrownPower | src/core/general.c:284-303 | the n-th general pool ever created has at least 2^n MiB |
| PoolGrowth.GrownByGeneral | src/core/general.c:305-318 | every new pool is twice any older one, and at most MAX_POOLS general pools exist |
| PoolGrowth.FreshOffers | src/core/general.c:40-49 | a fresh pool of sufficient size offers a block |
| GeneralPool.SearchInFreeList | src/core/general.c:170-182 | the first member of the free list that fits is unlinked; the walk ends |
| GeneralPool.SplitBlockIfPossible | src/core/general.c:391-410 | the bytes become those of the split pool; live payloads stay |
| GeneralPool.CoalesceIfPossible | src/core/general.c:412-440 | the bytes become those of the pool merged with the predecessor, else with the successor |
| FreeList.AddToFreeList | src/core/general.c:130-143 | the list in memory is the old one with the block in front; has_free is right |
| FreeList.RemoveFromFreeList | src/core/general.c:184-198 | the list in memory is the old one without the block; has_free is right |
| GeneralOps.UseBlock | src/core/general.c:59-84 | the bytes become those of the pool after malloc, with its canary; live payloads stay |
| GeneralOps.FreeInternal | src/core/general.c:87-128 | a free block is refused as a double free; a live one is freed with its canary intact |
| GeneralOps.ReallocInPlace | src/core/general.c:230-270 | for sizes that do not wrap around: in place if and only if possible; the old bytes stay up to the smaller size, other live payloads stay |
| PoolModel.MallocWF | src/core/general.c:30-85 | malloc keeps tiling, index and waste bounds and adds exactly one allocation |
| PoolModel.FreeWF | src/core/general.c:87-128 | free keeps them and removes exactly one allocation |
| PoolModel.CoalesceWF | src/core/general.c:412-440 | merging on either side keeps the tiling and the free list in step |
| PoolModel.ResizeFits | src/core/general.c:215 | the size computed in size_t holds user bytes and canary if and only if the size is at most 2^64 - 20, and else is at most 16 |
| PoolTheorems.ResizeWraps | src/core/general.c:230-235 | above that bound any block passes the first in-place test and its canary would lie in its own header |
| PoolTheorems.ResizeWrapped | src/core/general.c:230-235 | an instance: a 16-byte block resized to the largest size_t |
| PoolModel.ShrinkWF | src/core/general.c:230-241 | realloc in place, by shrinking, keeps them and resizes exactly one allocation |
| PoolModel.AbsorbWF | src/core/general.c:243-270 | realloc in place, by absorbing the next block, keeps them too |
| PoolTheorems.SizesExact | src/core/general.c:31-33 | malloc takes the size rounded up and one unit more, realloc the least multiple that holds size and canary |
| PoolTheorems.InPlaceExactly | src/core/general.c:231-247 | in place if and only if not in quarantine and the block, alone or with a free one behind it, holds size + 4 bytes |
| PoolTheorems.ResizedAlone | src/core/general.c:231-241 | a block large enough alone leaves the one behind it and the free list as they are, but for its own rest |
| PoolTheorems.ResizedWithNext | src/core/general.c:244-264 | otherwise the free block behind it is taken over and leaves the free list |
| PoolModel.FitAgrees | src/core/general.c:170-182 | the free list has a fitting block if and only if the pool has one |
| PoolTheorems.Conservation | src/core/general.c:470-496 | free bytes, used bytes and headers add up to the pool |
| PoolTheorems.ListSumsFree | src/core/general.c:470-482 | the free bytes are the sum over the free list |
| PoolTheorems.LargestListed | src/core/general.c:470-482 | the largest free block is the maximum over the free list, and reached |
| PoolTheorems.LargestUsedBound | src/core/general.c:484-493 | no block in use exceeds the largest one reported |
| PoolTheorems.LargestUsedReached | src/core/general.c:484-493 | the largest used size is that of a block in use, or 0 |
| PoolTheorems.FreeEffect | src/core/general.c:120-125 | free merges with at most one neighbour, the predecessor first |
| PoolTheorems.FreePairs | src/core/general.c:412-440 | adjacent free pairs grow by exactly one when both neighbours were free, and else stay; bytes and counts follow |
| PoolTheorems.FreeUndoesMalloc | src/core/general.c:87-128 | free restores the blocks, and the free list up to moving the block to the front, if and only if a condition on the block's neighbours holds |
| PoolTheorems.FreeUndoesNot | src/core/general.c:414-423 | an instance of the failing side: a block with a free predecessor does not come back |
| PoolTheorems.LifoRestores | src/core/general.c:87-128 | mallocs freed in reverse order restore the pool when no two free blocks were adjacent |
| PoolTheorems.FreshLifo | src/core/general.c:87-128 | from a fresh pool, any n mallocs freed in reverse order restore the single free block |
| PoolTheorems.MallocIsolates | src/core/general.c:391-410 | malloc creates no adjacent free blocks where there were none |
| PoolTheorems.MostWasted | src/core/general.c:391-393 | the upper bound of 383 wasted bytes is reached |
| PoolTheorems.LeastWasted | src/core/general.c:215-237 | the lower bound of 4 bytes is reached |
| SmallModel.RunInv | src/core/small.c:118-191 | any threads, any schedule: every carved block has exactly one owner in every state |
| SmallModel.StepInv | src/core/small.c:118-277 | every step of any thread keeps single ownership and the bin bound |
| SmallModel.OneOwner | src/core/small.c:152-191 | a carved block is in the central list, in one thread's bin or live, never in two of these and never twice |
| SmallModel.ClassTotal | src/core/small.c:39-97 | central list, bins and live blocks of a class add up to 1000 for each of its pools |
| SmallModel.FastCommutes | src/core/small.c:155-183 | a fast path and any step of another thread, both possible and not freeing the same block, lead to the same state in either order |
| SmallModel.FastApart | src/core/small.c:155-183 | the two touch no common block |
| SmallRep.TouchedApart | src/core/small.c:155-183 | the headers and users' bytes of the blocks that the two touch share no byte |
| SmallRep.TouchedCarved | src/core/small.c:118-133 | the blocks that a step touches are carved ones |
| SmallModel.CentralStep | src/core/small.c:186-188 | taking from the central list is a step when the bin does not serve |
| SmallModel.GrowStep | src/core/small.c:217-223 | growing from a class to a larger one is a single step under the lock |
| SmallTier.SmallTier.Init | src/core/small.c:26-37 | the table of sizes is 16, 32, 64, 128, 256 and all lists are empty |
| SmallTier.SmallTier.SizeToClass | src/core/small.c:100-112 | the least class that holds the size, less than twice the size above 16 |
| SmallTier.SmallTier.TakeCached | src/core/small.c:157-165 | the front of the thread's bin is handed out, count and headers in step |
| SmallTier.SmallTier.TakeCentral | src/core/small.c:127-133 | the front of the central list is handed out |
| SmallTier.SmallTier.GiveCached | src/core/small.c:258-264 | the block goes to the front of the thread's bin |
| SmallTier.SmallTier.GiveCentral | src/core/small.c:229-250 | accepted if and only if the block is live |
| SmallTier.SmallTier.CreateSmallPool | src/core/small.c:39-97 | a pool whose blocks are in front of the class's list, all new and distinct |
| SmallCarve.CarveBlocks | src/core/small.c:66-86 | exactly 1000 blocks that end at the pool's end, newest first |
| SmallCarve.CarveGeometry | src/core/small.c:66-86 | the blocks are aligned, inside the pool and pairwise disjoint |
| ThreadCache.BadPointerIff | src/util/thread.c:66-97 | a thread is handed MAP_FAILED if and only if it called before and its first mmap failed |
| DirectTier.DirectMallocInternal | src/core/direct.c:13-49 | a zeroed mapping in front of the list that records the size; NULL above MAX_MAPPED |
| DirectTier.DirectFreeInternal | src/core/direct.c:51-58 | exactly that mapping leaves the list, and exactly its addresses leave memory |
| DirectTier.ShrinkTestExact | src/core/direct.c:91 | the shrink test in size_t is the test on numbers, for every mapping that can exist |
| DirectTier.KeepsExactly | src/core/direct.c:91 | a mapping is kept if and only if the size fits what is recorded and exceeds four fifths of it |
| DirectTier.MappingFits | src/core/direct.c:14 | the computed mapping holds the request, or is empty and refused, if and only if the request is at most MAX_REQUEST; empty exactly above MAX_MAPPED, one page above MAX_REQUEST |
| DirectTier.MappingTooSmall | src/core/direct.c:14 | the largest request wraps around to one page |
| Diagnostics.Fragmentation | src/core/general.c:470-482 | the walk adds the pool's free bytes to the snapshot and raises its maximum to the largest free block |
| Diagnostics.Pressure | src/core/general.c:484-496 | the same for the blocks in use |
| Diagnostics.Account | src/core/general.c:470-496 | on zeroed snapshots, the two walks and the headers account for the whole pool |
| Diagnostics.ValidateGeneralPtr | src/core/general.c:498-527 | yes if and only if the metadata is intact; otherwise the pool is put in quarantine if asked, and nothing else changes |
| Diagnostics.NoFalseAlarm | src/core/general.c:498-527 | no block of a pool in order is reported; the canary lies inside its block |
| Diagnostics.OverrunReported | src/core/general.c:112-118 | after writes inside one live block, that block is reported if and only if its canary changed, and no other block is |
| Diagnostics.ValidateSmallPtr | src/core/small.c:311-335 | yes if and only if class and magic number are right |
| Diagnostics.ValidateDirectPtr | src/core/direct.c:118-134 | yes if and only if the magic number is right |

## Left out

- Traced allocations and the trace calls: every trace is NULL.
- Cross-tier races: the allocator is verified sequentially. The interleaving of threads is modelled for the small tier,
  where a fast path and a section under the lock are one step each. Concurrent ones touch disjoint blocks and commute
  (`SmallRep.TouchedApart`, `SmallModel.FastCommutes`); the memory model of the hardware and of C11 is not part of the
  model.
- Teardown of thread caches, `dam_shutdown`, and the storage of the thread caches, which is not part of the byte memory.
- Clients that break the contract: double frees reach `GeneralOps.FreeInternal` and `SmallTier.SmallTier.GiveCentral`,
  and overruns `Diagnostics.OverrunReported`, but the calls of class `Dam` require live, NULL or foreign pointers. So
  the early return of `dam_general_realloc` that keeps the lock is not modelled.
- Dam.Dam.Malloc: requires a size of at most MAX_REQUEST, and for 1 to 256 bytes a thread whose cache pointer is not
  MAP_FAILED. Beyond the first the code hands out a page for more than a page, beyond the second it follows MAP_FAILED.
- Dam.Dam.Calloc: the same, of the product as size_t.
- Dam.Dam.Realloc: a size of at most MAX_REQUEST, because a move is a malloc, and a usable cache where
  `DamFacts.ReadsCache` holds and the allocation does not leave the small tier. What follows after `strayed` is not
  modelled.
- Dam.Dam.ValidatePtr: a pointer into a pool whose metadata cannot be read, because it or the canary that it points to
  is not mapped; reading it is where the code stops.
- Dam.Dam.Free: a usable cache for a pointer in a small pool.
- Dam.Dam.Init: the page size is assumed to be 4096, as `verify_page_size` demands.
- SmallModel.RunInv: registration of a new small pool is part of the step that carves it.
- `mmap`, `munmap`, pthreads and `sysconf` are oracles; addresses of a process are below 2^56; logging is left out.
- Ratios of fragmentation and pressure are floating point and are left out; the numbers they are made of are modelled.
  So are the loops over the pools in `dam_fragmentation`, `dam_pool_count` and `dam_snapshot`, which add little.
- `dam_validate` is a stub, `is_traced`, `padding`, `stats` and the member `pools` of a size class are never read here.
- The order of independent stores in the initialisation of headers is not always that of the source.
- The C++ wrapper and the tests.
