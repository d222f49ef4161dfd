/**
 * What each call does, told by the books that the proofs keep of the allocator: which block of which pool, list or bin
 * it takes or gives back, which pool it makes and what it asks of mmap. The answers of mmap are all that is left open.
 */
module Calls {
  import opened Bytes
  import opened Layout
  import opened Machine
  import opened FreeList
  import opened PoolModel
  import opened GeneralPool
  import opened GeneralOps
  import opened Registry
  import opened Regions
  import opened GeneralTier
  import opened PoolGrowth
  import opened SmallModel
  import opened SmallRep
  import opened SmallCarve
  import opened ThreadCache
  import opened SmallTier
  import opened DirectTier
  import opened WorldModel
  import opened WorldSteps
  import opened HeapView
  import opened Diagnostics
  import opened DamFacts

  /**
   * The pools and allocations, the owners of small blocks, the threads' cache pointers and the calls of mmap so far.
   */
  datatype Books = Books(w: Tiers, s: Small, cell: seq<Cell>, maps: seq<Mmap>) {
    /** mmap was called for len bytes. */
    function Asked(len: nat, granted: bool): Books {
      this.(maps := maps + [Mmap(len, granted)])
    }

    /** p is an allocation of n bytes. */
    function Holding(p: nat, n: nat): Books {
      this.(w := w.(live := w.live[p := n]))
    }

    /** p is no allocation. */
    function Dropping(p: nat): Books {
      this.(w := w.(live := w.live - {p}))
    }
  }

  // ----- the general tier

  /** Pool g is the newest that offers a block for size bytes; block i is the first on its free list that fits. */
  ghost predicate FirstFitting(w: Tiers, size: nat, g: nat, i: nat) {
    && g < |w.rs| && Offers(w.rs[g], w.ps, ActualSize(size))
    && (forall h {:trigger w.rs[h]} :: 0 <= h < g ==> !Offers(w.rs[h], w.ps, ActualSize(size)))
    && var p := w.ps[w.rs[g].base];
       && i < |p.blocks| && p.blocks[i].addr == p.freeList[FirstFit(p.blocks, p.freeList, ActualSize(size))]
       && p.blocks[i].addr in p.freeList
  }

  /** That block is cut to size and handed out. */
  function TakenFrom(b: Books, size: nat, g: nat, i: nat): Books
    requires FirstFitting(b.w, size, g, i)
  {
    var base := b.w.rs[g].base;
    var p := b.w.ps[base];
    b.(w := b.w.(ps := b.w.ps[base := Malloc(p, i, size)], live := b.w.live[p.blocks[i].Payload() := size]))
  }

  ghost predicate ServedGeneral(b: Books, b': Books, size: nat, ptr: nat) {
    exists g: nat, i: nat {:trigger FirstFitting(b.w, size, g, i)} ::
      && FirstFitting(b.w, size, g, i) && b' == TakenFrom(b, size, g, i)
      && ptr == b.w.ps[b.w.rs[g].base].blocks[i].Payload()
  }

  /** A pool of len bytes is asked for; if it is granted, it serves the request with its first block. */
  ghost predicate GrownGeneral(b: Books, b': Books, size: nat, ptr: nat, len: nat) {
    && IsNextSize(b.w.rs, MinPoolSize(size), len)
    && if ptr == 0 then b' == b.Asked(len, false)
       else
         && b'.w.rs != [] && ptr == b'.w.rs[0].base + POOL_GENERAL_SIZE + HEADER_SIZE
         && ServedGeneral(b.Asked(len, true).(w := WithPool(b.w, b'.w.rs[0].base, len)), b', size, ptr)
  }

  /**
   * The pools that there are come first; a new one is asked for only if none of them offers a block and the list is
   * not full.
   */
  ghost predicate GeneralMalloced(b: Books, b': Books, size: nat, ptr: nat) {
    if !NoneOffers(b.w, size) then ptr != 0 && ServedGeneral(b, b', size, ptr)
    else if |b.w.rs| >= MAX_POOLS then ptr == 0 && b' == b
    else exists len: nat {:trigger GrownGeneral(b, b', size, ptr, len)} :: GrownGeneral(b, b', size, ptr, len)
  }

  lemma ServedNow(b: Books, b': Books, size: nat, g: nat, i: nat, ptr: nat)
    requires FirstFitting(b.w, size, g, i) && b' == TakenFrom(b, size, g, i)
    requires ptr == b.w.ps[b.w.rs[g].base].blocks[i].Payload()
    ensures ServedGeneral(b, b', size, ptr)
  {
  }

  /** A fresh pool has one block, and no older pool is looked at before it. */
  lemma FreshPayload(w: Tiers, pool: nat, len: nat, size: nat, g: nat, i: nat)
    requires len >= 2 * MIB && Offers(WithPool(w, pool, len).rs[0], WithPool(w, pool, len).ps, ActualSize(size))
    requires FirstFitting(WithPool(w, pool, len), size, g, i)
    ensures g == 0 && i == 0 && Fresh(pool, len).blocks[0].Payload() == pool + POOL_GENERAL_SIZE + HEADER_SIZE
  {
    hide Offers, AlignUp;
    var w1 := WithPool(w, pool, len);
    assert w1.rs[0] == Region(pool, len, GENERAL_KIND);
  }

  lemma GrownNow(b: Books, b1: Books, b': Books, pool: nat, len: nat, size: nat, ptr: nat)
    requires NoneOffers(b.w, size) && |b.w.rs| < MAX_POOLS && IsNextSize(b.w.rs, MinPoolSize(size), len)
    requires b1 == b.Asked(len, true).(w := WithPool(b.w, pool, len)) && ptr != 0 && ServedGeneral(b1, b', size, ptr)
    ensures GeneralMalloced(b, b', size, ptr)
  {
    hide Offers, AlignUp, NoneOffers, Malloc;
    NewPoolServes(b.w, pool, len, size);
    var g: nat, i: nat :| FirstFitting(b1.w, size, g, i) && b' == TakenFrom(b1, size, g, i)
      && ptr == b1.w.ps[b1.w.rs[g].base].blocks[i].Payload();
    FreshPayload(b.w, pool, len, size, g, i);
    assert b'.w.rs == b1.w.rs;
    assert GrownGeneral(b, b', size, ptr, len);
  }

  // ----- the small tier

  /** dam_get_thread_cache: mmap is asked for a cache the first time only. */
  ghost predicate CacheAsked(b: Books, b': Books, t: nat) {
    && t < |b.cell|
    && if b.cell[t] == Unset then CacheGot(b, b', t, true) || CacheGot(b, b', t, false) else b' == b
  }

  ghost predicate CacheGot(b: Books, b': Books, t: nat, granted: bool)
    requires t < |b.cell|
  {
    b' == b.Asked(CACHE_BYTES, granted).(cell := b.cell[t := if granted then Cache else MapFailed])
  }

  /**
   * Under the lock: the front of the central list of class c; when the list is empty, a pool is asked for and carved.
   */
  ghost predicate CentralTaken(b: Books, b': Books, c: nat, size: nat, ptr: nat) {
    && Formed(b.s) && c < CLASSES
    && if b.s.central[c] != [] then
         ptr == b.s.central[c][0] + SMALL_HEADER_SIZE && b' == b.Holding(ptr, size).(s := PopCentral(b.s, c))
       else if ptr == 0 then b' == b.Asked(PoolBytes(c), false)
       else b'.w.rs != [] && CarvedTaken(b, b', c, size, ptr, b'.w.rs[0].base)
  }

  /** A pool for class c was granted at this address and carved. */
  ghost predicate Carved(b: Books, b': Books, c: nat, pool: nat) {
    var blocks := CarvedList(pool, Stride(c), BLOCKS_PER_POOL);
    && Formed(b.s) && c < CLASSES && FreshBlocks(b.s, blocks)
    && b' == b.Asked(PoolBytes(c), true).(w := b.w.(rs := [Region(pool, PoolBytes(c), SMALL_KIND)] + b.w.rs),
                                          s := Carve(b.s, c, blocks))
  }

  /** The block carved last is the front of the list. */
  ghost predicate CarvedTaken(b: Books, b': Books, c: nat, size: nat, ptr: nat, pool: nat) {
    exists b1 {:trigger Carved(b, b1, c, pool)} ::
      && Carved(b, b1, c, pool) && Formed(b1.s) && c < CLASSES && b1.s.central[c] != []
      && ptr == LastCarved(pool, c) + SMALL_HEADER_SIZE && b' == b1.Holding(ptr, size).(s := PopCentral(b1.s, c))
  }

  /** The last of the thousand blocks of a pool. */
  function LastCarved(pool: nat, c: nat): nat {
    pool + POOL_HEADER_SIZE + (BLOCKS_PER_POOL - 1) * Stride(c)
  }

  lemma CarvedNow(b: Books, b1: Books, b': Books, c: nat, size: nat, ptr: nat, pool: nat)
    requires Carved(b, b1, c, pool) && c < CLASSES && b.s.central[c] == [] && ptr != 0
    requires Formed(b1.s) && b1.s.central[c] != [] && ptr == b1.s.central[c][0] + SMALL_HEADER_SIZE
    requires b' == b1.Holding(ptr, size).(s := PopCentral(b1.s, c))
    ensures CentralTaken(b, b', c, size, ptr)
  {
    hide FreshBlocks, PopCentral, PoolBytes;
    FrontCarved(pool, c);
    assert b1.s.central[c] == CarvedList(pool, Stride(c), BLOCKS_PER_POOL) + b.s.central[c];
    assert CarvedTaken(b, b', c, size, ptr, pool);
  }

  lemma FrontCarved(pool: nat, c: nat)
    ensures |CarvedList(pool, Stride(c), BLOCKS_PER_POOL)| > 0
    ensures CarvedList(pool, Stride(c), BLOCKS_PER_POOL)[0] == LastCarved(pool, c)
  {
    hide Nth;
    NthAt(pool, Stride(c), BLOCKS_PER_POOL - 1);
  }

  lemma {:induction false} NthAt(base: nat, stride: nat, k: nat)
    ensures Nth(base, stride, k) == base + POOL_HEADER_SIZE + k * stride
  {
    if k > 0 {
      NthAt(base, stride, k - 1);
    }
  }

  /** Once thread t has asked for its cache: the front of its own bin comes first. */
  ghost predicate ServedByClass(b: Books, b': Books, t: nat, c: nat, size: nat, ptr: nat) {
    && Formed(b.s) && c < CLASSES && t < |b.cell| && t < |b.s.bins|
    && if b.cell[t] == Cache && Bin(b.s.bins, t, c) != [] then
         ptr == Bin(b.s.bins, t, c)[0] + SMALL_HEADER_SIZE && b' == b.Holding(ptr, size).(s := PopBin(b.s, t, c))
       else CentralTaken(b, b', c, size, ptr)
  }

  ghost predicate SmallMalloced(b: Books, b': Books, t: nat, size: nat, ptr: nat) {
    exists b1, c: nat {:trigger CacheAsked(b, b1, t), LeastClass(c, size)} ::
      CacheAsked(b, b1, t) && LeastClass(c, size) && ServedByClass(b1, b', t, c, size, ptr)
  }

  /**
   * A block of class c goes to the front of the thread's own bin, or of the central list if there is no cache or no
   * room.
   */
  ghost predicate GivenToClass(b: Books, b': Books, t: nat, c: nat, ptr: nat) {
    && Formed(b.s) && c < CLASSES && t < |b.cell| && t < |b.s.bins|
    && ptr >= SMALL_HEADER_SIZE && InUse(b.s, c, ptr - SMALL_HEADER_SIZE)
    && b' == b.Dropping(ptr).(s := if b.cell[t] == Cache && |Bin(b.s.bins, t, c)| < MAX_CACHED
                                   then PushBin(b.s, t, c, ptr - SMALL_HEADER_SIZE)
                                   else PushCentral(b.s, c, ptr - SMALL_HEADER_SIZE))
  }

  ghost predicate SmallFreed(b: Books, b': Books, t: nat, ptr: nat) {
    exists b1, c: nat {:trigger CacheAsked(b, b1, t), GivenToClass(b1, b', t, c, ptr)} ::
      CacheAsked(b, b1, t) && GivenToClass(b1, b', t, c, ptr)
  }

  /** Under the lock: the block goes to the front of its central list. */
  ghost predicate GivenToCentral(b: Books, b': Books, c: nat, ptr: nat) {
    && Formed(b.s) && c < CLASSES && ptr >= SMALL_HEADER_SIZE
    && b' == b.Dropping(ptr).(s := PushCentral(b.s, c, ptr - SMALL_HEADER_SIZE))
  }

  // ----- the direct tier

  ghost predicate DirectMalloced(b: Books, b': Books, size: nat, ptr: nat) {
    var len := MappingSize64(size);
    if ptr == 0 then b' == b.Asked(len, false)
    else
      && ptr >= DIRECT_PREFIX
      && b' == b.Asked(len, true).(w := Tiers([Region(ptr - DIRECT_PREFIX, len, DIRECT_KIND)] + b.w.rs, b.w.ps,
                                              b.w.ds[ptr - DIRECT_PREFIX := size], b.w.live[ptr := size]))
  }

  ghost predicate DirectFreed(b: Books, b': Books, k: nat, ptr: nat) {
    && k < |b.w.rs| && b.w.rs[k].kind == DIRECT_KIND && b.w.rs[k].Has(ptr)
    && b' == b.(w := Tiers(Without(b.w.rs, k), b.w.ps, b.w.ds, b.w.live - {ptr}))
  }

  /** free of block i of pool g. */
  ghost predicate GeneralFreed(b: Books, b': Books, g: nat, i: nat, ptr: nat) {
    && g < |b.w.rs| && b.w.rs[g].kind == GENERAL_KIND && b.w.rs[g].Has(ptr) && ptr in b.w.live
       && b.w.rs[g].base in b.w.ps
    && var p := b.w.ps[b.w.rs[g].base];
       && i < |p.blocks| && LiveBlock(p.blocks[i], ptr, b.w.live[ptr])
       && b' == b.(w := b.w.(ps := b.w.ps[b.w.rs[g].base := Free(p, i)], live := b.w.live - {ptr}))
  }

  /** realloc keeps block i of pool g where it is. */
  ghost predicate ResizedInside(b: Books, b': Books, g: nat, i: nat, ptr: nat, size: nat) {
    && g < |b.w.rs| && b.w.rs[g].base in b.w.ps
    && var p := b.w.ps[b.w.rs[g].base];
       && i < |p.blocks| && InPlace(p, i, size)
       && (i + 1 < |p.blocks| && p.blocks[i + 1].free ==> p.blocks[i + 1].addr in p.freeList)
       && b' == b.(w := b.w.(ps := b.w.ps[b.w.rs[g].base := Resize(p, i, size)], live := b.w.live[ptr := size]))
  }

  // ----- the calls of an initialized allocator

  ghost predicate Malloced(b: Books, b': Books, t: nat, size: nat, ptr: nat) {
    if size == 0 then ptr == 0 && b' == b
    else if size <= DAM_SMALL_MAX then SmallMalloced(b, b', t, size, ptr)
    else if size <= DAM_GENERAL_MAX then GeneralMalloced(b, b', size, ptr)
    else DirectMalloced(b, b', size, ptr)
  }

  /** An allocation is freed in the tier of its pool. */
  ghost predicate AllocationFreed(b: Books, b': Books, t: nat, ptr: nat) {
    || (InSmallPool(b.w, ptr) && SmallFreed(b, b', t, ptr))
    || (exists g: nat, i: nat {:trigger GeneralFreed(b, b', g, i, ptr)} :: GeneralFreed(b, b', g, i, ptr))
    || (exists k: nat {:trigger DirectFreed(b, b', k, ptr)} :: DirectFreed(b, b', k, ptr))
  }

  ghost predicate FreedCall(b: Books, b': Books, t: nat, ptr: nat) {
    if ptr == 0 || Foreign(b.w, ptr) then b' == b else AllocationFreed(b, b', t, ptr)
  }

  /** The allocation ptr is moved: a malloc and, if it succeeds, a free. */
  ghost predicate Relocated(b: Books, b': Books, t: nat, ptr: nat, size: nat, q: nat) {
    exists b1 {:trigger Malloced(b, b1, t, size, q)} ::
      Malloced(b, b1, t, size, q) && if q == 0 then b' == b1 else AllocationFreed(b1, b', t, ptr)
  }

  /**
   * Block i of pool g is the allocation: it shrinks, or absorbs the free block behind it, where it is, or else it
   * moves.
   */
  ghost predicate GeneralReallocated(b: Books, b': Books, t: nat, g: nat, i: nat, ptr: nat, size: nat, q: nat) {
    && g < |b.w.rs| && b.w.rs[g].kind == GENERAL_KIND && b.w.rs[g].Has(ptr) && ptr in b.w.live
       && b.w.rs[g].base in b.w.ps
    && var p := b.w.ps[b.w.rs[g].base];
       && i < |p.blocks| && LiveBlock(p.blocks[i], ptr, b.w.live[ptr])
       && if InPlace(p, i, size) then q == ptr && ResizedInside(b, b', g, i, ptr, size)
          else q != ptr && Relocated(b, b', t, ptr, size, q)
  }

  /** The block of class c is large enough, or the request leaves the tier, or a block of a larger class takes over. */
  ghost predicate SmallReallocated(b: Books, b': Books, t: nat, c: nat, ptr: nat, size: nat, q: nat) {
    && ptr >= SMALL_HEADER_SIZE && InUse(b.s, c, ptr - SMALL_HEADER_SIZE) && InSmallPool(b.w, ptr)
    && if size <= ClassSize(c) then q == ptr && b' == b.Holding(ptr, size)
       else if size > DAM_SMALL_MAX then q != ptr && Relocated(b, b', t, ptr, size, q)
       else q != ptr && GrownClass(b, b', c, ptr, size, q)
  }

  ghost predicate GrownClass(b: Books, b': Books, c: nat, ptr: nat, size: nat, q: nat) {
    exists b1, d: nat {:trigger CentralTaken(b, b1, d, size, q)} ::
      && LeastClass(d, size) && CentralTaken(b, b1, d, size, q)
      && if q == 0 then b' == b1 else GivenToCentral(b1, b', c, ptr)
  }

  /**
   * The mapping k records n bytes: it stays if the size fits and exceeds 80 percent of n, and is not for a lower tier.
   */
  ghost predicate DirectReallocated(b: Books, b': Books, t: nat, k: nat, ptr: nat, size: nat, q: nat) {
    && k < |b.w.rs| && b.w.rs[k].kind == DIRECT_KIND && b.w.rs[k].Has(ptr) && b.w.rs[k].base in b.w.ds
    && var n := b.w.ds[b.w.rs[k].base];
       if size > DAM_GENERAL_MAX && size <= n && 100 * size > SHRINK_PERCENTAGE * n
       then q == ptr && b' == b.Holding(ptr, size)
       else q != ptr && Relocated(b, b', t, ptr, size, q)
  }

  ghost predicate AllocationReallocated(b: Books, b': Books, t: nat, ptr: nat, size: nat, q: nat) {
    || (exists g: nat, i: nat {:trigger GeneralReallocated(b, b', t, g, i, ptr, size, q)} ::
          GeneralReallocated(b, b', t, g, i, ptr, size, q))
    || (exists c: nat {:trigger SmallReallocated(b, b', t, c, ptr, size, q)} ::
          SmallReallocated(b, b', t, c, ptr, size, q))
    || (exists k: nat {:trigger DirectReallocated(b, b', t, k, ptr, size, q)} ::
          DirectReallocated(b, b', t, k, ptr, size, q))
  }

  // ----- the first call

  /** dam_init asks for the initial pool. */
  ghost predicate Initialised(b: Books, b': Books) {
    || b' == b.Asked(2 * MIB, false)
    || (b'.w.rs != [] && b' == b.Asked(2 * MIB, true).(w := WithPool(b.w, b'.w.rs[0].base, 2 * MIB)))
  }

  ghost predicate Prepared(b: Books, b': Books, initialized: bool) {
    if initialized then b' == b else Initialised(b, b')
  }

  ghost predicate MallocCall(b: Books, b': Books, initialized: bool, t: nat, size: nat, ptr: nat) {
    exists b1 {:trigger Prepared(b, b1, initialized)} :: Prepared(b, b1, initialized) && Malloced(b1, b', t, size, ptr)
  }

  ghost predicate ReallocCall(b: Books, b': Books, initialized: bool, t: nat, ptr: nat, size: nat, q: nat) {
    if ptr == 0 then MallocCall(b, b', initialized, t, size, q)
    else if size == 0 then q == 0 && FreedCall(b, b', t, ptr)
    else if Foreign(b.w, ptr) then q == 0 && b' == b
    else AllocationReallocated(b, b', t, ptr, size, q)
  }

  lemma CalledNow(b: Books, b': Books, t: nat, size: nat, ptr: nat)
    requires MallocCall(b, b', true, t, size, ptr)
    ensures Malloced(b, b', t, size, ptr)
  {
    hide Malloced;
  }

  lemma MovedNow(b: Books, b1: Books, b': Books, t: nat, ptr: nat, size: nat, q: nat)
    requires Malloced(b, b1, t, size, q) && q != 0 && ptr != 0 && !Foreign(b1.w, ptr) && FreedCall(b1, b', t, ptr)
    ensures Relocated(b, b', t, ptr, size, q)
  {
    hide Malloced, AllocationFreed, Foreign;
  }

  lemma StayedNow(b: Books, b': Books, t: nat, ptr: nat, size: nat)
    requires Malloced(b, b', t, size, 0)
    ensures Relocated(b, b', t, ptr, size, 0)
  {
    hide Malloced, AllocationFreed;
  }

  lemma FreedMapping(b: Books, b': Books, k: nat, t: nat, ptr: nat)
    requires DirectFreed(b, b', k, ptr) && ptr != 0 && !Foreign(b.w, ptr)
    ensures FreedCall(b, b', t, ptr)
  {
    hide DirectFreed, Foreign;
  }

  // ----- what follows

  /**
   * As long as a pool offers a block nothing is asked of mmap and no pool is added: the answer is the payload of the
   * first block that fits on the free list of the newest pool that offers one.
   */
  lemma OldPoolsFirst(b: Books, b': Books, size: nat, ptr: nat)
    requires GeneralMalloced(b, b', size, ptr) && !NoneOffers(b.w, size)
    ensures b'.maps == b.maps && b'.w.rs == b.w.rs && b'.s == b.s && ptr != 0
    ensures exists g: nat {:trigger b.w.rs[g]} ::
              && g < |b.w.rs| && Offers(b.w.rs[g], b.w.ps, ActualSize(size))
              && (forall h {:trigger b.w.rs[h]} :: 0 <= h < g ==> !Offers(b.w.rs[h], b.w.ps, ActualSize(size)))
              && var p := b.w.ps[b.w.rs[g].base];
                 ptr == p.freeList[FirstFit(p.blocks, p.freeList, ActualSize(size))] + HEADER_SIZE
  {
    hide Malloc, AlignUp, FirstFit, NoneOffers;
    var g: nat, i: nat :| FirstFitting(b.w, size, g, i) && b' == TakenFrom(b, size, g, i)
      && ptr == b.w.ps[b.w.rs[g].base].blocks[i].Payload();
    assert b.w.rs[g] == b.w.rs[g];
  }

  /** Otherwise the answer, if there is one, is the first payload of the one pool that was added. */
  lemma NewPoolOtherwise(b: Books, b': Books, size: nat, ptr: nat)
    requires GeneralMalloced(b, b', size, ptr) && NoneOffers(b.w, size) && ptr != 0
    ensures |b.w.rs| < MAX_POOLS && |b'.w.rs| == |b.w.rs| + 1 && b'.w.rs[1..] == b.w.rs
    ensures ptr == b'.w.rs[0].base + POOL_GENERAL_SIZE + HEADER_SIZE
            && b'.maps == b.maps + [Mmap(b'.w.rs[0].size, true)]
  {
    hide Malloc, AlignUp, FirstFit, NoneOffers;
    var len: nat :| GrownGeneral(b, b', size, ptr, len);
    var b1 := b.Asked(len, true).(w := WithPool(b.w, b'.w.rs[0].base, len));
    var g: nat, i: nat :| FirstFitting(b1.w, size, g, i) && b' == TakenFrom(b1, size, g, i)
      && ptr == b1.w.ps[b1.w.rs[g].base].blocks[i].Payload();
    assert b'.w.rs == b1.w.rs && b1.w.rs[1..] == b.w.rs;
  }

  lemma MappingAdded(b: Books, b': Books, t: nat, size: nat, ptr: nat)
    requires Malloced(b, b', t, size, ptr) && size > DAM_GENERAL_MAX && ptr != 0
    ensures AddedMapping(b.w, b'.w)
  {
    assert b'.w.rs[1..] == b.w.rs;
  }

  /** mmap was called, and the last call was refused. */
  ghost predicate Refused(b: Books, b': Books) {
    b'.maps != [] && b'.maps != b.maps && !b'.maps[|b'.maps| - 1].granted
  }

  /**
   * NULL is answered to a request for some bytes only if its tier had no block, and then only if mmap had just refused
   * the memory for one or, in the general tier, the list of pools was full.
   */
  lemma NullGrounds(b: Books, b': Books, t: nat, size: nat)
    requires Malloced(b, b', t, size, 0) && size > 0 && (0 < size <= DAM_SMALL_MAX ==> b.cell != [])
    ensures NoBlockFor(b'.w, b'.s, b'.cell, t, size)
    ensures Refused(b, b') || (DAM_SMALL_MAX < size <= DAM_GENERAL_MAX && |b.w.rs| >= MAX_POOLS)
  {
    hide Offers, PoolBytes, CarvedTaken;
    if size <= DAM_SMALL_MAX {
      var b1, c: nat :| CacheAsked(b, b1, t) && LeastClass(c, size) && ServedByClass(b1, b', t, c, size, 0);
      assert b' == b1.Asked(PoolBytes(c), false);
      assert |b'.maps| > |b.maps|;
    } else if size <= DAM_GENERAL_MAX {
      if |b.w.rs| < MAX_POOLS {
        var len: nat :| GrownGeneral(b, b', size, 0, len);
        assert |b'.maps| > |b.maps|;
      }
    } else {
      assert |b'.maps| > |b.maps|;
    }
  }

  /**
   * A small malloc is one step of its thread in the ownership of small blocks, with the cache that the thread then
   * has.
   */
  lemma MallocStep(b: Books, b': Books, t: nat, size: nat, ptr: nat)
    requires SmallMalloced(b, b', t, size, ptr) && ptr != 0
    ensures t < |b'.cell| && ServedSmall(b.s, b'.s, t, size, ptr, b'.cell[t] == Cache)
  {
    hide PoolBytes, CarvedList, FreshBlocks, LastCarved;
    var b1, c: nat :| CacheAsked(b, b1, t) && LeastClass(c, size) && ServedByClass(b1, b', t, c, size, ptr);
    assert b1.s == b.s && b'.cell == b1.cell;
    var hasCache := b'.cell[t] == Cache;
    if hasCache && Bin(b.s.bins, t, c) != [] {
      assert Enabled(b.s, hasCache, MallocCached(t, c));
    } else if b.s.central[c] != [] {
      assert Enabled(b.s, hasCache, MallocCentral(t, c));
    } else {
      CarvedStep(b1, b', t, c, size, ptr, b'.w.rs[0].base, hasCache);
    }
    assert Stepped(b.s, b'.s, t, c, hasCache);
  }

  lemma CarvedStep(b: Books, b': Books, t: nat, c: nat, size: nat, ptr: nat, pool: nat, hasCache: bool)
    requires CarvedTaken(b, b', c, size, ptr, pool) && Formed(b.s) && b.s.central[c] == [] && t < |b.s.bins|
    requires !(hasCache && Bin(b.s.bins, t, c) != [])
    ensures Stepped(b.s, b'.s, t, c, hasCache) && InUse(b'.s, c, ptr - SMALL_HEADER_SIZE)
  {
    hide FreshBlocks, PoolBytes;
    var b1 :| Carved(b, b1, c, pool) && Formed(b1.s) && c < CLASSES && b1.s.central[c] != []
      && ptr == LastCarved(pool, c) + SMALL_HEADER_SIZE && b' == b1.Holding(ptr, size).(s := PopCentral(b1.s, c));
    var blocks := CarvedList(pool, Stride(c), BLOCKS_PER_POOL);
    FrontCarved(pool, c);
    assert b1.s.central[c] == blocks + b.s.central[c];
    assert Enabled(b.s, hasCache, MallocCarved(t, c, blocks));
    assert b'.s == Apply(b.s, MallocCarved(t, c, blocks));
  }

  /** So is a small free, whichever thread allocated the block. */
  lemma FreeStep(b: Books, b': Books, t: nat, ptr: nat)
    requires SmallFreed(b, b', t, ptr)
    ensures t < |b'.cell| && GaveBack(b.s, b'.s, t, ptr, b'.cell[t] == Cache)
  {
    var b1, c: nat :| CacheAsked(b, b1, t) && GivenToClass(b1, b', t, c, ptr);
    assert b1.s == b.s && b'.cell == b1.cell;
    var hasCache, a := b'.cell[t] == Cache, ptr - SMALL_HEADER_SIZE;
    if hasCache && |Bin(b.s.bins, t, c)| < MAX_CACHED {
      assert Enabled(b.s, hasCache, FreeCached(t, c, a));
    } else {
      assert Enabled(b.s, hasCache, FreeCentral(t, c, a));
    }
    assert Stepped(b.s, b'.s, t, c, hasCache);
  }

  /** And a realloc inside the tier, of whatever thread. */
  lemma ReallocStep(b: Books, b': Books, t: nat, c: nat, ptr: nat, size: nat, q: nat, hasCache: bool)
    requires SmallReallocated(b, b', t, c, ptr, size, q) && ClassSize(c) < size <= DAM_SMALL_MAX && q != 0
             && t < |b.s.bins|
    ensures Stepped(b.s, b'.s, t, c, hasCache)
  {
    hide PoolBytes, FreshBlocks, LastCarved;
    var b1, d: nat :| LeastClass(d, size) && CentralTaken(b, b1, d, size, q) && GivenToCentral(b1, b', c, ptr);
    assert c < d;
    TookNow(b, b1, d, size, q);
    GrowStep(b.s, b1.s, b'.s, t, c, d, ptr - SMALL_HEADER_SIZE, hasCache);
  }

  lemma TookNow(b: Books, b': Books, c: nat, size: nat, ptr: nat)
    requires CentralTaken(b, b', c, size, ptr) && ptr != 0
    ensures TookCentral(b.s, b'.s, c)
  {
    hide PoolBytes, FreshBlocks;
    if b.s.central[c] == [] {
      var pool := b'.w.rs[0].base;
      var b1 :| Carved(b, b1, c, pool) && Formed(b1.s) && c < CLASSES && b1.s.central[c] != []
        && ptr == LastCarved(pool, c) + SMALL_HEADER_SIZE && b' == b1.Holding(ptr, size).(s := PopCentral(b1.s, c));
      assert FreshBlocks(b.s, CarvedList(pool, Stride(c), BLOCKS_PER_POOL));
    }
  }

  /**
   * A thread with a cache whose bin has room gets back the block that it just freed when it next asks for one of the
   * class, and the bins are as they were.
   */
  lemma LastFreedFirst(b: Books, b1: Books, b2: Books, t: nat, c: nat, a: nat, size: nat, q: nat)
    requires t < |b.cell| && b.cell[t] == Cache && InUse(b.s, c, a)
    requires forall d: nat {:trigger InUse(b.s, d, a)} :: d != c ==> !InUse(b.s, d, a)
    requires |Bin(b.s.bins, t, c)| < MAX_CACHED && LeastClass(c, size) && 0 < size
    requires SmallFreed(b, b1, t, a + SMALL_HEADER_SIZE) && SmallMalloced(b1, b2, t, size, q)
    ensures q == a + SMALL_HEADER_SIZE && b2.s.bins == b.s.bins && b2.s.central == b.s.central && b2.maps == b.maps
  {
    hide InUse, CentralTaken;
    var x, d: nat :| CacheAsked(b, x, t) && GivenToClass(x, b1, t, d, a + SMALL_HEADER_SIZE);
    assert d == c && x == b;
    var y, e: nat :| CacheAsked(b1, y, t) && LeastClass(e, size) && ServedByClass(y, b2, t, e, size, q);
    LeastUnique(c, e, size);
    assert y == b1;
    var l, row := b.s.bins[t][c], b.s.bins[t];
    assert b1.s.bins[t][c] == [a] + l;
    assert row[c := [a] + l][c := l] == row;
    assert b2.s.bins == b.s.bins[t := row];
  }

  /** 1000000 bytes resized to 900000 stay where they are, to 800000 they move. */
  lemma ShrinkInstances(b: Books, b': Books, t: nat, k: nat, ptr: nat, q: nat)
    requires k < |b.w.rs| && b.w.rs[k].base in b.w.ds && b.w.ds[b.w.rs[k].base] == 1000000
    ensures DirectReallocated(b, b', t, k, ptr, 900000, q) ==> q == ptr
    ensures DirectReallocated(b, b', t, k, ptr, 800000, q) ==> q != ptr
  {
    hide Relocated;
  }
}
