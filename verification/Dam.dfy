/** The allocator: the tiers over one list of pools, and the calls that a client makes. */
module Dam {
  import opened Bytes
  import opened Layout
  import opened Machine
  import opened FreeList
  import opened PoolModel
  import opened GeneralPool
  import opened GeneralOps
  import opened Registry
  import opened Regions
  import opened GeneralTier
  import opened PoolGrowth
  import opened SmallModel
  import opened SmallRep
  import opened SmallCarve
  import opened ThreadCache
  import opened SmallTier
  import opened DirectTier
  import opened WorldModel
  import opened WorldSteps
  import opened HeapView
  import opened Diagnostics
  import opened DamFacts
  import opened Calls
  import Ideal = IdealHeap

  class Dam {
    const ram: Ram
    const small: SmallTier
    var poolList: nat
    var initialized: bool
    ghost var w: Tiers

    /** The state of the allocator once it is initialized. */
    ghost predicate Running()
      reads this, ram, small
    {
      && World(ram.mem, poolList, w, small.s)
      && small.Valid(ram.mem, w.rs)
      && forall p :: p in w.live ==> w.live[p] > 0
    }

    ghost predicate Valid()
      reads this, ram, small
    {
      if initialized then Running()
      else small.Ordered(ram.mem, []) && |small.blockSize| == CLASSES && small.s == Start(|small.cell|)
           && poolList == 0 && w == Tiers([], map[], map[], map[])
    }

    /** The heap the client sees. */
    ghost function Heap(): Ideal.Heap
      reads this, ram
    {
      HeapOf(ram.mem, w)
    }

    /** The books of the allocator. */
    ghost function Book(): Books
      reads this, ram, small
    {
      Books(w, small.s, small.cell, ram.maps)
    }

    /** All there is to know about the state between two calls. */
    ghost function Now(): Moment
      reads this, ram, small
    {
      Moment(ram.mem, poolList, w, small.s, small.cell, ram.maps, initialized)
    }

    /** The invariants of all the tiers hold. */
    lemma NowSound()
      requires Valid()
      ensures Now().Sound()
    {
      hide World;
      if !initialized {
        NothingYet(ram.mem, |small.cell|);
      }
    }

    /** Thread t exists and was not handed MAP_FAILED as its cache: see ThreadCache.BadPointerIff. */
    ghost predicate Usable(t: nat)
      reads small
    {
      t < |small.cell| && small.cell[t] != MapFailed
    }

    /** The process starts. */
    constructor (threads: nat)
      ensures Valid() && !initialized && Heap() == Ideal.Heap(map[], {})
      ensures ram.maps == [] && |small.cell| == threads && forall t :: 0 <= t < threads ==> Usable(t)
    {
      ram := new Ram();
      small := new SmallTier(threads);
      poolList := 0;
      initialized := false;
      w := Tiers([], map[], map[], map[]);
    }

    /** In every state the allocations are disjoint, aligned and inside exactly one pool. */
    lemma SoundState()
      requires Valid()
      ensures Ideal.Sound(Heap())
    {
      hide World;
      if initialized {
        SoundHeap(ram.mem, poolList, w, small.s);
      }
    }

    /** An allocation lies in exactly one pool, behind its header, and the lookup of its address finds that pool. */
    lemma OnePool(p: nat) returns (g: nat)
      requires Valid() && p in w.live
      ensures g < |w.rs| && w.rs[g].Has(p) && forall h :: 0 <= h < |w.rs| && w.rs[h].Has(p) ==> h == g
      ensures w.rs[g].base + POOL_HEADER_SIZE <= p && p + w.live[p] <= w.rs[g].base + w.rs[g].size && p % ALIGNMENT == 0
      ensures Lookup(w.rs, p) == w.rs[g].base
    {
      hide World, SmallTier.Ordered;
      g := OwnPool(ram.mem, poolList, w, small.s, p);
      LookupStable(w.rs, w.rs, w.rs[g], p);
    }

    /** Every general pool is well formed in its bytes, and the pools double in size as their number grows. */
    lemma PoolFacts(g: nat)
      requires Valid() && g < |w.rs|
      ensures w.rs[g].kind == GENERAL_KIND ==> w.rs[g].base in w.ps && Image(ram.mem, w.ps[w.rs[g].base])
                                               && w.rs[g].size >= Pow2(Generals(w.rs[g..])) * MIB
      ensures Generals(w.rs) <= MAX_POOLS
    {
      hide World, SmallTier.Ordered, Image;
      if w.rs[g].kind == GENERAL_KIND {
        GrownAt(ram.mem, poolList, w, small.s, g);
      }
      FactsAt(ram.mem, poolList, w, small.s, g);
    }

    /**
     * Every mapping of the direct tier holds one allocation, whose size fits the recorded one and exceeds 80 percent
     * of it.
     */
    lemma MappingFacts(k: nat)
      requires Valid() && k < |w.rs| && w.rs[k].kind == DIRECT_KIND
      ensures var p, recorded := w.rs[k].base + DIRECT_PREFIX, HeaderAt(ram.mem, w.rs[k].base + POOL_HEADER_SIZE).size;
              && w.rs[k].base in w.ds && p in w.live && recorded == w.ds[w.rs[k].base]
              && w.live[p] <= recorded && 100 * w.live[p] > SHRINK_PERCENTAGE * recorded
              && DIRECT_PREFIX + recorded <= w.rs[k].size
      ensures forall p :: p in w.live && w.rs[k].Has(p) ==> p == w.rs[k].base + DIRECT_PREFIX
    {
      hide World, SmallTier.Ordered, Image, HeaderAt;
      FactsAt(ram.mem, poolList, w, small.s, k);
      DirectPlace(ram.mem, poolList, w, small.s, k);
    }

    // ----- the general tier

    /** create_general_pool, as the list of pools sees it. */
    method CreatePool(min: nat) returns (pool: nat, ghost len: nat)
      requires Running() && min % ALIGNMENT == 0
      modifies this`poolList, this`w, ram
      ensures Running() && Heap() == old(Heap()) && Wider(old(w), w)
      ensures pool == 0 ==> ram.mem == old(ram.mem)
      ensures |old(w).rs| >= MAX_POOLS ==> pool == 0 && Book() == old(Book())
      ensures |old(w).rs| < MAX_POOLS ==> IsNextSize(old(w).rs, min, len)
      ensures |old(w).rs| < MAX_POOLS && pool == 0 ==> Book() == old(Book()).Asked(len, false)
      ensures |old(w).rs| < MAX_POOLS && pool != 0 ==>
                Book() == old(Book()).Asked(len, true).(w := WithPool(old(w), pool, len))
    {
      hide World, Valid, HeapOf, Fresh, Closed, BytesKept, HeadersKept, Grew;
      ghost var m, w0, head0 := ram.mem, w, poolList;
      InWorld(m, poolList, w, small.s);
      pool, poolList, len := CreateGeneralPool(ram, poolList, min, w.rs, w.ps);
      if pool != 0 {
        ghost var r := Region(pool, len, GENERAL_KIND);
        w := WithPool(w, pool, len);
        CreateEffect(m, ram.mem, head0, poolList, w0, w, small.s, r);
        small.Elsewhere(m, ram.mem, w0.rs, w.rs);
        NullNotLive(m, head0, w0, small.s);
        SameHeap(m, ram.mem, w0, w, 0);
      }
    }

    lemma InWorld(m: Mem, head: nat, w: Tiers, s: Small)
      requires World(m, head, w, s)
      ensures Registered(m, head, w.rs) && Tier(m, w.rs, w.ps) && Grown(w.rs) && AllBacked(m, w.rs)
    {
      hide Registered, Tier, Grown, Inv, Geometry, RegionOK;
      RegisteredBacked(m, head, w.rs);
    }

    /** The search for a block and, when it succeeds, its use. */
    method Serve(size: nat) returns (ptr: nat)
      requires Running() && size > 0
      modifies this`w, ram`mem
      ensures Running() && w.rs == old(w.rs)
      ensures ptr == 0 ==> w == old(w) && ram.mem == old(ram.mem) && NoneOffers(w, size)
      ensures ptr != 0 ==> Ideal.Allocates(old(Heap()), size, ptr, Heap()) && InTier(w, ptr, GENERAL_KIND)
      ensures ptr != 0 ==> !NoneOffers(old(w), size)
      ensures ptr != 0 ==> ServedGeneral(old(Book()), Book(), size, ptr)
    {
      hide World, Valid, HeapOf, Closed, BytesKept, HeadersKept, PoolModel.Malloc, LiveSame, OutsideSame, Obtained,
           Tier, AlignUp, FirstFit;
      ghost var m, w0 := ram.mem, w;
      InWorld(m, poolList, w, small.s);
      ghost var g, i;
      ptr, g, i := ServeFromPools(ram, poolList, size, w.rs, w.ps);
      if ptr != 0 {
        ghost var b := w.rs[g].base;
        w := w.(ps := w.ps[b := PoolModel.Malloc(w.ps[b], i, size)], live := w.live[ptr := size]);
        ServeEffect(m, ram.mem, poolList, w0, w, small.s, g, i, size);
        small.Elsewhere(m, ram.mem, w0.rs, w.rs);
        ObtainedHeap(m, ram.mem, poolList, w0, w, small.s, ptr, size);
        assert w.rs[g] in w.rs;
        ServedNow(old(Book()), Book(), size, g, i, ptr);
      }
    }

    /**
     * The pools that there are come first: the newest that offers a block serves it from the front of its fitting free
     * blocks. A pool that had to be created for the request serves it too.
     */
    method GeneralMallocInternal(size: nat) returns (ptr: nat)
      requires Running() && size > 0
      modifies this`poolList, this`w, ram
      ensures Running() && Wider(old(w), w)
      ensures ptr == 0 ==> w == old(w) && ram.mem == old(ram.mem)
      ensures ptr != 0 ==> Ideal.Allocates(old(Heap()), size, ptr, Heap()) && InTier(w, ptr, GENERAL_KIND)
      ensures GeneralMalloced(old(Book()), Book(), size, ptr)
    {
      hide Running, HeapOf, Fresh, AlignUp, Offers, ServedGeneral, InTier, FirstFit;
      ghost var b0 := Book();
      ptr := Serve(size);
      if ptr == 0 {
        var actual := AlignUp(AlignUp(size, ALIGNMENT) + CANARY_SIZE, ALIGNMENT);
        SizesRound(size);
        MinAligned(actual);
        var pool;
        ghost var len;
        pool, len := CreatePool(POOL_GENERAL_SIZE + HEADER_SIZE + actual + MIN_BLOCK_SIZE);
        if pool == 0 {
          assert |b0.w.rs| < MAX_POOLS ==> GrownGeneral(b0, Book(), size, 0, len);
          return 0;
        }
        ghost var b1 := Book();
        NewPoolServes(b0.w, pool, len, size);
        ptr := Serve(size);
        GrownNow(b0, b1, Book(), pool, len, size, ptr);
      }
    }

    /** dam_general_free: the block is live, so none of the checks fails and the canary is intact. */
    method GeneralFree(ptr: nat, pool: nat, ghost g: nat) returns (r: FreeOutcome, ghost i: nat)
      requires Running() && ptr in w.live
      requires g < |w.rs| && w.rs[g].kind == GENERAL_KIND && w.rs[g].Has(ptr) && w.rs[g].base == pool
      modifies this`w, ram`mem
      ensures Running() && r == Freed(true)
      ensures Heap() == Ideal.Less(old(Heap()), ptr)
      ensures GeneralFreed(old(Book()), Book(), g, i, ptr)
      ensures w.rs == old(w.rs)
    {
      hide World, HeapOf, Closed, BytesKept, HeadersKept, PoolModel.Free, OthersSame, OutsideSame, Released, Rep,
           Canaries, Shape, Indexed, Snug;
      ghost var m, w0 := ram.mem, w;
      i := BlockOf(m, poolList, w, small.s, g, ptr);
      ghost var p := w.ps[pool];
      r := FreeInternal(ram, ptr, pool, ptr - HEADER_SIZE, p, i);
      w := w.(ps := w.ps[pool := PoolModel.Free(p, i)], live := w.live - {ptr});
      FreeEffect(m, ram.mem, poolList, w0, w, small.s, g, i, ptr);
      small.Elsewhere(m, ram.mem, w0.rs, w.rs);
      ReleasedHeap(m, ram.mem, w0, w, ptr);
    }

    /** The part of dam_general_realloc before the copy; the magic number of a live block is right. */
    method ReallocInsidePool(ptr: nat, size: nat, ghost g: nat) returns (done: bool, user: nat, ghost i: nat)
      requires Running() && ptr in w.live && 0 < size <= MAX_REQUEST
      requires g < |w.rs| && w.rs[g].kind == GENERAL_KIND && w.rs[g].Has(ptr)
      modifies this`w, ram`mem
      ensures Running() && FitsInPlace(old(w), g, i, ptr, size, done)
      ensures done ==> Ideal.Next(old(Heap()), Ideal.Realloc(ptr, size, ptr), Heap())
      ensures !done ==> ram.mem == old(ram.mem) && w == old(w) && user == w.live[ptr]
      ensures done ==> ResizedInside(old(Book()), Book(), g, i, ptr, size)
    {
      hide World, HeapOf, Closed, NotClosed, BytesKept, HeadersKept, Resize, OthersSame, OutsideSame, Rep, Canaries,
           Shape, Indexed, Snug, AlignUp, InPlace, HeaderAt;
      ghost var m, w0 := ram.mem, w;
      i := BlockOf(m, poolList, w, small.s, g, ptr);
      ghost var b := w.rs[g].base;
      ghost var p := w.ps[b];
      LiveHeader(m, p, i);
      var h := ram.ReadHeader(ptr - HEADER_SIZE);
      user := h.user;
      done := ReallocInPlace(ram, ptr, size, ptr - HEADER_SIZE, p, i);
      if done {
        w := w.(ps := w.ps[b := Resize(p, i, size)], live := w.live[ptr := size]);
        ResizeEffect(m, ram.mem, poolList, w0, w, small.s, g, i, ptr, size);
        small.Elsewhere(m, ram.mem, w0.rs, w.rs);
        ResizedHeap(m, ram.mem, poolList, w0, w, small.s, ptr, size);
      }
    }

    // ----- the small tier

    /** create_small_pool, as the list of pools sees it. */
    method CreateClassPool(c: nat) returns (pool: nat)
      requires Running() && c < CLASSES
      modifies this`poolList, this`w, ram, small`freeList, small`s
      ensures Running() && Heap() == old(Heap()) && Wider(old(w), w) && StillUsed(old(small.s), small.s)
      ensures pool == 0 ==> Book() == old(Book()).Asked(PoolBytes(c), false)
      ensures pool != 0 ==> small.s.central[c] != [] && Carved(old(Book()), Book(), c, pool)
    {
      hide World, HeapOf, Closed, BytesKept, HeadersKept, Grew, Registered, Chains, Statuses, Geometry, Counted,
           PoolBytes, CarvedList, PoolAt;
      ghost var m, w0, head0, s0 := ram.mem, w, poolList, small.s;
      InWorld(m, poolList, w, small.s);
      pool, poolList := small.CreateSmallPool(ram, poolList, c, w.rs);
      if pool != 0 {
        ghost var r := Region(pool, PoolBytes(c), SMALL_KIND);
        w := w.(rs := [r] + w.rs);
        PoolNotEmpty(c);
        CarveEffect(m, ram.mem, head0, poolList, w0, w, s0, small.s, r);
        NullNotLive(m, head0, w0, s0);
        SameHeap(m, ram.mem, w0, w, 0);
      }
    }

    /** The front of the central list of class c is handed out. */
    method FromCentral(c: nat, size: nat) returns (ptr: nat)
      requires Running() && c < CLASSES && small.s.central[c] != [] && 0 < size <= ClassSize(c)
      modifies this`w, ram`mem, small`freeList, small`s
      ensures Running() && Ideal.Allocates(old(Heap()), size, ptr, Heap()) && ptr != 0
      ensures w.rs == old(w.rs) && StillUsed(old(small.s), small.s)
      ensures small.s == PopCentral(old(small.s), c) && InTier(w, ptr, SMALL_KIND)
      ensures ptr >= SMALL_HEADER_SIZE && InUse(small.s, c, ptr - SMALL_HEADER_SIZE)
      ensures ptr == old(small.s).central[c][0] + SMALL_HEADER_SIZE
      ensures Book() == old(Book()).Holding(ptr, size).(s := PopCentral(old(small.s), c))
    {
      hide World, HeapOf, Closed, BytesKept, Chains, Statuses, Geometry, Counted, Obtained, OnlyAt, Binned, Owned,
           InTier;
      ghost var m, w0, s0 := ram.mem, w, small.s;
      InWorld(m, poolList, w, small.s);
      var block := small.TakeCentral(ram, c, w.rs);
      ptr := block + SMALL_HEADER_SIZE;
      w := w.(live := w.live[ptr := size]);
      TakeEffect(m, ram.mem, poolList, w0, w, s0, small.s, c, block, size);
      CarvedInTier(ram.mem, poolList, w, small.s, c, block);
      ObtainedHeap(m, ram.mem, poolList, w0, w, small.s, ptr, size);
    }

    /** The front of the thread's own bin of class c is handed out. */
    method FromBin(t: nat, c: nat, size: nat) returns (ptr: nat)
      requires Running() && t < |small.cell| && c < CLASSES && Bin(small.s.bins, t, c) != [] && 0 < size <= ClassSize(c)
      modifies this`w, ram`mem, small`heads, small`counts, small`s
      ensures Running() && Ideal.Allocates(old(Heap()), size, ptr, Heap()) && ptr != 0
      ensures w.rs == old(w.rs) && StillUsed(old(small.s), small.s)
      ensures small.s == PopBin(old(small.s), t, c) && InTier(w, ptr, SMALL_KIND)
      ensures ptr >= SMALL_HEADER_SIZE && InUse(small.s, c, ptr - SMALL_HEADER_SIZE)
      ensures ptr == Bin(old(small.s).bins, t, c)[0] + SMALL_HEADER_SIZE
      ensures Book() == old(Book()).Holding(ptr, size).(s := PopBin(old(small.s), t, c))
    {
      hide World, HeapOf, Closed, BytesKept, Chains, Statuses, Geometry, Counted, Obtained, OnlyAt, Binned, Owned,
           InTier;
      ghost var m, w0, s0 := ram.mem, w, small.s;
      InWorld(m, poolList, w, small.s);
      var block := small.TakeCached(ram, t, c, w.rs);
      ptr := block + SMALL_HEADER_SIZE;
      w := w.(live := w.live[ptr := size]);
      TakeEffect(m, ram.mem, poolList, w0, w, s0, small.s, c, block, size);
      CarvedInTier(ram.mem, poolList, w, small.s, c, block);
      ObtainedHeap(m, ram.mem, poolList, w0, w, small.s, ptr, size);
    }

    method SmallMallocInternal(size: nat) returns (ptr: nat, ghost c: nat)
      requires Running() && 0 < size <= DAM_SMALL_MAX
      modifies this`poolList, this`w, ram, small`freeList, small`s
      ensures Running() && Wider(old(w), w) && StillUsed(old(small.s), small.s)
      ensures ptr == 0 ==> Heap() == old(Heap())
      ensures ptr != 0 ==> Ideal.Allocates(old(Heap()), size, ptr, Heap()) && InTier(w, ptr, SMALL_KIND)
      ensures LeastClass(c, size) && CentralTaken(old(Book()), Book(), c, size, ptr)
    {
      hide World, Heap, SmallTier.Ordered, PopCentral, Carve, FreshBlocks, Inv, CarvedList, PoolBytes, InTier;
      ghost var b0 := Book();
      var requested := small.SizeToClass(size);
      c := requested;
      RunningFormed();
      small.Fronts(ram.mem, w.rs, requested, 0);
      if small.freeList[requested] == 0 {
        var pool := CreateClassPool(requested);
        if pool == 0 {
          return 0, requested;
        }
        ghost var b1 := Book();
        RunningFormed();
        ptr := FromCentral(requested, size);
        CarvedNow(b0, b1, Book(), requested, size, ptr, pool);
      } else {
        ptr := FromCentral(requested, size);
      }
    }

    method SmallMalloc(t: nat, size: nat) returns (ptr: nat)
      requires Running() && Usable(t) && 0 < size <= DAM_SMALL_MAX
      modifies this`poolList, this`w, ram, small
      ensures Running() && Wider(old(w), w) && CellKept(old(small.cell), small.cell, t)
      ensures ptr == 0 ==> Heap() == old(Heap())
      ensures ptr != 0 ==> Ideal.Allocates(old(Heap()), size, ptr, Heap()) && InTier(w, ptr, SMALL_KIND)
      ensures SmallMalloced(old(Book()), Book(), t, size, ptr)
    {
      hide World, Heap, SmallTier.Ordered, PopBin, InUse, CentralTaken, InTier;
      ghost var b0 := Book();
      var c := small.SizeToClass(size);
      var got := AskCache(t);
      ghost var b1 := Book();
      small.Fronts(ram.mem, w.rs, c, t);
      RunningFormed();
      if got == Ready && small.heads[t][c] != 0 {
        ptr := FromBin(t, c, size);
        assert ServedByClass(b1, Book(), t, c, size, ptr);
      } else {
        ghost var d;
        ptr, d := SmallMallocInternal(size);
        LeastUnique(c, d, size);
        assert ServedByClass(b1, Book(), t, c, size, ptr);
      }
      assert CacheAsked(b0, b1, t) && LeastClass(c, size);
    }

    /** dam_get_thread_cache. */
    method AskCache(t: nat) returns (got: Got)
      requires Running() && Usable(t)
      modifies small`cell, ram`maps
      ensures Running() && Heap() == old(Heap()) && (got == Ready <==> small.cell[t] == Cache)
      ensures CacheAsked(old(Book()), Book(), t) && CellKept(old(small.cell), small.cell, t)
    {
      hide World, SmallTier.Ordered;
      got := small.GetThreadCache(t, ram, ram.mem, w.rs);
    }

    lemma RunningFormed()
      requires Running()
      ensures Formed(small.s) && |small.s.bins| == |small.cell|
    {
      hide World, Chains, Statuses, Geometry, Counted, Binned, Owned;
    }

    method SmallFreeInternal(ptr: nat, ghost c: nat)
      requires Running() && ptr >= SMALL_HEADER_SIZE && InUse(small.s, c, ptr - SMALL_HEADER_SIZE)
      modifies this`w, ram`mem, small`freeList, small`s
      ensures Running() && Heap() == Ideal.Less(old(Heap()), ptr)
      ensures InUse(old(small.s), c, ptr - SMALL_HEADER_SIZE) && Formed(old(small.s))
              && small.s == PushCentral(old(small.s), c, ptr - SMALL_HEADER_SIZE)
      ensures GivenToCentral(old(Book()), Book(), c, ptr)
      ensures w.rs == old(w.rs)
    {
      hide World, HeapOf, Closed, BytesKept, Chains, Statuses, Geometry, Counted, Released, OnlyAt, Binned, Owned;
      ghost var m, w0, s0 := ram.mem, w, small.s;
      InWorld(m, poolList, w, small.s);
      LiveCarved(s0, c, ptr - SMALL_HEADER_SIZE);
      var done := small.GiveCentral(ram, ptr - SMALL_HEADER_SIZE, c, w.rs);
      w := w.(live := w.live - {ptr});
      GiveEffect(m, ram.mem, poolList, w0, w, s0, small.s, c, ptr - SMALL_HEADER_SIZE);
      ReleasedHeap(m, ram.mem, w0, w, ptr);
    }

    method ToBin(t: nat, ptr: nat, ghost c: nat)
      requires Running() && ptr >= SMALL_HEADER_SIZE && InUse(small.s, c, ptr - SMALL_HEADER_SIZE)
      requires t < |small.cell| && small.cell[t] == Cache && |Bin(small.s.bins, t, c)| < MAX_CACHED
      modifies this`w, ram`mem, small`heads, small`counts, small`s
      ensures Running() && Heap() == Ideal.Less(old(Heap()), ptr)
      ensures InUse(old(small.s), c, ptr - SMALL_HEADER_SIZE) && Formed(old(small.s)) && t < |old(small.s).bins|
      ensures small.s == PushBin(old(small.s), t, c, ptr - SMALL_HEADER_SIZE)
      ensures Book() == old(Book()).Dropping(ptr).(s := PushBin(old(small.s), t, c, ptr - SMALL_HEADER_SIZE))
      ensures w.rs == old(w.rs)
    {
      hide World, HeapOf, Closed, BytesKept, Chains, Statuses, Geometry, Counted, Released, OnlyAt, Binned, Owned;
      ghost var m, w0, s0 := ram.mem, w, small.s;
      InWorld(m, poolList, w, small.s);
      LiveCarved(s0, c, ptr - SMALL_HEADER_SIZE);
      small.GiveCached(ram, t, ptr - SMALL_HEADER_SIZE, c, w.rs);
      w := w.(live := w.live - {ptr});
      GiveEffect(m, ram.mem, poolList, w0, w, s0, small.s, c, ptr - SMALL_HEADER_SIZE);
      ReleasedHeap(m, ram.mem, w0, w, ptr);
    }

    /** The class in the header of an allocation in a small pool. */
    method ReadClass(ptr: nat, ghost g: nat) returns (c: nat)
      requires Running() && g < |w.rs| && w.rs[g].kind == SMALL_KIND && w.rs[g].Has(ptr) && ptr in w.live
      ensures c < CLASSES && ptr > SMALL_HEADER_SIZE && InUse(small.s, c, ptr - SMALL_HEADER_SIZE)
              && w.live[ptr] <= ClassSize(c)
    {
      hide World, Chains, Geometry, Counted, Binned, Owned, SmallAt;
      ghost var d := SmallBlock(ram.mem, poolList, w, small.s, g, ptr);
      InWorld(ram.mem, poolList, w, small.s);
      SmallHeaderMapped(ram.mem, w.rs, small.s, d, ptr - SMALL_HEADER_SIZE);
      StatusOf(ram.mem, small.s, d, ptr - SMALL_HEADER_SIZE);
      var h := ram.ReadSmall(ptr - SMALL_HEADER_SIZE);
      c := h.cls;
    }

    method SmallFree(t: nat, ptr: nat, ghost g: nat)
      requires Running() && Usable(t)
      requires g < |w.rs| && w.rs[g].kind == SMALL_KIND && w.rs[g].Has(ptr) && ptr in w.live
      modifies this`w, ram, small
      ensures Running() && CellKept(old(small.cell), small.cell, t)
      ensures Heap() == Ideal.Less(old(Heap()), ptr) && SmallFreed(old(Book()), Book(), t, ptr)
      ensures w.rs == old(w.rs)
    {
      hide World, Heap, SmallTier.Ordered, PushBin, PushCentral;
      ghost var b0 := Book();
      var c := ReadClass(ptr, g);
      var got := AskCache(t);
      ghost var b1 := Book();
      RunningFormed();
      small.Fronts(ram.mem, w.rs, c, t);
      if got == Ready && small.counts[t][c] < MAX_CACHED {
        ToBin(t, ptr, c);
      } else {
        SmallFreeInternal(ptr, c);
      }
      assert CacheAsked(b0, b1, t) && GivenToClass(b1, Book(), t, c, ptr);
    }

    // ----- the direct tier

    method DirectMalloc(size: nat) returns (ptr: nat)
      requires Running() && DAM_GENERAL_MAX < size <= MAX_REQUEST
      modifies this`poolList, this`w, ram
      ensures Running() && Wider(old(w), w)
      ensures ptr == 0 ==> Heap() == old(Heap())
      ensures ptr != 0 ==> Ideal.Allocates(old(Heap()), size, ptr, Heap()) && InTier(w, ptr, DIRECT_KIND)
      ensures ptr != 0 ==> forall j :: 0 <= j < size ==> Heap().cells[ptr][j] == 0
      ensures DirectMalloced(old(Book()), Book(), size, ptr)
    {
      hide World, HeapOf, Closed, BytesKept, HeadersKept, Grew, Registered, Obtained, MappingSize, MappingSize64,
           Records, PoolAt;
      ghost var m, w0, head0 := ram.mem, w, poolList;
      InWorld(m, poolList, w, small.s);
      MappingHolds(size);
      MappingFits(size);
      ptr, poolList := DirectMallocInternal(ram, poolList, size, w.rs);
      if ptr != 0 {
        ghost var base, total := ptr - DIRECT_PREFIX, MappingSize(size);
        w := Tiers([Region(base, total, DIRECT_KIND)] + w.rs, w.ps, w.ds[base := size], w.live[ptr := size]);
        DirectAddEffect(m, ram.mem, head0, poolList, w0, w, small.s, base, total, size);
        small.Elsewhere(m, ram.mem, w0.rs, w.rs);
        ObtainedHeap(m, ram.mem, poolList, w0, w, small.s, ptr, size);
        CellAt(ram.mem, w, ptr);
        assert w.rs[0] in w.rs && w.rs[0].Has(ptr);
      }
    }

    method DirectFree(ptr: nat, ghost k: nat)
      requires Running() && k < |w.rs| && w.rs[k].kind == DIRECT_KIND && w.rs[k].Has(ptr) && ptr in w.live
      modifies this`poolList, this`w, ram`mem
      ensures Running() && Heap() == Ideal.Less(old(Heap()), ptr)
      ensures DirectFreed(old(Book()), Book(), k, ptr)
      ensures Wider(w, old(w))
    {
      hide World, HeapOf, Closed, BytesKept, HeadersKept, Registered, Released, Without, Kept;
      ghost var m, w0, head0 := ram.mem, w, poolList;
      InWorld(m, poolList, w, small.s);
      FewerPools(w.rs, k);
      poolList := DirectFreeInternal(ram, poolList, ptr, w.rs, k);
      w := Tiers(Without(w.rs, k), w.ps, w.ds, w.live - {ptr});
      DirectRemoveEffect(m, ram.mem, head0, poolList, w0, w, small.s, k, ptr);
      small.Elsewhere(m, ram.mem, w0.rs, w.rs);
      ReleasedHeap(m, ram.mem, w0, w, ptr);
    }

    // ----- copying

    lemma InHeap(p: nat)
      ensures p in Heap().cells <==> p in w.live
      ensures p in w.live ==> |Heap().cells[p]| == w.live[p]
    {
    }

    /** memcpy of n bytes into the allocation to. */
    method CopyInto(to: nat, from: nat, n: nat)
      requires Running() && to in w.live && from in w.live && n <= w.live[to]
               && Ideal.Min(w.live[from], w.live[to]) <= n
      requires Mapped(ram.mem, from, n) && Disjoint(to, w.live[to], from, n)
      modifies ram`mem
      ensures Running()
      ensures var s := Heap().cells[to];
              to in Heap().cells && |s| == w.live[to] && Heap() == Ideal.With(old(Heap()), to, s)
              && Ideal.Keeps(old(Heap()).cells[from], s)
    {
      hide World, Closed, BytesKept, HeadersKept, SmallTier.Ordered;
      ghost var m := ram.mem;
      LiveMapped(m, poolList, w, small.s, to);
      ram.Copy(to, from, n);
      PayloadStep(m, ram.mem, poolList, w, small.s, to);
      small.Elsewhere(m, ram.mem, w.rs, w.rs);
      CopiedHeap(m, ram.mem, w, to, from, n);
    }
  
    // ----- the calls of a client

    /** dam_init, on a platform whose page size is PAGE_SIZE. */
    method Init()
      requires Valid()
      modifies this, ram, small`blockSize, small`freeList
      ensures Valid() && initialized && Heap() == old(Heap())
      ensures !old(initialized) ==> w.rs == [] || InitialPool(w)
      ensures old(initialized) ==> w == old(w) && ram.mem == old(ram.mem) && small.blockSize == old(small.blockSize)
                                   && small.freeList == old(small.freeList)
      ensures if old(initialized) then Book() == old(Book()) else Initialised(old(Book()), Book())
    {
      hide HeapOf, Registered, Chains, Statuses, Geometry, Counted;
      if initialized {
        return;
      }
      NothingYet(ram.mem, |small.cell|);
      small.Init(ram.mem, []);
      ghost var b0 := Book();
      var pool;
      ghost var len;
      pool, len := CreatePool(MIB);
      if pool != 0 {
        FirstPool(b0.w, w, pool);
      }
      initialized := true;
    }

    method Malloc(t: nat, size: nat) returns (ptr: nat)
      requires Valid() && t < |small.cell| && (0 < size <= DAM_SMALL_MAX ==> Usable(t)) && size <= MAX_REQUEST
      modifies this, ram, small
      ensures Valid() && initialized && Wider(old(w), w)
      ensures Ideal.Next(old(Heap()), Ideal.Malloc(size, ptr), Heap())
      ensures CellKept(old(small.cell), small.cell, t)
      ensures ptr != 0 ==> InTier(w, ptr, LayerForSize(size))
      ensures size > DAM_SMALL_MAX ==> small.s == old(small.s)
      ensures size == 0 || size > DAM_SMALL_MAX ==> small.cell == old(small.cell)
      ensures ptr != 0 && size > DAM_GENERAL_MAX ==> forall j :: 0 <= j < size ==> Heap().cells[ptr][j] == 0
      ensures MallocCall(old(Book()), Book(), old(initialized), t, size, ptr)
    {
      hide Running, HeapOf, SmallMalloced, GeneralMalloced, DirectMalloced, Initialised, InTier;
      ghost var b0 := Book();
      if !initialized {
        Init();
      }
      assert Prepared(b0, Book(), old(initialized));
      if size == 0 {
        return 0;
      }
      if size <= DAM_SMALL_MAX {
        ptr := SmallMalloc(t, size);
      } else if size <= DAM_GENERAL_MAX {
        ptr := GeneralMallocInternal(size);
      } else {
        ptr := DirectMalloc(size);
      }
    }
  
    /** A pointer that is not NULL must be an allocation, or lie outside all the pools. */
    method Free(t: nat, ptr: nat)
      requires Valid() && t < |small.cell| && (InSmallPool(w, ptr) ==> Usable(t))
      requires ptr == 0 || ptr in w.live || Foreign(w, ptr)
      modifies this`poolList, this`w, ram, small
      ensures Valid() && Ideal.Next(old(Heap()), Ideal.Free(ptr), Heap())
      ensures CellKept(old(small.cell), small.cell, t)
      ensures !InSmallPool(old(w), ptr) ==> small.cell == old(small.cell)
      ensures FreedCall(old(Book()), Book(), t, ptr)
      ensures Wider(w, old(w))
    {
      hide Running, HeapOf, World, SmallFreed, GeneralFreed, DirectFreed, InTier;
      if ptr == 0 {
        NotThere(ptr);
        return;
      }
      PoolList();
      var pool;
      ghost var g;
      pool, g := PoolFromPtr(ram, poolList, ptr, w.rs);
      if pool == 0 {
        NotThere(ptr);
        return;
      }
      KindOf(ptr, g);
      var own := ram.ReadPool(pool);
      if own.kind == SMALL_KIND {
        SmallFree(t, ptr, g);
      } else if own.kind == GENERAL_KIND {
        var r;
        ghost var i;
        r, i := GeneralFree(ptr, pool, g);
      } else if own.kind == DIRECT_KIND {
        DirectFree(ptr, g);
      }
    }

    lemma PoolList()
      requires Valid()
      ensures Registered(ram.mem, poolList, w.rs)
    {
      hide Registered, SmallTier.Ordered;
      if initialized {
        InWorld(ram.mem, poolList, w, small.s);
      } else {
        NothingYet(ram.mem, |small.cell|);
        InWorld(ram.mem, poolList, w, small.s);
      }
    }

    /** Freeing NULL, or a pointer outside all the pools, changes nothing. */
    lemma NotThere(ptr: nat)
      requires Valid() && (ptr == 0 || Foreign(w, ptr))
      ensures ptr !in w.live && Ideal.Less(Heap(), ptr) == Heap()
    {
      hide World, Closed;
      if initialized {
        ForeignDead(ram.mem, poolList, w, small.s, ptr);
      }
      assert Heap().cells - {ptr} == Heap().cells;
    }

    /** The pool of an address says of which tier it is. */
    lemma KindOf(ptr: nat, g: nat)
      requires Valid() && g < |w.rs| && w.rs[g].Has(ptr)
      ensures Running() && !Foreign(w, ptr)
      ensures PoolAt(ram.mem, w.rs[g].base).kind == w.rs[g].kind && Mapped(ram.mem, w.rs[g].base, POOL_HEADER_SIZE)
      ensures w.rs[g].kind == SMALL_KIND || w.rs[g].kind == GENERAL_KIND || w.rs[g].kind == DIRECT_KIND
      ensures InSmallPool(w, ptr) <==> w.rs[g].kind == SMALL_KIND
    {
      hide World;
      KindAt(ram.mem, poolList, w, small.s, g, ptr);
    }
  
    /** The old pool of an allocation is still there. */
    lemma StillThere(w0: Tiers, r: Region, ptr: nat) returns (g: nat)
      requires Running() && r in w0.rs && r.Has(ptr) && Wider(w0, w)
      ensures g < |w.rs| && w.rs[g] == r && (InSmallPool(w, ptr) <==> r.kind == SMALL_KIND)
    {
      hide World, SmallTier.Ordered;
      g :| 0 <= g < |w.rs| && w.rs[g] == r;
      KindAt(ram.mem, poolList, w, small.s, g, ptr);
    }

    /** The last case of dam_general_realloc: a new allocation, a copy, and the old one is freed. */
    method MoveGeneral(t: nat, ptr: nat, size: nat, user: nat, ghost g: nat) returns (q: nat)
      requires Valid() && initialized && t < |small.cell| && (size <= DAM_SMALL_MAX ==> Usable(t))
               && 0 < size <= MAX_REQUEST && ptr in w.live && user == w.live[ptr]
      requires g < |w.rs| && w.rs[g].kind == GENERAL_KIND && w.rs[g].Has(ptr)
      modifies this, ram, small
      ensures Valid() && Ideal.Next(old(Heap()), Ideal.Realloc(ptr, size, q), Heap())
      ensures CellKept(old(small.cell), small.cell, t) && q != ptr
      ensures size > DAM_SMALL_MAX ==> small.cell == old(small.cell)
      ensures Relocated(old(Book()), Book(), t, ptr, size, q)
      ensures q != 0 ==> InTier(w, q, LayerForSize(size))
      ensures initialized
    {
      hide Running, HeapOf, World, Ideal.Sound, Ideal.Allocates, Ideal.Keeps, Window, Malloced, MallocCall,
           AllocationFreed, Relocated, InTier;
      ghost var h0, w0, b0 := Heap(), w, Book();
      SoundState();
      InHeap(ptr);
      NullLess(ptr);
      q := Malloc(t, size);
      CalledNow(b0, Book(), t, size, q);
      if q != 0 {
        ghost var h1 := Heap();
        MovedApart(h0, h1, ptr, size, q);
        ghost var k := StillThere(w0, w0.rs[g], ptr);
        InHeap(ptr);
        InHeap(q);
        var n := if user < size then user else size;
        SpaceBetween(ptr, q);
        CopyInto(q, ptr, n);
        ghost var s := Heap().cells[q];
        ghost var b1, w1 := Book(), w;
        PoolList();
        KindOf(ptr, k);
        Free(t, ptr);
        OwnedAgain(w1, q, LayerForSize(size));
        MovedNow(b0, b1, Book(), t, ptr, size, q);
        Ideal.MoveNext(h0, h1, ptr, size, q, s);
      } else {
        StayedNow(b0, Book(), t, ptr, size);
      }
    }

    /** Where an allocation was put it stays when others are freed. */
    lemma OwnedAgain(w1: Tiers, q: nat, kind: nat)
      requires Valid() && q in Heap().cells && Separate(w1.rs) && Wider(w, w1) && InTier(w1, q, kind)
      ensures InTier(w, q, kind)
    {
      hide World, SmallTier.Ordered, Wider, InTier;
      InHeap(q);
      if !initialized {
        return;
      }
      Placed(ram.mem, poolList, w, small.s, q);
      SameTier(w1, w, q, kind);
    }

    lemma NullLess(ptr: nat)
      requires Valid() && ptr in w.live
      ensures ptr != 0
    {
      hide World;
      NullNotLive(ram.mem, poolList, w, small.s);
    }

    lemma SpaceBetween(p: nat, q: nat)
      requires Valid() && p in w.live && q in w.live && p != q
      ensures Disjoint(q, w.live[q], p, w.live[p]) && Mapped(ram.mem, p, w.live[p])
    {
      hide World;
      WindowsDisjoint(ram.mem, poolList, w, small.s, p, q);
      LiveMapped(ram.mem, poolList, w, small.s, p);
    }

    /** Whether a realloc stays in place can be read off the block of the allocation, whichever index it has. */
    lemma InPlaceOrNot(ptr: nat, size: nat, g: nat)
      requires Running() && g < |w.rs| && w.rs[g].kind == GENERAL_KIND && w.rs[g].Has(ptr)
      ensures forall i: nat {:trigger FitsInPlace(w, g, i, ptr, size, false)} ::
                FitsInPlace(w, g, i, ptr, size, false) ==> !StaysInPlace(w, ptr, size)
    {
      hide World, SmallTier.Ordered, FitsInPlace, StaysInPlace;
      forall i: nat | FitsInPlace(w, g, i, ptr, size, false) ensures !StaysInPlace(w, ptr, size) {
        NotInPlace(ram.mem, poolList, w, small.s, g, i, ptr, size, false);
      }
    }

    lemma StaysGeneral(ptr: nat, size: nat, g: nat)
      requires Running() && g < |w.rs| && w.rs[g].Has(ptr)
      ensures StaysInPlace(w, ptr, size) ==> w.rs[g].kind == GENERAL_KIND
    {
      hide World, SmallTier.Ordered, StaysInPlace;
      if StaysInPlace(w, ptr, size) {
        OnlyGeneralStays(ram.mem, poolList, w, small.s, g, ptr, size);
      }
    }

    method GeneralRealloc(t: nat, ptr: nat, size: nat, ghost g: nat) returns (q: nat, ghost i: nat)
      requires Valid() && initialized && t < |small.cell| && 0 < size <= MAX_REQUEST && ptr in w.live
      requires g < |w.rs| && w.rs[g].kind == GENERAL_KIND && w.rs[g].Has(ptr)
      requires size <= DAM_SMALL_MAX && !StaysInPlace(w, ptr, size) ==> Usable(t)
      modifies this, ram, small
      ensures Valid() && Ideal.Next(old(Heap()), Ideal.Realloc(ptr, size, q), Heap())
      ensures CellKept(old(small.cell), small.cell, t)
      ensures size > DAM_SMALL_MAX || StaysInPlace(old(w), ptr, size) ==> small.cell == old(small.cell)
      ensures FitsInPlace(old(w), g, i, ptr, size, q == ptr)
      ensures q != 0 && q != ptr ==> InTier(w, q, LayerForSize(size))
      ensures GeneralReallocated(old(Book()), Book(), t, g, i, ptr, size, q)
      ensures initialized
    {
      hide Running, HeapOf, Ideal.Next, InPlace, Relocated, InTier, Resize;
      var done, user;
      ghost var w0 := w;
      InPlaceOrNot(ptr, size, g);
      done, user, i := ReallocInsidePool(ptr, size, g);
      if done {
        return ptr, i;
      }
      q := MoveGeneral(t, ptr, size, user, g);
    }

    /** The block of an allocation in a small pool is mapped and clear of the others. */
    lemma SpaceAround(ptr: nat, c: nat, q: nat)
      requires Running() && ptr >= SMALL_HEADER_SIZE && InUse(small.s, c, ptr - SMALL_HEADER_SIZE) && q in w.live
               && q != ptr
      ensures Mapped(ram.mem, ptr, ClassSize(c)) && Disjoint(q, w.live[q], ptr, ClassSize(c))
    {
      hide World, SmallTier.Ordered;
      InOrder(ram.mem, poolList, w, small.s);
      LiveCarved(small.s, c, ptr - SMALL_HEADER_SIZE);
      BlockMissed(ram.mem, poolList, w, small.s, q, c, ptr - SMALL_HEADER_SIZE);
    }

    /**
     * The first case of dam_small_realloc: the request is too large for the tier. strayed says that the free at its
     * end, which comes only after a malloc that succeeded, followed MAP_FAILED as the cache of thread t; nothing is
     * known from there on.
     */
    method MoveSmall(t: nat, ptr: nat, size: nat, c: nat, ghost g: nat) returns (q: nat, strayed: bool)
      requires Valid() && initialized && t < |small.cell| && DAM_SMALL_MAX < size <= MAX_REQUEST && ptr in w.live
      requires g < |w.rs| && w.rs[g].kind == SMALL_KIND && w.rs[g].Has(ptr) && ptr > SMALL_HEADER_SIZE && c < CLASSES
      requires InUse(small.s, c, ptr - SMALL_HEADER_SIZE) && w.live[ptr] <= ClassSize(c)
      modifies this, ram, small
      ensures strayed <==> q != 0 && old(small.cell)[t] == MapFailed
      ensures !strayed ==> Valid() && Ideal.Next(old(Heap()), Ideal.Realloc(ptr, size, q), Heap())
      ensures !strayed ==> CellKept(old(small.cell), small.cell, t) && q != ptr
      ensures !strayed ==> Relocated(old(Book()), Book(), t, ptr, size, q)
      ensures !strayed && q != 0 ==> InTier(w, q, LayerForSize(size))
      ensures initialized
    {
      hide Running, HeapOf, World, Ideal.Sound, Ideal.Allocates, Ideal.Keeps, Window, InUse, Malloced, MallocCall,
           AllocationFreed, Relocated, InTier;
      ghost var h0, w0, b0 := Heap(), w, Book();
      strayed := false;
      SoundState();
      InHeap(ptr);
      NullLess(ptr);
      q := Malloc(t, size);
      CalledNow(b0, Book(), t, size, q);
      if q != 0 {
        ghost var h1 := Heap();
        MovedApart(h0, h1, ptr, size, q);
        InHeap(ptr);
        InHeap(q);
        SpaceAround(ptr, c, q);
        CopyInto(q, ptr, ClassSize(c));
        ghost var s := Heap().cells[q];
        if small.cell[t] == MapFailed {
          strayed := true;
          return;
        }
        ghost var k := StillThere(w0, w0.rs[g], ptr);
        ghost var b1, w1 := Book(), w;
        PoolList();
        KindOf(ptr, k);
        Free(t, ptr);
        OwnedAgain(w1, q, LayerForSize(size));
        MovedNow(b0, b1, Book(), t, ptr, size, q);
        Ideal.MoveNext(h0, h1, ptr, size, q, s);
      } else {
        StayedNow(b0, Book(), t, ptr, size);
      }
    }

    /** The last case of dam_small_realloc: a block of a larger class. */
    method GrowSmall(ptr: nat, size: nat, c: nat) returns (q: nat)
      requires Running() && 0 < size <= DAM_SMALL_MAX && ptr in w.live && ptr > SMALL_HEADER_SIZE && c < CLASSES
      requires InUse(small.s, c, ptr - SMALL_HEADER_SIZE) && w.live[ptr] <= ClassSize(c) < size
      modifies this`poolList, this`w, ram, small`freeList, small`s
      ensures Running() && Ideal.Next(old(Heap()), Ideal.Realloc(ptr, size, q), Heap())
      ensures q != ptr && GrownClass(old(Book()), Book(), c, ptr, size, q)
      ensures q != 0 ==> InTier(w, q, SMALL_KIND)
    {
      hide Running, HeapOf, World, Ideal.Sound, Ideal.Allocates, Ideal.Keeps, Window, CentralTaken, PushCentral, InTier;
      ghost var h0, b0 := Heap(), Book();
      RunningNull(ptr);
      RunningSound();
      InHeap(ptr);
      ghost var d;
      q, d := SmallMallocInternal(size);
      ghost var b1 := Book();
      if q != 0 {
        ghost var h1 := Heap();
        MovedApart(h0, h1, ptr, size, q);
        InHeap(ptr);
        InHeap(q);
        assert InUse(small.s, c, ptr - SMALL_HEADER_SIZE);
        SpaceAround(ptr, c, q);
        CopyInto(q, ptr, ClassSize(c));
        ghost var s, w1 := Heap().cells[q], w;
        SmallFreeInternal(ptr, c);
        StillInTier(w1, w, q);
        Ideal.MoveNext(h0, h1, ptr, size, q, s);
      }
      assert CentralTaken(b0, b1, d, size, q);
    }

    lemma RunningNull(ptr: nat)
      requires Running() && ptr in w.live
      ensures ptr != 0
    {
      hide World;
      NullNotLive(ram.mem, poolList, w, small.s);
    }

    lemma RunningSound()
      requires Running()
      ensures Ideal.Sound(Heap())
    {
      hide World;
      SoundHeap(ram.mem, poolList, w, small.s);
    }

    /** The block is large enough: only what the client knows about its size changes. */
    ghost method ResizeSmall(ptr: nat, size: nat, c: nat)
      requires Running() && 0 < size <= ClassSize(c) && ptr in w.live && ptr > SMALL_HEADER_SIZE
      requires InUse(small.s, c, ptr - SMALL_HEADER_SIZE)
      modifies this`w
      ensures Running() && Ideal.Next(old(Heap()), Ideal.Realloc(ptr, size, ptr), Heap())
      ensures Book() == old(Book()).Holding(ptr, size)
    {
      hide World, HeapOf, Closed, NotClosed, SmallTier.Ordered;
      ghost var w0 := w;
      InOrder(ram.mem, poolList, w, small.s);
      LiveCarved(small.s, c, ptr - SMALL_HEADER_SIZE);
      w := w.(live := w.live[ptr := size]);
      SmallResizeEffect(ram.mem, poolList, w0, w, small.s, c, ptr - SMALL_HEADER_SIZE, size);
      ResizedHeap(ram.mem, ram.mem, poolList, w0, w, small.s, ptr, size);
    }

    method SmallRealloc(t: nat, ptr: nat, size: nat, ghost g: nat) returns (q: nat, strayed: bool)
      requires Valid() && initialized && t < |small.cell| && 0 < size <= MAX_REQUEST && ptr in w.live
      requires g < |w.rs| && w.rs[g].kind == SMALL_KIND && w.rs[g].Has(ptr)
      modifies this, ram, small
      ensures strayed <==> size > DAM_SMALL_MAX && q != 0 && old(small.cell)[t] == MapFailed
      ensures !strayed ==> Valid() && Ideal.Next(old(Heap()), Ideal.Realloc(ptr, size, q), Heap())
      ensures !strayed ==> CellKept(old(small.cell), small.cell, t)
      ensures size <= DAM_SMALL_MAX ==> small.cell == old(small.cell)
      ensures !strayed ==> exists c: nat {:trigger SmallReallocated(old(Book()), Book(), t, c, ptr, size, q)} ::
                             SmallReallocated(old(Book()), Book(), t, c, ptr, size, q)
      ensures !strayed && q != 0 && q != ptr ==> InTier(w, q, LayerForSize(size))
      ensures initialized
    {
      hide World, Heap, SmallTier.Ordered, Ideal.Next, InUse, InTier, Relocated, GrownClass;
      var c := ReadClass(ptr, g);
      strayed := false;
      ghost var b0 := Book();
      NullLess(ptr);
      KindOf(ptr, g);
      if size > DAM_SMALL_MAX {
        q, strayed := MoveSmall(t, ptr, size, c, g);
        assert !strayed ==> SmallReallocated(b0, Book(), t, c, ptr, size, q);
        return;
      }
      var requested := small.SizeToClass(size);
      if small.blockSize[requested] <= small.blockSize[c] {
        ResizeSmall(ptr, size, c);
        assert SmallReallocated(b0, Book(), t, c, ptr, size, ptr);
        return ptr, false;
      }
      q := GrowSmall(ptr, size, c);
      assert SmallReallocated(b0, Book(), t, c, ptr, size, q);
    }

    /** The malloc of a move out of a mapping: the source skips the routing when the request stays in the tier. */
    method MallocToMove(t: nat, size: nat) returns (q: nat)
      requires Valid() && initialized && t < |small.cell| && (size <= DAM_SMALL_MAX ==> Usable(t))
               && 0 < size <= MAX_REQUEST
      modifies this, ram, small
      ensures Running() && initialized && Wider(old(w), w) && CellKept(old(small.cell), small.cell, t)
      ensures size > DAM_SMALL_MAX ==> small.cell == old(small.cell)
      ensures q == 0 ==> Heap() == old(Heap())
      ensures q != 0 ==> Ideal.Allocates(old(Heap()), size, q, Heap()) && InTier(w, q, LayerForSize(size))
      ensures Malloced(old(Book()), Book(), t, size, q)
    {
      hide Running, HeapOf, MallocCall, SmallMalloced, GeneralMalloced, DirectMalloced, InTier, Ideal.Allocates;
      ghost var b0 := Book();
      if size <= DAM_GENERAL_MAX {
        q := Malloc(t, size);
        CalledNow(b0, Book(), t, size, q);
      } else {
        q := DirectMalloc(size);
      }
    }

    /** A move to a lower tier, or to a smaller or larger mapping. */
    method MoveDirect(t: nat, ptr: nat, size: nat, recorded: nat, ghost k: nat) returns (q: nat)
      requires Valid() && initialized && t < |small.cell| && (size <= DAM_SMALL_MAX ==> Usable(t))
               && 0 < size <= MAX_REQUEST && ptr in w.live
      requires k < |w.rs| && w.rs[k].kind == DIRECT_KIND && w.rs[k].Has(ptr)
      requires w.live[ptr] <= recorded && ptr + recorded <= w.rs[k].base + w.rs[k].size
      modifies this, ram, small
      ensures Valid() && Ideal.Next(old(Heap()), Ideal.Realloc(ptr, size, q), Heap())
      ensures CellKept(old(small.cell), small.cell, t) && q != ptr
      ensures size > DAM_SMALL_MAX ==> small.cell == old(small.cell)
      ensures Relocated(old(Book()), Book(), t, ptr, size, q)
      ensures q != 0 ==> InTier(w, q, LayerForSize(size))
      ensures initialized
    {
      hide Running, HeapOf, World, DirectFreed, FreedCall, Ideal.Sound, Ideal.Allocates, Ideal.Keeps, Window,
           MallocCall, AllocationFreed, Relocated, InTier, SmallMalloced, GeneralMalloced, DirectMalloced;
      ghost var h0, w0, b0 := Heap(), w, Book();
      SoundState();
      InHeap(ptr);
      NullLess(ptr);
      q := MallocToMove(t, size);
      if q != 0 {
        ghost var h1 := Heap();
        MovedApart(h0, h1, ptr, size, q);
        ghost var j := StillThere(w0, w0.rs[k], ptr);
        InHeap(ptr);
        InHeap(q);
        var n := if recorded < size then recorded else size;
        SpaceOfMapping(ptr, q, j);
        CopyInto(q, ptr, n);
        ghost var s := Heap().cells[q];
        ghost var b1, w1 := Book(), w;
        PoolList();
        KindOf(ptr, j);
        DirectFree(ptr, j);
        OwnedAgain(w1, q, LayerForSize(size));
        FreedMapping(b1, Book(), j, t, ptr);
        MovedNow(b0, b1, Book(), t, ptr, size, q);
        Ideal.MoveNext(h0, h1, ptr, size, q, s);
      } else {
        StayedNow(b0, Book(), t, ptr, size);
      }
    }

    lemma SpaceOfMapping(ptr: nat, q: nat, k: nat)
      requires Running() && k < |w.rs| && w.rs[k].kind == DIRECT_KIND && w.rs[k].Has(ptr) && ptr in w.live
               && q in w.live && q != ptr
      ensures Mapped(ram.mem, w.rs[k].base, w.rs[k].size) && Disjoint(q, w.live[q], w.rs[k].base, w.rs[k].size)
    {
      hide World, SmallTier.Ordered;
      MappingMissed(ram.mem, poolList, w, small.s, k, ptr, q);
      DirectRecord(ram.mem, poolList, w, small.s, k, ptr);
    }

    ghost method ResizeDirect(ptr: nat, size: nat, k: nat)
      requires Running() && k < |w.rs| && w.rs[k].kind == DIRECT_KIND && w.rs[k].Has(ptr) && ptr in w.live
               && size > DAM_GENERAL_MAX
      requires w.rs[k].base in w.ds && KeepsMapping(w.ds[w.rs[k].base], size)
      modifies this`w
      ensures Running() && Ideal.Next(old(Heap()), Ideal.Realloc(ptr, size, ptr), Heap())
      ensures Book() == old(Book()).Holding(ptr, size)
    {
      hide World, HeapOf, Closed, NotClosed, SmallTier.Ordered;
      ghost var w0 := w;
      w := w.(live := w.live[ptr := size]);
      DirectResizeEffect(ram.mem, poolList, w0, w, small.s, k, ptr, size);
      ResizedHeap(ram.mem, ram.mem, poolList, w0, w, small.s, ptr, size);
    }

    method ReadRecord(ptr: nat, ghost k: nat) returns (recorded: nat)
      requires Running() && k < |w.rs| && w.rs[k].kind == DIRECT_KIND && w.rs[k].Has(ptr) && ptr in w.live
      ensures w.rs[k].base in w.ds && recorded == w.ds[w.rs[k].base] < USER_SPACE
      ensures w.live[ptr] <= recorded && ptr + recorded <= w.rs[k].base + w.rs[k].size
      ensures ptr >= HEADER_SIZE && recorded == HeaderAt(ram.mem, ptr - HEADER_SIZE).size
    {
      hide World, SmallTier.Ordered, HeaderAt;
      DirectRecord(ram.mem, poolList, w, small.s, k, ptr);
      var h := ram.ReadHeader(ptr - HEADER_SIZE);
      recorded := h.size;
    }

    method DirectRealloc(t: nat, ptr: nat, size: nat, ghost k: nat) returns (q: nat)
      requires Valid() && initialized && t < |small.cell| && (size <= DAM_SMALL_MAX ==> Usable(t))
               && 0 < size <= MAX_REQUEST && ptr in w.live
      requires k < |w.rs| && w.rs[k].kind == DIRECT_KIND && w.rs[k].Has(ptr)
      modifies this, ram, small
      ensures Valid() && Ideal.Next(old(Heap()), Ideal.Realloc(ptr, size, q), Heap())
      ensures CellKept(old(small.cell), small.cell, t)
      ensures size > DAM_SMALL_MAX ==> small.cell == old(small.cell)
      ensures ptr >= HEADER_SIZE && old(w).rs[k].base in old(w).ds
      ensures q == ptr <==> size > DAM_GENERAL_MAX && KeepsMapping(old(w).ds[old(w).rs[k].base], size)
      ensures var n := old(HeaderAt(ram.mem, ptr - HEADER_SIZE).size);
              q == ptr <==> size > DAM_GENERAL_MAX && size <= n && 100 * size > SHRINK_PERCENTAGE * n
      ensures DirectReallocated(old(Book()), Book(), t, k, ptr, size, q)
      ensures q != 0 && q != ptr ==> InTier(w, q, LayerForSize(size))
      ensures initialized
    {
      hide Running, Heap, Ideal.Next, Relocated, InTier;
      var recorded := ReadRecord(ptr, k);
      if size <= DAM_GENERAL_MAX {
        q := MoveDirect(t, ptr, size, recorded, k);
        return;
      }
      ShrinkTestExact(recorded, size);
      if (size * 100) % U64 <= (recorded * SHRINK_PERCENTAGE) % U64 || size > recorded {
        q := MoveDirect(t, ptr, size, recorded, k);
        return;
      }
      ResizeDirect(ptr, size, k);
      return ptr;
    }

    /**
     * dam_realloc; size 0 is a free, and a pointer outside all the pools is refused. strayed says that thread t, whose
     * cache is MAP_FAILED, came to use it in the free that ends a move out of the small tier.
     */
    method Realloc(t: nat, ptr: nat, size: nat) returns (q: nat, strayed: bool)
      requires Valid() && t < |small.cell| && size <= MAX_REQUEST
      requires ReadsCache(w, ptr, size) && !LeavesSmall(w, ptr, size) ==> Usable(t)
      requires ptr == 0 || ptr in w.live || Foreign(w, ptr)
      modifies this, ram, small
      ensures strayed <==> LeavesSmall(old(w), ptr, size) && q != 0 && old(small.cell)[t] == MapFailed
      ensures !strayed ==> Valid() && Ideal.Next(old(Heap()), Ideal.Realloc(ptr, size, q), Heap())
      ensures !strayed ==> CellKept(old(small.cell), small.cell, t)
      ensures !ReadsCache(old(w), ptr, size) ==> small.cell == old(small.cell)
      ensures !strayed && ptr in old(w).live && size > 0 && q != 0 && q != ptr ==> InTier(w, q, LayerForSize(size))
      ensures !strayed ==> ReallocCall(old(Book()), Book(), old(initialized), t, ptr, size, q)
      ensures old(initialized) || ptr == 0 ==> initialized
    {
      hide Running, HeapOf, World, FitsInPlace, KeepsMapping, StaysInPlace, InTier, Ideal.Allocates, Ideal.Keeps,
           MallocCall, FreedCall, GeneralReallocated, SmallReallocated, DirectReallocated;
      ghost var b0 := Book();
      strayed := false;
      if ptr == 0 {
        NotThere(ptr);
        q := Malloc(t, size);
        return;
      }
      if size == 0 {
        Free(t, ptr);
        return 0, false;
      }
      PoolList();
      var pool;
      ghost var g;
      pool, g := PoolFromPtr(ram, poolList, ptr, w.rs);
      if pool == 0 {
        NotThere(ptr);
        return 0, false;
      }
      KindOf(ptr, g);
      var own := ram.ReadPool(pool);
      if own.kind == SMALL_KIND {
        q, strayed := SmallRealloc(t, ptr, size, g);
      } else if own.kind == GENERAL_KIND {
        ghost var i;
        q, i := GeneralRealloc(t, ptr, size, g);
        assert GeneralReallocated(b0, Book(), t, g, i, ptr, size, q);
      } else {
        StaysGeneral(ptr, size, g);
        q := DirectRealloc(t, ptr, size, g);
        assert DirectReallocated(b0, Book(), t, g, ptr, size, q);
      }
    }

    /** dam_calloc. Every byte that the client gets is zero, and when the product fits size_t it gets them all. */
    method Calloc(t: nat, count: nat, size: nat) returns (ptr: nat)
      requires Valid() && t < |small.cell| && (0 < Product(count, size) <= DAM_SMALL_MAX ==> Usable(t))
      requires Product(count, size) <= MAX_REQUEST
      modifies this, ram, small
      ensures Valid() && Ideal.Next(old(Heap()), Ideal.Calloc(1, Product(count, size), ptr), Heap())
      ensures count * size < U64 ==> Ideal.Next(old(Heap()), Ideal.Calloc(count, size, ptr), Heap())
      ensures CellKept(old(small.cell), small.cell, t)
      ensures MallocCall(old(Book()), Book(), old(initialized), t, Product(count, size), ptr)
      ensures ptr != 0 ==> InTier(w, ptr, LayerForSize(Product(count, size)))
      ensures initialized
    {
      hide Running, Heap, World, Ideal.Next, Product, MallocCall, InTier;
      ghost var h0 := Heap();
      var total := Product(count, size);
      ptr := MallocCleared(t, total);
      ProductFits(count, size);
      if count * size < U64 {
        Ideal.CallocAs(h0, count, size, total, ptr, Heap());
      }
    }

    method MallocCleared(t: nat, total: nat) returns (ptr: nat)
      requires Valid() && t < |small.cell| && (0 < total <= DAM_SMALL_MAX ==> Usable(t)) && total <= MAX_REQUEST
      modifies this, ram, small
      ensures Valid() && Ideal.Next(old(Heap()), Ideal.Calloc(1, total, ptr), Heap())
      ensures CellKept(old(small.cell), small.cell, t)
      ensures MallocCall(old(Book()), Book(), old(initialized), t, total, ptr)
      ensures ptr != 0 ==> InTier(w, ptr, LayerForSize(total))
      ensures initialized
    {
      hide Running, HeapOf, World, Ideal.Next, MallocCall, InTier;
      ghost var h0 := Heap();
      ptr := Malloc(t, total);
      ghost var h1 := Heap();
      Ideal.AnsweredCell(h0, total, ptr, h1);
      if ptr == 0 {
        return;
      }
      if total <= DAM_GENERAL_MAX {
        InHeap(ptr);
        Clear(ptr, total);
      }
      Ideal.ClearedNext(h0, total, ptr, h1, Heap().cells[ptr]);
    }

    /** memset of an allocation to zero. */
    method Clear(ptr: nat, n: nat)
      requires Running() && ptr in w.live && n == w.live[ptr]
      modifies ram`mem
      ensures Running() && ptr in Heap().cells && |Heap().cells[ptr]| == n
      ensures Heap() == Ideal.With(old(Heap()), ptr, Heap().cells[ptr])
      ensures forall j :: 0 <= j < n ==> Heap().cells[ptr][j] == 0
    {
      hide World, Closed, BytesKept, HeadersKept, SmallTier.Ordered;
      ghost var m := ram.mem;
      LiveMapped(m, poolList, w, small.s, ptr);
      ram.Zero(ptr, n);
      PayloadStep(m, ram.mem, poolList, w, small.s, ptr);
      small.Elsewhere(m, ram.mem, w.rs, w.rs);
      WrittenHeap(m, ram.mem, w, ptr);
    }

    /** The client stores a byte in its allocation. */
    method Write(ptr: nat, at: nat, data: byte)
      requires Valid() && ptr in w.live && at < w.live[ptr]
      modifies ram`mem
      ensures Valid() && Ideal.Next(old(Heap()), Ideal.Write(ptr, at, data), Heap())
    {
      hide World, Closed, BytesKept, HeadersKept, SmallTier.Ordered;
      ghost var m := ram.mem;
      LiveMapped(m, poolList, w, small.s, ptr);
      ram.Write(ptr, Field(at, 1), data);
      OneByte(m, ram.mem, ptr, at, data, w.live[ptr]);
      PayloadStep(m, ram.mem, poolList, w, small.s, ptr);
      small.Elsewhere(m, ram.mem, w.rs, w.rs);
      WrittenHeap(m, ram.mem, w, ptr);
    }

    // ----- diagnostics

    /** general_pool_quarantine. */
    method Quarantine(pool: nat, ghost g: nat)
      requires Valid() && g < |w.rs| && w.rs[g].base == pool && w.rs[g].kind == GENERAL_KIND
      modifies this`w, ram`mem
      ensures pool in old(w).ps && Valid() && w.rs == old(w.rs)
              && Ideal.Next(old(Heap()), Ideal.Quarantine(w.rs[g]), Heap())
      ensures Book() == old(Book()).(w := old(w).(ps := old(w).ps[pool := old(w).ps[pool].(readOnly := true)]))
    {
      hide World, HeapOf, Closed, HeadersKept, SmallTier.Ordered, PoolAt;
      ghost var m, w0 := ram.mem, w;
      GeneralHeader(m, poolList, w, small.s, g);
      ReadOnlyFits();
      ram.SetPool(pool, ReadOnly, 1);
      w := w.(ps := w.ps[pool := w.ps[pool].(readOnly := true)]);
      QuarantineEffect(m, ram.mem, poolList, w0, w, small.s, g);
      small.Elsewhere(m, ram.mem, w0.rs, w.rs);
    }

    /**
     * dam_validate_ptr for an untraced pointer whose metadata can be read: yes exactly if it is intact. Otherwise the
     * general pool that holds the pointer is put in quarantine, if the caller asks for it, and nothing else ever
     * changes.
     */
    method ValidatePtr(ptr: nat, quarantine: bool) returns (ok: bool)
      requires Valid() && forall g {:trigger w.rs[g]} ::
                 0 <= g < |w.rs| && w.rs[g].Has(ptr) ==> Readable(ram.mem, w.rs[g], ptr)
      modifies this`w, ram`mem
      ensures Valid() && (ok <==> Passes(old(ram.mem), old(w), ptr))
      ensures ok || !quarantine || !InTier(old(w), ptr, GENERAL_KIND) ==> ram.mem == old(ram.mem) && w == old(w)
      ensures !ok && quarantine && InTier(old(w), ptr, GENERAL_KIND) ==>
                exists g {:trigger w.rs[g]} :: 0 <= g < |w.rs| && w.rs[g].kind == GENERAL_KIND && w.rs[g].Has(ptr)
                                               && Ideal.Next(old(Heap()), Ideal.Quarantine(w.rs[g]), Heap())
    {
      hide World, SmallTier.Ordered, SmallTier.Valid, HeapOf, Registered, Foreign, Readable, Intact, Ideal.Next, Backed,
           InTier;
      PoolList();
      if ptr == 0 {
        NullNowhere(ram.mem, poolList, w.rs);
        AllForeign(w, ptr);
        return false;
      }
      var pool;
      ghost var g;
      pool, g := PoolFromPtr(ram, poolList, ptr, w.rs);
      if pool == 0 {
        AllForeign(w, ptr);
        return false;
      }
      KindOf(ptr, g);
      TierOf(ptr, g);
      var own := ram.ReadPool(pool);
      if own.kind == SMALL_KIND {
        ok := ValidateSmall(ptr, g);
      } else if own.kind == GENERAL_KIND {
        ok := ValidateGeneral(ptr, pool, quarantine, g);
      } else {
        ok := ValidateDirect(ptr, g);
      }
    }

    lemma TierOf(ptr: nat, g: nat)
      requires Valid() && g < |w.rs| && w.rs[g].Has(ptr)
      ensures InTier(w, ptr, GENERAL_KIND) <==> w.rs[g].kind == GENERAL_KIND
    {
      hide Registered, World, SmallTier.Ordered;
      PoolList();
      OneTier(ram.mem, poolList, w, g, ptr, GENERAL_KIND);
    }

    /** A block of a pool, in use or free, can be read and passes: no allocation is ever reported. */
    lemma BlockPasses(ptr: nat)
      requires Valid() && (ptr in w.live || IsBlock(w, small.s, ptr))
      ensures Passes(ram.mem, w, ptr)
      ensures forall g {:trigger w.rs[g]} :: 0 <= g < |w.rs| && w.rs[g].Has(ptr) ==> Readable(ram.mem, w.rs[g], ptr)
    {
      hide World, SmallTier.Ordered, IsBlock, Readable, Intact, BlockAt, Registered;
      PoolList();
      LivePasses(ptr);
      forall g | 0 <= g < |w.rs| && w.rs[g].Has(ptr)
        ensures Readable(ram.mem, w.rs[g], ptr) && Intact(ram.mem, w.rs[g], ptr)
      {
        BlockHere(ram.mem, poolList, w, small.s, g, ptr);
        KindOf(ptr, g);
        if w.rs[g].kind == SMALL_KIND {
          SmallPasses(ptr, g);
        } else if w.rs[g].kind == GENERAL_KIND {
          GeneralPasses(ptr, g);
        } else {
          DirectPasses(ptr, g);
        }
      }
      BlockHeld(w, small.s, ptr);
    }

    lemma LivePasses(ptr: nat)
      requires Valid()
      ensures ptr in w.live ==> IsBlock(w, small.s, ptr)
    {
      hide World, IsBlock;
      if ptr in w.live {
        LiveIsBlock(ram.mem, poolList, w, small.s, ptr);
      }
    }

    lemma SmallPasses(ptr: nat, g: nat)
      requires Running() && g < |w.rs| && w.rs[g].kind == SMALL_KIND && w.rs[g].Has(ptr) && BlockAt(w, small.s, g, ptr)
      ensures Readable(ram.mem, w.rs[g], ptr) && Intact(ram.mem, w.rs[g], ptr)
    {
      hide World, Chains, Geometry, Counted, Binned, Owned, SmallAt;
      var d: nat :| IsCarved(small.s, d, ptr - SMALL_HEADER_SIZE);
      InWorld(ram.mem, poolList, w, small.s);
      SmallHeaderMapped(ram.mem, w.rs, small.s, d, ptr - SMALL_HEADER_SIZE);
      StatusOf(ram.mem, small.s, d, ptr - SMALL_HEADER_SIZE);
    }

    lemma GeneralPasses(ptr: nat, g: nat)
      requires Running() && g < |w.rs| && w.rs[g].kind == GENERAL_KIND && w.rs[g].Has(ptr)
               && BlockAt(w, small.s, g, ptr)
      ensures Readable(ram.mem, w.rs[g], ptr) && Intact(ram.mem, w.rs[g], ptr)
    {
      hide World, SmallTier.Ordered, Image, HeaderAt, PoolAt, CanaryAt;
      var p := w.ps[w.rs[g].base];
      var i :| 0 <= i < |p.blocks| && p.blocks[i].Payload() == ptr;
      FactsAt(ram.mem, poolList, w, small.s, g);
      BlockHeader(ram.mem, p, i);
      NoFalseAlarm(ram.mem, p, i);
    }

    lemma DirectPasses(ptr: nat, g: nat)
      requires Running() && g < |w.rs| && w.rs[g].kind == DIRECT_KIND && w.rs[g].Has(ptr) && BlockAt(w, small.s, g, ptr)
      ensures Readable(ram.mem, w.rs[g], ptr) && Intact(ram.mem, w.rs[g], ptr)
    {
      hide World, SmallTier.Ordered, HeaderAt;
      DirectPlace(ram.mem, poolList, w, small.s, g);
      DirectRecord(ram.mem, poolList, w, small.s, g, ptr);
    }

    method ValidateSmall(ptr: nat, ghost g: nat) returns (ok: bool)
      requires g < |w.rs| && w.rs[g].kind == SMALL_KIND && Readable(ram.mem, w.rs[g], ptr)
      ensures ok <==> Intact(ram.mem, w.rs[g], ptr)
    {
      hide SmallAt;
      ok := ValidateSmallPtr(ram, ptr - SMALL_HEADER_SIZE, CLASSES);
    }

    method ValidateDirect(ptr: nat, ghost g: nat) returns (ok: bool)
      requires g < |w.rs| && w.rs[g].kind == DIRECT_KIND && Readable(ram.mem, w.rs[g], ptr)
      ensures ok <==> Intact(ram.mem, w.rs[g], ptr)
    {
      hide HeaderAt;
      ok := ValidateDirectPtr(ram, ptr - HEADER_SIZE);
    }

    method ValidateGeneral(ptr: nat, pool: nat, quarantine: bool, ghost g: nat) returns (ok: bool)
      requires Running() && g < |w.rs| && w.rs[g].kind == GENERAL_KIND && w.rs[g].Has(ptr) && w.rs[g].base == pool
      requires Readable(ram.mem, w.rs[g], ptr)
      modifies this`w, ram`mem
      ensures Running() && w.rs == old(w.rs) && (ok <==> Intact(old(ram.mem), w.rs[g], ptr))
      ensures ok || !quarantine ==> ram.mem == old(ram.mem) && w == old(w)
      ensures !ok && quarantine ==> Ideal.Next(old(Heap()), Ideal.Quarantine(w.rs[g]), Heap())
    {
      hide World, SmallTier.Ordered, HeadersKept, HeaderAt, PoolAt, CanaryAt, HeapOf, Closed, Touches, GeneralIntact;
      ghost var m, w0 := ram.mem, w;
      GeneralHeader(m, poolList, w, small.s, g);
      ok := ValidateGeneralPtr(ram, ptr, pool, quarantine, ptr - HEADER_SIZE);
      if !ok && quarantine {
        w := w.(ps := w.ps[pool := w.ps[pool].(readOnly := true)]);
        QuarantineEffect(m, ram.mem, poolList, w0, w, small.s, g);
        small.Elsewhere(m, ram.mem, w0.rs, w.rs);
      }
    }
  }
}
