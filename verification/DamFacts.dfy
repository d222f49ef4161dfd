/** What the calls of the allocator rely on and promise, stated on values. */
module DamFacts {
  import opened Bytes
  import opened Layout
  import opened Machine
  import opened FreeList
  import opened PoolModel
  import opened GeneralPool
  import opened GeneralOps
  import opened Registry
  import opened Regions
  import opened GeneralTier
  import opened PoolGrowth
  import opened SmallModel
  import opened SmallRep
  import opened SmallCarve
  import opened ThreadCache
  import opened SmallTier
  import opened DirectTier
  import opened WorldModel
  import opened WorldSteps
  import opened HeapView
  import opened Diagnostics
  import Ideal = IdealHeap

  /** The state of the allocator between two calls. */
  datatype Moment = Moment(mem: Mem, head: nat, w: Tiers, s: Small, cell: seq<Cell>, maps: seq<Mmap>,
                           initialized: bool) {
    ghost function Heap(): Ideal.Heap {
      HeapOf(mem, w)
    }

    ghost predicate Sound() {
      World(mem, head, w, s) && forall p :: p in w.live ==> w.live[p] > 0
    }

    /** Thread t exists. */
    predicate Has(t: nat) {
      t < |cell|
    }

    /** Thread t was not handed MAP_FAILED as its cache. */
    predicate Usable(t: nat) {
      t < |cell| && cell[t] != MapFailed
    }
  }

  /** The layer that serves a request, as dam_layer_for_size answers; 0 is DAM_LAYER_ERROR. */
  function LayerForSize(size: nat): nat {
    if size == 0 then 0
    else if size <= DAM_SMALL_MAX then SMALL_KIND
    else if size <= DAM_GENERAL_MAX then GENERAL_KIND
    else DIRECT_KIND
  }

  /** The pools with one more general pool in front, all of it free. */
  function WithPool(w: Tiers, pool: nat, size: nat): Tiers
    requires size >= 2 * MIB
  {
    w.(rs := [Region(pool, size, GENERAL_KIND)] + w.rs, ps := w.ps[pool := Fresh(pool, size)])
  }

  /** The pool created for a request serves it: the search that follows cannot fail. */
  lemma NewPoolServes(w: Tiers, pool: nat, len: nat, size: nat)
    requires IsNextSize(w.rs, MinPoolSize(size), len)
    ensures var w1 := WithPool(w, pool, len); Offers(w1.rs[0], w1.ps, ActualSize(size)) && !NoneOffers(w1, size)
  {
    hide Fresh, Offers, AlignUp;
    var w1 := WithPool(w, pool, len);
    FreshOffers(w1.rs[0], w.ps, ActualSize(size));
    assert Offers(w1.rs[0], w1.ps, ActualSize(size));
  }

  /** What malloc asks of a new pool for a request of n bytes. */
  function MinPoolSize(n: nat): nat {
    POOL_GENERAL_SIZE + HEADER_SIZE + ActualSize(n) + MIN_BLOCK_SIZE
  }

  /** For no request of the general tier does that decide the size of the pool: it is the size without any minimum. */
  lemma MinNeverDecides(rs: seq<Region>, n: nat, size: nat)
    requires n <= DAM_GENERAL_MAX
    ensures IsNextSize(rs, MinPoolSize(n), size) <==> IsNextSize(rs, 0, size)
  {
    hide AlignUp;
    SizesRound(n);
  }

  /**
   * Pools of the other tiers alone fill the list: then no general pool exists, none offers a block and none is
   * created.
   */
  lemma OthersExhaust(rs: seq<Region>, ps: map<nat, Pool>, n: nat)
    requires |rs| >= MAX_POOLS && forall g :: 0 <= g < |rs| ==> rs[g].kind != GENERAL_KIND
    ensures Generals(rs) == 0 && forall g :: 0 <= g < |rs| ==> !Offers(rs[g], ps, n)
  {
    assert rs[0..] == rs;
    GeneralsSkip(rs, 0, |rs|);
  }

  /** A mapping was put in front of the pools; the general pools are as they were. */
  ghost predicate AddedMapping(w: Tiers, w': Tiers) {
    |w'.rs| == |w.rs| + 1 && w'.rs[1..] == w.rs && w'.rs[0].kind == DIRECT_KIND && w'.ps == w.ps
  }

  lemma MappingOffersNothing(w: Tiers, w': Tiers, n: nat)
    requires AddedMapping(w, w')
    ensures NoneOffers(w', n) <==> NoneOffers(w, n)
    ensures Generals(w'.rs) == Generals(w.rs)
  {
    hide Offers;
    assert forall g {:trigger w.rs[g]} :: 0 <= g < |w.rs| ==> w'.rs[g + 1] == w.rs[g];
    assert !Offers(w'.rs[0], w'.ps, ActualSize(n)) by { OnlyGeneralOffers(w'.rs[0], w'.ps, ActualSize(n)); }
    forall g | 0 <= g < |w'.rs| && NoneOffers(w, n) ensures !Offers(w'.rs[g], w'.ps, ActualSize(n)) {
      assert g > 0 ==> w'.rs[g] == w.rs[g - 1];
    }
    forall g | 0 <= g < |w.rs| && NoneOffers(w', n) ensures !Offers(w.rs[g], w.ps, ActualSize(n)) {
      assert w'.rs[g + 1] == w.rs[g];
    }
  }

  lemma OnlyGeneralOffers(r: Region, ps: map<nat, Pool>, n: nat)
    requires r.kind != GENERAL_KIND
    ensures !Offers(r, ps, n)
  {
  }

  /** One general pool of 2 MiB, all of it free. */
  ghost predicate InitialPool(w: Tiers) {
    |w.rs| == 1 && w.rs[0].kind == GENERAL_KIND && w.rs[0].size == 2 * MIB
        && w.ps == map[w.rs[0].base := Fresh(w.rs[0].base, 2 * MIB)]
  }

  lemma FirstPool(w: Tiers, w': Tiers, pool: nat)
    requires w.rs == [] && w.ps == map[] && w' == WithPool(w, pool, 2 * MIB)
    ensures InitialPool(w')
  {
    hide Fresh;
  }

  lemma MinAligned(n: nat)
    requires n % ALIGNMENT == 0
    ensures (POOL_GENERAL_SIZE + HEADER_SIZE + n + MIN_BLOCK_SIZE) % ALIGNMENT == 0
  {
  }

  /** Only the cache pointer of thread t may have changed, and not if the thread had a cache. */
  ghost predicate CellKept(cell: seq<Cell>, cell': seq<Cell>, t: nat) {
    && |cell'| == |cell| && t < |cell|
    && (forall u :: 0 <= u < |cell| && u != t ==> cell'[u] == cell[u])
    && (cell[t] == Cache ==> cell'[t] == Cache)
  }

  /** No pool went away. */
  ghost predicate Wider(w: Tiers, w': Tiers) {
    forall r {:trigger r in w.rs} {:trigger r in w'.rs} :: r in w.rs ==> r in w'.rs
  }

  ghost predicate StillUsed(s: Small, s': Small) {
    forall c: nat, a: nat {:trigger InUse(s, c, a)} :: InUse(s, c, a) ==> InUse(s', c, a)
  }

  /** A pool of this kind holds the address. */
  ghost predicate InTier(w: Tiers, ptr: nat, kind: nat) {
    exists r {:trigger r in w.rs} :: r in w.rs && r.kind == kind && r.Has(ptr)
  }

  ghost predicate InSmallPool(w: Tiers, ptr: nat) {
    InTier(w, ptr, SMALL_KIND)
  }

  lemma CarvedInTier(m: Mem, head: nat, w: Tiers, s: Small, c: nat, x: nat)
    requires World(m, head, w, s) && IsCarved(s, c, x)
    ensures InTier(w, x + SMALL_HEADER_SIZE, SMALL_KIND)
  {
    hide PoolAt, Tier, Grown, Inv, Registered, RegionOK;
    assert Housed(w.rs, c, x);
    var g :| 0 <= g < |w.rs| && InPool(w.rs[g], c, x);
    assert ClassSize(c) > 0;
    assert w.rs[g] in w.rs;
  }

  /** The least class that holds size bytes. */
  predicate LeastClass(c: nat, size: nat) {
    c < CLASSES && size <= SIZES[c] && forall d :: 0 <= d < c ==> SIZES[d] < size
  }

  /**
   * A request of at most DAM_SMALL_MAX bytes gets a block of the least class that holds it, in one step of thread t.
   */
  ghost predicate ServedSmall(s: Small, s': Small, t: nat, size: nat, ptr: nat, hasCache: bool) {
    exists c {:trigger LeastClass(c, size)} ::
      && LeastClass(c, size) && Stepped(s, s', t, c, hasCache)
      && ptr >= SMALL_HEADER_SIZE && InUse(s', c, ptr - SMALL_HEADER_SIZE)
  }

  /** The pointer belongs to no pool. */
  ghost predicate Foreign(w: Tiers, ptr: nat) {
    forall r {:trigger r in w.rs} :: r in w.rs ==> !r.Has(ptr)
  }

  lemma ForeignDead(m: Mem, head: nat, w: Tiers, s: Small, ptr: nat)
    requires World(m, head, w, s) && (ptr == 0 || Foreign(w, ptr))
    ensures ptr !in w.live
  {
    hide Registered, Tier, Grown, Inv, Geometry, RegionOK;
    NullNotLive(m, head, w, s);
    if ptr in w.live {
      NotForeign(w, ptr);
    }
  }

  lemma NotForeign(w: Tiers, ptr: nat)
    requires InAPool(w.rs, ptr)
    ensures !Foreign(w, ptr)
  {
    var g :| 0 <= g < |w.rs| && w.rs[g].Has(ptr);
    assert w.rs[g] in w.rs;
  }

  lemma KindAt(m: Mem, head: nat, w: Tiers, s: Small, g: nat, ptr: nat)
    requires World(m, head, w, s) && g < |w.rs| && w.rs[g].Has(ptr)
    ensures !Foreign(w, ptr) && (InSmallPool(w, ptr) <==> w.rs[g].kind == SMALL_KIND)
    ensures PoolAt(m, w.rs[g].base).kind == w.rs[g].kind && Mapped(m, w.rs[g].base, POOL_HEADER_SIZE)
    ensures w.rs[g].kind == SMALL_KIND || w.rs[g].kind == GENERAL_KIND || w.rs[g].kind == DIRECT_KIND
  {
    hide PoolAt, Tier, Grown, Inv, Geometry, LiveAt, DirectOK, SmallHolds;
    assert RegionOK(m, w.rs[g], w, s) && Listed(m, w.rs, g) && Backed(m, w.rs[g]);
    assert w.rs[g] in w.rs;
    if r :| r in w.rs && r.kind == SMALL_KIND && r.Has(ptr) {
      var h :| 0 <= h < |w.rs| && w.rs[h] == r;
      OwnerUnique(w.rs, g, h, ptr);
    }
  }

  /** Block i of pool g is the allocation ptr; it can be resized where it is exactly if inPlace. */
  ghost predicate FitsInPlace(w: Tiers, g: nat, i: nat, ptr: nat, size: nat, inPlace: bool) {
    && g < |w.rs| && w.rs[g].base in w.ps && ptr in w.live
    && var p := w.ps[w.rs[g].base];
       i < |p.blocks| && LiveBlock(p.blocks[i], ptr, w.live[ptr]) && (inPlace <==> InPlace(p, i, size))
  }

  /** The allocation ptr of a general pool is resized where it is. */
  ghost predicate StaysInPlace(w: Tiers, ptr: nat, size: nat) {
    exists g: nat, i: nat {:trigger FitsInPlace(w, g, i, ptr, size, true)} ::
      FitsInPlace(w, g, i, ptr, size, true) && w.rs[g].kind == GENERAL_KIND && w.rs[g].Has(ptr)
  }

  /**
   * The calls of realloc that come to read the cache of their thread: a malloc or a free in the small tier is part of
   * them.
   */
  ghost predicate ReadsCache(w: Tiers, ptr: nat, size: nat) {
    if ptr == 0 then 0 < size <= DAM_SMALL_MAX
    else if size == 0 then InSmallPool(w, ptr)
    else if InSmallPool(w, ptr) then size > DAM_SMALL_MAX
    else ptr in w.live && size <= DAM_SMALL_MAX && !StaysInPlace(w, ptr, size)
  }

  /** A realloc that moves an allocation out of the small tier: the free at its end reads the cache. */
  ghost predicate LeavesSmall(w: Tiers, ptr: nat, size: nat) {
    ptr != 0 && size > DAM_SMALL_MAX && InSmallPool(w, ptr)
  }

  /** An allocation is one block of one pool. */
  lemma NotInPlace(m: Mem, head: nat, w: Tiers, s: Small, g: nat, i: nat, ptr: nat, size: nat, inPlace: bool)
    requires World(m, head, w, s) && FitsInPlace(w, g, i, ptr, size, inPlace) && w.rs[g].kind == GENERAL_KIND
             && w.rs[g].Has(ptr)
    ensures StaysInPlace(w, ptr, size) <==> inPlace
  {
    hide PoolAt, Grown, Inv, Geometry, RegionOK, Backed, Listed, InPlace, Tiles, FreeAddrs, Distinct, Rep, Canaries,
         Indexed;
    if h: nat, j: nat :| FitsInPlace(w, h, j, ptr, size, true) && w.rs[h].kind == GENERAL_KIND && w.rs[h].Has(ptr) {
      OwnerUnique(w.rs, g, h, ptr);
      assert HostOK(m, w.rs[g], w.ps);
      AddrInjective(w.ps[w.rs[g].base], i, j);
    }
  }

  /** After pools went away, an address that is still in a pool is in one of the same tier. */
  lemma SameTier(w: Tiers, w': Tiers, q: nat, kind: nat)
    requires Separate(w.rs) && Wider(w', w) && InTier(w, q, kind) && InAPool(w'.rs, q)
    ensures InTier(w', q, kind)
  {
    var r :| r in w.rs && r.kind == kind && r.Has(q);
    var g :| 0 <= g < |w.rs| && w.rs[g] == r;
    var j :| 0 <= j < |w'.rs| && w'.rs[j].Has(q);
    assert w'.rs[j] in w'.rs;
    var h :| 0 <= h < |w.rs| && w.rs[h] == w'.rs[j];
    OwnerUnique(w.rs, g, h, q);
  }

  lemma FewerPools(rs: seq<Region>, k: nat)
    requires k < |rs|
    ensures forall r {:trigger r in rs} :: r in Without(rs, k) ==> r in rs
  {
  }

  lemma Placed(m: Mem, head: nat, w: Tiers, s: Small, q: nat)
    requires World(m, head, w, s) && q in w.live
    ensures InAPool(w.rs, q)
  {
    hide Registered, Tier, Grown, Inv, Geometry, RegionOK, InAPool;
  }

  lemma StillInTier(w: Tiers, w': Tiers, q: nat)
    requires w'.rs == w.rs && InTier(w, q, SMALL_KIND)
    ensures InTier(w', q, SMALL_KIND)
  {
  }

  lemma OnlyGeneralStays(m: Mem, head: nat, w: Tiers, s: Small, g: nat, ptr: nat, size: nat)
    requires World(m, head, w, s) && g < |w.rs| && w.rs[g].Has(ptr) && StaysInPlace(w, ptr, size)
    ensures w.rs[g].kind == GENERAL_KIND
  {
    hide PoolAt, Tier, Grown, Inv, Geometry, RegionOK, Backed, Listed, InPlace;
    var h: nat, j: nat :| FitsInPlace(w, h, j, ptr, size, true) && w.rs[h].kind == GENERAL_KIND && w.rs[h].Has(ptr);
    OwnerUnique(w.rs, g, h, ptr);
  }

  /** A block was given back by thread t. */
  ghost predicate GaveBack(s: Small, s': Small, t: nat, ptr: nat, hasCache: bool) {
    && ptr >= SMALL_HEADER_SIZE
    && exists c {:trigger InUse(s, c, ptr - SMALL_HEADER_SIZE)} ::
         InUse(s, c, ptr - SMALL_HEADER_SIZE) && Stepped(s, s', t, c, hasCache)
  }

  /** The product of two numbers in size_t. */
  function Product(count: nat, size: nat): nat {
    (count * size) % U64
  }

  lemma ProductFits(count: nat, size: nat)
    ensures Product(count, size) < U64 && (count * size < U64 <==> Product(count, size) == count * size)
  {
  }

  lemma OwnPool(m: Mem, head: nat, w: Tiers, s: Small, p: nat) returns (g: nat)
    requires World(m, head, w, s) && p in w.live
    ensures g < |w.rs| && w.rs[g].Has(p) && Separate(w.rs) && forall h :: 0 <= h < |w.rs| && w.rs[h].Has(p) ==> h == g
    ensures w.rs[g].base + POOL_HEADER_SIZE <= p && p + w.live[p] <= w.rs[g].base + w.rs[g].size && p % ALIGNMENT == 0
  {
    hide PoolAt, Tier, Grown, Inv, Geometry, RegionOK, Backed, Listed;
    assert InAPool(w.rs, p);
    g :| 0 <= g < |w.rs| && w.rs[g].Has(p);
    LiveInside(m, head, w, s, g, p);
    forall h | 0 <= h < |w.rs| && w.rs[h].Has(p) ensures h == g {
      OwnerUnique(w.rs, g, h, p);
    }
  }

  lemma GrownAt(m: Mem, head: nat, w: Tiers, s: Small, g: nat)
    requires World(m, head, w, s) && g < |w.rs| && w.rs[g].kind == GENERAL_KIND
    ensures w.rs[g].size >= Pow2(Generals(w.rs[g..])) * MIB
  {
    hide PoolAt, Tier, Registered, Inv, Geometry, RegionOK;
    GrownPower(w.rs, g);
  }

  lemma FactsAt(m: Mem, head: nat, w: Tiers, s: Small, g: nat)
    requires World(m, head, w, s) && g < |w.rs|
    ensures Generals(w.rs) <= MAX_POOLS
    ensures w.rs[g].kind == GENERAL_KIND ==> w.rs[g].base in w.ps && Image(m, w.ps[w.rs[g].base])
    ensures w.rs[g].kind == DIRECT_KIND ==> DirectOK(m, w.rs[g], w.ds, w.live)
  {
    hide PoolAt, Image, Registered, Inv, Geometry, DirectOK;
    assert RegionOK(m, w.rs[g], w, s) && HostOK(m, w.rs[g], w.ps);
  }

  /** No general pool offers a block for size bytes. */
  ghost predicate NoneOffers(w: Tiers, size: nat) {
    forall g {:trigger w.rs[g]} :: 0 <= g < |w.rs| ==> !Offers(w.rs[g], w.ps, ActualSize(size))
  }

  /** Below the direct tier: malloc of size bytes by thread t finds no block. */
  ghost predicate NoBlockFor(w: Tiers, s: Small, cell: seq<Cell>, t: nat, size: nat) {
    && (0 < size <= DAM_SMALL_MAX ==> NoSmall(s, cell, t, size))
    && (DAM_SMALL_MAX < size <= DAM_GENERAL_MAX ==> NoneOffers(w, size))
  }

  /** Neither the central list of the class nor the bin of a thread with a cache has a block. */
  ghost predicate NoSmall(s: Small, cell: seq<Cell>, t: nat, size: nat) {
    t < |cell| && exists c: nat {:trigger LeastClass(c, size)} ::
      LeastClass(c, size) && c < |s.central| && s.central[c] == [] && (cell[t] == Cache ==> Bin(s.bins, t, c) == [])
  }

  /** ptr is where the user bytes of a block of pool g start, whether the block is in use or free. */
  ghost predicate BlockAt(w: Tiers, s: Small, g: nat, ptr: nat)
    requires g < |w.rs|
  {
    if w.rs[g].kind == GENERAL_KIND then
      w.rs[g].base in w.ps &&
      exists i {:trigger w.ps[w.rs[g].base].blocks[i]} :: 0 <= i < |w.ps[w.rs[g].base].blocks|
          && w.ps[w.rs[g].base].blocks[i].Payload() == ptr
    else if w.rs[g].kind == SMALL_KIND then
      ptr >= SMALL_HEADER_SIZE && exists c: nat {:trigger IsCarved(s, c, ptr - SMALL_HEADER_SIZE)} ::
          IsCarved(s, c, ptr - SMALL_HEADER_SIZE)
    else ptr == w.rs[g].base + DIRECT_PREFIX
  }

  ghost predicate IsBlock(w: Tiers, s: Small, ptr: nat) {
    exists g {:trigger w.rs[g]} :: 0 <= g < |w.rs| && w.rs[g].Has(ptr) && BlockAt(w, s, g, ptr)
  }

  /** What dam_validate_ptr reads of a pointer into the pool r is mapped. */
  ghost predicate Readable(m: Mem, r: Region, ptr: nat) {
    if r.kind == SMALL_KIND then ptr >= SMALL_HEADER_SIZE && Mapped(m, ptr - SMALL_HEADER_SIZE, SMALL_HEADER_SIZE)
    else
      && ptr >= HEADER_SIZE && Mapped(m, ptr - HEADER_SIZE, HEADER_SIZE)
      && (r.kind == GENERAL_KIND ==>
            var h := HeaderAt(m, ptr - HEADER_SIZE);
            h.isFree == 0 && h.magic == BLOCK_MAGIC ==> Mapped(m, ptr + h.user, CANARY_SIZE))
  }

  /** What it reads is what the metadata of a block looks like. */
  ghost predicate Intact(m: Mem, r: Region, ptr: nat) {
    if r.kind == SMALL_KIND then
      ptr >= SMALL_HEADER_SIZE && SmallIntact(SmallAt(m, ptr - SMALL_HEADER_SIZE), CLASSES)
    else if r.kind == GENERAL_KIND then
      ptr >= HEADER_SIZE && GeneralIntact(m, ptr, HeaderAt(m, ptr - HEADER_SIZE))
    else
      ptr >= HEADER_SIZE && DirectIntact(HeaderAt(m, ptr - HEADER_SIZE))
  }

  /** The pool that holds the pointer finds it intact. */
  ghost predicate Passes(m: Mem, w: Tiers, ptr: nat) {
    exists g {:trigger w.rs[g]} :: 0 <= g < |w.rs| && w.rs[g].Has(ptr) && Intact(m, w.rs[g], ptr)
  }

  /** Every allocation is a block. */
  lemma LiveIsBlock(m: Mem, head: nat, w: Tiers, s: Small, ptr: nat)
    requires World(m, head, w, s) && ptr in w.live
    ensures IsBlock(w, s, ptr)
  {
    hide PoolAt, Grown, Registered, Image, Binned, Owned, DirectOK;
    assert InAPool(w.rs, ptr);
    var g :| 0 <= g < |w.rs| && w.rs[g].Has(ptr);
    assert RegionOK(m, w.rs[g], w, s);
    if w.rs[g].kind == GENERAL_KIND {
      var i := BlockOf(m, head, w, s, g, ptr);
      assert w.ps[w.rs[g].base].blocks[i].Payload() == ptr;
    } else if w.rs[g].kind == SMALL_KIND {
      var c := SmallBlock(m, head, w, s, g, ptr);
      assert IsCarved(s, c, ptr - SMALL_HEADER_SIZE);
    }
    assert BlockAt(w, s, g, ptr);
  }

  /** NULL and foreign pointers are no blocks. */
  lemma NoBlock(m: Mem, head: nat, w: Tiers, s: Small, ptr: nat)
    requires Registered(m, head, w.rs) && (ptr == 0 || Foreign(w, ptr))
    ensures !IsBlock(w, s, ptr)
  {
    hide PoolAt, BlockAt, Listed;
    forall g | 0 <= g < |w.rs| ensures !w.rs[g].Has(ptr) {
      assert Backed(m, w.rs[g]) && w.rs[g] in w.rs;
    }
  }

  /** The pool of a block is the one that holds it. */
  lemma BlockHere(m: Mem, head: nat, w: Tiers, s: Small, g: nat, ptr: nat)
    requires Registered(m, head, w.rs) && IsBlock(w, s, ptr) && g < |w.rs| && w.rs[g].Has(ptr)
    ensures BlockAt(w, s, g, ptr)
  {
    hide PoolAt, BlockAt, Listed, Backed;
    var h :| 0 <= h < |w.rs| && w.rs[h].Has(ptr) && BlockAt(w, s, h, ptr);
    OwnerUnique(w.rs, g, h, ptr);
  }

  lemma NullNowhere(m: Mem, head: nat, rs: seq<Region>)
    requires Registered(m, head, rs)
    ensures forall g {:trigger rs[g]} :: 0 <= g < |rs| ==> !rs[g].Has(0)
  {
    hide PoolAt, Listed, Mapped;
    forall g | 0 <= g < |rs| ensures !rs[g].Has(0) {
      assert Backed(m, rs[g]);
    }
  }

  lemma OneTier(m: Mem, head: nat, w: Tiers, g: nat, ptr: nat, kind: nat)
    requires Registered(m, head, w.rs) && g < |w.rs| && w.rs[g].Has(ptr)
    ensures InTier(w, ptr, kind) <==> w.rs[g].kind == kind
  {
    hide PoolAt, Listed, Backed;
    assert w.rs[g] in w.rs;
    if r :| r in w.rs && r.kind == kind && r.Has(ptr) {
      var h :| 0 <= h < |w.rs| && w.rs[h] == r;
      OwnerUnique(w.rs, g, h, ptr);
    }
  }

  lemma BlockHeld(w: Tiers, s: Small, ptr: nat)
    requires IsBlock(w, s, ptr)
    ensures exists g {:trigger w.rs[g]} :: 0 <= g < |w.rs| && w.rs[g].Has(ptr)
  {
  }

  lemma LeastUnique(c: nat, d: nat, size: nat)
    requires LeastClass(c, size) && LeastClass(d, size)
    ensures c == d
  {
  }

  lemma BlockHeader(m: Mem, p: Pool, i: nat)
    requires Image(m, p) && i < |p.blocks|
    ensures Mapped(m, p.blocks[i].addr, HEADER_SIZE)
  {
    hide HeaderAt;
    HeaderMapped(m, p, i);
  }

  lemma AllForeign(w: Tiers, ptr: nat)
    requires forall h :: 0 <= h < |w.rs| ==> !w.rs[h].Has(ptr)
    ensures Foreign(w, ptr) && forall kind: nat {:trigger InTier(w, ptr, kind)} :: !InTier(w, ptr, kind)
  {
  }

  lemma LiveHeader(m: Mem, p: Pool, i: nat)
    requires Image(m, p) && i < |p.blocks| && !p.blocks[i].free
    ensures Mapped(m, p.blocks[i].addr, HEADER_SIZE)
    ensures HeaderAt(m, p.blocks[i].addr).user == p.blocks[i].user && HeaderAt(m, p.blocks[i].addr).magic == BLOCK_MAGIC
  {
    hide HeaderAt;
    HeaderFacts(m, p, i);
    HeaderMapped(m, p, i);
  }

  lemma CellAt(m: Mem, w: Tiers, p: nat)
    requires p in w.live
    ensures p in HeapOf(m, w).cells && HeapOf(m, w).cells[p] == Window(m, p, w.live[p])
  {
  }

  lemma NothingYet(m: Mem, threads: nat)
    ensures World(m, 0, Tiers([], map[], map[], map[]), Start(threads))
  {
    StartInv(threads);
  }

  lemma OneByte(m: Mem, m': Mem, a: nat, at: nat, data: byte, n: nat)
    requires Wrote(m, m', a, Field(at, 1), data) && at < n
    ensures OnlyAt(m, m', a, n) && Window(m', a, n) == Window(m, a, n)[at := data]
  {
    assert Load(m', a + at, 1) == Peek(m', a + at);
  }

  lemma GeneralHeader(m: Mem, head: nat, w: Tiers, s: Small, g: nat)
    requires World(m, head, w, s) && g < |w.rs| && w.rs[g].kind == GENERAL_KIND
    ensures w.rs[g].base in w.ps && Mapped(m, w.rs[g].base, POOL_HEADER_SIZE)
  {
    hide PoolAt, Inv, Geometry, Grown, RegionOK;
    assert HostOK(m, w.rs[g], w.ps) && Backed(m, w.rs[g]);
  }

  lemma ReadOnlyFits()
    ensures 1 < Limit(ReadOnly.At().width)
  {
    Limits();
  }

  lemma PoolNotEmpty(c: nat)
    ensures PoolBytes(c) > 0
  {
  }

  /** dam_calloc delivers count elements of the given size exactly when their product fits size_t. */
  lemma CallocCovers(h: Ideal.Heap, h': Ideal.Heap, count: nat, size: nat, ptr: nat)
    requires Ideal.Next(h, Ideal.Calloc(1, Product(count, size), ptr), h') && ptr != 0
    ensures ptr in h'.cells && (|h'.cells[ptr]| >= count * size <==> count * size < U64)
  {
    ProductFits(count, size);
  }

  /** 0x8000_0000_0000_0001 elements of two bytes wrap around to two bytes. */
  lemma CallocTooSmall()
    ensures Product(0x8000_0000_0000_0001, 2) == 2
  {
  }

  lemma MovedApart(h: Ideal.Heap, h1: Ideal.Heap, from: nat, n: nat, p: nat)
    requires Ideal.Sound(h) && from in h.cells && Ideal.Allocates(h, n, p, h1)
    ensures p != from && from in h1.cells && p in h1.cells && |h1.cells[p]| == n && h1.cells[from] == h.cells[from]
  {
    Ideal.AllocatesSound(h, n, p, h1);
  }
}
