/** The general tier over all its pools: the search for a block, the creation of pools and malloc. */
module GeneralTier {
  import opened Bytes
  import opened Layout
  import opened Machine
  import opened FreeList
  import opened PoolModel
  import opened GeneralPool
  import opened GeneralOps
  import opened Registry
  import opened Regions

  /** Pool g of the list: a general pool is in order; any other pool has no blocks and is not in quarantine. */
  ghost predicate HostOK(m: Mem, r: Region, ps: map<nat, Pool>) {
    if r.kind == GENERAL_KIND then
      r.base in ps && ps[r.base].base == r.base && ps[r.base].size == r.size && Image(m, ps[r.base])
    else PoolAt(m, r.base).blockList == 0 && PoolAt(m, r.base).readOnly == 0
  }

  ghost predicate Tier(m: Mem, rs: seq<Region>, ps: map<nat, Pool>) {
    forall g {:trigger HostOK(m, rs[g], ps)} :: 0 <= g < |rs| ==> HostOK(m, rs[g], ps)
  }

  /** The free list of this pool has a block for n bytes, and the pool is not in quarantine. */
  predicate Offers(r: Region, ps: map<nat, Pool>, n: nat) {
    && r.kind == GENERAL_KIND && r.base in ps && !ps[r.base].readOnly
    && FirstFit(ps[r.base].blocks, ps[r.base].freeList, n) < |ps[r.base].freeList|
  }

  /** The scan of all the blocks of this pool finds a free block for n bytes, and the pool is not in quarantine. */
  predicate Holds(r: Region, ps: map<nat, Pool>, n: nat) {
    && r.kind == GENERAL_KIND && r.base in ps && !ps[r.base].readOnly
    && FirstFree(ps[r.base].blocks, n) < |ps[r.base].blocks|
  }

  /**
   * No pool is passed over by the search along the free lists: it offers a block exactly when a full scan finds one.
   */
  lemma OffersIffHolds(m: Mem, rs: seq<Region>, ps: map<nat, Pool>, g: nat, n: nat)
    requires Tier(m, rs, ps) && g < |rs|
    ensures Offers(rs[g], ps, n) <==> Holds(rs[g], ps, n)
  {
    assert HostOK(m, rs[g], ps);
    if rs[g].kind == GENERAL_KIND {
      FitAgrees(ps[rs[g].base], n);
    }
  }

  lemma ListRepFacts(m: Mem, p: Pool)
    requires Rep(m, p)
    ensures PoolAt(m, p.base).hasFree == (if p.freeList == [] then 0 else 1)
    ensures PoolAt(m, p.base).readOnly == (if p.readOnly then 1 else 0)
    ensures PoolAt(m, p.base).blockList == p.base + POOL_GENERAL_SIZE
  {
  }

  method FindFreeBlockInPools(ram: Ram, head: nat, actual: nat, ghost rs: seq<Region>, ghost ps: map<nat, Pool>)
    returns (pool: nat, block: nat, ghost g: nat, ghost i: nat)
    requires Registered(ram.mem, head, rs) && Tier(ram.mem, rs, ps)
    modifies ram`mem
    ensures block == 0 ==> ram.mem == old(ram.mem) && forall h :: 0 <= h < |rs| ==> !Offers(rs[h], ps, actual)
    ensures block != 0 ==>
              && g < |rs| && pool == rs[g].base && Offers(rs[g], ps, actual)
              && (forall h :: 0 <= h < g ==> !Offers(rs[h], ps, actual))
              && var p := ps[rs[g].base];
                 && block == p.freeList[FirstFit(p.blocks, p.freeList, actual)]
                 && i < |p.blocks| && p.blocks[i].addr == block && p.blocks[i].free && p.blocks[i].size >= actual
                 && Shape(Unlink(p, block)) && Rep(ram.mem, Unlink(p, block))
                 && LiveSame(old(ram.mem), ram.mem, p.blocks) && OutsideSame(old(ram.mem), ram.mem, p)
  {
    hide PoolAt, HeaderAt, LinksAt, Mapped, Rep, Shape, LiveSame, OutsideSame, Canaries, FirstFit, Snug, Indexed;
    pool, block, g, i := head, 0, 0, 0;
    assert |rs| > 0 ==> Backed(ram.mem, rs[0]);
    while pool != 0
      invariant ram.mem == old(ram.mem) && block == 0
      invariant g <= |rs| && pool == BaseAt(rs, g) && (pool == 0 ==> g == |rs|)
      invariant forall h :: 0 <= h < g ==> !Offers(rs[h], ps, actual)
      decreases |rs| - g
    {
      assert Backed(ram.mem, rs[g]) && Listed(ram.mem, rs, g) && HostOK(ram.mem, rs[g], ps);
      HeaderBacked(ram.mem, rs[g]);
      var own := ram.ReadPool(pool);
      if rs[g].kind == GENERAL_KIND {
        ListRepFacts(ram.mem, ps[pool]);
      }
      if own.readOnly == 0 {
        if own.kind == GENERAL_KIND && own.hasFree != 0 {
          block, i := SearchInFreeList(ram, pool, actual, ps[pool]);
          if block != 0 {
            return;
          }
        }
      }
      EmptyOffersNothing(rs[g], ps, actual);
      pool, g := own.next, g + 1;
      assert g < |rs| ==> Backed(ram.mem, rs[g]);
    }
  }

  lemma EmptyOffersNothing(r: Region, ps: map<nat, Pool>, n: nat)
    ensures r.base in ps && ps[r.base].freeList == [] ==> !Offers(r, ps, n)
  {
  }

  /** The inner loop of the full scan: along next_ptr from the first block of a pool. */
  method ScanBlocks(ram: Ram, first: nat, actual: nat, ghost p: Pool) returns (block: nat)
    requires Shape(p) && Rep(ram.mem, p) && first == p.base + POOL_GENERAL_SIZE
    ensures block == 0 <==> FirstFree(p.blocks, actual) == |p.blocks|
    ensures block != 0 ==> block == p.blocks[FirstFree(p.blocks, actual)].addr
  {
    hide Tiles, FreeAddrs, HeaderAt, PoolAt, LinksAt, ListRep, Headers, Mapped, Distinct, Good;
    block := first;
    ghost var k := 0;
    TilesBounds(p.blocks, p.base + POOL_GENERAL_SIZE, p.base + p.size);
    while block != 0
      invariant k <= |p.blocks| && block == (if k < |p.blocks| then p.blocks[k].addr else 0)
      invariant forall l {:trigger p.blocks[l]} :: 0 <= l < k ==> !(p.blocks[l].free && p.blocks[l].size >= actual)
      decreases |p.blocks| - k
    {
      HeaderFacts(ram.mem, p, k);
      HeaderMapped(ram.mem, p, k);
      var h := ram.ReadHeader(block);
      if h.isFree != 0 && h.size >= actual {
        assert FirstFree(p.blocks, actual) == k;
        return;
      }
      block, k := h.next, k + 1;
    }
    HeaderPositive(p);
  }

  lemma HeaderPositive(p: Pool)
    requires Shape(p)
    ensures forall k {:trigger p.blocks[k]} :: 0 <= k < |p.blocks| ==> p.blocks[k].addr > 0
  {
    forall k | 0 <= k < |p.blocks| ensures p.blocks[k].addr > 0 {
      BlockRange(p, k);
    }
  }

  method FindBlockInPools(ram: Ram, head: nat, actual: nat, ghost rs: seq<Region>, ghost ps: map<nat, Pool>)
    returns (pool: nat, block: nat, ghost g: nat)
    requires Registered(ram.mem, head, rs) && Tier(ram.mem, rs, ps)
    ensures block == 0 ==> forall h :: 0 <= h < |rs| ==> !Holds(rs[h], ps, actual)
    ensures block != 0 ==>
              && g < |rs| && pool == rs[g].base && Holds(rs[g], ps, actual)
              && (forall h :: 0 <= h < g ==> !Holds(rs[h], ps, actual))
              && block == ps[rs[g].base].blocks[FirstFree(ps[rs[g].base].blocks, actual)].addr
  {
    hide PoolAt, HeaderAt, LinksAt, Mapped, Rep, Canaries, FirstFree, Snug, Indexed, Tiles, FreeAddrs;
    pool, block, g := head, 0, 0;
    assert |rs| > 0 ==> Backed(ram.mem, rs[0]);
    while pool != 0
      invariant block == 0
      invariant g <= |rs| && pool == BaseAt(rs, g) && (pool == 0 ==> g == |rs|)
      invariant forall h :: 0 <= h < g ==> !Holds(rs[h], ps, actual)
      decreases |rs| - g
    {
      assert Backed(ram.mem, rs[g]) && Listed(ram.mem, rs, g) && HostOK(ram.mem, rs[g], ps);
      HeaderBacked(ram.mem, rs[g]);
      var own := ram.ReadPool(pool);
      if rs[g].kind == GENERAL_KIND {
        ListRepFacts(ram.mem, ps[pool]);
      }
      if own.readOnly != 1 {
        if own.blockList != 0 {
          block := ScanBlocks(ram, own.blockList, actual, ps[pool]);
          if block != 0 {
            return;
          }
        }
      }
      pool, g := own.next, g + 1;
      assert g < |rs| ==> Backed(ram.mem, rs[g]);
    }
  }

  /** The two searches succeed together and stop at the same pool. */
  lemma SearchesAgree(m: Mem, rs: seq<Region>, ps: map<nat, Pool>, n: nat)
    requires Tier(m, rs, ps)
    ensures (exists g :: 0 <= g < |rs| && Offers(rs[g], ps, n)) <==> (exists g :: 0 <= g < |rs| && Holds(rs[g], ps, n))
    ensures forall g, h ::
              (&& 0 <= g < |rs| && 0 <= h < |rs|
               && Offers(rs[g], ps, n) && (forall k :: 0 <= k < g ==> !Offers(rs[k], ps, n))
               && Holds(rs[h], ps, n) && (forall k :: 0 <= k < h ==> !Holds(rs[k], ps, n)))
              ==> g == h
  {
    hide Offers, Holds, HostOK;
    forall g | 0 <= g < |rs| ensures Offers(rs[g], ps, n) <==> Holds(rs[g], ps, n) {
      OffersIffHolds(m, rs, ps, g, n);
    }
  }

  // ----- creating a pool

  const MIB: nat := 0x10_0000
  const MAX_POOLS: nat := 20

  /** The size of the next pool: the least that is at least min, twice INITIAL_POOL_SIZE and twice every listed pool. */
  ghost predicate IsNextSize(rs: seq<Region>, min: nat, size: nat) {
    && size >= min && size >= 2 * MIB && (forall g {:trigger rs[g]} :: 0 <= g < |rs| ==> size >= 2 * rs[g].size)
    && (size == min || size == 2 * MIB || exists g {:trigger rs[g]} :: 0 <= g < |rs| && size == 2 * rs[g].size)
  }

  method NextPoolSize(ram: Ram, head: nat, min: nat, ghost rs: seq<Region>) returns (size: nat)
    requires Registered(ram.mem, head, rs)
    ensures IsNextSize(rs, min, size)
  {
    hide PoolAt, Mapped;
    size := MIB;
    var current := head;
    ghost var g := 0;
    assert |rs| > 0 ==> Backed(ram.mem, rs[0]);
    while current != 0
      invariant g <= |rs| && current == BaseAt(rs, g) && (current == 0 ==> g == |rs|)
      invariant size >= MIB && forall h :: 0 <= h < g ==> size >= rs[h].size
      invariant size == MIB || exists h :: 0 <= h < g && size == rs[h].size
      decreases |rs| - g
    {
      assert Backed(ram.mem, rs[g]) && Listed(ram.mem, rs, g);
      HeaderBacked(ram.mem, rs[g]);
      var own := ram.ReadPool(current);
      if own.size > size {
        size := own.size;
      }
      current, g := own.next, g + 1;
      assert g < |rs| ==> Backed(ram.mem, rs[g]);
    }
    size := 2 * size;
    if size < min {
      size := min;
    }
  }

  method CountPools(ram: Ram, head: nat, ghost rs: seq<Region>) returns (count: nat)
    requires Registered(ram.mem, head, rs)
    ensures count == |rs|
  {
    hide PoolAt, Mapped;
    count := 0;
    var current := head;
    assert |rs| > 0 ==> Backed(ram.mem, rs[0]);
    while current != 0
      invariant count <= |rs| && current == BaseAt(rs, count) && (current == 0 ==> count == |rs|)
      decreases |rs| - count
    {
      assert Backed(ram.mem, rs[count]) && Listed(ram.mem, rs, count);
      HeaderBacked(ram.mem, rs[count]);
      var own := ram.ReadPool(current);
      current, count := own.next, count + 1;
      assert count < |rs| ==> Backed(ram.mem, rs[count]);
    }
  }

  /** A pool as it is created: one free block behind the prefix. */
  function Fresh(base: nat, size: nat): (p: Pool)
    requires size >= POOL_GENERAL_SIZE + HEADER_SIZE
    ensures p.base == base && p.size == size && !p.readOnly
  {
    Pool(base, size, false, [Block(base + POOL_GENERAL_SIZE, size - POOL_GENERAL_SIZE - HEADER_SIZE, 0, true)],
         [base + POOL_GENERAL_SIZE])
  }

  lemma FreshWF(base: nat, size: nat)
    requires base > 0 && base % ALIGNMENT == 0 && base + size < U64
    requires size % ALIGNMENT == 0 && size >= POOL_GENERAL_SIZE + HEADER_SIZE + LINKS_SIZE
    ensures WF(Fresh(base, size))
  {
    FreeOne(Fresh(base, size).blocks[0]);
    TilesOne(Fresh(base, size).blocks[0]);
  }

  method InitPoolHeader(ram: Ram, base: nat, size: nat)
    requires base > 0 && base + size < U64 && size >= POOL_GENERAL_SIZE + HEADER_SIZE
    requires Mapped(ram.mem, base, size)
    requires PoolAt(ram.mem, base) == PoolHeader(0, 0, 0, 0, 0, 0, 0, 0)
    modifies ram`mem
    ensures PoolAt(ram.mem, base) ==
            PoolHeader(base, size, GENERAL_KIND, 0, 1, 0, base + POOL_GENERAL_SIZE, base + POOL_GENERAL_SIZE)
    ensures OnlyAt(old(ram.mem), ram.mem, base, POOL_HEADER_SIZE)
    ensures HeaderAt(ram.mem, base + POOL_GENERAL_SIZE) == HeaderAt(old(ram.mem), base + POOL_GENERAL_SIZE)
  {
    hide PoolAt, HeaderAt, LinksAt, CanaryAt, Limit;
    Limits();
    var block := base + POOL_GENERAL_SIZE;
    ram.SetPool(base, Memory, base);
    ram.SetPool(base, PoolSize, size);
    ram.SetPool(base, Kind, GENERAL_KIND);
    ram.SetPool(base, BlockList, block);
    ram.SetPool(base, FreeListHead, block);
    ram.SetPool(base, HasFree, 1);
  }

  method InitFirstBlock(ram: Ram, base: nat, block: nat, payload: nat)
    requires base < U64 && base + POOL_HEADER_SIZE <= block && block + HEADER_SIZE + LINKS_SIZE < U64 && payload < U64
    requires Mapped(ram.mem, block, HEADER_SIZE + LINKS_SIZE)
    requires HeaderAt(ram.mem, block) == Header(0, 0, 0, 0, 0, 0, 0)
    modifies ram`mem
    ensures HeaderAt(ram.mem, block) == Header(payload, 0, 0, 0, base, FREED_MAGIC, 1)
    ensures LinksAt(ram.mem, block) == Links(0, 0)
    ensures OnlyAt(old(ram.mem), ram.mem, block, HEADER_SIZE + LINKS_SIZE)
    ensures PoolAt(ram.mem, base) == PoolAt(old(ram.mem), base)
  {
    hide PoolAt, HeaderAt, LinksAt, CanaryAt, Limit;
    InitFirstHeader(ram, base, block, payload);
    ram.SetLinks(block, NextFree, 0);
    ram.SetLinks(block, PrevFree, 0);
  }

  method InitFirstHeader(ram: Ram, base: nat, block: nat, payload: nat)
    requires base < U64 && base + POOL_HEADER_SIZE <= block && payload < U64
    requires Mapped(ram.mem, block, HEADER_SIZE)
    requires HeaderAt(ram.mem, block) == Header(0, 0, 0, 0, 0, 0, 0)
    modifies ram`mem
    ensures HeaderAt(ram.mem, block) == Header(payload, 0, 0, 0, base, FREED_MAGIC, 1)
    ensures OnlyAt(old(ram.mem), ram.mem, block, HEADER_SIZE)
    ensures PoolAt(ram.mem, base) == PoolAt(old(ram.mem), base)
  {
    hide PoolAt, HeaderAt, LinksAt, CanaryAt, Limit;
    Limits();
    ram.SetHeader(block, Size, payload);
    ram.SetHeader(block, IsFree, 1);
    ram.SetHeader(block, Next, 0);
    ram.SetHeader(block, Magic, FREED_MAGIC);
    ram.SetHeader(block, PoolPtr, base);
  }

  /** The writes that turn a mapped region of zeros into a general pool. */
  method InitGeneralPool(ram: Ram, base: nat, size: nat)
    requires base > 0 && base % ALIGNMENT == 0 && base + size < U64
    requires size % ALIGNMENT == 0 && size >= POOL_GENERAL_SIZE + HEADER_SIZE + LINKS_SIZE
    requires Mapped(ram.mem, base, size)
    requires forall x: nat :: base <= x < base + size ==> Peek(ram.mem, x) == 0
    modifies ram`mem
    ensures Image(ram.mem, Fresh(base, size))
    ensures OnlyAt(old(ram.mem), ram.mem, base, size)
  {
    hide PoolAt, HeaderAt, LinksAt, CanaryAt, Tiles, FreeAddrs, WF, ListRep, PoolFields;
    FreshWF(base, size);
    ZeroStructs(ram.mem, base);
    ZeroStructs(ram.mem, base + POOL_GENERAL_SIZE);
    InitPoolHeader(ram, base, size);
    InitFirstBlock(ram, base, base + POOL_GENERAL_SIZE, size - POOL_GENERAL_SIZE - HEADER_SIZE);
    FreshRep(ram.mem, base, size);
  }

  lemma FreshRep(m: Mem, base: nat, size: nat)
    requires size >= POOL_GENERAL_SIZE + HEADER_SIZE + LINKS_SIZE && base > 0 && base + size < U64
    requires Mapped(m, base, size)
    requires var block := base + POOL_GENERAL_SIZE;
             && PoolAt(m, base) == PoolHeader(base, size, GENERAL_KIND, 0, 1, 0, block, block)
             && HeaderAt(m, block) == Header(size - POOL_GENERAL_SIZE - HEADER_SIZE, 0, 0, 0, base, FREED_MAGIC, 1)
             && LinksAt(m, block) == Links(0, 0)
    ensures Rep(m, Fresh(base, size)) && Canaries(m, Fresh(base, size).blocks)
  {
    hide PoolAt, HeaderAt, LinksAt;
  }

  lemma ImageKept(m: Mem, m': Mem, r: Region, p: Pool)
    requires Image(m, p) && p.base == r.base && p.size == r.size && r.size >= POOL_HEADER_SIZE && Kept(m, m', r)
    ensures Image(m', p)
  {
    hide Tiles, FreeAddrs, HeaderAt, PoolAt, LinksAt, CanaryAt, Distinct, Members;
    forall k | 0 <= k < |p.blocks| ensures HeaderOK(m', p.base, p.blocks, k) {
      BlockRange(p, k);
      assert HeaderOK(m, p.base, p.blocks, k);
      HeaderSame(m, m', p.blocks[k].addr);
    }
    assert ListRep(m', p.base, p.freeList) by {
      ListKept(m, m', p);
    }
    forall b | b in p.blocks && !b.free ensures CanaryOK(m', b) {
      var k :| 0 <= k < |p.blocks| && p.blocks[k] == b;
      BlockRange(p, k);
      assert CanaryOK(m, b) && Snug(b);
      CanaryKept(m, m', b);
    }
  }

  lemma ListKept(m: Mem, m': Mem, p: Pool)
    requires Shape(p) && Rep(m, p) && Mapped(m', p.base, p.size) && p.size >= POOL_HEADER_SIZE
    requires Same(m, m', p.base + POOL_HEADER_SIZE, p.size - POOL_HEADER_SIZE)
    requires PoolAt(m', p.base) == PoolAt(m, p.base).(next := PoolAt(m', p.base).next)
    ensures ListRep(m', p.base, p.freeList)
  {
    hide Tiles, FreeAddrs, HeaderAt, PoolAt, LinksAt, Distinct;
    ShapeMembers(m', p);
    forall j | 0 <= j < |p.freeList| ensures LinkOK(m', p.freeList, j) {
      assert LinkOK(m, p.freeList, j);
      var k := ListMember(p, j);
      BlockRange(p, k);
      LinksSame(m, m', p.freeList[j]);
    }
  }

  lemma HostKept(m: Mem, m': Mem, r: Region, ps: map<nat, Pool>)
    requires Backed(m, r) && HostOK(m, r, ps) && Kept(m, m', r)
    ensures HostOK(m', r, ps)
  {
    hide Image, PoolAt;
    if r.kind == GENERAL_KIND {
      ImageKept(m, m', r, ps[r.base]);
    }
  }

  lemma OutsideKept(m: Mem, m': Mem, p: Pool, r: Region)
    requires Backed(m, r) && OutsideSame(m, m', p) && (p.base + p.size <= r.base || r.base + r.size <= p.base)
    ensures Kept(m, m', r)
  {
    PoolSame(m, m', r.base);
  }

  method CreateGeneralPool(ram: Ram, head: nat, min: nat, ghost rs: seq<Region>, ghost ps: map<nat, Pool>)
    returns (pool: nat, head': nat, ghost size: nat)
    requires Registered(ram.mem, head, rs) && Tier(ram.mem, rs, ps)
    requires min % ALIGNMENT == 0
    modifies ram
    ensures pool == 0 ==> ram.mem == old(ram.mem) && head' == head
    ensures |rs| < MAX_POOLS ==> IsNextSize(rs, min, size) && ram.maps == old(ram.maps) + [Mmap(size, pool != 0)]
    ensures |rs| >= MAX_POOLS ==> pool == 0 && ram.maps == old(ram.maps)
    ensures pool != 0 ==>
              && IsNextSize(rs, min, size)
              && Grew(old(ram.mem), ram.mem, pool, size)
              && Registered(ram.mem, head', [Region(pool, size, GENERAL_KIND)] + rs)
              && Tier(ram.mem, [Region(pool, size, GENERAL_KIND)] + rs, ps[pool := Fresh(pool, size)])
  {
    hide PoolAt, HeaderAt, LinksAt, CanaryAt, Mapped, Image, OnlyAt, Grew, MappedFrom, HostOK, Fresh, Registered, Tier,
         PageAligned;
    pool, head', size := 0, head, 0;
    var count := CountPools(ram, head, rs);
    if count >= MAX_POOLS {
      return;
    }
    ghost var m := ram.mem;
    var total := NextPoolSize(ram, head, min, rs);
    SizeAligned(m, head, rs, min, total);
    var base := ram.Map(total);
    size := total;
    if base == 0 {
      return;
    }
    PagesAligned(base);
    head' := InstallGeneralPool(ram, head, base, total, m, rs, ps);
    pool := base;
  }

  /** The freshly mapped region becomes a general pool and is put on the list of pools. */
  method InstallGeneralPool(ram: Ram, head: nat, base: nat, size: nat, ghost m: Mem, ghost rs: seq<Region>,
      ghost ps: map<nat, Pool>)
    returns (head': nat)
    requires Registered(m, head, rs) && Tier(m, rs, ps) && MappedFrom(m, ram.mem, base, size)
    requires base > 0 && base % ALIGNMENT == 0 && base + size < U64 && size % ALIGNMENT == 0 && size >= 2 * MIB
    modifies ram`mem
    ensures Grew(m, ram.mem, base, size)
    ensures Registered(ram.mem, head', [Region(base, size, GENERAL_KIND)] + rs)
    ensures Tier(ram.mem, [Region(base, size, GENERAL_KIND)] + rs, ps[base := Fresh(base, size)])
  {
    hide PoolAt, HeaderAt, LinksAt, CanaryAt, Mapped, Image, OnlyAt, Grew, HostOK, Fresh, Registered, Tier;
    FromMap(m, ram.mem, base, size);
    ghost var m0, r := ram.mem, Region(base, size, GENERAL_KIND);
    InitGeneralPool(ram, base, size);
    ghost var m1 := ram.mem;
    StillGrew(m, m0, m1, base, size, base, size);
    ImageFields(m1, Fresh(base, size));
    NewRegion(m, m1, head, rs, ps, r);
    head' := RegisterPool(ram, head, base, rs, r);
    NewListed(m1, ram.mem, head, rs, ps, r);
    StillGrew(m, m1, ram.mem, base, size, base + NextPool.At().off, NextPool.At().width);
  }

  lemma ImageFields(m: Mem, p: Pool)
    requires Image(m, p)
    ensures PoolFields(m, p) && Mapped(m, p.base, p.size)
  {
  }

  /** The pools that are already there do not notice the new region. */
  lemma NewRegion(m: Mem, m': Mem, head: nat, rs: seq<Region>, ps: map<nat, Pool>, r: Region)
    requires Registered(m, head, rs) && Tier(m, rs, ps) && Grew(m, m', r.base, r.size) && r.size > 0
    ensures Registered(m', head, rs) && Tier(m', rs, ps)
    ensures forall g {:trigger rs[g]} :: 0 <= g < |rs| ==> Clear(r, rs[g])
  {
    hide PoolAt, Kept, Grew, Backed;
    RegisteredGrew(m, m', head, rs, r.base, r.size);
    TierKept(m, m', head, rs, ps);
  }

  lemma TierKept(m: Mem, m': Mem, head: nat, rs: seq<Region>, ps: map<nat, Pool>)
    requires Registered(m, head, rs) && Tier(m, rs, ps)
    requires forall g {:trigger rs[g]} :: 0 <= g < |rs| ==> Kept(m, m', rs[g])
    ensures Tier(m', rs, ps)
  {
    hide PoolAt, Kept, Backed, HostOK;
    forall g | 0 <= g < |rs| ensures HostOK(m', rs[g], ps) {
      assert HostOK(m, rs[g], ps) && Backed(m, rs[g]);
      HostKept(m, m', rs[g], ps);
    }
  }

  /** Linking the new pool into the list leaves every pool in order. */
  lemma NewListed(m: Mem, m': Mem, head: nat, rs: seq<Region>, ps: map<nat, Pool>, r: Region)
    requires Registered(m, head, rs) && Tier(m, rs, ps) && Backed(m, r) && r.kind == GENERAL_KIND
             && r.size >= POOL_GENERAL_SIZE + HEADER_SIZE
    requires forall g {:trigger rs[g]} :: 0 <= g < |rs| ==> Clear(r, rs[g])
    requires Image(m, Fresh(r.base, r.size))
    requires Touches(m, m', r.base + NextPool.At().off, NextPool.At().width)
    requires PoolAt(m', r.base) == PoolAt(m, r.base).(next := PoolAt(m', r.base).next)
    ensures Tier(m', [r] + rs, ps[r.base := Fresh(r.base, r.size)])
  {
    hide PoolAt, HeaderAt, LinksAt, CanaryAt, Image, HostOK, Backed, Fresh;
    var rs', ps' := [r] + rs, ps[r.base := Fresh(r.base, r.size)];
    forall g | 0 <= g < |rs'| ensures HostOK(m', rs'[g], ps') {
      if g == 0 {
        LinkWriteKept(m, m', r);
        ImageKept(m, m', r, Fresh(r.base, r.size));
        NewHost(m', r, ps);
      } else {
        assert rs'[g] == rs[g - 1] && HostOK(m, rs[g - 1], ps) && Backed(m, rs[g - 1]);
        OtherKept(m, m', r, rs[g - 1]);
        HostKept(m, m', rs[g - 1], ps);
        HostElsewhere(m', rs[g - 1], ps, r, Fresh(r.base, r.size), m);
      }
    }
  }

  lemma NewHost(m: Mem, r: Region, ps: map<nat, Pool>)
    requires r.kind == GENERAL_KIND && r.size >= POOL_GENERAL_SIZE + HEADER_SIZE && Image(m, Fresh(r.base, r.size))
    ensures HostOK(m, r, ps[r.base := Fresh(r.base, r.size)])
  {
    hide Image;
  }

  lemma HostElsewhere(m: Mem, s: Region, ps: map<nat, Pool>, r: Region, p: Pool, m0: Mem)
    requires HostOK(m, s, ps) && Clear(r, s) && Backed(m0, r) && Backed(m0, s)
    ensures HostOK(m, s, ps[r.base := p])
  {
    hide Image;
  }

  lemma SizeAligned(m: Mem, head: nat, rs: seq<Region>, min: nat, size: nat)
    requires Registered(m, head, rs) && min % ALIGNMENT == 0
    requires IsNextSize(rs, min, size)
    ensures size % ALIGNMENT == 0
  {
    hide PoolAt, Listed, Mapped, Clear;
    if g :| 0 <= g < |rs| && size == 2 * rs[g].size {
      assert Backed(m, rs[g]);
    }
  }

  // ----- operations on one pool, seen from the list of pools

  /** An operation that keeps a pool in order and stays inside it keeps the whole tier in order. */
  lemma PoolStep(m: Mem, m': Mem, head: nat, rs: seq<Region>, ps: map<nat, Pool>, g: nat, p': Pool)
    requires Registered(m, head, rs) && Tier(m, rs, ps)
    requires g < |rs| && rs[g].kind == GENERAL_KIND && rs[g].base in ps
    requires Image(m', p') && p'.base == ps[rs[g].base].base && p'.size == ps[rs[g].base].size
             && OutsideSame(m, m', ps[rs[g].base])
    ensures Registered(m', head, rs) && Tier(m', rs, ps[rs[g].base := p'])
    ensures forall h :: 0 <= h < |rs| && h != g ==> Kept(m, m', rs[h])
  {
    hide PoolAt, Image, Kept, Mapped;
    var p, ps' := ps[rs[g].base], ps[rs[g].base := p'];
    assert HostOK(m, rs[g], ps) && Backed(m, rs[g]) && Listed(m, rs, g);
    ImageFields(m', p');
    forall h | 0 <= h < |rs| ensures Listed(m', rs, h) && Backed(m', rs[h]) && HostOK(m', rs[h], ps')
      && (h != g ==> Kept(m, m', rs[h]))
    {
      assert HostOK(m, rs[h], ps) && Backed(m, rs[h]) && Listed(m, rs, h);
      BackedKeys(m, m', rs[h]);
      if h != g {
        assert Clear(rs[g], rs[h]);
        OutsideKept(m, m', p, rs[h]);
        HostKept(m, m', rs[h], ps);
        HostElsewhere(m', rs[h], ps, rs[g], p', m);
        KeptListed(m, m', p, rs[h]);
      }
    }
  }

  lemma KeptListed(m: Mem, m': Mem, p: Pool, r: Region)
    requires Backed(m, r) && OutsideSame(m, m', p) && (p.base + p.size <= r.base || r.base + r.size <= p.base)
    ensures PoolAt(m', r.base) == PoolAt(m, r.base)
  {
    PoolSame(m, m', r.base);
  }

  /** The search and, when it succeeds, the rest of malloc. */
  method ServeFromPools(ram: Ram, head: nat, size: nat, ghost rs: seq<Region>, ghost ps: map<nat, Pool>)
    returns (ptr: nat, ghost g: nat, ghost i: nat)
    requires Registered(ram.mem, head, rs) && Tier(ram.mem, rs, ps)
    modifies ram`mem
    ensures ptr == 0 ==> ram.mem == old(ram.mem) && forall h :: 0 <= h < |rs| ==> !Offers(rs[h], ps, ActualSize(size))
    ensures ptr != 0 ==>
              && g < |rs| && Offers(rs[g], ps, ActualSize(size))
              && (forall h :: 0 <= h < g ==> !Offers(rs[h], ps, ActualSize(size)))
              && var p := ps[rs[g].base];
                 && i < |p.blocks| && p.blocks[i].addr == p.freeList[FirstFit(p.blocks, p.freeList, ActualSize(size))]
                 && p.blocks[i].addr in p.freeList && p.blocks[i].size >= ActualSize(size)
                    && ptr == p.blocks[i].Payload()
                 && Registered(ram.mem, head, rs) && Tier(ram.mem, rs, ps[rs[g].base := Malloc(p, i, size)])
                 && LiveSame(old(ram.mem), ram.mem, p.blocks) && OutsideSame(old(ram.mem), ram.mem, p)
  {
    hide PoolAt, HeaderAt, LinksAt, CanaryAt, Mapped, Rep, Shape, LiveSame, OutsideSame, Canaries, FirstFit, Snug,
         Indexed, AlignUp, Malloc, Registered;
    ghost var m := ram.mem;
    var actual := AlignUp(AlignUp(size, ALIGNMENT) + CANARY_SIZE, ALIGNMENT);
    var pool, block;
    pool, block, g, i := FindFreeBlockInPools(ram, head, actual, rs, ps);
    if block == 0 {
      return 0, 0, 0;
    }
    ghost var p := ps[rs[g].base];
    assert HostOK(m, rs[g], ps);
    ghost var m1 := ram.mem;
    CanariesKept(m, m1, p);
    ptr := UseBlock(ram, block, size, p, i);
    AfterSearch(m, m1, ram.mem, p);
    PoolStep(m, ram.mem, head, rs, ps, g, Malloc(p, i, size));
  }

  lemma CanariesKept(m: Mem, m': Mem, p: Pool)
    requires WF(p) && Canaries(m, p.blocks) && LiveSame(m, m', p.blocks)
    ensures Canaries(m', p.blocks)
  {
    hide Shape, Indexed, PayloadSame, CanaryOK;
    forall b | b in p.blocks && !b.free ensures CanaryOK(m', b) {
      assert CanaryOK(m, b) && Snug(b) && PayloadSame(m, m', b);
      CanaryKept(m, m', b);
    }
  }

  lemma AfterSearch(m: Mem, m1: Mem, m2: Mem, p: Pool)
    requires LiveSame(m, m1, p.blocks) && OutsideSame(m, m1, p)
    requires LiveSame(m1, m2, p.blocks) && OutsideSame(m1, m2, p)
    ensures LiveSame(m, m2, p.blocks) && OutsideSame(m, m2, p)
  {
    SameTrans(m, m1, m2, p);
  }
}
