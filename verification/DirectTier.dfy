/** The direct tier: one mapping per allocation. */
module DirectTier {
  import opened Bytes
  import opened Layout
  import opened Machine
  import opened FreeList
  import opened Registry
  import opened Regions

  const SHRINK_PERCENTAGE: nat := 80

  /** The user's bytes start behind the pool header and the block header. */
  const DIRECT_PREFIX: nat := 96

  function MappingSize(size: nat): nat {
    AlignUp(POOL_HEADER_SIZE + HEADER_SIZE + size, PAGE_SIZE)
  }

  // ----- 64-bit arithmetic

  /** The size of the mapping as dam_direct_malloc_internal computes it in size_t. */
  function MappingSize64(size: nat): nat {
    AlignUp64((POOL_HEADER_SIZE + HEADER_SIZE + size) % U64, PAGE_SIZE)
  }

  /** The largest request for which the size of a mapping is computed without wrapping around. */
  const MAX_MAPPED: nat := U64 - DIRECT_PREFIX - PAGE_SIZE

  /** The largest request that is answered rightly: above MAX_MAPPED by a mapping of 0 bytes, which mmap refuses. */
  const MAX_REQUEST: nat := U64 - DIRECT_PREFIX

  lemma MappedWhole(size: nat)
    requires size <= MAX_MAPPED
    ensures MappingSize64(size) == MappingSize(size)
  {
    hide AlignUp, AlignUp64;
    Unwrapped(POOL_HEADER_SIZE + HEADER_SIZE + size);
    AlignSame(POOL_HEADER_SIZE + HEADER_SIZE + size, PAGE_SIZE);
  }

  lemma MappedNothing(size: nat)
    requires MAX_MAPPED < size <= MAX_REQUEST
    ensures MappingSize64(size) == 0
  {
    var n := DIRECT_PREFIX + size;
    if n < U64 {
      Unwrapped(n);
      WrappedOnce(n + PAGE_SIZE - 1);
      BelowOnePage(n + PAGE_SIZE - 1 - U64);
    } else {
      WrappedOnce(n);
    }
  }

  lemma BelowOnePage(t: nat)
    requires t < PAGE_SIZE
    ensures t - t % PAGE_SIZE == 0
  {
  }

  lemma OneToTwoPages(t: nat)
    requires PAGE_SIZE <= t < 2 * PAGE_SIZE
    ensures t - t % PAGE_SIZE == PAGE_SIZE
  {
  }

  lemma MappedOnePage(size: nat)
    requires MAX_REQUEST < size < U64
    ensures MappingSize64(size) == PAGE_SIZE
  {
    WrappedOnce(DIRECT_PREFIX + size);
    Unwrapped(DIRECT_PREFIX + size - U64 + PAGE_SIZE - 1);
    OneToTwoPages(DIRECT_PREFIX + size - U64 + PAGE_SIZE - 1);
  }

  /**
   * A request gets room, or a size of 0, exactly up to MAX_REQUEST; any larger one is served by a mapping of one page.
   */
  lemma MappingFits(size: nat)
    requires size < U64
    ensures MappingSize64(size) == 0 || DIRECT_PREFIX + size <= MappingSize64(size) <==> size <= MAX_REQUEST
    ensures MappingSize64(size) == 0 <==> MAX_MAPPED < size <= MAX_REQUEST
    ensures size <= MAX_MAPPED ==> MappingSize64(size) == MappingSize(size)
    ensures size > MAX_REQUEST ==> MappingSize64(size) == PAGE_SIZE
  {
    hide MappingSize, MappingSize64;
    if size <= MAX_MAPPED {
      MappingHolds(size);
      MappedWhole(size);
    } else if size <= MAX_REQUEST {
      MappedNothing(size);
    } else {
      MappedOnePage(size);
    }
  }

  /** The largest size_t, plus the headers, wraps around to a single page. */
  lemma MappingTooSmall()
    ensures MappingSize64(U64 - 1) == PAGE_SIZE
  {
  }

  /** The block header of the mapping at base records an allocation of size bytes. */
  ghost predicate Records(m: Mem, base: nat, size: nat) {
    var h := HeaderAt(m, base + POOL_HEADER_SIZE);
    h.size == size && h.magic == BLOCK_MAGIC && h.isFree == 0
  }

  lemma MappingHolds(size: nat)
    ensures DIRECT_PREFIX + size <= MappingSize(size) < DIRECT_PREFIX + size + PAGE_SIZE
    ensures MappingSize(size) % ALIGNMENT == 0
  {
    PagesAligned(MappingSize(size));
  }

  method InitDirect(ram: Ram, base: nat, total: nat, size: nat)
    requires 0 < base && base + total < U64 && DIRECT_PREFIX + size <= total && Mapped(ram.mem, base, total)
    requires PoolAt(ram.mem, base) == PoolHeader(0, 0, 0, 0, 0, 0, 0, 0)
    modifies ram`mem
    ensures PoolAt(ram.mem, base) == PoolHeader(base, total, DIRECT_KIND, 0, 0, 0, 0, 0)
    ensures OnlyAt(old(ram.mem), ram.mem, base, POOL_HEADER_SIZE)
  {
    hide HeaderAt, LinksAt, PoolAt, SmallAt, CanaryAt, Limit;
    Limits();
    ram.SetPool(base, Kind, DIRECT_KIND);
    ram.SetPool(base, PoolSize, total);
    ram.SetPool(base, Memory, base);
  }

  method InitDirectBlock(ram: Ram, block: nat, size: nat)
    requires block + HEADER_SIZE < U64 && size < U64 && Mapped(ram.mem, block, HEADER_SIZE)
    modifies ram`mem
    ensures HeaderAt(ram.mem, block) == HeaderAt(old(ram.mem), block).(size := size, magic := BLOCK_MAGIC)
    ensures OnlyAt(old(ram.mem), ram.mem, block, HEADER_SIZE)
  {
    hide HeaderAt, LinksAt, PoolAt, SmallAt, CanaryAt, Limit;
    Limits();
    ram.SetHeader(block, Size, size);
    ram.SetHeader(block, Magic, BLOCK_MAGIC);
  }

  method DirectMallocInternal(ram: Ram, head: nat, size: nat, ghost rs: seq<Region>) returns (ptr: nat, head': nat)
    requires Registered(ram.mem, head, rs) && size <= MAX_REQUEST
    modifies ram
    ensures ram.maps == old(ram.maps) + [Mmap(MappingSize64(size), ptr != 0)]
    ensures ptr == 0 ==> ram.mem == old(ram.mem) && head' == head
    ensures size > MAX_MAPPED ==> ptr == 0
    ensures ptr != 0 ==>
              && ptr > DIRECT_PREFIX && size < USER_SPACE
              && var base := ptr - DIRECT_PREFIX;
                 && Grew(old(ram.mem), ram.mem, base, MappingSize(size))
                 && Registered(ram.mem, head', [Region(base, MappingSize(size), DIRECT_KIND)] + rs)
                 && PoolAt(ram.mem, base).blockList == 0 && PoolAt(ram.mem, base).readOnly == 0
                 && Records(ram.mem, base, size)
                 && forall x: nat {:trigger Peek(ram.mem, x)} :: ptr <= x < ptr + size ==> Peek(ram.mem, x) == 0
  {
    hide PoolAt, HeaderAt, LinksAt, SmallAt, CanaryAt, Mapped, Grew, Registered, MappingSize, MappingSize64,
         PageAligned, MappedFrom, OnlyAt, Kept, Backed;
    ptr, head' := 0, head;
    ghost var m := ram.mem;
    MappingHolds(size);
    MappingFits(size);
    var total := MappingSize64(size);
    var base := ram.Map(total);
    if base == 0 {
      return;
    }
    PagesAligned(base);
    head' := BuildDirect(ram, head, base, size, m, rs);
    ptr := base + DIRECT_PREFIX;
  }

  /** The headers of the new mapping and its registration. */
  method BuildDirect(ram: Ram, head: nat, base: nat, size: nat, ghost m: Mem, ghost rs: seq<Region>)
      returns (head': nat)
    requires Registered(m, head, rs) && MappedFrom(m, ram.mem, base, MappingSize(size))
    requires 0 < base && base % ALIGNMENT == 0 && base + MappingSize(size) < U64
    requires DIRECT_PREFIX + size <= MappingSize(size) && MappingSize(size) % ALIGNMENT == 0
    modifies ram`mem
    ensures Grew(m, ram.mem, base, MappingSize(size))
    ensures Registered(ram.mem, head', [Region(base, MappingSize(size), DIRECT_KIND)] + rs)
    ensures PoolAt(ram.mem, base).blockList == 0 && PoolAt(ram.mem, base).readOnly == 0
    ensures Records(ram.mem, base, size)
    ensures forall x: nat {:trigger Peek(ram.mem, x)} ::
              base + DIRECT_PREFIX <= x < base + DIRECT_PREFIX + size ==> Peek(ram.mem, x) == 0
  {
    hide PoolAt, HeaderAt, LinksAt, SmallAt, CanaryAt, Mapped, Grew, Registered, MappingSize, Kept;
    ghost var total, r := MappingSize(size), Region(base, MappingSize(size), DIRECT_KIND);
    FromMap(m, ram.mem, base, total);
    ghost var m0 := ram.mem;
    DirectRegion(m0, base, total);
    InitDirect(ram, base, MappingSize(size), size);
    ghost var m1 := ram.mem;
    StillGrew(m, m0, m1, base, total, base, POOL_HEADER_SIZE);
    RegisteredGrew(m, m1, head, rs, base, total);
    head' := RegisterPool(ram, head, base, rs, r);
    ghost var m2 := ram.mem;
    StillGrew(m, m1, m2, base, total, base + NextPool.At().off, NextPool.At().width);
    BlockMapped(m2, base, total);
    InitDirectBlock(ram, base + POOL_HEADER_SIZE, size);
    StillGrew(m, m2, ram.mem, base, total, base + POOL_HEADER_SIZE, HEADER_SIZE);
    RegisteredInside(m2, ram.mem, head', [r] + rs, 0);
    HeaderSame(m0, m2, base + POOL_HEADER_SIZE);
  }

  lemma DirectRegion(m: Mem, base: nat, total: nat)
    requires Mapped(m, base, total) && total >= DIRECT_PREFIX && forall x: nat ::
               base <= x < base + total ==> Peek(m, x) == 0
    ensures PoolAt(m, base) == PoolHeader(0, 0, 0, 0, 0, 0, 0, 0)
    ensures HeaderAt(m, base + POOL_HEADER_SIZE) == Header(0, 0, 0, 0, 0, 0, 0)
  {
    hide PoolAt, HeaderAt;
    ZeroStructs(m, base);
    ZeroStructs(m, base + POOL_HEADER_SIZE);
  }

  lemma BlockMapped(m: Mem, base: nat, total: nat)
    requires Mapped(m, base, total) && total >= DIRECT_PREFIX
    ensures Mapped(m, base + POOL_HEADER_SIZE, HEADER_SIZE)
  {
  }

  method DirectFreeInternal(ram: Ram, head: nat, ptr: nat, ghost rs: seq<Region>, ghost k: nat) returns (head': nat)
    requires Registered(ram.mem, head, rs) && k < |rs| && rs[k].Has(ptr)
    modifies ram`mem
    ensures Registered(ram.mem, head', Without(rs, k))
    ensures forall g {:trigger rs[g]} :: 0 <= g < |rs| && g != k ==> Kept(old(ram.mem), ram.mem, rs[g])
    ensures forall x: nat :: x in ram.mem <==> x in old(ram.mem) && !rs[k].Has(x)
  {
    hide PoolAt, HeaderAt, LinksAt, SmallAt, CanaryAt, Mapped, Kept, OnlyAt, Registered;
    ghost var m := ram.mem;
    var pool, g := PoolFromPtr(ram, head, ptr, rs);
    head' := UnregisterPool(ram, head, pool, rs, k);
    ghost var m1 := ram.mem;
    PoolReadable(m, m1, head, rs, k);
    var own := ram.ReadPool(pool);
    ram.Unmap(pool, own.size);
    UnmappedKept(m, m1, ram.mem, head, head', rs, k);
  }

  /** The header of the pool just taken off the list still says how large it is. */
  lemma PoolReadable(m: Mem, m1: Mem, head: nat, rs: seq<Region>, k: nat)
    requires Registered(m, head, rs) && k < |rs| && m1.Keys == m.Keys
    requires k == 0 ==> m1 == m
    requires k > 0 ==> Touches(m, m1, rs[k - 1].base + NextPool.At().off, NextPool.At().width)
    ensures Mapped(m1, rs[k].base, POOL_HEADER_SIZE) && PoolAt(m1, rs[k].base).size == rs[k].size
  {
    hide PoolAt, HeaderAt, LinksAt, SmallAt, CanaryAt, OnlyAt;
    assert Backed(m, rs[k]) && Listed(m, rs, k);
    if k > 0 {
      assert Clear(rs[k - 1], rs[k]) && Backed(m, rs[k - 1]);
    }
  }

  lemma UnmappedKept(m: Mem, m1: Mem, m2: Mem, head: nat, head': nat, rs: seq<Region>, k: nat)
    requires Registered(m, head, rs) && k < |rs| && Registered(m1, head', Without(rs, k))
    requires k == 0 ==> m1 == m
    requires k > 0 ==> Touches(m, m1, rs[k - 1].base + NextPool.At().off, NextPool.At().width)
    requires k > 0 ==> PoolAt(m1, rs[k - 1].base) == PoolAt(m, rs[k - 1].base).(next := PoolAt(m1, rs[k - 1].base).next)
    requires Unmapped(m1, m2, rs[k])
    ensures Registered(m2, head', Without(rs, k))
    ensures forall g {:trigger rs[g]} :: 0 <= g < |rs| && g != k ==> Kept(m, m2, rs[g])
  {
    hide PoolAt, HeaderAt, LinksAt, SmallAt, CanaryAt, Mapped, Kept, OnlyAt, Backed, Unmapped;
    var rs' := Without(rs, k);
    WithoutRegions(rs, k);
    forall g | 0 <= g < |rs| && g != k
      ensures Kept(m, m2, rs[g]) && Backed(m2, rs[g]) && PoolAt(m2, rs[g].base) == PoolAt(m1, rs[g].base)
    {
      assert Backed(m, rs[g]) && Backed(m, rs[k]) && Clear(rs[g], rs[k]);
      if k > 0 {
        assert Backed(m, rs[k - 1]) && (g != k - 1 ==> Clear(rs[k - 1], rs[g]));
        RelinkKept(m, m1, rs[k - 1], rs[g]);
      } else {
        NothingKept(m, rs[g]);
      }
      UnmapKept(m, m1, m2, rs[k], rs[g]);
    }
    forall j | 0 <= j < |rs'| ensures Listed(m2, rs', j) && Backed(m2, rs'[j]) {
      assert rs'[j] == rs[Shift(j, k)] && Listed(m1, rs', j);
    }
  }

  lemma NothingKept(m: Mem, r: Region)
    requires Backed(m, r)
    ensures Kept(m, m, r)
  {
  }

  /** The link of pool r is rewritten: pool s, which may be r itself, is kept. */
  lemma RelinkKept(m: Mem, m': Mem, r: Region, s: Region)
    requires Backed(m, r) && Backed(m, s) && (r == s || Clear(r, s))
    requires Touches(m, m', r.base + NextPool.At().off, NextPool.At().width)
    requires PoolAt(m', r.base) == PoolAt(m, r.base).(next := PoolAt(m', r.base).next)
    ensures Kept(m, m', s)
  {
    hide PoolAt, HeaderAt, LinksAt, SmallAt, CanaryAt;
    if r == s {
      LinkWriteKept(m, m', r);
    } else {
      OtherKept(m, m', r, s);
    }
  }

  ghost predicate Unmapped(m: Mem, m': Mem, r: Region) {
    && (forall x: nat :: x in m' <==> x in m && !r.Has(x))
    && (forall x: nat :: !r.Has(x) ==> Peek(m', x) == Peek(m, x))
  }

  lemma UnmapKept(m: Mem, m1: Mem, m2: Mem, r: Region, s: Region)
    requires Backed(m, s) && Kept(m, m1, s) && Clear(s, r) && Unmapped(m1, m2, r)
    ensures Kept(m, m2, s) && Backed(m2, s) && PoolAt(m2, s.base) == PoolAt(m1, s.base)
  {
    hide PoolAt, Unmapped;
    UnmapSame(m1, m2, r, s);
    PoolSame(m1, m2, s.base);
  }

  lemma UnmapSame(m: Mem, m': Mem, r: Region, s: Region)
    requires Mapped(m, s.base, s.size) && Clear(s, r) && Unmapped(m, m', r)
    ensures Mapped(m', s.base, s.size) && Same(m, m', s.base, s.size)
  {
  }

  // ----- the shrink policy

  /** Realloc inside the tier keeps the mapping. */
  predicate KeepsMapping(recorded: nat, size: nat) {
    !(size * 100 <= recorded * SHRINK_PERCENTAGE || size > recorded)
  }

  /** A mapping is kept exactly for a size that fits what is recorded and exceeds 80 percent of it. */
  lemma KeepsExactly(recorded: nat, size: nat)
    ensures KeepsMapping(recorded, size) <==> size <= recorded && 5 * size > 4 * recorded
  {
  }

  /** The same test in size_t. */
  predicate KeepsMapping64(recorded: nat, size: nat) {
    !((size * 100) % U64 <= (recorded * SHRINK_PERCENTAGE) % U64 || size > recorded)
  }

  /** The products do not wrap around for any mapping that can exist. */
  lemma ShrinkTestExact(recorded: nat, size: nat)
    requires recorded < USER_SPACE
    ensures KeepsMapping64(recorded, size) <==> KeepsMapping(recorded, size)
  {
  }
}
