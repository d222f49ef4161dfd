/** The small tier: size classes with central free lists, and a bounded bin per class for every thread. */
module SmallTier {
  import opened Bytes
  import opened Layout
  import opened Machine
  import opened Registry
  import opened SmallModel
  import opened SmallRep
  import opened SmallCarve
  import opened Regions
  import opened ThreadCache

  ghost predicate AllBacked(m: Mem, rs: seq<Region>) {
    forall g {:trigger rs[g]} :: 0 <= g < |rs| ==> Backed(m, rs[g])
  }

  lemma SmallHeaderMapped(m: Mem, rs: seq<Region>, s: Small, c: nat, a: nat)
    requires AllBacked(m, rs) && Geometry(rs, s) && IsCarved(s, c, a)
    ensures Mapped(m, a, SMALL_HEADER_SIZE) && 0 < a < U64
  {
    assert Housed(rs, c, a);
  }

  class SmallTier {
    // static size_class_t size_classes[], member by member
    var blockSize: seq<nat>
    var freeList: seq<nat>
    // per thread: the cache pointer and the cache's bins
    var cell: seq<Cell>
    var heads: seq<seq<nat>>
    var counts: seq<seq<nat>>
    ghost var s: Small

    ghost predicate Valid(m: Mem, rs: seq<Region>)
      reads this
    {
      blockSize == SIZES && Ordered(m, rs)
    }

    /** Everything but the table of sizes is in order. */
    ghost predicate Ordered(m: Mem, rs: seq<Region>)
      reads this
    {
      && Inv(s)
      && Chains(m, freeList, heads, s)
      && Counted(counts, s)
      && Statuses(m, s)
      && Geometry(rs, s)
      && |cell| == |s.bins|
      && (forall t, c {:trigger Bin(s.bins, t, c)} :: 0 <= t < |cell| && cell[t] != Cache ==> Bin(s.bins, t, c) == [])
    }

    /** The static variables, and those of a number of threads, as the process starts. */
    constructor (threads: nat)
      ensures Ordered(map[], []) && s == Start(threads) && |blockSize| == CLASSES
      ensures cell == seq(threads, _ => Unset)
    {
      blockSize, freeList := seq(CLASSES, _ => 0), seq(CLASSES, _ => 0);
      cell := seq(threads, _ => Unset);
      heads := seq(threads, _ => seq(CLASSES, _ => 0));
      counts := seq(threads, _ => seq(CLASSES, _ => 0));
      s := Start(threads);
      new;
      StartInv(threads);
    }

    /** dam_small_init. */
    method Init(ghost m: Mem, ghost rs: seq<Region>)
      requires Ordered(m, rs) && |blockSize| == CLASSES && forall c :: 0 <= c < CLASSES ==> s.central[c] == []
      modifies this`blockSize, this`freeList
      ensures Valid(m, rs) && freeList == old(freeList)
    {
      hide SmallAt, Statuses, Geometry, Counted, Binned, Owned;
      forall c | 0 <= c < CLASSES ensures freeList[c] == 0 {
        assert Chain(m, freeList[c], s.central[c]);
      }
      var size := 16;
      var i := 0;
      while i < CLASSES
        invariant i <= CLASSES && |blockSize| == CLASSES
        invariant forall c {:trigger blockSize[c]} :: 0 <= c < i ==> blockSize[c] == SIZES[c]
        invariant i < CLASSES ==> size == SIZES[i]
        invariant freeList == old(freeList)
      {
        blockSize := blockSize[i := size];
        freeList := freeList[i := 0];
        size := size * 2;
        i := i + 1;
      }
      assert blockSize == SIZES;
    }

    /** The least class that holds size bytes; for more than DAM_SMALL_MAX bytes the last one. */
    method SizeToClass(size: nat) returns (c: nat)
      requires blockSize == SIZES
      ensures c < CLASSES
      ensures size <= DAM_SMALL_MAX ==> size <= SIZES[c] && forall d :: 0 <= d < c ==> SIZES[d] < size
      ensures 16 < size <= DAM_SMALL_MAX ==> SIZES[c] < 2 * size
      ensures size > DAM_SMALL_MAX ==> c == CLASSES - 1
    {
      c := 0;
      while c < CLASSES
        invariant c <= CLASSES
        invariant forall d :: 0 <= d < c ==> SIZES[d] < size
      {
        if size <= blockSize[c] {
          assert c > 0 ==> SIZES[c - 1] < size && SIZES[c] == 2 * SIZES[c - 1];
          return;
        }
        c := c + 1;
      }
      c := CLASSES - 1;
    }

    /** dam_get_thread_cache: mmap is asked for a cache unless the thread's pointer is set. */
    method GetThreadCache(t: nat, ram: Ram, ghost m: Mem, ghost rs: seq<Region>) returns (got: Got)
      requires t < |cell| && Valid(m, rs)
      modifies this`cell, ram`maps
      ensures |cell| == |old(cell)| && cell == old(cell)[t := cell[t]] && Valid(m, rs)
      ensures exists mapped :: (cell[t], got) == GetCache(old(cell)[t], mapped)
      ensures got == BadPointer <==> old(cell)[t] == MapFailed
      ensures old(cell)[t] != Unset ==> ram.maps == old(ram.maps) && cell == old(cell)
      ensures old(cell)[t] == Unset ==> ram.maps == old(ram.maps) + [Mmap(CACHE_BYTES, cell[t] == Cache)]
      ensures old(cell)[t] == Unset ==> cell[t] == Cache || cell[t] == MapFailed
    {
      hide Chains, Statuses, Geometry, Counted, Inv;
      var mapped := false;
      if cell[t] == Unset {
        mapped := ram.MapApart(CACHE_BYTES);
      }
      var r := GetCache(cell[t], mapped);
      cell := cell[t := r.0];
      got := r.1;
    }

    /** A list is empty exactly when its head is NULL. */
    lemma Fronts(m: Mem, rs: seq<Region>, c: nat, t: nat)
      requires Valid(m, rs) && c < CLASSES
      ensures |freeList| == CLASSES && (freeList[c] == 0 <==> s.central[c] == [])
      ensures t < |heads| ==> |heads[t]| == CLASSES && (heads[t][c] == 0 <==> Bin(s.bins, t, c) == [])
      ensures |heads| == |counts| == |cell|
      ensures t < |counts| ==> |counts[t]| == CLASSES && counts[t][c] == |Bin(s.bins, t, c)|
    {
      hide SmallAt, Binned, Owned, Statuses;
      assert Chain(m, freeList[c], s.central[c]);
      if s.central[c] != [] {
        MembersCarved(s, 0, c, s.central[c][0]);
      }
      if t < |heads| {
        assert Chain(m, heads[t][c], Bin(s.bins, t, c));
        if Bin(s.bins, t, c) != [] {
          MembersCarved(s, t, c, Bin(s.bins, t, c)[0]);
        }
      }
    }

    /** Operations elsewhere in memory keep the tier in order. */
    lemma Elsewhere(m: Mem, m': Mem, rs: seq<Region>, rs': seq<Region>)
      requires Valid(m, rs) && HeadersKept(m, m', s)
      requires forall g {:trigger rs[g]} :: 0 <= g < |rs| && rs[g].kind == SMALL_KIND ==> rs[g] in rs'
      ensures Valid(m', rs')
    {
      hide Chains, Statuses, Geometry, HeadersKept, Binned, Owned;
      RepKept(m, m', freeList, heads, s);
      HousedMore(rs, rs', s);
    }

    /** is_free and magic of a block handed to a client. */
    method MarkUsed(ram: Ram, block: nat)
      requires Mapped(ram.mem, block, SMALL_HEADER_SIZE)
      modifies ram`mem
      ensures OnlyAt(old(ram.mem), ram.mem, block, SMALL_HEADER_SIZE)
      ensures SmallAt(ram.mem, block) == SmallAt(old(ram.mem), block).(isFree := 0, magic := SMALL_MAGIC)
    {
      hide HeaderAt, LinksAt, PoolAt, SmallAt, CanaryAt, Limit;
      Limits();
      ram.SetSmall(block, SmallFree, 0);
      ram.SetSmall(block, SmallMagic, SMALL_MAGIC);
    }

    method MarkUnlinked(ram: Ram, block: nat)
      requires Mapped(ram.mem, block, SMALL_HEADER_SIZE)
      modifies ram`mem
      ensures OnlyAt(old(ram.mem), ram.mem, block, SMALL_HEADER_SIZE)
      ensures SmallAt(ram.mem, block) == SmallAt(old(ram.mem), block).(isFree := 0, magic := SMALL_MAGIC, next := 0)
    {
      hide HeaderAt, LinksAt, PoolAt, SmallAt, CanaryAt, Limit;
      Limits();
      ram.SetSmall(block, SmallFree, 0);
      ram.SetSmall(block, SmallMagic, SMALL_MAGIC);
      ram.SetSmall(block, SmallNext, 0);
    }

    /** is_free, magic and next of a block given back. */
    method MarkFreed(ram: Ram, block: nat, next: nat)
      requires Mapped(ram.mem, block, SMALL_HEADER_SIZE) && next < U64
      modifies ram`mem
      ensures OnlyAt(old(ram.mem), ram.mem, block, SMALL_HEADER_SIZE)
      ensures SmallAt(ram.mem, block) ==
              SmallAt(old(ram.mem), block).(isFree := 1, magic := SMALL_FREED_MAGIC, next := next)
    {
      hide HeaderAt, LinksAt, PoolAt, SmallAt, CanaryAt, Limit;
      Limits();
      ram.SetSmall(block, SmallFree, 1);
      ram.SetSmall(block, SmallMagic, SMALL_FREED_MAGIC);
      ram.SetSmall(block, SmallNext, next);
    }

    /** The locked part of small malloc, when the central list of the class is not empty. */
    method TakeCentral(ram: Ram, c: nat, ghost rs: seq<Region>) returns (block: nat)
      requires Valid(ram.mem, rs) && AllBacked(ram.mem, rs) && c < CLASSES && s.central[c] != []
      modifies this`freeList, this`s, ram`mem
      ensures Valid(ram.mem, rs) && s == PopCentral(old(s), c)
      ensures block == old(s).central[c][0] && IsCarved(s, c, block) && block !in old(s).live[c]
      ensures OnlyAt(old(ram.mem), ram.mem, block, SMALL_HEADER_SIZE)
    {
      hide SmallAt, Chain, Binned, Owned, OnlyAt, Mapped;
      ghost var m, s0 := ram.mem, s;
      PopCentralInv(s, c);
      ChainsPopCentral(m, freeList, heads, s, c);
      block := freeList[c];
      SmallHeaderMapped(m, rs, s, c, block);
      var h := ram.ReadSmall(block);
      freeList := freeList[c := h.next];
      s := PopCentral(s, c);
      MarkUsed(ram, block);
      Taken(m, ram.mem, rs, freeList, heads, counts, s0, s, c, block);
    }

    /** The fast path of small malloc: the front of the thread's own bin. */
    method TakeCached(ram: Ram, t: nat, c: nat, ghost rs: seq<Region>) returns (block: nat)
      requires Valid(ram.mem, rs) && AllBacked(ram.mem, rs) && c < CLASSES && t < |cell| && Bin(s.bins, t, c) != []
      modifies this`heads, this`counts, this`s, ram`mem
      ensures Valid(ram.mem, rs) && s == PopBin(old(s), t, c)
      ensures block == Bin(old(s).bins, t, c)[0] && IsCarved(s, c, block) && block !in old(s).live[c]
      ensures OnlyAt(old(ram.mem), ram.mem, block, SMALL_HEADER_SIZE)
    {
      hide SmallAt, Binned, Owned, OnlyAt, Mapped;
      ghost var m, s0, l := ram.mem, s, Bin(s.bins, t, c);
      PopBinInv(s, t, c);
      ChainPop(m, heads[t][c], l);
      block := heads[t][c];
      SmallHeaderMapped(m, rs, s, c, block);
      var h := ram.ReadSmall(block);
      ChainsSetBin(m, freeList, heads, s, t, c, h.next, l[1..]);
      ChainsLive(m, freeList, SetAt(heads, t, c, h.next), SetBin(s, t, c, l[1..]), PopBin(s, t, c).live);
      CountedSetBin(counts, s, t, c, l[1..]);
      heads := SetAt(heads, t, c, h.next);
      counts := SetAt(counts, t, c, counts[t][c] - 1);
      s := PopBin(s, t, c);
      SetBinFormed(s0, t, c, l[1..]);
      MarkUnlinked(ram, block);
      Taken(m, ram.mem, rs, freeList, heads, counts, s0, s, c, block);
    }

    /** The locked part of small free: refused when the block is free already. */
    method GiveCentral(ram: Ram, block: nat, ghost c: nat, ghost rs: seq<Region>) returns (done: bool)
      requires Valid(ram.mem, rs) && AllBacked(ram.mem, rs) && IsCarved(s, c, block)
      modifies this`freeList, this`s, ram`mem
      ensures Valid(ram.mem, rs)
      ensures done <==> block in old(s).live[c]
      ensures done ==> s == PushCentral(old(s), c, block) && OnlyAt(old(ram.mem), ram.mem, block, SMALL_HEADER_SIZE)
      ensures !done ==> ram.mem == old(ram.mem) && s == old(s) && freeList == old(freeList)
    {
      hide SmallAt, Chain, Binned, Owned, OnlyAt, Mapped;
      ghost var m, s0 := ram.mem, s;
      SmallHeaderMapped(m, rs, s, c, block);
      StatusOf(m, s, c, block);
      var h := ram.ReadSmall(block);
      if h.magic == SMALL_FREED_MAGIC || h.magic != SMALL_MAGIC {
        return false;
      }
      PushCentralInv(s, c, block);
      FrontBound(m, rs, freeList, heads, s, c, 0);
      MarkFreed(ram, block, freeList[h.cls]);
      Given(m, ram.mem, rs, freeList, heads, s, PushCentral(s, c, block), c, block);
      ChainsPushCentral(ram.mem, freeList, heads, s, c, block);
      freeList := freeList[h.cls := block];
      s := PushCentral(s, c, block);
      return true;
    }

    /** The fast path of small free: to the front of the thread's own bin, whoever allocated the block. */
    method GiveCached(ram: Ram, t: nat, block: nat, ghost c: nat, ghost rs: seq<Region>)
      requires Valid(ram.mem, rs) && AllBacked(ram.mem, rs) && IsCarved(s, c, block) && block in s.live[c]
      requires t < |cell| && cell[t] == Cache && |Bin(s.bins, t, c)| < MAX_CACHED
      modifies this`heads, this`counts, this`s, ram`mem
      ensures Valid(ram.mem, rs) && s == PushBin(old(s), t, c, block)
      ensures OnlyAt(old(ram.mem), ram.mem, block, SMALL_HEADER_SIZE)
    {
      hide SmallAt, Binned, Owned, OnlyAt, Mapped;
      ghost var m, s0, l := ram.mem, s, Bin(s.bins, t, c);
      SmallHeaderMapped(m, rs, s, c, block);
      StatusOf(m, s, c, block);
      var h := ram.ReadSmall(block);
      PushBinInv(s, t, c, block);
      FrontBound(m, rs, freeList, heads, s, c, t);
      MarkFreed(ram, block, heads[t][h.cls]);
      Given(m, ram.mem, rs, freeList, heads, s, PushBin(s, t, c, block), c, block);
      ChainPush(ram.mem, heads[t][c], l, block);
      ChainsSetBin(ram.mem, freeList, heads, s, t, c, block, [block] + l);
      ChainsLive(ram.mem, freeList, SetAt(heads, t, c, block), SetBin(s, t, c, [block] + l),
          PushBin(s, t, c, block).live);
      CountedSetBin(counts, s, t, c, [block] + l);
      SetBinFormed(s, t, c, [block] + l);
      heads := SetAt(heads, t, h.cls, block);
      counts := SetAt(counts, t, h.cls, counts[t][h.cls] + 1);
      s := PushBin(s, t, c, block);
    }

    /** create_small_pool: a pool for class c, carved and put in front of the class's central list. */
    method CreateSmallPool(ram: Ram, head: nat, c: nat, ghost rs: seq<Region>) returns (pool: nat, head': nat)
      requires Valid(ram.mem, rs) && Registered(ram.mem, head, rs) && c < CLASSES
      modifies this`freeList, this`s, ram
      ensures ram.maps == old(ram.maps) + [Mmap(PoolBytes(c), pool != 0)]
      ensures pool == 0 ==> ram.mem == old(ram.mem) && head' == head && s == old(s) && freeList == old(freeList)
      ensures pool != 0 ==>
                && Grew(old(ram.mem), ram.mem, pool, PoolBytes(c))
                && Registered(ram.mem, head', [Region(pool, PoolBytes(c), SMALL_KIND)] + rs)
                && PoolAt(ram.mem, pool).blockList == 0 && PoolAt(ram.mem, pool).readOnly == 0
                && Valid(ram.mem, [Region(pool, PoolBytes(c), SMALL_KIND)] + rs)
                && s == Carve(old(s), c, CarvedList(pool, Stride(c), BLOCKS_PER_POOL))
                && s.central[c] != [] && FreshBlocks(old(s), CarvedList(pool, Stride(c), BLOCKS_PER_POOL))
    {
      hide PoolAt, SmallAt, Chain, Binned, Owned, Mapped, CarvedList, PoolBytes, PageAligned, MappedFrom, Grew,
           Registered, Geometry, Statuses, Kept, OnlyAt, AlignUp;
      pool, head' := 0, head;
      var usable := (SMALL_HEADER_SIZE + blockSize[c]) * BLOCKS_PER_POOL;
      var size := AlignUp(POOL_HEADER_SIZE + usable, ALIGNMENT);
      SmallPoolSize(c);
      ghost var m, s0 := ram.mem, s;
      var base := ram.Map(size);
      if base == 0 {
        return;
      }
      PagesAligned(base);
      ghost var l := CarvedList(base, Stride(c), BLOCKS_PER_POOL);
      var front;
      front, head' := BuildSmallPool(ram, head, base, c, m, rs);
      ghost var m3 := ram.mem;
      OldTier(m, m3, head, rs, base, PoolBytes(c), freeList, heads, s);
      GrewMapped(m, m3, base, PoolBytes(c));
      RegisteredBacked(m, head, rs);
      AppendReady(m3, rs, s, base, c);
      FrontBound(m, rs, freeList, heads, s, c, 0);
      AppendList(ram, front, freeList[c], l, s.central[c]);
      AfterAppend(m3, ram.mem, rs, freeList, heads, s, base, c, l[|l| - 1]);
      AppendInside(m, m3, ram.mem, head', rs, base, c, l[|l| - 1]);
      CarvedFresh(rs, s, base, c);
      CarveRep(ram.mem, freeList, heads, s, c, front, l);
      CarveInv(s, c, l);
      CarveGeometry(rs, s, base, c);
      CarveCounted(counts, s, c, l);
      freeList := freeList[c := front];
      s := Carve(s, c, l);
      pool := base;
    }
  }

  /** The rounding in create_small_pool changes nothing: the size is a multiple of the alignment as it is. */
  lemma SmallPoolSize(c: nat)
    requires c < CLASSES
    ensures AlignUp(POOL_HEADER_SIZE + (SMALL_HEADER_SIZE + SIZES[c]) * BLOCKS_PER_POOL, ALIGNMENT) == PoolBytes(c)
  {
  }

  lemma GrewMapped(m: Mem, m': Mem, base: nat, len: nat)
    requires Grew(m, m', base, len)
    ensures Mapped(m', base, len)
  {
  }

  lemma RegisteredBacked(m: Mem, head: nat, rs: seq<Region>)
    requires Registered(m, head, rs)
    ensures AllBacked(m, rs)
  {
    forall g | 0 <= g < |rs| ensures Backed(m, rs[g]) {
    }
  }

  lemma AppendInside(m: Mem, m1: Mem, m2: Mem, head: nat, rs: seq<Region>, base: nat, c: nat, x: nat)
    requires Grew(m, m1, base, PoolBytes(c)) && Registered(m1, head, [Region(base, PoolBytes(c), SMALL_KIND)] + rs)
    requires x in CarvedList(base, Stride(c), BLOCKS_PER_POOL) && base % ALIGNMENT == 0
    requires OnlyAt(m1, m2, x, SMALL_HEADER_SIZE)
    ensures Grew(m, m2, base, PoolBytes(c)) && Registered(m2, head, [Region(base, PoolBytes(c), SMALL_KIND)] + rs)
    ensures PoolAt(m2, base) == PoolAt(m1, base)
  {
    hide PoolAt, CarvedList, Grew, Registered, Kept;
    CarvedIn(base, c, x);
    StillGrew(m, m1, m2, base, PoolBytes(c), x, SMALL_HEADER_SIZE);
    RegisteredInside(m1, m2, head, [Region(base, PoolBytes(c), SMALL_KIND)] + rs, 0);
  }

  lemma CarveCounted(counts: seq<seq<nat>>, s: Small, c: nat, l: seq<nat>)
    requires Counted(counts, s) && c < CLASSES
    ensures Counted(counts, Carve(s, c, l))
  {
    forall t, d | 0 <= t < |counts| && 0 <= d < CLASSES ensures counts[t][d] == |Bin(Carve(s, c, l).bins, t, d)| {
      assert counts[t][d] == |Bin(s.bins, t, d)|;
    }
  }

  /** A list starts at a mapped block or is empty. */
  lemma FrontBound(m: Mem, rs: seq<Region>, freeList: seq<nat>, heads: seq<seq<nat>>, s: Small, c: nat, t: nat)
    requires Inv(s) && Chains(m, freeList, heads, s) && AllBacked(m, rs) && Geometry(rs, s) && c < CLASSES
    ensures freeList[c] < U64
    ensures t < |heads| ==> heads[t][c] < U64
  {
    hide SmallAt, Binned, Owned, Mapped;
    assert Chain(m, freeList[c], s.central[c]);
    if s.central[c] != [] {
      MembersCarved(s, 0, c, s.central[c][0]);
      SmallHeaderMapped(m, rs, s, c, s.central[c][0]);
    }
    if t < |heads| {
      assert Chain(m, heads[t][c], Bin(s.bins, t, c));
      if Bin(s.bins, t, c) != [] {
        MembersCarved(s, t, c, Bin(s.bins, t, c)[0]);
        SmallHeaderMapped(m, rs, s, c, Bin(s.bins, t, c)[0]);
      }
    }
  }

  /** Taking back block x of class c, before it is put on a list. */
  lemma Given(m: Mem, m': Mem, rs: seq<Region>, freeList: seq<nat>, heads: seq<seq<nat>>, s: Small, s': Small, c: nat,
      x: nat)
    requires Inv(s) && Formed(s') && Statuses(m, s) && Geometry(rs, s) && Chains(m, freeList, heads, s)
    requires IsCarved(s, c, x) && x in s.live[c] && s'.carved == s.carved && s'.live == s.live[c := s.live[c] - {x}]
    requires OnlyAt(m, m', x, SMALL_HEADER_SIZE)
    requires SmallAt(m', x) == SmallAt(m, x).(isFree := 1, magic := SMALL_FREED_MAGIC, next := SmallAt(m', x).next)
    ensures Chains(m', freeList, heads, s) && Statuses(m', s') && Geometry(rs, s')
  {
    hide SmallAt, Chain, Binned, Owned, OnlyAt;
    HeaderWrite(m, m', rs, s, c, x);
    SameCarved(m, m', rs, s, s', x);
    ChainsKept(m, m', freeList, heads, s, c, x);
    OnlyOneClass(s, c, x);
    StatusOf(m, s, c, x);
    StatusesUsed(m, m', s, s', c, x);
  }

  /** Handing out block x of class c keeps the tier in order. */
  lemma Taken(m: Mem, m': Mem, rs: seq<Region>, freeList: seq<nat>, heads: seq<seq<nat>>, counts: seq<seq<nat>>,
              s: Small, s': Small, c: nat, x: nat)
    requires Inv(s) && Inv(s') && Statuses(m, s) && Geometry(rs, s) && Chains(m, freeList, heads, s')
             && Counted(counts, s')
    requires IsCarved(s, c, x) && s'.carved == s.carved && s'.live == s.live[c := s.live[c] + {x}]
    requires OnlyAt(m, m', x, SMALL_HEADER_SIZE)
    requires SmallAt(m', x) == SmallAt(m, x).(isFree := 0, magic := SMALL_MAGIC, next := SmallAt(m', x).next)
    ensures Chains(m', freeList, heads, s') && Statuses(m', s') && Geometry(rs, s')
  {
    hide SmallAt, Chain, Binned, Owned, OnlyAt;
    HeaderWrite(m, m', rs, s, c, x);
    SameCarved(m, m', rs, s, s', x);
    ChainsKept(m, m', freeList, heads, s', c, x);
    OnlyOneClass(s, c, x);
    StatusOf(m, s, c, x);
    StatusesUsed(m, m', s, s', c, x);
  }

  lemma SameCarved(m: Mem, m': Mem, rs: seq<Region>, s: Small, s': Small, x: nat)
    requires s'.carved == s.carved && OnlyHeaderOf(m, m', s, x) && Geometry(rs, s)
    ensures OnlyHeaderOf(m, m', s', x) && Geometry(rs, s')
  {
    hide SmallAt;
    forall c: nat, a: nat | IsCarved(s', c, a) ensures IsCarved(s, c, a) {
    }
  }

  lemma CountedSetBin(counts: seq<seq<nat>>, s: Small, t: nat, c: nat, l: seq<nat>)
    requires Counted(counts, s) && t < |counts| && c < CLASSES
    ensures Counted(SetAt(counts, t, c, |l|), SetBin(s, t, c, l))
  {
    SetBinFormed(s, t, c, l);
    var s', counts' := SetBin(s, t, c, l), SetAt(counts, t, c, |l|);
    forall u, d | 0 <= u < |counts'| && 0 <= d < CLASSES ensures counts'[u][d] == |Bin(s'.bins, u, d)| {
      assert counts[u][d] == |Bin(s.bins, u, d)|;
    }
  }

  lemma OnlyOneClass(s: Small, c: nat, a: nat)
    requires Inv(s) && IsCarved(s, c, a)
    ensures forall d :: 0 <= d < CLASSES && d != c ==> a !in s.carved[d]
  {
    forall d | 0 <= d < CLASSES && d != c ensures a !in s.carved[d] {
      assert c < d ==> s.carved[c] !! s.carved[d];
      assert d < c ==> s.carved[d] !! s.carved[c];
    }
  }

  lemma StatusOf(m: Mem, s: Small, c: nat, a: nat)
    requires Formed(s) && Statuses(m, s) && IsCarved(s, c, a)
    ensures Status(m, s, c, a)
  {
  }
}
