/** Carving a new small pool into the blocks of its class. */
module SmallCarve {
  import opened Bytes
  import opened Layout
  import opened Machine
  import opened Registry
  import opened Regions
  import opened SmallModel
  import opened SmallRep

  /** Block k of a pool at base, counted from its start. */
  function Nth(base: nat, stride: nat, k: nat): nat {
    if k == 0 then base + POOL_HEADER_SIZE else Nth(base, stride, k - 1) + stride
  }

  lemma {:induction false} NthGap(base: nat, stride: nat, j: nat, k: nat)
    requires j <= k
    ensures base + POOL_HEADER_SIZE <= Nth(base, stride, j)
    ensures if j < k then Nth(base, stride, j) + stride <= Nth(base, stride, k)
            else Nth(base, stride, j) == Nth(base, stride, k)
    decreases k
  {
    if j < k {
      NthGap(base, stride, j, k - 1);
    } else if k > 0 {
      NthGap(base, stride, k - 1, k - 1);
    }
  }

  function PoolBytes(c: nat): nat {
    POOL_HEADER_SIZE + Stride(c) * BLOCKS_PER_POOL
  }

  lemma {:induction false} NthIs(base: nat, stride: nat, k: nat)
    ensures Nth(base, stride, k) == base + POOL_HEADER_SIZE + stride * k
  {
    if k > 0 {
      NthIs(base, stride, k - 1);
      assert stride * k == stride * (k - 1) + stride;
    }
  }

  /** The thousand blocks end exactly where the pool ends. */
  lemma NthEnd(base: nat, c: nat)
    ensures Nth(base, Stride(c), BLOCKS_PER_POOL) == base + PoolBytes(c)
  {
    NthIs(base, Stride(c), BLOCKS_PER_POOL);
  }

  lemma {:induction false} NthAligned(base: nat, c: nat, k: nat)
    requires base % ALIGNMENT == 0
    ensures Nth(base, Stride(c), k) % ALIGNMENT == 0
  {
    if k > 0 {
      NthAligned(base, c, k - 1);
    }
  }

  /** The first i blocks of the pool, the last one carved in front. */
  function CarvedList(base: nat, stride: nat, i: nat): (l: seq<nat>)
    ensures |l| == i
  {
    if i == 0 then [] else [Nth(base, stride, i - 1)] + CarvedList(base, stride, i - 1)
  }

  lemma {:induction false} CarvedListAt(base: nat, stride: nat, i: nat, j: nat)
    requires j < i
    ensures CarvedList(base, stride, i)[j] == Nth(base, stride, i - 1 - j)
  {
    if j > 0 {
      CarvedListAt(base, stride, i - 1, j - 1);
    }
  }

  lemma CarvedListMember(base: nat, stride: nat, i: nat, a: nat) returns (k: nat)
    requires a in CarvedList(base, stride, i)
    ensures k < i && a == Nth(base, stride, k)
  {
    var j :| 0 <= j < i && CarvedList(base, stride, i)[j] == a;
    CarvedListAt(base, stride, i, j);
    k := i - 1 - j;
  }

  ghost predicate FreshHeader(m: Mem, c: nat, a: nat) {
    var h := SmallAt(m, a);
    h.magic == SMALL_FREED_MAGIC && h.isFree == 1 && h.cls == c
  }

  ghost predicate FreshHeaders(m: Mem, c: nat, l: seq<nat>) {
    forall a {:trigger FreshHeader(m, c, a)} :: a in l ==> FreshHeader(m, c, a)
  }

  /** The header writes for one block of the pool. */
  method InitBlock(ram: Ram, a: nat, c: nat, next: nat)
    requires Mapped(ram.mem, a, SMALL_HEADER_SIZE) && c < CLASSES && next < U64
    modifies ram`mem
    ensures SmallAt(ram.mem, a) == SmallHeader(SMALL_FREED_MAGIC, c, 1, next)
    ensures OnlyAt(old(ram.mem), ram.mem, a, SMALL_HEADER_SIZE)
  {
    hide HeaderAt, LinksAt, PoolAt, SmallAt, CanaryAt, Limit;
    Limits();
    ram.SetSmall(a, SmallMagic, SMALL_FREED_MAGIC);
    ram.SetSmall(a, SmallFree, 1);
    ram.SetSmall(a, ClassIndex, c);
    ram.SetSmall(a, SmallNext, next);
  }

  /** The carving loop: exactly a thousand blocks, so its early exit is never taken. */
  method CarveBlocks(ram: Ram, base: nat, c: nat) returns (front: nat)
    requires c < CLASSES && 0 < base && base + PoolBytes(c) < U64 && Mapped(ram.mem, base, PoolBytes(c))
    modifies ram`mem
    ensures var l := CarvedList(base, Stride(c), BLOCKS_PER_POOL);
            Chain(ram.mem, front, l) && FreshHeaders(ram.mem, c, l)
    ensures OnlyAt(old(ram.mem), ram.mem, base + POOL_HEADER_SIZE, PoolBytes(c) - POOL_HEADER_SIZE)
  {
    hide SmallAt, Chain, FreshHeaders, OnlyAt, Mapped, Stride, PoolBytes, CarvedList;
    NthEnd(base, c);
    PoolBytesOf(c);
    var stride := Stride(c);
    var cursor, end := base + POOL_HEADER_SIZE, base + PoolBytes(c);
    front := 0;
    var i := 0;
    NothingCarved(ram.mem, base, c);
    OnlyRefl(ram.mem, base + POOL_HEADER_SIZE, PoolBytes(c) - POOL_HEADER_SIZE);
    while i < BLOCKS_PER_POOL
      invariant i <= BLOCKS_PER_POOL && cursor == Nth(base, stride, i) && front < U64
      invariant ram.mem.Keys == old(ram.mem).Keys
      invariant Chain(ram.mem, front, CarvedList(base, stride, i))
                && FreshHeaders(ram.mem, c, CarvedList(base, stride, i))
      invariant OnlyAt(old(ram.mem), ram.mem, base + POOL_HEADER_SIZE, PoolBytes(c) - POOL_HEADER_SIZE)
    {
      NthGap(base, stride, i, BLOCKS_PER_POOL);
      NthGap(base, stride, 0, i);
      if cursor + stride > end {
        break;
      }
      ghost var m := ram.mem;
      CursorMapped(m, old(ram.mem), base, c, cursor);
      InitBlock(ram, cursor, c, front);
      CarvedOne(m, ram.mem, base, c, i, front);
      OnlyMore(old(ram.mem), m, ram.mem, base, c, cursor);
      front := cursor;
      cursor := cursor + stride;
      i := i + 1;
    }
  }

  lemma PoolBytesOf(c: nat)
    ensures PoolBytes(c) >= POOL_HEADER_SIZE && Stride(c) >= SMALL_HEADER_SIZE
  {
  }

  lemma OnlyRefl(m: Mem, a: nat, n: nat)
    ensures OnlyAt(m, m, a, n)
  {
  }

  lemma NothingCarved(m: Mem, base: nat, c: nat)
    ensures Chain(m, 0, CarvedList(base, Stride(c), 0)) && FreshHeaders(m, c, CarvedList(base, Stride(c), 0))
  {
  }

  lemma CursorMapped(m: Mem, m0: Mem, base: nat, c: nat, a: nat)
    requires Mapped(m0, base, PoolBytes(c)) && m.Keys == m0.Keys && base <= a && a + Stride(c) <= base + PoolBytes(c)
    ensures Mapped(m, a, SMALL_HEADER_SIZE)
  {
  }

  lemma OnlyMore(m0: Mem, m: Mem, m': Mem, base: nat, c: nat, a: nat)
    requires PoolBytes(c) >= POOL_HEADER_SIZE
    requires OnlyAt(m0, m, base + POOL_HEADER_SIZE, PoolBytes(c) - POOL_HEADER_SIZE)
             && OnlyAt(m, m', a, SMALL_HEADER_SIZE)
    requires base + POOL_HEADER_SIZE <= a && a + Stride(c) <= base + PoolBytes(c)
    ensures OnlyAt(m0, m', base + POOL_HEADER_SIZE, PoolBytes(c) - POOL_HEADER_SIZE)
    ensures m'.Keys == m0.Keys
  {
  }

  /** The next block joins the list at the front. */
  lemma CarvedOne(m: Mem, m': Mem, base: nat, c: nat, i: nat, front: nat)
    requires Chain(m, front, CarvedList(base, Stride(c), i)) && FreshHeaders(m, c, CarvedList(base, Stride(c), i))
    requires OnlyAt(m, m', Nth(base, Stride(c), i), SMALL_HEADER_SIZE)
    requires SmallAt(m', Nth(base, Stride(c), i)) == SmallHeader(SMALL_FREED_MAGIC, c, 1, front)
    ensures Chain(m', Nth(base, Stride(c), i), CarvedList(base, Stride(c), i + 1))
    ensures FreshHeaders(m', c, CarvedList(base, Stride(c), i + 1))
  {
    hide SmallAt, Chain, OnlyAt, Stride;
    var l, x := CarvedList(base, Stride(c), i), Nth(base, Stride(c), i);
    PoolBytesOf(c);
    forall a | a in l ensures SmallAt(m', a) == SmallAt(m, a) {
      var k := CarvedListMember(base, Stride(c), i, a);
      NthGap(base, Stride(c), k, i);
      AboveSame(m, m', a, x);
    }
    ChainKept(m, m', front, l);
    ChainPush(m', front, l, x);
    forall a | a in [x] + l ensures FreshHeader(m', c, a) {
      assert a in l ==> FreshHeader(m, c, a);
    }
  }

  lemma AboveSame(m: Mem, m': Mem, a: nat, x: nat)
    requires OnlyAt(m, m', x, SMALL_HEADER_SIZE) && a + SMALL_HEADER_SIZE <= x
    ensures SmallAt(m', a) == SmallAt(m, a)
  {
    SmallSame(m, m', a);
  }

  ghost predicate AwayFrom(x: nat, l: seq<nat>) {
    forall a {:trigger a in l} :: a in l && a != x ==> a + SMALL_HEADER_SIZE <= x || x + SMALL_HEADER_SIZE <= a
  }

  /** Walk to the last block of list l and hang list rest behind it. */
  method AppendList(ram: Ram, front: nat, head: nat, ghost l: seq<nat>, ghost rest: seq<nat>)
    requires l != [] && Chain(ram.mem, front, l) && Chain(ram.mem, head, rest) && head < U64
    requires forall a :: a in l ==> a > 0 && Mapped(ram.mem, a, SMALL_HEADER_SIZE)
    requires var x := l[|l| - 1]; x !in rest && x !in l[..|l| - 1] && AwayFrom(x, l) && AwayFrom(x, rest)
    modifies ram`mem
    ensures Chain(ram.mem, front, l + rest)
    ensures OnlyAt(old(ram.mem), ram.mem, l[|l| - 1], SMALL_HEADER_SIZE)
    ensures SmallAt(ram.mem, l[|l| - 1]) == SmallAt(old(ram.mem), l[|l| - 1]).(next := head)
  {
    hide HeaderAt, LinksAt, PoolAt, SmallAt, CanaryAt, Limit, Mapped, OnlyAt;
    Limits();
    var tail := front;
    ghost var j := 0;
    assert l[0] in l && (|l| > 1 ==> l[1] in l);
    assert ChainAt(ram.mem, l, 0);
    var h := ram.ReadSmall(tail);
    while h.next != 0
      invariant j < |l| && tail == l[j] && h == SmallAt(ram.mem, tail) && ram.mem == old(ram.mem)
      invariant h.next == (if j + 1 < |l| then l[j + 1] else 0) && (j + 1 < |l| ==> l[j + 1] > 0)
      decreases |l| - j
    {
      tail, j := h.next, j + 1;
      assert l[j] in l && ChainAt(ram.mem, l, j);
      assert j + 1 < |l| ==> l[j + 1] in l;
      h := ram.ReadSmall(tail);
    }
    ram.SetSmall(tail, SmallNext, head);
    Appended(old(ram.mem), ram.mem, front, head, l, rest);
  }

  lemma Appended(m: Mem, m': Mem, front: nat, head: nat, l: seq<nat>, rest: seq<nat>)
    requires l != [] && Chain(m, front, l) && Chain(m, head, rest)
    requires var x := l[|l| - 1];
             && x !in rest && x !in l[..|l| - 1] && AwayFrom(x, l) && AwayFrom(x, rest)
             && OnlyAt(m, m', x, SMALL_HEADER_SIZE) && SmallAt(m', x) == SmallAt(m, x).(next := head)
    ensures Chain(m', front, l + rest)
  {
    hide SmallAt, OnlyAt;
    var x, both := l[|l| - 1], l + rest;
    forall j | 0 <= j < |both| ensures ChainAt(m', both, j) {
      if j < |l| - 1 {
        assert ChainAt(m, l, j) && l[j] in l && l[j] in l[..|l| - 1];
        AwaySame(m, m', l[j], x);
      } else if j >= |l| {
        assert ChainAt(m, rest, j - |l|) && rest[j - |l|] in rest;
        AwaySame(m, m', rest[j - |l|], x);
      }
    }
  }

  lemma AwaySame(m: Mem, m': Mem, a: nat, x: nat)
    requires OnlyAt(m, m', x, SMALL_HEADER_SIZE) && (a + SMALL_HEADER_SIZE <= x || x + SMALL_HEADER_SIZE <= a)
    ensures SmallAt(m', a) == SmallAt(m, a)
  {
    SmallSame(m, m', a);
  }

  // ----- the tier with the new pool

  lemma CarvedIn(base: nat, c: nat, a: nat)
    requires a in CarvedList(base, Stride(c), BLOCKS_PER_POOL) && base % ALIGNMENT == 0
    ensures base + POOL_HEADER_SIZE <= a && a + Stride(c) <= base + PoolBytes(c) && a % ALIGNMENT == 0
  {
    hide CarvedList, Nth;
    var k := CarvedListMember(base, Stride(c), BLOCKS_PER_POOL, a);
    NthGap(base, Stride(c), k, BLOCKS_PER_POOL);
    NthAligned(base, c, k);
    NthEnd(base, c);
  }

  lemma CarvedApart(base: nat, c: nat, a: nat, b: nat)
    requires a in CarvedList(base, Stride(c), BLOCKS_PER_POOL) && b in CarvedList(base, Stride(c), BLOCKS_PER_POOL)
             && a != b
    ensures ApartSmall(c, a, c, b)
  {
    hide CarvedList, Nth;
    var j := CarvedListMember(base, Stride(c), BLOCKS_PER_POOL, a);
    var k := CarvedListMember(base, Stride(c), BLOCKS_PER_POOL, b);
    if j < k {
      NthGap(base, Stride(c), j, k);
    } else {
      NthGap(base, Stride(c), k, j);
    }
  }

  /** A block of the new pool is none of the old ones, and overlaps none of them. */
  lemma CarvedNew(rs: seq<Region>, s: Small, base: nat, c: nat, a: nat, d: nat, b: nat)
    requires Geometry(rs, s) && IsCarved(s, d, b) && base % ALIGNMENT == 0
    requires forall g {:trigger rs[g]} :: 0 <= g < |rs| ==>
               base + PoolBytes(c) <= rs[g].base || rs[g].base + rs[g].size <= base
    requires a in CarvedList(base, Stride(c), BLOCKS_PER_POOL)
    ensures ApartSmall(c, a, d, b) && a != b
  {
    hide CarvedList, PoolBytes;
    CarvedIn(base, c, a);
    assert Housed(rs, d, b);
    var g :| 0 <= g < |rs| && InPool(rs[g], d, b);
  }

  lemma CarvedFresh(rs: seq<Region>, s: Small, base: nat, c: nat)
    requires Geometry(rs, s) && base % ALIGNMENT == 0 && |s.carved| == CLASSES
    requires forall g {:trigger rs[g]} :: 0 <= g < |rs| ==>
               base + PoolBytes(c) <= rs[g].base || rs[g].base + rs[g].size <= base
    ensures FreshBlocks(s, CarvedList(base, Stride(c), BLOCKS_PER_POOL))
  {
    hide CarvedList, PoolBytes, Nth;
    var l := CarvedList(base, Stride(c), BLOCKS_PER_POOL);
    forall j, k | 0 <= j < k < |l| ensures l[j] != l[k] {
      CarvedListAt(base, Stride(c), BLOCKS_PER_POOL, j);
      CarvedListAt(base, Stride(c), BLOCKS_PER_POOL, k);
      NthGap(base, Stride(c), BLOCKS_PER_POOL - 1 - k, BLOCKS_PER_POOL - 1 - j);
    }
    forall a, d | a in l && 0 <= d < |s.carved| ensures a !in s.carved[d] {
      if a in s.carved[d] {
        assert IsCarved(s, d, a);
        CarvedNew(rs, s, base, c, a, d, a);
      }
    }
  }

  lemma CarveGeometry(rs: seq<Region>, s: Small, base: nat, c: nat)
    requires Geometry(rs, s) && Formed(s) && base % ALIGNMENT == 0 && base > 0 && c < CLASSES
    requires forall g {:trigger rs[g]} :: 0 <= g < |rs| ==>
               base + PoolBytes(c) <= rs[g].base || rs[g].base + rs[g].size <= base
    ensures Geometry([Region(base, PoolBytes(c), SMALL_KIND)] + rs,
                     Carve(s, c, CarvedList(base, Stride(c), BLOCKS_PER_POOL)))
  {
    hide CarvedList, PoolBytes, Nth, Stride;
    var l := CarvedList(base, Stride(c), BLOCKS_PER_POOL);
    var r, s' := Region(base, PoolBytes(c), SMALL_KIND), Carve(s, c, l);
    var rs' := [r] + rs;
    assert forall g {:trigger rs[g]} :: 0 <= g < |rs| ==> rs'[g + 1] == rs[g];
    HousedMore(rs, rs', s);
    forall d: nat, a: nat | IsCarved(s', d, a) ensures 0 < a && a % ALIGNMENT == 0 && Housed(rs', d, a) {
      if !IsCarved(s, d, a) {
        CarvedIn(base, c, a);
        assert InPool(rs'[0], c, a);
      }
    }
    forall d: nat, a: nat, e: nat, b: nat | IsCarved(s', d, a) && IsCarved(s', e, b) && a != b
      ensures ApartSmall(d, a, e, b)
    {
      if !IsCarved(s, d, a) && !IsCarved(s, e, b) {
        CarvedApart(base, c, a, b);
      } else if !IsCarved(s, d, a) {
        CarvedNew(rs, s, base, c, a, e, b);
      } else if !IsCarved(s, e, b) {
        CarvedNew(rs, s, base, c, b, d, a);
      } else {
        assert ApartSmall(d, a, e, b);
      }
    }
  }

  /** The lists and headers once the new blocks hang in front of the central list. */
  lemma CarveRep(m: Mem, freeList: seq<nat>, heads: seq<seq<nat>>, s: Small, c: nat, front: nat, l: seq<nat>)
    requires Inv(s) && Chains(m, freeList, heads, s) && Statuses(m, s) && c < CLASSES
    requires Chain(m, front, l + s.central[c]) && FreshHeaders(m, c, l)
    requires forall a, d :: a in l && 0 <= d < |s.carved| ==> a !in s.carved[d]
    ensures Chains(m, freeList[c := front], heads, Carve(s, c, l)) && Statuses(m, Carve(s, c, l))
  {
    hide SmallAt, Chain, Binned, Owned;
    var s', fl' := Carve(s, c, l), freeList[c := front];
    forall d | 0 <= d < CLASSES ensures Chain(m, fl'[d], s'.central[d]) {
      assert Chain(m, freeList[d], s.central[d]);
    }
    forall t, d | 0 <= t < |heads| && 0 <= d < CLASSES ensures Chain(m, heads[t][d], Bin(s'.bins, t, d)) {
      assert Chain(m, heads[t][d], Bin(s.bins, t, d));
    }
    forall d: nat, a: nat | IsCarved(s', d, a) ensures Status(m, s', d, a) {
      if IsCarved(s, d, a) {
        assert Status(m, s, d, a);
      } else {
        assert FreshHeader(m, c, a);
        NotLive(s, c, a);
      }
    }
  }

  lemma NotLive(s: Small, c: nat, a: nat)
    requires Inv(s) && c < CLASSES && a !in s.carved[c]
    ensures a !in s.live[c]
  {
    assert Owned(s, c)[a] == multiset(s.carved[c])[a];
  }

  method InitSmallHeader(ram: Ram, base: nat, size: nat)
    requires 0 < base && base + size < U64 && size >= POOL_HEADER_SIZE && Mapped(ram.mem, base, POOL_HEADER_SIZE)
    requires PoolAt(ram.mem, base) == PoolHeader(0, 0, 0, 0, 0, 0, 0, 0)
    modifies ram`mem
    ensures PoolAt(ram.mem, base) == PoolHeader(base, size, SMALL_KIND, 0, 0, 0, 0, 0)
    ensures OnlyAt(old(ram.mem), ram.mem, base, POOL_HEADER_SIZE)
  {
    hide HeaderAt, LinksAt, PoolAt, SmallAt, CanaryAt, Limit;
    Limits();
    ram.SetPool(base, Memory, base);
    ram.SetPool(base, PoolSize, size);
    ram.SetPool(base, Kind, SMALL_KIND);
  }

  /** The new pool's header, its registration and the carving loop. */
  method BuildSmallPool(ram: Ram, head: nat, base: nat, c: nat, ghost m: Mem, ghost rs: seq<Region>)
    returns (front: nat, head': nat)
    requires Registered(m, head, rs) && MappedFrom(m, ram.mem, base, PoolBytes(c)) && c < CLASSES
    requires 0 < base && base % ALIGNMENT == 0 && base + PoolBytes(c) < U64
    modifies ram`mem
    ensures Grew(m, ram.mem, base, PoolBytes(c))
    ensures Registered(ram.mem, head', [Region(base, PoolBytes(c), SMALL_KIND)] + rs)
    ensures PoolAt(ram.mem, base).blockList == 0 && PoolAt(ram.mem, base).readOnly == 0
    ensures var l := CarvedList(base, Stride(c), BLOCKS_PER_POOL);
            Chain(ram.mem, front, l) && FreshHeaders(ram.mem, c, l)
  {
    hide PoolAt, HeaderAt, LinksAt, SmallAt, CanaryAt, Mapped, Grew, Registered, PoolBytes, Stride, CarvedList, Chain,
         FreshHeaders, OnlyAt, Kept;
    FromMap(m, ram.mem, base, PoolBytes(c));
    ghost var m0, r := ram.mem, Region(base, PoolBytes(c), SMALL_KIND);
    PoolRegion(m0, base, c);
    InitSmallHeader(ram, base, PoolBytes(c));
    ghost var m1 := ram.mem;
    StillGrew(m, m0, m1, base, PoolBytes(c), base, POOL_HEADER_SIZE);
    RegisteredGrew(m, m1, head, rs, base, PoolBytes(c));
    PoolRegion2(m1, base, c);
    head' := RegisterPool(ram, head, base, rs, r);
    ghost var m2 := ram.mem;
    StillGrew(m, m1, m2, base, PoolBytes(c), base + NextPool.At().off, NextPool.At().width);
    front := CarveBlocks(ram, base, c);
    StillGrew(m, m2, ram.mem, base, PoolBytes(c), base + POOL_HEADER_SIZE, PoolBytes(c) - POOL_HEADER_SIZE);
    RegisteredInside(m2, ram.mem, head', [r] + rs, 0);
  }

  lemma PoolRegion(m: Mem, base: nat, c: nat)
    requires Mapped(m, base, PoolBytes(c)) && forall x: nat :: base <= x < base + PoolBytes(c) ==> Peek(m, x) == 0
    ensures PoolBytes(c) > POOL_HEADER_SIZE && PoolBytes(c) % ALIGNMENT == 0
    ensures Mapped(m, base, POOL_HEADER_SIZE) && PoolAt(m, base) == PoolHeader(0, 0, 0, 0, 0, 0, 0, 0)
  {
    hide PoolBytes, PoolAt, HeaderAt;
    PoolBytesRange(c);
    ZeroStructs(m, base);
  }

  lemma PoolBytesRange(c: nat)
    ensures PoolBytes(c) > POOL_HEADER_SIZE && PoolBytes(c) % ALIGNMENT == 0
  {
  }

  lemma PoolRegion2(m: Mem, base: nat, c: nat)
    requires Mapped(m, base, PoolBytes(c)) && 0 < base && base % ALIGNMENT == 0 && base + PoolBytes(c) < U64
    ensures Backed(m, Region(base, PoolBytes(c), SMALL_KIND))
  {
    hide Mapped;
  }

  ghost predicate ClearOf(rs: seq<Region>, base: nat, len: nat) {
    forall g {:trigger rs[g]} :: 0 <= g < |rs| ==> base + len <= rs[g].base || rs[g].base + rs[g].size <= base
  }

  /** The lists of the tier do not notice what happens in the new region. */
  lemma OldTier(m: Mem, m': Mem, head: nat, rs: seq<Region>, base: nat, len: nat,
                freeList: seq<nat>, heads: seq<seq<nat>>, s: Small)
    requires Registered(m, head, rs) && Grew(m, m', base, len) && len > 0
    requires Inv(s) && Chains(m, freeList, heads, s) && Statuses(m, s) && Geometry(rs, s)
    ensures Chains(m', freeList, heads, s) && Statuses(m', s) && ClearOf(rs, base, len)
  {
    hide SmallAt, Chain, Binned, Owned, Kept, Grew, Registered, Statuses;
    RegisteredGrew(m, m', head, rs, base, len);
    RegionsKept(m, m', rs, s);
    RepKept(m, m', freeList, heads, s);
  }

  /** What hanging the old central list behind the new blocks relies on. */
  lemma AppendReady(m: Mem, rs: seq<Region>, s: Small, base: nat, c: nat)
    requires Inv(s) && Geometry(rs, s) && ClearOf(rs, base, PoolBytes(c)) && c < CLASSES
    requires 0 < base && base % ALIGNMENT == 0 && Mapped(m, base, PoolBytes(c))
    ensures var l := CarvedList(base, Stride(c), BLOCKS_PER_POOL);
            && l != []
            && (forall a :: a in l ==> a > 0 && Mapped(m, a, SMALL_HEADER_SIZE))
            && var x := l[|l| - 1];
               x in l && x !in s.central[c] && x !in l[..|l| - 1] && AwayFrom(x, l) && AwayFrom(x, s.central[c])
  {
    hide CarvedList, PoolBytes, Nth, Binned, Owned, Geometry, ClearOf;
    var l := CarvedList(base, Stride(c), BLOCKS_PER_POOL);
    var x := l[|l| - 1];
    ClearFresh(rs, s, base, c);
    forall a | a in l ensures a > 0 && Mapped(m, a, SMALL_HEADER_SIZE) {
      CarvedIn(base, c, a);
    }
    forall a | a in l && a != x ensures a + SMALL_HEADER_SIZE <= x || x + SMALL_HEADER_SIZE <= a {
      CarvedApart(base, c, a, x);
    }
    forall a | a in s.central[c] ensures a != x && (a + SMALL_HEADER_SIZE <= x || x + SMALL_HEADER_SIZE <= a) {
      MembersCarved(s, 0, c, a);
      ClearNew(rs, s, base, c, x, c, a);
    }
  }

  lemma ClearFresh(rs: seq<Region>, s: Small, base: nat, c: nat)
    requires Geometry(rs, s) && base % ALIGNMENT == 0 && |s.carved| == CLASSES && ClearOf(rs, base, PoolBytes(c))
    ensures FreshBlocks(s, CarvedList(base, Stride(c), BLOCKS_PER_POOL))
  {
    CarvedFresh(rs, s, base, c);
  }

  lemma ClearNew(rs: seq<Region>, s: Small, base: nat, c: nat, a: nat, d: nat, b: nat)
    requires Geometry(rs, s) && IsCarved(s, d, b) && base % ALIGNMENT == 0 && ClearOf(rs, base, PoolBytes(c))
    requires a in CarvedList(base, Stride(c), BLOCKS_PER_POOL)
    ensures ApartSmall(c, a, d, b) && a != b
  {
    CarvedNew(rs, s, base, c, a, d, b);
  }

  /** The last write, to the next link of the last new block, disturbs no other header. */
  lemma AfterAppend(m: Mem, m': Mem, rs: seq<Region>, freeList: seq<nat>, heads: seq<seq<nat>>, s: Small, base: nat,
      c: nat, x: nat)
    requires Inv(s) && Chains(m, freeList, heads, s) && Statuses(m, s) && Geometry(rs, s)
             && ClearOf(rs, base, PoolBytes(c))
    requires base % ALIGNMENT == 0 && x in CarvedList(base, Stride(c), BLOCKS_PER_POOL)
    requires FreshHeaders(m, c, CarvedList(base, Stride(c), BLOCKS_PER_POOL))
    requires OnlyAt(m, m', x, SMALL_HEADER_SIZE) && SmallAt(m', x) == SmallAt(m, x).(next := SmallAt(m', x).next)
    ensures Chains(m', freeList, heads, s) && Statuses(m', s)
    ensures FreshHeaders(m', c, CarvedList(base, Stride(c), BLOCKS_PER_POOL))
  {
    hide SmallAt, Chain, Binned, Owned, CarvedList, PoolBytes, Nth, Geometry, ClearOf, OnlyAt, Statuses;
    forall d: nat, a: nat | IsCarved(s, d, a) ensures SmallAt(m', a) == SmallAt(m, a) {
      ClearNew(rs, s, base, c, x, d, a);
      AwaySame(m, m', a, x);
    }
    RepKept(m, m', freeList, heads, s);
    forall a | a in CarvedList(base, Stride(c), BLOCKS_PER_POOL) ensures FreshHeader(m', c, a) {
      assert FreshHeader(m, c, a);
      if a != x {
        CarvedApart(base, c, a, x);
        AwaySame(m, m', a, x);
      }
    }
  }
}
