/** The three tiers together: which addresses are allocations, where they lie, and what leaves their bytes alone. */
module WorldModel {
  import opened Bytes
  import opened Layout
  import opened Machine
  import opened FreeList
  import opened PoolModel
  import opened GeneralPool
  import opened GeneralOps
  import opened Registry
  import opened Regions
  import opened GeneralTier
  import opened PoolGrowth
  import opened SmallModel
  import opened SmallRep
  import opened DirectTier

  const DAM_GENERAL_MAX: nat := 65536

  /** The allocations: their addresses with the sizes asked for last. */
  type Allocations = map<nat, nat>

  /** The pools on the list, newest first; the general pools and the recorded sizes by their base; the allocations. */
  datatype Tiers = Tiers(rs: seq<Region>, ps: map<nat, Pool>, ds: map<nat, nat>, live: Allocations)

  /** A small block in use holds the n bytes of the allocation at p. */
  ghost predicate SmallHolds(s: Small, p: nat, n: nat) {
    exists c {:trigger s.live[c]} :: 0 <= c < |s.live| && p >= SMALL_HEADER_SIZE && p - SMALL_HEADER_SIZE in s.live[c]
        && n <= ClassSize(c)
  }

  /** The one allocation of a mapping: what is recorded exceeds what was asked for by less than a quarter. */
  ghost predicate DirectOK(m: Mem, r: Region, ds: map<nat, nat>, live: Allocations) {
    var p := r.base + DIRECT_PREFIX;
    && r.base in ds && Records(m, r.base, ds[r.base]) && DIRECT_PREFIX + ds[r.base] <= r.size
    && p in live && DAM_GENERAL_MAX < live[p] <= ds[r.base] < USER_SPACE
       && 100 * live[p] > SHRINK_PERCENTAGE * ds[r.base]
  }

  /** The allocations in the region of a pool are those that its tier knows. */
  ghost predicate RegionOK(m: Mem, r: Region, w: Tiers, s: Small) {
    if r.kind == GENERAL_KIND then
      r.base in w.ps && forall p, n {:trigger LiveAt(w.ps[r.base], p, n)} ::
        LiveAt(w.ps[r.base], p, n) <==> r.Has(p) && p in w.live && w.live[p] == n
    else if r.kind == DIRECT_KIND then
      DirectOK(m, r, w.ds, w.live) && forall p :: r.Has(p) && p in w.live ==> p == r.base + DIRECT_PREFIX
    else
      r.kind == SMALL_KIND && forall p :: r.Has(p) && p in w.live ==> SmallHolds(s, p, w.live[p])
  }

  ghost predicate InAPool(rs: seq<Region>, p: nat) {
    exists g {:trigger rs[g]} :: 0 <= g < |rs| && rs[g].Has(p)
  }

  ghost predicate World(m: Mem, head: nat, w: Tiers, s: Small) {
    && Registered(m, head, w.rs)
    && Tier(m, w.rs, w.ps)
    && Grown(w.rs)
    && Inv(s) && Geometry(w.rs, s)
    && (forall g {:trigger RegionOK(m, w.rs[g], w, s)} :: 0 <= g < |w.rs| ==> RegionOK(m, w.rs[g], w, s))
    && (forall p {:trigger InAPool(w.rs, p)} :: p in w.live ==> InAPool(w.rs, p))
    && (forall c: nat, a: nat {:trigger InUse(s, c, a)} :: InUse(s, c, a) ==> a + SMALL_HEADER_SIZE in w.live)
  }

  lemma LiveCarved(s: Small, c: nat, a: nat)
    requires Inv(s) && c < CLASSES && a in s.live[c]
    ensures IsCarved(s, c, a)
  {
    OneOwner(s, c, a);
  }

  lemma SmallPlace(rs: seq<Region>, s: Small, g: nat, p: nat, n: nat) returns (c: nat)
    requires Inv(s) && Geometry(rs, s) && Separate(rs) && SmallHolds(s, p, n) && g < |rs| && rs[g].Has(p)
    ensures c < CLASSES && p > SMALL_HEADER_SIZE && IsCarved(s, c, p - SMALL_HEADER_SIZE)
    ensures p - SMALL_HEADER_SIZE in s.live[c] && n <= ClassSize(c)
    ensures InPool(rs[g], c, p - SMALL_HEADER_SIZE) && (p - SMALL_HEADER_SIZE) % ALIGNMENT == 0
  {
    c :| 0 <= c < |s.live| && p >= SMALL_HEADER_SIZE && p - SMALL_HEADER_SIZE in s.live[c] && n <= ClassSize(c);
    var a := p - SMALL_HEADER_SIZE;
    LiveCarved(s, c, a);
    assert Housed(rs, c, a);
    var h :| 0 <= h < |rs| && InPool(rs[h], c, a);
    assert ClassSize(c) > 0;
    OwnerUnique(rs, g, h, p);
  }

  /** An allocation lies behind the header of its pool and inside the pool, at a multiple of the alignment. */
  lemma LiveInside(m: Mem, head: nat, w: Tiers, s: Small, g: nat, p: nat)
    requires World(m, head, w, s) && g < |w.rs| && p in w.live && w.rs[g].Has(p)
    ensures w.rs[g].base + POOL_HEADER_SIZE <= p && p + w.live[p] <= w.rs[g].base + w.rs[g].size
    ensures p % ALIGNMENT == 0
  {
    hide Tiles, FreeAddrs, Binned, Owned, PoolAt, HeaderAt, Geometry, Rep, Canaries, Grown, Mapped;
    assert RegionOK(m, w.rs[g], w, s) && HostOK(m, w.rs[g], w.ps) && Backed(m, w.rs[g]);
    if w.rs[g].kind == GENERAL_KIND {
      var q := w.ps[w.rs[g].base];
      assert LiveAt(q, p, w.live[p]);
      var k :| 0 <= k < |q.blocks| && LiveBlock(q.blocks[k], p, w.live[p]);
      BlockRange(q, k);
      BlockAligned(q, k);
      assert Snug(q.blocks[k]);
    } else if w.rs[g].kind == SMALL_KIND {
      var c := SmallPlace(w.rs, s, g, p, w.live[p]);
    }
  }

  /** No two allocations of any tier share a byte. */
  lemma WindowsDisjoint(m: Mem, head: nat, w: Tiers, s: Small, p: nat, q: nat)
    requires World(m, head, w, s) && p in w.live && q in w.live && p != q
    ensures Disjoint(p, w.live[p], q, w.live[q])
  {
    hide Tiles, FreeAddrs, Binned, Owned, PoolAt, HeaderAt, Geometry, Rep, Canaries, Grown, Mapped, HostOK, RegionOK,
         Backed;
    assert InAPool(w.rs, p) && InAPool(w.rs, q);
    var g :| 0 <= g < |w.rs| && w.rs[g].Has(p);
    var h :| 0 <= h < |w.rs| && w.rs[h].Has(q);
    LiveInside(m, head, w, s, g, p);
    LiveInside(m, head, w, s, h, q);
    if g != h {
      assert Clear(w.rs[g], w.rs[h]);
    } else {
      SameRegion(m, head, w, s, g, p, q);
    }
  }

  lemma SameRegion(m: Mem, head: nat, w: Tiers, s: Small, g: nat, p: nat, q: nat)
    requires World(m, head, w, s) && g < |w.rs| && p in w.live && q in w.live && p != q
    requires w.rs[g].Has(p) && w.rs[g].Has(q)
    ensures Disjoint(p, w.live[p], q, w.live[q])
  {
    hide Tiles, FreeAddrs, Binned, Owned, PoolAt, HeaderAt, Geometry, Rep, Canaries, Grown, Mapped;
    assert RegionOK(m, w.rs[g], w, s) && HostOK(m, w.rs[g], w.ps);
    if w.rs[g].kind == GENERAL_KIND {
      var o := w.ps[w.rs[g].base];
      assert LiveAt(o, p, w.live[p]) && LiveAt(o, q, w.live[q]);
      var k :| 0 <= k < |o.blocks| && LiveBlock(o.blocks[k], p, w.live[p]);
      var l :| 0 <= l < |o.blocks| && LiveBlock(o.blocks[l], q, w.live[q]);
      TilesAt(o.blocks, o.base + POOL_GENERAL_SIZE, o.base + o.size, k, l);
      TilesAt(o.blocks, o.base + POOL_GENERAL_SIZE, o.base + o.size, l, k);
      assert Snug(o.blocks[k]) && Snug(o.blocks[l]);
    } else if w.rs[g].kind == SMALL_KIND {
      var c := SmallPlace(w.rs, s, g, p, w.live[p]);
      var d := SmallPlace(w.rs, s, g, q, w.live[q]);
      SmallApart(w.rs, s, c, p - SMALL_HEADER_SIZE, d, q - SMALL_HEADER_SIZE);
    }
  }

  lemma SmallApart(rs: seq<Region>, s: Small, c: nat, a: nat, d: nat, b: nat)
    requires Geometry(rs, s) && IsCarved(s, c, a) && IsCarved(s, d, b) && a != b
    ensures ApartSmall(c, a, d, b)
  {
  }

  // ----- frames

  /** A region whose bytes are kept, or a small region whose pool header is. */
  ghost predicate Calm(m: Mem, m': Mem, r: Region) {
    Kept(m, m', r) || (r.kind == SMALL_KIND && PoolAt(m', r.base) == PoolAt(m, r.base))
  }

  lemma HostCalm(m: Mem, m': Mem, r: Region, ps: map<nat, Pool>, ps': map<nat, Pool>)
    requires Backed(m, r) && HostOK(m, r, ps) && Calm(m, m', r)
    requires r.base in ps ==> r.base in ps' && ps'[r.base] == ps[r.base]
    ensures HostOK(m', r, ps')
  {
    hide Image, PoolAt, Backed;
    if Kept(m, m', r) {
      HostKept(m, m', r, ps);
    }
  }

  /** The allocations other than ptr are the same. */
  ghost predicate LiveBut(w: Tiers, w': Tiers, ptr: nat) {
    forall q {:trigger q in w'.live} {:trigger q in w.live} ::
      q != ptr ==> (q in w'.live <==> q in w.live) && (q in w.live ==> w'.live[q] == w.live[q])
  }

  ghost predicate SmallsBut(s: Small, s': Small, w: Tiers, ptr: nat) {
    forall q {:trigger SmallHolds(s', q, w.live[q])} ::
      q in w.live && q != ptr && SmallHolds(s, q, w.live[q]) ==> SmallHolds(s', q, w.live[q])
  }

  /** The allocations of a region that an operation on ptr does not concern. */
  lemma RegionCalm(m: Mem, m': Mem, r: Region, w: Tiers, w': Tiers, s: Small, s': Small, ptr: nat)
    requires Backed(m, r) && RegionOK(m, r, w, s) && Calm(m, m', r) && !r.Has(ptr)
    requires r.base in w.ps ==> r.base in w'.ps && w'.ps[r.base] == w.ps[r.base]
    requires r.base in w.ds ==> r.base in w'.ds && w'.ds[r.base] == w.ds[r.base]
    requires LiveBut(w, w', ptr) && SmallsBut(s, s', w, ptr)
    ensures RegionOK(m', r, w', s')
  {
    hide PoolAt, HeaderAt, LiveAt, SmallHolds;
    if r.kind == DIRECT_KIND {
      var p := r.base + DIRECT_PREFIX;
      assert r.Has(p);
      assert p != ptr && p in w'.live;
      HeaderSame(m, m', r.base + POOL_HEADER_SIZE);
    } else if r.kind == SMALL_KIND {
      forall p | r.Has(p) && p in w'.live ensures SmallHolds(s', p, w'.live[p]) {
        assert p in w.live && SmallHolds(s, p, w.live[p]);
      }
    }
  }

  /** The bytes of an allocation in a kept region. */
  lemma WindowKept(m: Mem, m': Mem, head: nat, w: Tiers, s: Small, g: nat, q: nat)
    requires World(m, head, w, s) && g < |w.rs| && q in w.live && w.rs[g].Has(q) && Kept(m, m', w.rs[g])
    ensures Same(m, m', q, w.live[q])
  {
    hide PoolAt, World;
    LiveInside(m, head, w, s, g, q);
  }
}
