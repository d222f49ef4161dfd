/** What each kind of step of a tier means for all the tiers together. */
module WorldSteps {
  import opened Bytes
  import opened Layout
  import opened FreeList
  import opened PoolModel
  import opened GeneralPool
  import opened GeneralOps
  import opened Registry
  import opened Regions
  import opened GeneralTier
  import opened PoolGrowth
  import opened SmallModel
  import opened SmallRep
  import opened DirectTier
  import opened WorldModel

  /** Every allocation other than ptr keeps its bytes. */
  ghost predicate BytesKept(m: Mem, m': Mem, w: Tiers, ptr: nat) {
    forall q {:trigger q in w.live} :: q in w.live && q != ptr ==> Same(m, m', q, w.live[q])
  }

  /** An address in a pool of another tier is not the address of a small block. */
  lemma NotSmall(m: Mem, head: nat, w: Tiers, s: Small, g: nat, ptr: nat, c: nat, a: nat)
    requires World(m, head, w, s) && g < |w.rs| && w.rs[g].kind != SMALL_KIND && w.rs[g].Has(ptr) && IsCarved(s, c, a)
    ensures a + SMALL_HEADER_SIZE != ptr
  {
    hide PoolAt, Tier, Grown, RegionOK, Inv, Backed, Listed;
    assert Housed(w.rs, c, a);
    var h :| 0 <= h < |w.rs| && InPool(w.rs[h], c, a);
    assert ClassSize(c) > 0;
    if a + SMALL_HEADER_SIZE == ptr {
      OwnerUnique(w.rs, g, h, ptr);
    }
  }

  // ----- one general pool

  /** LiveAt as the operation on ptr leaves it. */
  ghost predicate LiveAtBut(p: Pool, p': Pool, ptr: nat, live': Allocations) {
    forall q, n {:trigger LiveAt(p', q, n)} ::
      LiveAt(p', q, n) <==> if q == ptr then ptr in live' && live'[ptr] == n else LiveAt(p, q, n)
  }

  lemma GeneralStep(m: Mem, m': Mem, head: nat, w: Tiers, w': Tiers, s: Small, g: nat, p': Pool, ptr: nat)
    requires World(m, head, w, s) && g < |w.rs| && w.rs[g].kind == GENERAL_KIND && w.rs[g].base in w.ps
    requires w' == w.(ps := w.ps[w.rs[g].base := p'], live := w'.live)
    requires Image(m', p') && p'.base == w.ps[w.rs[g].base].base && p'.size == w.ps[w.rs[g].base].size
             && OutsideSame(m, m', w.ps[w.rs[g].base])
    requires LiveBut(w, w', ptr) && LiveAtBut(w.ps[w.rs[g].base], p', ptr, w'.live) && w.rs[g].Has(ptr)
    ensures World(m', head, w', s)
    ensures forall h {:trigger w.rs[h]} :: 0 <= h < |w.rs| && h != g ==> Kept(m, m', w.rs[h])
  {
    hide PoolAt, Image, Kept, Backed, Binned, Owned, LiveAt, SmallHolds, OutsideSame, Inv, Geometry, Grown, HostOK,
         DirectOK;
    PoolStep(m, m', head, w.rs, w.ps, g, p');
    forall h | 0 <= h < |w.rs| ensures RegionOK(m', w'.rs[h], w', s) {
      assert RegionOK(m, w.rs[h], w, s) && Backed(m, w.rs[h]);
      if h != g {
        assert Backed(m, w.rs[g]) && Clear(w.rs[g], w.rs[h]);
        BasesDiffer(m, w.rs[g], w.rs[h]);
        RegionCalm(m, m', w.rs[h], w, w', s, s, ptr);
      }
    }
    forall p | p in w'.live ensures InAPool(w'.rs, p) {
      assert p != ptr ==> InAPool(w.rs, p);
      assert w.rs[g].Has(ptr);
    }
    forall c: nat, a: nat | InUse(s, c, a) ensures a + SMALL_HEADER_SIZE in w'.live {
      LiveCarved(s, c, a);
      NotSmall(m, head, w, s, g, ptr, c, a);
    }
  }

  lemma BasesDiffer(m: Mem, r: Region, t: Region)
    requires Backed(m, r) && Backed(m, t) && Clear(r, t)
    ensures r.base != t.base
    ensures forall x :: r.Has(x) ==> !t.Has(x)
  {
  }

  lemma GeneralBytes(m: Mem, m': Mem, head: nat, w: Tiers, s: Small, g: nat, ptr: nat)
    requires World(m, head, w, s) && g < |w.rs| && w.rs[g].kind == GENERAL_KIND && w.rs[g].base in w.ps
    requires forall h {:trigger w.rs[h]} :: 0 <= h < |w.rs| && h != g ==> Kept(m, m', w.rs[h])
    requires forall b {:trigger PayloadSame(m, m', b)} ::
               b in w.ps[w.rs[g].base].blocks && !b.free && b.Payload() != ptr ==> PayloadSame(m, m', b)
    ensures BytesKept(m, m', w, ptr)
  {
    hide PoolAt, Kept, Binned, Owned, SmallHolds, Inv, Geometry, Grown, DirectOK, Shape, Indexed, Rep, Canaries,
         Registered;
    forall q | q in w.live && q != ptr ensures Same(m, m', q, w.live[q]) {
      assert InAPool(w.rs, q);
      var h :| 0 <= h < |w.rs| && w.rs[h].Has(q);
      if h != g {
        WindowKept(m, m', head, w, s, h, q);
      } else {
        assert RegionOK(m, w.rs[g], w, s) && HostOK(m, w.rs[g], w.ps);
        var p := w.ps[w.rs[g].base];
        assert LiveAt(p, q, w.live[q]);
        var k :| 0 <= k < |p.blocks| && LiveBlock(p.blocks[k], q, w.live[q]);
        assert PayloadSame(m, m', p.blocks[k]) && Snug(p.blocks[k]);
      }
    }
  }

  // ----- a new pool, a pool less

  /** A pool r of any tier is mapped, filled in and put on the list; ptr is its allocation if it comes with one. */
  lemma AddStep(m: Mem, m': Mem, head: nat, head': nat, w: Tiers, w': Tiers, s: Small, s': Small, r: Region, ptr: nat)
    requires World(m, head, w, s) && Grew(m, m', r.base, r.size) && r.size > 0 && r.Has(ptr)
    requires w'.rs == [r] + w.rs && Registered(m', head', w'.rs) && Grown(w'.rs)
    requires HostOK(m', r, w'.ps) && RegionOK(m', r, w', s')
    requires forall b :: b != r.base ==>
               (b in w.ps ==> b in w'.ps && w'.ps[b] == w.ps[b]) && (b in w.ds ==> b in w'.ds && w'.ds[b] == w.ds[b])
    requires LiveBut(w, w', ptr) && ptr !in w.live && Inv(s') && Geometry(w'.rs, s') && s'.live == s.live
    ensures World(m', head', w', s')
    ensures forall g {:trigger w.rs[g]} :: 0 <= g < |w.rs| ==> Kept(m, m', w.rs[g])
    ensures BytesKept(m, m', w, 0)
  {
    hide PoolAt, Image, Kept, Backed, Binned, Owned, LiveAt, SmallHolds, Inv, Geometry, Grown, HostOK, DirectOK,
         RegionOK, Grew, BytesKept, LiveBut;
    RegisteredGrew(m, m', head, w.rs, r.base, r.size);
    forall g | 0 <= g < |w'.rs| ensures HostOK(m', w'.rs[g], w'.ps) && RegionOK(m', w'.rs[g], w', s') {
      if g > 0 {
        assert w'.rs[g] == w.rs[g - 1];
        OldRegion(m, m', head, w, w', s, s', g - 1, r, ptr);
      }
    }
    AddOwned(w, w', r, ptr);
    AddSmall(w, w', s, s', ptr);
    AddBytes(m, m', head, w, s);
  }

  lemma OldRegion(m: Mem, m': Mem, head: nat, w: Tiers, w': Tiers, s: Small, s': Small, g: nat, r: Region, ptr: nat)
    requires World(m, head, w, s) && g < |w.rs| && Kept(m, m', w.rs[g]) && r.Has(ptr)
    requires r.base + r.size <= w.rs[g].base || w.rs[g].base + w.rs[g].size <= r.base
    requires forall b :: b != r.base ==>
               (b in w.ps ==> b in w'.ps && w'.ps[b] == w.ps[b]) && (b in w.ds ==> b in w'.ds && w'.ds[b] == w.ds[b])
    requires LiveBut(w, w', ptr) && s'.live == s.live
    ensures HostOK(m', w.rs[g], w'.ps) && RegionOK(m', w.rs[g], w', s')
  {
    hide PoolAt, Image, Kept, Binned, Owned, LiveAt, Inv, Geometry, Grown, HostOK, DirectOK, RegionOK, Mapped;
    assert HostOK(m, w.rs[g], w.ps) && RegionOK(m, w.rs[g], w, s) && Backed(m, w.rs[g]);
    HostCalm(m, m', w.rs[g], w.ps, w'.ps);
    RegionCalm(m, m', w.rs[g], w, w', s, s', ptr);
  }

  lemma AddOwned(w: Tiers, w': Tiers, r: Region, ptr: nat)
    requires w'.rs == [r] + w.rs && r.Has(ptr) && LiveBut(w, w', ptr)
    requires forall p {:trigger InAPool(w.rs, p)} :: p in w.live ==> InAPool(w.rs, p)
    ensures forall p {:trigger InAPool(w'.rs, p)} :: p in w'.live ==> InAPool(w'.rs, p)
  {
    forall p | p in w'.live ensures InAPool(w'.rs, p) {
      if p == ptr {
        assert w'.rs[0].Has(p);
      } else {
        assert InAPool(w.rs, p);
        var g :| 0 <= g < |w.rs| && w.rs[g].Has(p);
        assert w'.rs[g + 1].Has(p);
      }
    }
  }

  lemma AddSmall(w: Tiers, w': Tiers, s: Small, s': Small, ptr: nat)
    requires LiveBut(w, w', ptr) && ptr !in w.live && s'.live == s.live
    requires forall c: nat, a: nat {:trigger InUse(s, c, a)} :: InUse(s, c, a) ==> a + SMALL_HEADER_SIZE in w.live
    ensures forall c: nat, a: nat {:trigger InUse(s', c, a)} :: InUse(s', c, a) ==> a + SMALL_HEADER_SIZE in w'.live
  {
    forall c: nat, a: nat | InUse(s', c, a) ensures a + SMALL_HEADER_SIZE in w'.live {
      assert InUse(s, c, a);
      assert a + SMALL_HEADER_SIZE in w.live;
    }
  }

  lemma AddBytes(m: Mem, m': Mem, head: nat, w: Tiers, s: Small)
    requires World(m, head, w, s)
    requires forall g {:trigger w.rs[g]} :: 0 <= g < |w.rs| ==> Kept(m, m', w.rs[g])
    ensures BytesKept(m, m', w, 0)
  {
    hide PoolAt, Kept, Binned, Owned, Inv, Geometry, Grown, RegionOK, HostOK, Registered;
    forall q | q in w.live ensures Same(m, m', q, w.live[q]) {
      assert InAPool(w.rs, q);
      var h :| 0 <= h < |w.rs| && w.rs[h].Has(q);
      WindowKept(m, m', head, w, s, h, q);
    }
  }

  // ----- a mapping less

  /** The mapping of the allocation at its base + DIRECT_PREFIX is taken off the list and unmapped. */
  lemma RemoveStep(m: Mem, m': Mem, head: nat, head': nat, w: Tiers, w': Tiers, s: Small, k: nat)
    requires World(m, head, w, s) && k < |w.rs| && w.rs[k].kind == DIRECT_KIND
    requires w' == Tiers(Without(w.rs, k), w.ps, w.ds, w.live - {w.rs[k].base + DIRECT_PREFIX})
    requires Registered(m', head', w'.rs)
    requires forall g {:trigger w.rs[g]} :: 0 <= g < |w.rs| && g != k ==> Kept(m, m', w.rs[g])
    ensures World(m', head', w', s)
    ensures BytesKept(m, m', w, w.rs[k].base + DIRECT_PREFIX)
  {
    hide PoolAt, Image, Kept, Binned, Owned, LiveAt, SmallHolds, Inv, Grown, HostOK, Mapped, Without, BytesKept,
         RegionOK, Geometry, Backed, Registered;
    WithoutRegions(w.rs, k);
    GrownWithout(w.rs, k);
    forall j | 0 <= j < |w'.rs| ensures HostOK(m', w'.rs[j], w'.ps) && RegionOK(m', w'.rs[j], w', s) {
      assert w'.rs[j] == w.rs[Shift(j, k)];
      RegionLeft(m, m', head, w, w', s, k, Shift(j, k));
    }
    RemoveOwned(m, head, w, s, k);
    RemoveBytes(m, m', head, w, s, k);
    HousedMore(w.rs, w'.rs, s) by {
      forall g | 0 <= g < |w.rs| && w.rs[g].kind == SMALL_KIND ensures w.rs[g] in w'.rs {
        OtherListed(w.rs, k, g);
      }
    }
    forall c: nat, a: nat | InUse(s, c, a) ensures a + SMALL_HEADER_SIZE in w'.live {
      LiveCarved(s, c, a);
      assert w.rs[k].Has(w.rs[k].base + DIRECT_PREFIX) by { DirectPlace(m, head, w, s, k); }
      NotSmall(m, head, w, s, k, w.rs[k].base + DIRECT_PREFIX, c, a);
    }
  }

  lemma DirectPlace(m: Mem, head: nat, w: Tiers, s: Small, k: nat)
    requires World(m, head, w, s) && k < |w.rs| && w.rs[k].kind == DIRECT_KIND
    ensures w.rs[k].Has(w.rs[k].base + DIRECT_PREFIX) && w.rs[k].base + DIRECT_PREFIX in w.live
    ensures forall p :: p in w.live && w.rs[k].Has(p) ==> p == w.rs[k].base + DIRECT_PREFIX
  {
    hide PoolAt, HeaderAt, Registered, Tier, Grown, Geometry, Inv, SmallHolds;
    assert RegionOK(m, w.rs[k], w, s);
  }

  lemma OtherListed(rs: seq<Region>, k: nat, g: nat)
    requires k < |rs| && g < |rs| && g != k
    ensures rs[g] in Without(rs, k)
  {
    WithoutRegions(rs, k);
    var j := if g < k then g else g - 1;
    assert Without(rs, k)[j] == rs[g];
  }

  lemma RegionLeft(m: Mem, m': Mem, head: nat, w: Tiers, w': Tiers, s: Small, k: nat, g: nat)
    requires World(m, head, w, s) && k < |w.rs| && w.rs[k].kind == DIRECT_KIND && g < |w.rs| && g != k
    requires w' == Tiers(Without(w.rs, k), w.ps, w.ds, w.live - {w.rs[k].base + DIRECT_PREFIX})
    requires Kept(m, m', w.rs[g])
    ensures HostOK(m', w.rs[g], w'.ps) && RegionOK(m', w.rs[g], w', s)
  {
    hide PoolAt, Image, Kept, Binned, Owned, LiveAt, Inv, Geometry, Grown, HostOK, DirectOK, RegionOK, SmallHolds,
         Mapped, Without;
    assert HostOK(m, w.rs[g], w.ps) && RegionOK(m, w.rs[g], w, s) && Backed(m, w.rs[g]) && Backed(m, w.rs[k]);
    DirectPlace(m, head, w, s, k);
    assert Clear(w.rs[k], w.rs[g]);
    HostCalm(m, m', w.rs[g], w.ps, w'.ps);
    RegionCalm(m, m', w.rs[g], w, w', s, s, w.rs[k].base + DIRECT_PREFIX);
  }

  lemma RemoveOwned(m: Mem, head: nat, w: Tiers, s: Small, k: nat)
    requires World(m, head, w, s) && k < |w.rs| && w.rs[k].kind == DIRECT_KIND
    ensures forall p {:trigger InAPool(Without(w.rs, k), p)} ::
              p in w.live && p != w.rs[k].base + DIRECT_PREFIX ==> InAPool(Without(w.rs, k), p)
  {
    hide PoolAt, Registered, Tier, Geometry, Grown, Inv, RegionOK, Without;
    DirectPlace(m, head, w, s, k);
    forall p | p in w.live && p != w.rs[k].base + DIRECT_PREFIX ensures InAPool(Without(w.rs, k), p) {
      assert InAPool(w.rs, p);
      var g :| 0 <= g < |w.rs| && w.rs[g].Has(p);
      OtherListed(w.rs, k, g);
      var j :| 0 <= j < |Without(w.rs, k)| && Without(w.rs, k)[j] == w.rs[g];
    }
  }

  lemma RemoveBytes(m: Mem, m': Mem, head: nat, w: Tiers, s: Small, k: nat)
    requires World(m, head, w, s) && k < |w.rs| && w.rs[k].kind == DIRECT_KIND
    requires forall g {:trigger w.rs[g]} :: 0 <= g < |w.rs| && g != k ==> Kept(m, m', w.rs[g])
    ensures BytesKept(m, m', w, w.rs[k].base + DIRECT_PREFIX)
  {
    hide PoolAt, Registered, Tier, Geometry, Grown, Inv, RegionOK, Kept;
    DirectPlace(m, head, w, s, k);
    forall q | q in w.live && q != w.rs[k].base + DIRECT_PREFIX ensures Same(m, m', q, w.live[q]) {
      assert InAPool(w.rs, q);
      var g :| 0 <= g < |w.rs| && w.rs[g].Has(q);
      WindowKept(m, m', head, w, s, g, q);
    }
  }

  // ----- one small block

  /** Block x of class c may change hands; no other block does. */
  ghost predicate Moved(s: Small, s': Small, c: nat, x: nat) {
    && s'.carved == s.carved && |s'.live| == |s.live|
    && forall d: nat, a: nat {:trigger InUse(s', d, a)} {:trigger InUse(s, d, a)} ::
         !(d == c && a == x) ==> (InUse(s', d, a) <==> InUse(s, d, a))
  }

  /** Block x of class c is handed out, taken back or resized; only its header is written. */
  lemma SmallStep(m: Mem, m': Mem, head: nat, w: Tiers, w': Tiers, s: Small, s': Small, c: nat, x: nat)
    requires World(m, head, w, s) && IsCarved(s, c, x) && OnlyAt(m, m', x, SMALL_HEADER_SIZE)
    requires Inv(s') && Moved(s, s', c, x)
    requires w' == w.(live := w'.live) && LiveBut(w, w', x + SMALL_HEADER_SIZE)
    requires InUse(s', c, x) <==> x + SMALL_HEADER_SIZE in w'.live
    requires InUse(s', c, x) ==> w'.live[x + SMALL_HEADER_SIZE] <= ClassSize(c)
    ensures World(m', head, w', s')
    ensures BytesKept(m, m', w, x + SMALL_HEADER_SIZE)
  {
    hide PoolAt, Image, Kept, Binned, Owned, LiveAt, SmallHolds, Inv, Grown, HostOK, Mapped, BytesKept, RegionOK,
         Geometry, Backed, Registered, OnlyAt, LiveBut, InUse;
    var g := SmallHost(m, m', head, w, s, c, x);
    SmallUse(s, s', w, w', c, x);
    forall h | 0 <= h < |w.rs| ensures HostOK(m', w.rs[h], w'.ps) && RegionOK(m', w.rs[h], w', s') {
      SmallRegion(m, m', head, w, w', s, s', c, x, g, h);
    }
    forall p | p in w'.live ensures InAPool(w'.rs, p) {
      SmallOwned(w, w', c, x, g, p);
    }
    SameBlocks(w.rs, s, s');
    SmallBytes(m, m', head, w, s, c, x);
  }

  /**
   * The pool of a small block; writing the block's header leaves the headers of all the pools and the other pools
   * alone.
   */
  lemma SmallHost(m: Mem, m': Mem, head: nat, w: Tiers, s: Small, c: nat, x: nat) returns (g: nat)
    requires Registered(m, head, w.rs) && Geometry(w.rs, s) && IsCarved(s, c, x) && OnlyAt(m, m', x, SMALL_HEADER_SIZE)
    ensures g < |w.rs| && InPool(w.rs[g], c, x) && Registered(m', head, w.rs)
    ensures forall h {:trigger w.rs[h]} :: 0 <= h < |w.rs| ==> Calm(m, m', w.rs[h])
  {
    hide PoolAt, Kept, Backed, Listed;
    assert Housed(w.rs, c, x);
    g :| 0 <= g < |w.rs| && InPool(w.rs[g], c, x);
    RegisteredInside(m, m', head, w.rs, g);
  }

  lemma SmallUse(s: Small, s': Small, w: Tiers, w': Tiers, c: nat, x: nat)
    requires Inv(s) && IsCarved(s, c, x) && Moved(s, s', c, x) && LiveBut(w, w', x + SMALL_HEADER_SIZE)
    requires forall d: nat, a: nat {:trigger InUse(s, d, a)} :: InUse(s, d, a) ==> a + SMALL_HEADER_SIZE in w.live
    requires InUse(s', c, x) <==> x + SMALL_HEADER_SIZE in w'.live
    ensures forall d: nat, a: nat {:trigger InUse(s', d, a)} :: InUse(s', d, a) ==> a + SMALL_HEADER_SIZE in w'.live
    ensures SmallsBut(s, s', w, x + SMALL_HEADER_SIZE)
  {
    hide Binned, Owned;
    forall d: nat, a: nat | InUse(s', d, a) ensures a + SMALL_HEADER_SIZE in w'.live {
      if !(d == c && a == x) {
        assert InUse(s, d, a);
        LiveCarved(s, d, a);
        if a == x {
          OneClass(s, c, d, x);
        }
        assert a + SMALL_HEADER_SIZE in w.live;
      }
    }
    forall q | q in w.live && q != x + SMALL_HEADER_SIZE && SmallHolds(s, q, w.live[q])
      ensures SmallHolds(s', q, w.live[q])
    {
      var d :| 0 <= d < |s.live| && q >= SMALL_HEADER_SIZE && q - SMALL_HEADER_SIZE in s.live[d]
          && w.live[q] <= ClassSize(d);
      assert InUse(s, d, q - SMALL_HEADER_SIZE);
      assert InUse(s', d, q - SMALL_HEADER_SIZE);
    }
  }

  lemma SmallRegion(m: Mem, m': Mem, head: nat, w: Tiers, w': Tiers, s: Small, s': Small, c: nat, x: nat, g: nat,
      h: nat)
    requires World(m, head, w, s) && g < |w.rs| && h < |w.rs| && InPool(w.rs[g], c, x) && c < CLASSES
    requires w' == w.(live := w'.live) && LiveBut(w, w', x + SMALL_HEADER_SIZE)
    requires SmallsBut(s, s', w, x + SMALL_HEADER_SIZE) && Calm(m, m', w.rs[h])
    requires x + SMALL_HEADER_SIZE in w'.live ==> InUse(s', c, x) && w'.live[x + SMALL_HEADER_SIZE] <= ClassSize(c)
    ensures HostOK(m', w.rs[h], w'.ps) && RegionOK(m', w.rs[h], w', s')
  {
    hide PoolAt, Image, Kept, Binned, Owned, LiveAt, Inv, Geometry, Grown, HostOK, DirectOK, Mapped, SmallHolds;
    var r, ptr := w.rs[h], x + SMALL_HEADER_SIZE;
    assert HostOK(m, r, w.ps) && RegionOK(m, r, w, s) && Backed(m, r);
    HostCalm(m, m', r, w.ps, w'.ps);
    assert ClassSize(c) > 0;
    if h != g {
      assert Clear(w.rs[g], r);
      RegionCalm(m, m', r, w, w', s, s', ptr);
    } else {
      forall p | r.Has(p) && p in w'.live ensures SmallHolds(s', p, w'.live[p]) {
        if p == ptr {
          Holder(s', c, x, w'.live[p]);
        } else {
          assert p in w.live && SmallHolds(s, p, w.live[p]);
        }
      }
    }
  }

  lemma Holder(s: Small, c: nat, x: nat, n: nat)
    requires InUse(s, c, x) && n <= ClassSize(c)
    ensures SmallHolds(s, x + SMALL_HEADER_SIZE, n)
  {
    assert s.live[c] == s.live[c];
  }

  lemma SmallOwned(w: Tiers, w': Tiers, c: nat, x: nat, g: nat, p: nat)
    requires p in w'.live && g < |w.rs| && InPool(w.rs[g], c, x) && c < CLASSES && w'.rs == w.rs
    requires LiveBut(w, w', x + SMALL_HEADER_SIZE)
    requires forall q {:trigger InAPool(w.rs, q)} :: q in w.live ==> InAPool(w.rs, q)
    ensures InAPool(w'.rs, p)
  {
    assert ClassSize(c) > 0;
    if p == x + SMALL_HEADER_SIZE {
      assert w.rs[g].Has(p);
    } else {
      assert p in w.live && InAPool(w.rs, p);
    }
  }

  lemma SameBlocks(rs: seq<Region>, s: Small, s': Small)
    requires Geometry(rs, s) && s'.carved == s.carved
    ensures Geometry(rs, s')
  {
    forall c: nat, a: nat | IsCarved(s', c, a) ensures IsCarved(s, c, a) {
    }
  }

  /** The header of a small block lies outside every allocation. */
  lemma HeaderMissed(m: Mem, head: nat, w: Tiers, s: Small, p: nat, c: nat, a: nat)
    requires World(m, head, w, s) && p in w.live && IsCarved(s, c, a)
    ensures p + w.live[p] <= a || a + SMALL_HEADER_SIZE <= p
  {
    hide PoolAt, Tier, Grown, Inv, Backed, Listed;
    assert InAPool(w.rs, p);
    var g :| 0 <= g < |w.rs| && w.rs[g].Has(p);
    LiveInside(m, head, w, s, g, p);
    assert Housed(w.rs, c, a);
    var h :| 0 <= h < |w.rs| && InPool(w.rs[h], c, a);
    if g != h {
      assert Clear(w.rs[g], w.rs[h]);
    } else {
      assert RegionOK(m, w.rs[g], w, s);
      var d := SmallPlace(w.rs, s, g, p, w.live[p]);
      SmallEither(w.rs, s, d, p - SMALL_HEADER_SIZE, c, a);
    }
  }

  lemma SmallEither(rs: seq<Region>, s: Small, c: nat, a: nat, d: nat, b: nat)
    requires Geometry(rs, s) && IsCarved(s, c, a) && IsCarved(s, d, b)
    ensures a == b || ApartSmall(c, a, d, b)
  {
    if a != b {
      SmallApart(rs, s, c, a, d, b);
    }
  }

  lemma SmallBytes(m: Mem, m': Mem, head: nat, w: Tiers, s: Small, c: nat, x: nat)
    requires World(m, head, w, s) && IsCarved(s, c, x) && OnlyAt(m, m', x, SMALL_HEADER_SIZE)
    ensures BytesKept(m, m', w, x + SMALL_HEADER_SIZE)
  {
    hide World;
    forall q | q in w.live ensures Same(m, m', q, w.live[q]) {
      HeaderMissed(m, head, w, s, q, c, x);
    }
  }

  // ----- the bytes of one allocation

  /** A client writes into its allocation: all metadata, and every other allocation, are left alone. */
  lemma PayloadStep(m: Mem, m': Mem, head: nat, w: Tiers, s: Small, p: nat)
    requires World(m, head, w, s) && p in w.live && OnlyAt(m, m', p, w.live[p])
    ensures World(m', head, w, s)
    ensures BytesKept(m, m', w, p) && HeadersKept(m, m', s)
  {
    hide PoolAt, Image, Kept, Binned, Owned, LiveAt, SmallHolds, Inv, Grown, HostOK, Mapped, BytesKept, RegionOK,
         Geometry, Backed, Registered, OnlyAt, InUse;
    var g := PayloadHost(m, m', head, w, s, p);
    forall h | 0 <= h < |w.rs| ensures HostOK(m', w.rs[h], w.ps) && RegionOK(m', w.rs[h], w, s) {
      if h != g {
        PayloadElsewhere(m, m', head, w, s, h);
      } else {
        PayloadHere(m, m', head, w, s, p, g);
      }
    }
    PayloadBytes(m, m', head, w, s, p);
  }

  lemma PayloadHost(m: Mem, m': Mem, head: nat, w: Tiers, s: Small, p: nat) returns (g: nat)
    requires World(m, head, w, s) && p in w.live && OnlyAt(m, m', p, w.live[p])
    ensures g < |w.rs| && w.rs[g].Has(p) && Registered(m', head, w.rs)
            && PoolAt(m', w.rs[g].base) == PoolAt(m, w.rs[g].base)
    ensures forall h {:trigger w.rs[h]} :: 0 <= h < |w.rs| && h != g ==> Kept(m, m', w.rs[h])
  {
    hide PoolAt, Kept, Tier, Geometry, Grown, Inv, RegionOK, Listed, Mapped;
    assert InAPool(w.rs, p);
    g :| 0 <= g < |w.rs| && w.rs[g].Has(p);
    LiveInside(m, head, w, s, g, p);
    assert Backed(m, w.rs[g]);
    RegisteredInside(m, m', head, w.rs, g);
  }

  lemma PayloadElsewhere(m: Mem, m': Mem, head: nat, w: Tiers, s: Small, h: nat)
    requires World(m, head, w, s) && h < |w.rs| && Kept(m, m', w.rs[h])
    ensures HostOK(m', w.rs[h], w.ps) && RegionOK(m', w.rs[h], w, s)
  {
    hide PoolAt, Image, Kept, Binned, Owned, LiveAt, SmallHolds, Inv, Grown, HostOK, Mapped, RegionOK, Geometry,
         DirectOK;
    assert HostOK(m, w.rs[h], w.ps) && RegionOK(m, w.rs[h], w, s) && Backed(m, w.rs[h]);
    HostCalm(m, m', w.rs[h], w.ps, w.ps);
    RegionKept(m, m', w.rs[h], w, s);
  }

  lemma RegionKept(m: Mem, m': Mem, r: Region, w: Tiers, s: Small)
    requires Backed(m, r) && RegionOK(m, r, w, s) && Kept(m, m', r)
    ensures RegionOK(m', r, w, s)
  {
    hide PoolAt, HeaderAt, LiveAt, SmallHolds;
    if r.kind == DIRECT_KIND {
      HeaderSame(m, m', r.base + POOL_HEADER_SIZE);
    }
  }

  lemma PayloadHere(m: Mem, m': Mem, head: nat, w: Tiers, s: Small, p: nat, g: nat)
    requires World(m, head, w, s) && p in w.live && OnlyAt(m, m', p, w.live[p]) && g < |w.rs| && w.rs[g].Has(p)
    requires PoolAt(m', w.rs[g].base) == PoolAt(m, w.rs[g].base)
    ensures HostOK(m', w.rs[g], w.ps) && RegionOK(m', w.rs[g], w, s)
  {
    hide PoolAt, HeaderAt, Image, Kept, Binned, Owned, SmallHolds, Inv, Grown, Mapped, Geometry, Registered, LiveAt,
         OnlyAt, Records;
    var r := w.rs[g];
    assert HostOK(m, r, w.ps) && RegionOK(m, r, w, s);
    if r.kind == GENERAL_KIND {
      assert LiveAt(w.ps[r.base], p, w.live[p]);
      ImageWritten(m, m', w.ps[r.base], p, w.live[p]);
    } else if r.kind == DIRECT_KIND {
      RecordsKept(m, m', r.base, w.ds[r.base], p, w.live[p]);
    }
  }

  lemma RecordsKept(m: Mem, m': Mem, base: nat, size: nat, p: nat, n: nat)
    requires Records(m, base, size) && p == base + DIRECT_PREFIX && OnlyAt(m, m', p, n)
    ensures Records(m', base, size)
  {
    hide HeaderAt;
    HeaderSame(m, m', base + POOL_HEADER_SIZE);
  }

  lemma ImageWritten(m: Mem, m': Mem, q: Pool, p: nat, n: nat)
    requires Image(m, q) && LiveAt(q, p, n) && OnlyAt(m, m', p, n)
    ensures Image(m', q)
  {
    hide Tiles, FreeAddrs, HeaderAt, PoolAt, LinksAt, CanaryAt, Distinct, Members, Rep, OnlyAt;
    var i :| 0 <= i < |q.blocks| && LiveBlock(q.blocks[i], p, n);
    assert Snug(q.blocks[i]);
    WriteQuiet(m, m', q, i);
    forall b | b in q.blocks && !b.free ensures CanaryOK(m', b) {
      assert CanaryOK(m, b) && Snug(b);
      var k :| 0 <= k < |q.blocks| && q.blocks[k] == b;
      CanaryElsewhere(m, m', q, i, k);
    }
  }

  lemma WriteQuiet(m: Mem, m': Mem, q: Pool, i: nat)
    requires Shape(q) && Rep(m, q) && i < |q.blocks| && !q.blocks[i].free && Snug(q.blocks[i])
    requires OnlyAt(m, m', q.blocks[i].Payload(), q.blocks[i].user)
    ensures Rep(m', q)
  {
    hide Tiles, FreeAddrs, HeaderAt, PoolAt, LinksAt, CanaryAt, Distinct, Members, Rep;
    TouchesOnly(m, m', q.blocks[i].Payload(), q.blocks[i].size);
    PayloadQuiet(m, m', q, i);
  }

  lemma CanaryElsewhere(m: Mem, m': Mem, q: Pool, i: nat, k: nat)
    requires Shape(q) && i < |q.blocks| && k < |q.blocks| && Snug(q.blocks[i]) && Snug(q.blocks[k])
    requires !q.blocks[i].free && !q.blocks[k].free && CanaryOK(m, q.blocks[k])
    requires OnlyAt(m, m', q.blocks[i].Payload(), q.blocks[i].user)
    ensures CanaryOK(m', q.blocks[k])
  {
    hide Tiles, FreeAddrs;
    TilesAt(q.blocks, q.base + POOL_GENERAL_SIZE, q.base + q.size, k, i);
    TilesAt(q.blocks, q.base + POOL_GENERAL_SIZE, q.base + q.size, i, k);
    GetSame(m, m', q.blocks[k].Payload() + q.blocks[k].user, CANARY);
  }

  lemma PayloadBytes(m: Mem, m': Mem, head: nat, w: Tiers, s: Small, p: nat)
    requires World(m, head, w, s) && p in w.live && OnlyAt(m, m', p, w.live[p])
    ensures BytesKept(m, m', w, p) && HeadersKept(m, m', s)
  {
    hide World, SmallAt;
    forall q | q in w.live && q != p ensures Same(m, m', q, w.live[q]) {
      WindowsDisjoint(m, head, w, s, p, q);
    }
    forall c: nat, a: nat | IsCarved(s, c, a) ensures SmallAt(m', a) == SmallAt(m, a) {
      HeaderMissed(m, head, w, s, p, c, a);
      SmallSame(m, m', a);
    }
  }
}
