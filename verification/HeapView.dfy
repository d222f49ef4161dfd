/** The heap that the bytes of the tiers stand for, and what the steps of the tiers do to it. */
module HeapView {
  import opened Bytes
  import opened Layout
  import opened Machine
  import opened FreeList
  import opened PoolModel
  import opened GeneralPool
  import opened GeneralOps
  import opened Registry
  import opened Regions
  import opened GeneralTier
  import opened PoolGrowth
  import opened SmallModel
  import opened SmallRep
  import opened DirectTier
  import opened WorldModel
  import opened WorldSteps
  import Ideal = IdealHeap

  function Cells(m: Mem, live: Allocations): map<nat, seq<byte>> {
    map p | p in live :: Window(m, p, live[p])
  }

  /** The pools in quarantine. */
  function Closed(w: Tiers): set<Region> {
    set r | r in w.rs && r.kind == GENERAL_KIND && r.base in w.ps && w.ps[r.base].readOnly
  }

  function HeapOf(m: Mem, w: Tiers): Ideal.Heap {
    Ideal.Heap(Cells(m, w.live), Closed(w))
  }

  lemma WindowSame(m: Mem, m': Mem, a: nat, n: nat)
    requires Same(m, m', a, n)
    ensures Window(m', a, n) == Window(m, a, n)
  {
  }

  lemma SoundHeap(m: Mem, head: nat, w: Tiers, s: Small)
    requires World(m, head, w, s) && forall p :: p in w.live ==> w.live[p] > 0
    ensures Ideal.Sound(HeapOf(m, w))
  {
    hide World;
    var h := HeapOf(m, w);
    forall p | p in h.cells ensures 0 < p && p % ALIGNMENT == 0 && |h.cells[p]| > 0 {
      LivePlace(m, head, w, s, p);
    }
    forall p, q | p in h.cells && q in h.cells && p != q ensures Ideal.Apart(h, p, q) {
      WindowsDisjoint(m, head, w, s, p, q);
    }
  }

  lemma LivePlace(m: Mem, head: nat, w: Tiers, s: Small, p: nat)
    requires World(m, head, w, s) && p in w.live
    ensures 0 < p && p % ALIGNMENT == 0
  {
    hide PoolAt, Tier, Registered, Grown, Inv, Geometry, RegionOK;
    assert InAPool(w.rs, p);
    var g :| 0 <= g < |w.rs| && w.rs[g].Has(p);
    LiveInside(m, head, w, s, g, p);
  }

  ghost predicate NotClosed(w: Tiers, p: nat) {
    forall r {:trigger r in Closed(w)} :: r in Closed(w) ==> !r.Has(p)
  }

  /** p is a new allocation of n bytes. */
  ghost predicate Obtained(m: Mem, m': Mem, w: Tiers, w': Tiers, p: nat, n: nat) {
    && p !in w.live && w'.live == w.live[p := n] && BytesKept(m, m', w, p)
    && Closed(w') == Closed(w) && NotClosed(w, p)
  }

  /** p is an allocation no more. */
  ghost predicate Released(m: Mem, m': Mem, w: Tiers, w': Tiers, p: nat) {
    w'.live == w.live - {p} && BytesKept(m, m', w, p) && Closed(w') == Closed(w)
  }

  lemma ObtainedHeap(m: Mem, m': Mem, head': nat, w: Tiers, w': Tiers, s': Small, p: nat, n: nat)
    requires World(m', head', w', s') && Obtained(m, m', w, w', p, n) && n > 0
    ensures Ideal.Allocates(HeapOf(m, w), n, p, HeapOf(m', w'))
  {
    hide World, Closed;
    var h, h' := HeapOf(m, w), HeapOf(m', w');
    LivePlace(m', head', w', s', p);
    forall q | q in h.cells ensures Disjoint(p, n, q, |h.cells[q]|) && h'.cells[q] == h.cells[q] {
      assert q in w.live && q != p;
      WindowsDisjoint(m', head', w', s', p, q);
      WindowSame(m, m', q, w.live[q]);
    }
    assert h'.cells.Keys == h.cells.Keys + {p};
    assert h' == Ideal.With(h, p, h'.cells[p]);
  }

  lemma ReleasedHeap(m: Mem, m': Mem, w: Tiers, w': Tiers, p: nat)
    requires Released(m, m', w, w', p)
    ensures HeapOf(m', w') == Ideal.Less(HeapOf(m, w), p)
  {
    hide Closed;
    forall q | q in w'.live ensures Window(m', q, w'.live[q]) == Window(m, q, w.live[q]) {
      WindowSame(m, m', q, w.live[q]);
    }
  }

  /** Nothing happened to any allocation. */
  lemma SameHeap(m: Mem, m': Mem, w: Tiers, w': Tiers, p: nat)
    requires w'.live == w.live && BytesKept(m, m', w, p) && p !in w.live && Closed(w') == Closed(w)
    ensures HeapOf(m', w') == HeapOf(m, w)
  {
    hide Closed;
    forall q | q in w.live ensures Window(m', q, w.live[q]) == Window(m, q, w.live[q]) {
      WindowSame(m, m', q, w.live[q]);
    }
  }

  /** An allocation is resized where it is. */
  lemma ResizedHeap(m: Mem, m': Mem, head': nat, w: Tiers, w': Tiers, s': Small, p: nat, n: nat)
    requires World(m', head', w', s') && p in w.live && w'.live == w.live[p := n] && BytesKept(m, m', w, p)
    requires Closed(w') == Closed(w) && NotClosed(w, p) && n > 0 && Same(m, m', p, Ideal.Min(w.live[p], n))
    ensures Ideal.Next(HeapOf(m, w), Ideal.Realloc(p, n, p), HeapOf(m', w'))
  {
    hide World, Closed;
    var h, h' := HeapOf(m, w), HeapOf(m', w');
    LivePlace(m', head', w', s', p);
    forall q | q in h.cells && q != p ensures Disjoint(p, n, q, |h.cells[q]|) && h'.cells[q] == h.cells[q] {
      WindowsDisjoint(m', head', w', s', p, q);
      WindowSame(m, m', q, w.live[q]);
    }
    assert h'.cells.Keys == h.cells.Keys;
    assert h' == Ideal.With(Ideal.Less(h, p), p, h'.cells[p]);
    PrefixSame(m, m', p, w.live[p], n);
  }

  lemma PrefixSame(m: Mem, m': Mem, p: nat, a: nat, b: nat)
    requires Same(m, m', p, Ideal.Min(a, b))
    ensures Ideal.Keeps(Window(m, p, a), Window(m', p, b))
  {
  }

  /** The bytes of one allocation were written. */
  lemma WrittenHeap(m: Mem, m': Mem, w: Tiers, p: nat)
    requires p in w.live && BytesKept(m, m', w, p)
    ensures HeapOf(m', w) == Ideal.With(HeapOf(m, w), p, Window(m', p, w.live[p]))
  {
    hide Closed;
    forall q | q in w.live && q != p ensures Window(m', q, w.live[q]) == Window(m, q, w.live[q]) {
      WindowSame(m, m', q, w.live[q]);
    }
  }

  // ----- which pools are in quarantine

  lemma OpenPool(w: Tiers, g: nat, p: nat)
    requires Separate(w.rs) && g < |w.rs| && w.rs[g].Has(p)
    requires w.rs[g].kind != GENERAL_KIND || (w.rs[g].base in w.ps && !w.ps[w.rs[g].base].readOnly)
    ensures NotClosed(w, p)
  {
    forall r | r in Closed(w) ensures !r.Has(p) {
      var h :| 0 <= h < |w.rs| && w.rs[h] == r;
      if r.Has(p) {
        OwnerUnique(w.rs, g, h, p);
      }
    }
  }

  lemma ClosedPool(w: Tiers, w': Tiers, b: nat, p': Pool)
    requires w'.rs == w.rs && b in w.ps && w'.ps == w.ps[b := p'] && p'.readOnly == w.ps[b].readOnly
    ensures Closed(w') == Closed(w)
  {
  }

  lemma ClosedMore(w: Tiers, w': Tiers, r: Region)
    requires w'.rs == [r] + w.rs && forall b :: b != r.base ==>
               (b in w'.ps <==> b in w.ps) && (b in w.ps ==> w'.ps[b] == w.ps[b])
    requires r.kind == GENERAL_KIND ==> r.base in w'.ps && !w'.ps[r.base].readOnly
    requires forall t :: t in w.rs ==> t.base != r.base
    ensures Closed(w') == Closed(w)
  {
    forall t | t in Closed(w) ensures t in Closed(w') {
      assert t in w.rs;
    }
    forall t | t in Closed(w') ensures t in Closed(w) {
      assert t == r || t in w.rs;
    }
  }

  lemma ClosedFewer(w: Tiers, w': Tiers, k: nat)
    requires k < |w.rs| && w'.rs == Without(w.rs, k) && w'.ps == w.ps && w.rs[k].kind != GENERAL_KIND
    ensures Closed(w') == Closed(w)
  {
    WithoutRegions(w.rs, k);
    forall r | r in Closed(w) ensures r in Closed(w') {
      var h :| 0 <= h < |w.rs| && w.rs[h] == r;
      OtherListed(w.rs, k, h);
    }
    forall r | r in Closed(w') ensures r in Closed(w) {
      var j :| 0 <= j < |w'.rs| && w'.rs[j] == r;
      assert w.rs[Shift(j, k)] == r;
    }
  }

  // ----- the general tier

  lemma BlockOf(m: Mem, head: nat, w: Tiers, s: Small, g: nat, p: nat) returns (i: nat)
    requires World(m, head, w, s) && g < |w.rs| && w.rs[g].kind == GENERAL_KIND && w.rs[g].Has(p) && p in w.live
    ensures w.rs[g].base in w.ps && Image(m, w.ps[w.rs[g].base])
    ensures var q := w.ps[w.rs[g].base];
            q.base == w.rs[g].base && q.size == w.rs[g].size && i < |q.blocks| && LiveBlock(q.blocks[i], p, w.live[p])
  {
    hide PoolAt, Image, Registered, Grown, Geometry, Inv;
    assert RegionOK(m, w.rs[g], w, s) && HostOK(m, w.rs[g], w.ps);
    var q := w.ps[w.rs[g].base];
    assert LiveAt(q, p, w.live[p]);
    i :| 0 <= i < |q.blocks| && LiveBlock(q.blocks[i], p, w.live[p]);
  }

  /** The payload of a free block is not an allocation. */
  lemma FreeNotLive(m: Mem, head: nat, w: Tiers, s: Small, g: nat, i: nat)
    requires World(m, head, w, s) && g < |w.rs| && w.rs[g].kind == GENERAL_KIND && w.rs[g].base in w.ps
    requires i < |w.ps[w.rs[g].base].blocks|
    ensures var p := w.ps[w.rs[g].base].blocks[i].Payload();
            w.rs[g].Has(p) && (w.ps[w.rs[g].base].blocks[i].free ==> p !in w.live)
  {
    hide PoolAt, Rep, Canaries, Registered, Grown, Geometry, Inv, Tiles, FreeAddrs, Distinct, Indexed;
    assert RegionOK(m, w.rs[g], w, s) && HostOK(m, w.rs[g], w.ps);
    var q := w.ps[w.rs[g].base];
    BlockRange(q, i);
    var p := q.blocks[i].Payload();
    if q.blocks[i].free && p in w.live {
      assert LiveAt(q, p, w.live[p]);
      var k :| 0 <= k < |q.blocks| && LiveBlock(q.blocks[k], p, w.live[p]);
      AddrInjective(q, i, k);
    }
  }

  lemma GeneralHeaders(m: Mem, m': Mem, head: nat, w: Tiers, s: Small, g: nat)
    requires World(m, head, w, s) && g < |w.rs| && w.rs[g].kind != SMALL_KIND
    requires forall h {:trigger w.rs[h]} :: 0 <= h < |w.rs| && h != g ==> Kept(m, m', w.rs[h])
    ensures HeadersKept(m, m', s)
  {
    hide PoolAt, Kept, Registered, Tier, Grown, Inv, Geometry, RegionOK, HeadersKept;
    RegionsKept(m, m', w.rs, s);
  }

  /** What the operations of the general tier on the allocation ptr have in common. */
  lemma GeneralEffect(m: Mem, m': Mem, head: nat, w: Tiers, w': Tiers, s: Small, g: nat, p': Pool, addr: nat, ptr: nat)
    requires World(m, head, w, s) && g < |w.rs| && w.rs[g].kind == GENERAL_KIND && w.rs[g].base in w.ps
    requires ptr == addr + HEADER_SIZE && w' == w.(ps := w.ps[w.rs[g].base := p'], live := w'.live)
    requires Image(m', p') && SamePlace(w.ps[w.rs[g].base], p') && OutsideSame(m, m', w.ps[w.rs[g].base])
    requires OthersSame(m, m', w.ps[w.rs[g].base].blocks, addr)
    requires LiveBut(w, w', ptr) && LiveAtBut(w.ps[w.rs[g].base], p', ptr, w'.live) && w.rs[g].Has(ptr)
    ensures World(m', head, w', s)
    ensures BytesKept(m, m', w, ptr) && Closed(w') == Closed(w) && HeadersKept(m, m', s)
  {
    hide World, PayloadSame, Image, OutsideSame, LiveAtBut, LiveAt, Kept, BytesKept, HeadersKept, Closed, LiveBut;
    GeneralStep(m, m', head, w, w', s, g, p', ptr);
    GeneralBytes(m, m', head, w, s, g, ptr) by {
      forall b | b in w.ps[w.rs[g].base].blocks && !b.free && b.Payload() != ptr ensures PayloadSame(m, m', b) {
        assert b.addr != addr;
      }
    }
    GeneralHeaders(m, m', head, w, s, g);
    ClosedPool(w, w', w.rs[g].base, p');
  }

  /** malloc from a pool that is already there. */
  lemma ServeEffect(m: Mem, m': Mem, head: nat, w: Tiers, w': Tiers, s: Small, g: nat, i: nat, size: nat)
    requires World(m, head, w, s) && g < |w.rs| && Offers(w.rs[g], w.ps, ActualSize(size))
    requires var p := w.ps[w.rs[g].base];
             && i < |p.blocks| && p.blocks[i].addr in p.freeList && p.blocks[i].size >= ActualSize(size)
             && Tier(m', w.rs, w.ps[w.rs[g].base := Malloc(p, i, size)])
             && LiveSame(m, m', p.blocks) && OutsideSame(m, m', p)
             && w' == w.(ps := w.ps[w.rs[g].base := Malloc(p, i, size)], live := w.live[p.blocks[i].Payload() := size])
    ensures World(m', head, w', s)
    ensures Obtained(m, m', w, w', w.ps[w.rs[g].base].blocks[i].Payload(), size) && HeadersKept(m, m', s)
    ensures w.rs[g].kind == GENERAL_KIND && w.rs[g].Has(w.ps[w.rs[g].base].blocks[i].Payload())
  {
    hide PoolAt, Rep, Canaries, Grown, Geometry, Inv, Shape, Indexed, Snug, HeadersKept, Closed, BytesKept, NotClosed,
         FirstFit, LiveAt, Malloc, PayloadSame, OutsideSame, RegionOK, Backed, Listed, AlignUp;
    var p, ptr := w.ps[w.rs[g].base], w.ps[w.rs[g].base].blocks[i].Payload();
    assert HostOK(m, w.rs[g], w.ps) && HostOK(m', w.rs[g], w'.ps);
    assert p.blocks[i].free by { ListedFree(p, i); }
    FreeNotLive(m, head, w, s, g, i);
    MallocWF(p, i, size);
    MallocLive(m, head, w, w', s, g, i, size);
    GeneralEffect(m, m', head, w, w', s, g, Malloc(p, i, size), p.blocks[i].addr, ptr);
    OpenPool(w, g, ptr);
  }

  lemma ListedFree(p: Pool, i: nat)
    requires Shape(p) && i < |p.blocks| && p.blocks[i].addr in p.freeList
    ensures p.blocks[i].free
  {
    hide Tiles, FreeAddrs;
    FreeAt(p, i);
  }

  lemma MallocLive(m: Mem, head: nat, w: Tiers, w': Tiers, s: Small, g: nat, i: nat, size: nat)
    requires World(m, head, w, s) && g < |w.rs| && w.rs[g].kind == GENERAL_KIND && w.rs[g].base in w.ps
    requires var p := w.ps[w.rs[g].base];
             && i < |p.blocks| && p.blocks[i].addr in p.freeList && p.blocks[i].size >= ActualSize(size)
             && w'.live == w.live[p.blocks[i].Payload() := size] && WF(p)
    requires w.ps[w.rs[g].base].blocks[i].Payload() !in w.live && w.rs[g].Has(w.ps[w.rs[g].base].blocks[i].Payload())
    ensures var p := w.ps[w.rs[g].base];
            LiveAtBut(p, Malloc(p, i, size), p.blocks[i].Payload(), w'.live)
  {
    hide PoolAt, Registered, Tier, Grown, Geometry, Inv, LiveAt, Malloc, WF, AlignUp;
    assert RegionOK(m, w.rs[g], w, s);
    MallocWF(w.ps[w.rs[g].base], i, size);
  }

  /** A pool for the general tier. */
  lemma CreateEffect(m: Mem, m': Mem, head: nat, head': nat, w: Tiers, w': Tiers, s: Small, r: Region)
    requires World(m, head, w, s) && Grew(m, m', r.base, r.size) && r.kind == GENERAL_KIND
    requires |w.rs| < MAX_POOLS && r.size >= 2 * MIB && forall g :: 0 <= g < |w.rs| ==> r.size >= 2 * w.rs[g].size
    requires w' == w.(rs := [r] + w.rs, ps := w.ps[r.base := Fresh(r.base, r.size)])
    requires Registered(m', head', w'.rs) && Tier(m', w'.rs, w'.ps)
    ensures World(m', head', w', s)
    ensures BytesKept(m, m', w, 0) && Closed(w') == Closed(w) && HeadersKept(m, m', s)
  {
    hide PoolAt, Image, Kept, Backed, Binned, Owned, LiveAt, Inv, Geometry, Grown, DirectOK, Grew, BytesKept,
         HeadersKept, Closed, RegionOK, Registered, Fresh;
    NewEmpty(m, m', head, w, s, r);
    assert HostOK(m', w'.rs[0], w'.ps);
    FreshRegion(m', w', s, r);
    GrownByGeneral(w.rs, r);
    MoreHoused(w.rs, r, s);
    assert r.Has(r.base);
    AddStep(m, m', head, head', w, w', s, s, r, r.base);
    RegionsKept(m, m', w.rs, s);
    ClosedMore(w, w', r);
  }

  lemma MoreHoused(rs: seq<Region>, r: Region, s: Small)
    requires Geometry(rs, s)
    ensures Geometry([r] + rs, s)
  {
    hide Geometry;
    HousedMore(rs, [r] + rs, s);
  }

  /** No allocation lies in a new region. */
  lemma NewEmpty(m: Mem, m': Mem, head: nat, w: Tiers, s: Small, r: Region)
    requires World(m, head, w, s) && Grew(m, m', r.base, r.size) && r.size > 0
    ensures forall p :: p in w.live ==> !r.Has(p)
    ensures forall t :: t in w.rs ==> t.base != r.base
    ensures forall t, p :: t in w.rs && r.Has(p) ==> !t.Has(p)
  {
    hide PoolAt, Grew, Tier, Grown, Geometry, Inv, RegionOK, Kept;
    RegisteredGrew(m, m', head, w.rs, r.base, r.size);
    forall p | p in w.live ensures !r.Has(p) {
      assert InAPool(w.rs, p);
      var g :| 0 <= g < |w.rs| && w.rs[g].Has(p);
    }
    forall t | t in w.rs ensures t.base != r.base && forall p :: r.Has(p) ==> !t.Has(p) {
      var g :| 0 <= g < |w.rs| && w.rs[g] == t;
      assert Backed(m, w.rs[g]);
    }
  }

  lemma FreshRegion(m: Mem, w: Tiers, s: Small, r: Region)
    requires r.kind == GENERAL_KIND && r.base in w.ps && r.size >= 2 * MIB && w.ps[r.base] == Fresh(r.base, r.size)
    requires forall p :: p in w.live ==> !r.Has(p)
    ensures RegionOK(m, r, w, s) && !w.ps[r.base].readOnly
  {
  }

  /** free in the general tier. */
  lemma FreeEffect(m: Mem, m': Mem, head: nat, w: Tiers, w': Tiers, s: Small, g: nat, i: nat, ptr: nat)
    requires World(m, head, w, s) && g < |w.rs| && w.rs[g].kind == GENERAL_KIND && w.rs[g].base in w.ps && ptr in w.live
    requires var p := w.ps[w.rs[g].base];
             && i < |p.blocks| && LiveBlock(p.blocks[i], ptr, w.live[ptr]) && WF(p)
             && Image(m', Free(p, i)) && OutsideSame(m, m', p) && OthersSame(m, m', p.blocks, p.blocks[i].addr)
             && w' == w.(ps := w.ps[w.rs[g].base := Free(p, i)], live := w.live - {ptr})
    ensures World(m', head, w', s) && Released(m, m', w, w', ptr) && HeadersKept(m, m', s)
  {
    hide PoolAt, Rep, Canaries, Grown, Geometry, Inv, Shape, Indexed, Snug, HeadersKept, Closed, BytesKept, WF, Tier,
         Image, LiveAt, Free, OthersSame, OutsideSame, RegionOK, Backed, Listed;
    var p := w.ps[w.rs[g].base];
    FreeNotLive(m, head, w, s, g, i);
    FreeWF(p, i);
    assert LiveAtBut(p, Free(p, i), ptr, w'.live);
    GeneralEffect(m, m', head, w, w', s, g, Free(p, i), p.blocks[i].addr, ptr);
  }

  /** realloc in place in the general tier. */
  lemma ResizeEffect(m: Mem, m': Mem, head: nat, w: Tiers, w': Tiers, s: Small, g: nat, i: nat, ptr: nat, size: nat)
    requires World(m, head, w, s) && g < |w.rs| && w.rs[g].kind == GENERAL_KIND && w.rs[g].base in w.ps && ptr in w.live
    requires var p := w.ps[w.rs[g].base];
             && i < |p.blocks| && LiveBlock(p.blocks[i], ptr, w.live[ptr]) && WF(p) && InPlace(p, i, size)
             && (i + 1 < |p.blocks| && p.blocks[i + 1].free ==> p.blocks[i + 1].addr in p.freeList)
             && Image(m', Resize(p, i, size)) && OutsideSame(m, m', p) && OthersSame(m, m', p.blocks, p.blocks[i].addr)
             && w' == w.(ps := w.ps[w.rs[g].base := Resize(p, i, size)], live := w.live[ptr := size])
    ensures World(m', head, w', s) && HeadersKept(m, m', s)
    ensures BytesKept(m, m', w, ptr) && Closed(w') == Closed(w) && NotClosed(w, ptr)
  {
    hide PoolAt, Rep, Canaries, Grown, Geometry, Inv, Shape, Indexed, Snug, HeadersKept, Closed, BytesKept, WF, Tier,
         Image, LiveAt, Resize, OthersSame, OutsideSame, RegionOK, Backed, Listed, NotClosed, AlignUp;
    var p := w.ps[w.rs[g].base];
    FreeNotLive(m, head, w, s, g, i);
    ResizeLive(p, i, size);
    assert LiveAtBut(p, Resize(p, i, size), ptr, w'.live);
    GeneralEffect(m, m', head, w, w', s, g, Resize(p, i, size), p.blocks[i].addr, ptr);
    OpenPool(w, g, ptr);
  }

  lemma ResizeLive(p: Pool, i: nat, size: nat)
    requires WF(p) && i < |p.blocks| && !p.blocks[i].free && InPlace(p, i, size)
    requires i + 1 < |p.blocks| && p.blocks[i + 1].free ==> p.blocks[i + 1].addr in p.freeList
    ensures forall ptr, user :: LiveAt(Resize(p, i, size), ptr, user) <==>
              if ptr == p.blocks[i].Payload() then user == size else LiveAt(p, ptr, user)
  {
    hide WF, LiveAt, Shrink, Absorb, AlignUp;
    if ResizedSize(size) <= p.blocks[i].size {
      ShrinkWF(p, i, size);
    } else {
      AbsorbWF(p, i, size);
    }
  }

  // ----- the direct tier

  lemma DirectAddEffect(m: Mem, m': Mem, head: nat, head': nat, w: Tiers, w': Tiers, s: Small, base: nat, total: nat,
      size: nat)
    requires World(m, head, w, s) && Grew(m, m', base, total) && DIRECT_PREFIX + size <= total
             && DAM_GENERAL_MAX < size < USER_SPACE
    requires var r := Region(base, total, DIRECT_KIND);
             && w' == Tiers([r] + w.rs, w.ps, w.ds[base := size], w.live[base + DIRECT_PREFIX := size])
             && Registered(m', head', w'.rs)
    requires PoolAt(m', base).blockList == 0 && PoolAt(m', base).readOnly == 0 && Records(m', base, size)
    ensures World(m', head', w', s)
    ensures Obtained(m, m', w, w', base + DIRECT_PREFIX, size) && HeadersKept(m, m', s)
  {
    hide PoolAt, Image, Kept, Backed, Binned, Owned, LiveAt, Inv, Geometry, Grown, Grew, BytesKept, Records,
         HeadersKept, Closed, RegionOK, NotClosed, Registered, Tier;
    var r, ptr := Region(base, total, DIRECT_KIND), base + DIRECT_PREFIX;
    NewEmpty(m, m', head, w, s, r);
    assert HostOK(m', r, w'.ps);
    DirectRegionOK(m', w, w', s, r, size);
    GrownByOther(w.rs, r);
    MoreHoused(w.rs, r, s);
    assert r.Has(ptr);
    AddStep(m, m', head, head', w, w', s, s, r, ptr);
    RegionsKept(m, m', w.rs, s);
    ClosedMore(w, w', r);
    NewOpen(w, r, ptr);
    NullNotLive(m, head, w, s);
    BytesAnyway(m, m', w, 0, ptr);
  }

  lemma BytesAnyway(m: Mem, m': Mem, w: Tiers, p: nat, q: nat)
    requires BytesKept(m, m', w, p) && p !in w.live
    ensures BytesKept(m, m', w, q)
  {
  }

  lemma NullNotLive(m: Mem, head: nat, w: Tiers, s: Small)
    requires World(m, head, w, s)
    ensures 0 !in w.live
  {
    hide World;
    if 0 in w.live {
      LivePlace(m, head, w, s, 0);
    }
  }

  lemma NewOpen(w: Tiers, r: Region, ptr: nat)
    requires r.Has(ptr) && forall t :: t in w.rs ==> !t.Has(ptr)
    ensures NotClosed(w, ptr)
  {
  }

  lemma DirectRegionOK(m: Mem, w: Tiers, w': Tiers, s: Small, r: Region, size: nat)
    requires r.kind == DIRECT_KIND && DIRECT_PREFIX + size <= r.size && DAM_GENERAL_MAX < size < USER_SPACE
             && Records(m, r.base, size)
    requires w'.ds == w.ds[r.base := size] && w'.live == w.live[r.base + DIRECT_PREFIX := size]
    requires forall p :: p in w.live ==> !r.Has(p)
    ensures RegionOK(m, r, w', s)
  {
    hide Records;
  }

  lemma DirectRemoveEffect(m: Mem, m': Mem, head: nat, head': nat, w: Tiers, w': Tiers, s: Small, k: nat, ptr: nat)
    requires World(m, head, w, s) && k < |w.rs| && w.rs[k].kind == DIRECT_KIND && w.rs[k].Has(ptr) && ptr in w.live
    requires w' == Tiers(Without(w.rs, k), w.ps, w.ds, w.live - {ptr})
    requires Registered(m', head', w'.rs)
    requires forall g {:trigger w.rs[g]} :: 0 <= g < |w.rs| && g != k ==> Kept(m, m', w.rs[g])
    ensures World(m', head', w', s) && Released(m, m', w, w', ptr) && HeadersKept(m, m', s)
    ensures forall g {:trigger w.rs[g]} :: 0 <= g < |w.rs| && w.rs[g].kind == SMALL_KIND ==> w.rs[g] in w'.rs
  {
    hide World, Registered, Kept, BytesKept, Closed, Without, HeadersKept;
    DirectPlace(m, head, w, s, k);
    RemoveStep(m, m', head, head', w, w', s, k);
    GeneralHeaders(m, m', head, w, s, k);
    ClosedFewer(w, w', k);
    forall g | 0 <= g < |w.rs| && w.rs[g].kind == SMALL_KIND ensures w.rs[g] in w'.rs {
      OtherListed(w.rs, k, g);
    }
  }

  /** realloc in place in the direct tier: nothing in memory changes. */
  lemma DirectResizeEffect(m: Mem, head: nat, w: Tiers, w': Tiers, s: Small, k: nat, ptr: nat, size: nat)
    requires World(m, head, w, s) && k < |w.rs| && w.rs[k].kind == DIRECT_KIND && w.rs[k].Has(ptr) && ptr in w.live
    requires w.rs[k].base in w.ds && KeepsMapping(w.ds[w.rs[k].base], size) && size > DAM_GENERAL_MAX
    requires w' == w.(live := w.live[ptr := size])
    ensures World(m, head, w', s) && Closed(w') == Closed(w) && NotClosed(w, ptr)
  {
    hide PoolAt, Image, Kept, Binned, Owned, LiveAt, Inv, Geometry, Grown, NotClosed, Listed, RegionOK, Backed;
    DirectPlace(m, head, w, s, k);
    forall h | 0 <= h < |w.rs| ensures RegionOK(m, w.rs[h], w', s) {
      assert RegionOK(m, w.rs[h], w, s);
      if h != k {
        ElsewhereResized(m, w, w', s, k, h, ptr);
      } else {
        HereResized(m, w, w', s, w.rs[k], size);
      }
    }
    OpenPool(w, k, ptr);
  }

  lemma ElsewhereResized(m: Mem, w: Tiers, w': Tiers, s: Small, k: nat, h: nat, ptr: nat)
    requires Separate(w.rs) && k < |w.rs| && h < |w.rs| && h != k && w.rs[k].Has(ptr) && ptr in w.live
    requires RegionOK(m, w.rs[h], w, s)
    requires w' == w.(live := w'.live) && LiveBut(w, w', ptr)
    ensures RegionOK(m, w.rs[h], w', s)
  {
    hide LiveAt, SmallHolds, Records;
    assert Clear(w.rs[k], w.rs[h]);
    assert !w.rs[h].Has(ptr);
  }

  lemma HereResized(m: Mem, w: Tiers, w': Tiers, s: Small, r: Region, size: nat)
    requires RegionOK(m, r, w, s) && r.kind == DIRECT_KIND && size > DAM_GENERAL_MAX
    requires r.base in w.ds && KeepsMapping(w.ds[r.base], size)
    requires w' == w.(live := w.live[r.base + DIRECT_PREFIX := size])
    ensures RegionOK(m, r, w', s)
  {
    hide Records;
  }

  /** What the tier reads to decide about a direct allocation. */
  lemma DirectRecord(m: Mem, head: nat, w: Tiers, s: Small, k: nat, ptr: nat)
    requires World(m, head, w, s) && k < |w.rs| && w.rs[k].kind == DIRECT_KIND && w.rs[k].Has(ptr) && ptr in w.live
    ensures ptr == w.rs[k].base + DIRECT_PREFIX && w.rs[k].base in w.ds
            && w.live[ptr] <= w.ds[w.rs[k].base] < USER_SPACE
    ensures HeaderAt(m, w.rs[k].base + POOL_HEADER_SIZE).size == w.ds[w.rs[k].base]
    ensures HeaderAt(m, w.rs[k].base + POOL_HEADER_SIZE).magic == BLOCK_MAGIC
    ensures HeaderAt(m, w.rs[k].base + POOL_HEADER_SIZE).isFree == 0
    ensures ptr + w.ds[w.rs[k].base] <= w.rs[k].base + w.rs[k].size && Mapped(m, w.rs[k].base, w.rs[k].size)
  {
    hide HeaderAt, PoolAt, Tier, Grown, Inv, Geometry;
    assert RegionOK(m, w.rs[k], w, s) && Backed(m, w.rs[k]);
  }

  // ----- the small tier

  lemma CarveEffect(m: Mem, m': Mem, head: nat, head': nat, w: Tiers, w': Tiers, s: Small, s': Small, r: Region)
    requires World(m, head, w, s) && Grew(m, m', r.base, r.size) && r.kind == SMALL_KIND && r.size > 0
    requires w' == w.(rs := [r] + w.rs) && Registered(m', head', w'.rs)
    requires PoolAt(m', r.base).blockList == 0 && PoolAt(m', r.base).readOnly == 0
    requires Inv(s') && Geometry(w'.rs, s') && s'.live == s.live
    ensures World(m', head', w', s')
    ensures BytesKept(m, m', w, 0) && Closed(w') == Closed(w)
  {
    hide PoolAt, Image, Kept, Backed, Binned, Owned, LiveAt, Inv, Geometry, Grown, Grew, BytesKept, Closed, RegionOK,
         Registered, Tier;
    NewEmpty(m, m', head, w, s, r);
    assert HostOK(m', r, w'.ps);
    SmallRegionOK(m', w', s', r);
    GrownByOther(w.rs, r);
    assert r.Has(r.base);
    AddStep(m, m', head, head', w, w', s, s', r, r.base);
    ClosedMore(w, w', r);
  }

  lemma SmallRegionOK(m: Mem, w: Tiers, s: Small, r: Region)
    requires r.kind == SMALL_KIND && forall p :: p in w.live ==> !r.Has(p)
    ensures RegionOK(m, r, w, s)
  {
  }

  lemma SmallOpen(m: Mem, head: nat, w: Tiers, s: Small, c: nat, x: nat)
    requires World(m, head, w, s) && IsCarved(s, c, x)
    ensures NotClosed(w, x + SMALL_HEADER_SIZE)
  {
    hide PoolAt, Tier, Grown, Inv, RegionOK, Backed, Listed, NotClosed;
    assert Housed(w.rs, c, x);
    var g :| 0 <= g < |w.rs| && InPool(w.rs[g], c, x);
    assert ClassSize(c) > 0;
    OpenPool(w, g, x + SMALL_HEADER_SIZE);
  }

  lemma SmallNew(m: Mem, head: nat, w: Tiers, s: Small, c: nat, x: nat)
    requires World(m, head, w, s) && IsCarved(s, c, x) && x !in s.live[c]
    ensures x + SMALL_HEADER_SIZE !in w.live
  {
    hide PoolAt, Tier, Grown, Binned, Owned;
    var p := x + SMALL_HEADER_SIZE;
    if p in w.live {
      assert Housed(w.rs, c, x);
      var g :| 0 <= g < |w.rs| && InPool(w.rs[g], c, x);
      assert ClassSize(c) > 0 && RegionOK(m, w.rs[g], w, s);
      var d := SmallPlace(w.rs, s, g, p, w.live[p]);
      OneClass(s, c, d, x);
    }
  }

  lemma InOrder(m: Mem, head: nat, w: Tiers, s: Small)
    requires World(m, head, w, s)
    ensures Inv(s)
  {
  }

  lemma OneMoved(s: Small, s': Small, c: nat, x: nat)
    requires Inv(s) && c < CLASSES && s'.carved == s.carved
    requires s'.live == s.live[c := s.live[c] + {x}] || s'.live == s.live[c := s.live[c] - {x}]
    ensures Moved(s, s', c, x)
  {
    hide Binned, Owned;
  }

  /** Block x of class c is handed out for n bytes. */
  lemma TakeEffect(m: Mem, m': Mem, head: nat, w: Tiers, w': Tiers, s: Small, s': Small, c: nat, x: nat, n: nat)
    requires World(m, head, w, s) && IsCarved(s, c, x) && OnlyAt(m, m', x, SMALL_HEADER_SIZE) && x !in s.live[c]
    requires Inv(s') && s'.carved == s.carved && s'.live == s.live[c := s.live[c] + {x}]
    requires n <= ClassSize(c) && w' == w.(live := w.live[x + SMALL_HEADER_SIZE := n])
    ensures World(m', head, w', s') && Obtained(m, m', w, w', x + SMALL_HEADER_SIZE, n)
  {
    hide World, BytesKept, Binned, Owned, OnlyAt, NotClosed;
    SmallNew(m, head, w, s, c, x);
    SmallOpen(m, head, w, s, c, x);
    InOrder(m, head, w, s);
    OneMoved(s, s', c, x);
    SmallStep(m, m', head, w, w', s, s', c, x);
  }

  /** Block x of class c is taken back. */
  lemma GiveEffect(m: Mem, m': Mem, head: nat, w: Tiers, w': Tiers, s: Small, s': Small, c: nat, x: nat)
    requires World(m, head, w, s) && IsCarved(s, c, x) && OnlyAt(m, m', x, SMALL_HEADER_SIZE)
    requires Inv(s') && s'.carved == s.carved && s'.live == s.live[c := s.live[c] - {x}]
    requires w' == w.(live := w.live - {x + SMALL_HEADER_SIZE})
    ensures World(m', head, w', s') && Released(m, m', w, w', x + SMALL_HEADER_SIZE)
  {
    hide World, BytesKept, Binned, Owned, OnlyAt;
    InOrder(m, head, w, s);
    OneMoved(s, s', c, x);
    SmallStep(m, m', head, w, w', s, s', c, x);
  }

  /** The block of class c is large enough for the new size. */
  lemma SmallResizeEffect(m: Mem, head: nat, w: Tiers, w': Tiers, s: Small, c: nat, x: nat, n: nat)
    requires World(m, head, w, s) && IsCarved(s, c, x) && x in s.live[c] && n <= ClassSize(c)
    requires w' == w.(live := w.live[x + SMALL_HEADER_SIZE := n])
    ensures World(m, head, w', s) && Closed(w') == Closed(w) && NotClosed(w, x + SMALL_HEADER_SIZE)
  {
    hide BytesKept, NotClosed, Registered, Tier, RegionOK, Geometry, Grown, Binned, Owned;
    SmallOpen(m, head, w, s, c, x);
    SmallStep(m, m, head, w, w', s, s, c, x);
  }

  /** The block of an allocation in a small pool. */
  lemma SmallBlock(m: Mem, head: nat, w: Tiers, s: Small, g: nat, p: nat) returns (c: nat)
    requires World(m, head, w, s) && g < |w.rs| && w.rs[g].kind == SMALL_KIND && w.rs[g].Has(p) && p in w.live
    ensures c < CLASSES && p > SMALL_HEADER_SIZE && IsCarved(s, c, p - SMALL_HEADER_SIZE)
    ensures p - SMALL_HEADER_SIZE in s.live[c] && w.live[p] <= ClassSize(c)
  {
    hide PoolAt, Tier, Grown, Inv, Backed, Listed;
    assert RegionOK(m, w.rs[g], w, s);
    c := SmallPlace(w.rs, s, g, p, w.live[p]);
  }

  // ----- quarantine

  lemma QuarantineImage(m: Mem, m': Mem, p: Pool)
    requires Image(m, p) && Touches(m, m', p.base + ReadOnly.At().off, ReadOnly.At().width)
    requires PoolAt(m', p.base) == PoolAt(m, p.base).(readOnly := 1)
    ensures Image(m', p.(readOnly := true)) && OutsideSame(m, m', p) && LiveSame(m, m', p.blocks)
  {
    hide Tiles, FreeAddrs, HeaderAt, PoolAt, LinksAt, CanaryOK, Distinct, PayloadSame, ListRep, Touches, HeaderOK;
    QuarantineOutside(m, m', p);
    forall k | 0 <= k < |p.blocks| ensures HeaderOK(m', p.base, p.blocks, k) {
      QuarantineBlock(m, m', p, k);
    }
    forall b | b in p.blocks && !b.free ensures CanaryOK(m', b) && PayloadSame(m, m', b) {
      var k :| 0 <= k < |p.blocks| && p.blocks[k] == b;
      QuarantineBlock(m, m', p, k);
    }
    QuarantineList(m, m', p);
  }

  lemma QuarantineOutside(m: Mem, m': Mem, p: Pool)
    requires Image(m, p) && Touches(m, m', p.base + ReadOnly.At().off, ReadOnly.At().width)
    requires PoolAt(m', p.base) == PoolAt(m, p.base).(readOnly := 1)
    ensures OutsideSame(m, m', p)
  {
    hide FreeAddrs, HeaderAt, PoolAt, LinksAt, CanaryAt, Distinct, Tiles, Rep, Canaries;
    BlockRange(p, 0);
  }

  lemma QuarantineBlock(m: Mem, m': Mem, p: Pool, k: nat)
    requires Image(m, p) && Touches(m, m', p.base + ReadOnly.At().off, ReadOnly.At().width) && k < |p.blocks|
    ensures HeaderOK(m', p.base, p.blocks, k) && PayloadSame(m, m', p.blocks[k])
    ensures p.blocks[k].free || CanaryOK(m', p.blocks[k])
  {
    hide Tiles, FreeAddrs, HeaderAt, PoolAt, LinksAt, CanaryAt, Distinct, ListRep;
    BlockRange(p, k);
    assert HeaderOK(m, p.base, p.blocks, k) && Snug(p.blocks[k]);
    assert p.blocks[k].free || CanaryOK(m, p.blocks[k]);
  }

  lemma QuarantineList(m: Mem, m': Mem, p: Pool)
    requires Image(m, p) && Touches(m, m', p.base + ReadOnly.At().off, ReadOnly.At().width)
    requires PoolAt(m', p.base) == PoolAt(m, p.base).(readOnly := 1)
    ensures ListRep(m', p.base, p.freeList)
  {
    hide Tiles, FreeAddrs, HeaderAt, PoolAt, LinksAt, CanaryAt, Distinct;
    forall j | 0 <= j < |p.freeList| ensures LinkOK(m', p.freeList, j) {
      assert LinkOK(m, p.freeList, j);
      var k := ListMember(p, j);
      BlockRange(p, k);
    }
  }

  lemma QuarantineEffect(m: Mem, m': Mem, head: nat, w: Tiers, w': Tiers, s: Small, g: nat)
    requires World(m, head, w, s) && g < |w.rs| && w.rs[g].kind == GENERAL_KIND && w.rs[g].base in w.ps
    requires w' == w.(ps := w.ps[w.rs[g].base := w.ps[w.rs[g].base].(readOnly := true)])
    requires Touches(m, m', w.rs[g].base + ReadOnly.At().off, ReadOnly.At().width)
    requires PoolAt(m', w.rs[g].base) == PoolAt(m, w.rs[g].base).(readOnly := 1)
    ensures World(m', head, w', s) && HeadersKept(m, m', s)
    ensures HeapOf(m', w') == HeapOf(m, w).(closed := HeapOf(m, w).closed + {w.rs[g]})
  {
    hide PoolAt, Image, Kept, Binned, Owned, LiveAt, Inv, Geometry, Grown, Listed, HeadersKept, BytesKept, Touches,
         OutsideSame, PayloadSame, Closed, Cells, Backed, RegionOK;
    var b := w.rs[g].base;
    assert HostOK(m, w.rs[g], w.ps);
    QuarantineImage(m, m', w.ps[b]);
    BaseNotLive(m, head, w, s, g);
    GeneralStep(m, m', head, w, w', s, g, w'.ps[b], b);
    GeneralBytes(m, m', head, w, s, g, 0);
    GeneralHeaders(m, m', head, w, s, g);
    NullNotLive(m, head, w, s);
    ClosedNow(m, head, w, w', s, g);
    SameCells(m, m', w, 0);
  }

  lemma SameCells(m: Mem, m': Mem, w: Tiers, p: nat)
    requires BytesKept(m, m', w, p) && p !in w.live
    ensures Cells(m', w.live) == Cells(m, w.live)
  {
    forall q | q in w.live ensures Window(m', q, w.live[q]) == Window(m, q, w.live[q]) {
      WindowSame(m, m', q, w.live[q]);
    }
  }

  lemma BaseNotLive(m: Mem, head: nat, w: Tiers, s: Small, g: nat)
    requires World(m, head, w, s) && g < |w.rs| && w.rs[g].kind == GENERAL_KIND && w.rs[g].base in w.ps
    ensures var p := w.ps[w.rs[g].base];
            LiveAtBut(p, p.(readOnly := true), w.rs[g].base, w.live) && w.rs[g].Has(w.rs[g].base)
  {
    hide PoolAt, Image, Inv, Geometry, Grown, Listed, Tier;
    var b, p := w.rs[g].base, w.ps[w.rs[g].base];
    assert Backed(m, w.rs[g]) && RegionOK(m, w.rs[g], w, s);
    if b in w.live {
      LiveInside(m, head, w, s, g, b);
    }
    forall q, n ensures LiveAt(p.(readOnly := true), q, n) <==> LiveAt(p, q, n) {
    }
  }

  lemma ClosedNow(m: Mem, head: nat, w: Tiers, w': Tiers, s: Small, g: nat)
    requires World(m, head, w, s) && g < |w.rs| && w.rs[g].kind == GENERAL_KIND && w.rs[g].base in w.ps
    requires w' == w.(ps := w.ps[w.rs[g].base := w.ps[w.rs[g].base].(readOnly := true)])
    ensures Closed(w') == Closed(w) + {w.rs[g]}
  {
    hide PoolAt, Inv, Geometry, Grown, Listed, Tier, RegionOK, Mapped;
    forall r | r in Closed(w') ensures r in Closed(w) + {w.rs[g]} {
      var h :| 0 <= h < |w.rs| && w.rs[h] == r;
      assert Backed(m, w.rs[h]) && Backed(m, w.rs[g]) && (h != g ==> Clear(w.rs[g], w.rs[h]));
    }
  }

  // ----- copying

  /** n bytes were copied from one allocation to another, at least as many as both hold. */
  lemma CopiedHeap(m: Mem, m': Mem, w: Tiers, to: nat, from: nat, n: nat)
    requires to in w.live && from in w.live && BytesKept(m, m', w, to)
    requires Ideal.Min(w.live[from], w.live[to]) <= n
    requires forall x: nat {:trigger Peek(m', x)} :: to <= x < to + n ==> Peek(m', x) == Peek(m, x - to + from)
    ensures var s := Window(m', to, w.live[to]);
            HeapOf(m', w) == Ideal.With(HeapOf(m, w), to, s) && Ideal.Keeps(Cells(m, w.live)[from], s)
  {
    hide Closed;
    WrittenHeap(m, m', w, to);
    var k := Ideal.Min(w.live[from], w.live[to]);
    forall j | 0 <= j < k ensures Window(m', to, w.live[to])[j] == Window(m, from, w.live[from])[j] {
      assert Peek(m', to + j) == Peek(m, from + j);
    }
  }

  /** A small block, header and all its bytes, lies clear of every other allocation. */
  lemma BlockMissed(m: Mem, head: nat, w: Tiers, s: Small, p: nat, c: nat, a: nat)
    requires World(m, head, w, s) && p in w.live && IsCarved(s, c, a) && p != a + SMALL_HEADER_SIZE
    ensures Disjoint(p, w.live[p], a, Stride(c)) && Mapped(m, a, Stride(c))
  {
    hide PoolAt, Tier, Grown, Inv, Listed;
    assert InAPool(w.rs, p);
    var g :| 0 <= g < |w.rs| && w.rs[g].Has(p);
    LiveInside(m, head, w, s, g, p);
    assert Housed(w.rs, c, a);
    var h :| 0 <= h < |w.rs| && InPool(w.rs[h], c, a);
    assert Backed(m, w.rs[h]);
    if g != h {
      assert Clear(w.rs[g], w.rs[h]);
    } else {
      assert RegionOK(m, w.rs[g], w, s);
      var d := SmallPlace(w.rs, s, g, p, w.live[p]);
      SmallApart(w.rs, s, d, p - SMALL_HEADER_SIZE, c, a);
    }
  }

  /** So does a mapping of the direct tier. */
  lemma MappingMissed(m: Mem, head: nat, w: Tiers, s: Small, k: nat, from: nat, to: nat)
    requires World(m, head, w, s) && k < |w.rs| && w.rs[k].kind == DIRECT_KIND && w.rs[k].Has(from) && from in w.live
    requires to in w.live && to != from
    ensures Disjoint(to, w.live[to], w.rs[k].base, w.rs[k].size)
  {
    hide PoolAt, Tier, Grown, Inv, Geometry, RegionOK, Backed, Listed;
    DirectPlace(m, head, w, s, k);
    assert InAPool(w.rs, to);
    var g :| 0 <= g < |w.rs| && w.rs[g].Has(to);
    LiveInside(m, head, w, s, g, to);
    assert Clear(w.rs[g], w.rs[k]);
  }

  lemma LiveMapped(m: Mem, head: nat, w: Tiers, s: Small, p: nat)
    requires World(m, head, w, s) && p in w.live
    ensures Mapped(m, p, w.live[p]) && p + w.live[p] < U64
  {
    hide PoolAt, Tier, Grown, Inv, Geometry, RegionOK, Listed;
    assert InAPool(w.rs, p);
    var g :| 0 <= g < |w.rs| && w.rs[g].Has(p);
    LiveInside(m, head, w, s, g, p);
    assert Backed(m, w.rs[g]);
  }
}
