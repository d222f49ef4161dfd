/**
 * A client that makes any sequence of calls, from any threads, and keeps to the contract: it frees, resizes and writes
 * only what it was given. The allocator's history is then a run of the ideal heap, call by call.
 */
module Client {
  import opened Bytes
  import opened Layout
  import opened Machine
  import opened PoolModel
  import opened GeneralPool
  import opened GeneralOps
  import opened Registry
  import opened GeneralTier
  import opened PoolGrowth
  import opened SmallRep
  import opened SmallTier
  import opened ThreadCache
  import opened DirectTier
  import opened WorldModel
  import opened HeapView
  import opened Diagnostics
  import opened DamFacts
  import opened Calls
  import opened Dam
  import Ideal = IdealHeap

  datatype Call =
    | Malloc(t: nat, size: nat)
    | Calloc(t: nat, count: nat, size: nat)
    | Realloc(t: nat, ptr: nat, size: nat)
    | Free(t: nat, ptr: nat)
    | Write(ptr: nat, at: nat, data: byte)
    | Quarantine(ptr: nat)

  /** What the client may pass to free and realloc: NULL, an allocation, or a pointer that belongs to no pool. */
  ghost predicate Rightful(m: Moment, ptr: nat) {
    ptr == 0 || ptr in m.w.live || Foreign(m.w, ptr)
  }

  /** The client may make this call now. */
  ghost predicate Permitted(c: Call, m: Moment) {
    match c
    case Malloc(t, size) => m.Has(t) && size <= MAX_REQUEST && (0 < size <= DAM_SMALL_MAX ==> m.Usable(t))
    case Calloc(t, count, size) =>
      m.Has(t) && Product(count, size) <= MAX_REQUEST && (0 < Product(count, size) <= DAM_SMALL_MAX ==> m.Usable(t))
    case Realloc(t, ptr, size) =>
      m.Has(t) && size <= MAX_REQUEST && Rightful(m, ptr) && (ReadsCache(m.w, ptr, size) ==> m.Usable(t))
    case Free(t, ptr) => m.Has(t) && Rightful(m, ptr) && (InSmallPool(m.w, ptr) ==> m.Usable(t))
    case Write(ptr, at, data) => ptr in m.w.live && at < m.w.live[ptr]
    case Quarantine(ptr) => InTier(m.w, ptr, GENERAL_KIND)
  }

  /** The event is that of the call. */
  ghost predicate Answers(c: Call, e: Ideal.Event) {
    match c
    case Malloc(t, size) => e.Malloc? && e.size == size
    case Calloc(t, count, size) =>
      && e.Calloc? && e.count * e.size == Product(count, size)
      && (count * size < U64 ==> e.count == count && e.size == size)
    case Realloc(t, ptr, size) => e.Realloc? && e.from == ptr && e.size == size
    case Free(t, ptr) => e == Ideal.Free(ptr)
    case Write(ptr, at, data) => e == Ideal.Write(ptr, at, data)
    case Quarantine(ptr) => e.Quarantine? && e.pool.kind == GENERAL_KIND && e.pool.Has(ptr)
  }

  function BooksOf(m: Moment): Books {
    Books(m.w, m.s, m.cell, m.maps)
  }

  /** What the call did to the books is what it is meant to do, given the answers of mmap. */
  ghost predicate Booked(c: Call, m: Moment, e: Ideal.Event, m': Moment) {
    var b, b' := BooksOf(m), BooksOf(m');
    match c
    case Malloc(t, size) => e.Malloc? && m'.initialized && MallocCall(b, b', m.initialized, t, size, e.ptr)
    case Calloc(t, count, size) =>
      e.Calloc? && m'.initialized && MallocCall(b, b', m.initialized, t, Product(count, size), e.ptr)
    case Realloc(t, ptr, size) => e.Realloc? && ReallocCall(b, b', m.initialized, t, ptr, size, e.ptr)
    case Free(t, ptr) => FreedCall(b, b', t, ptr)
    case Write(ptr, at, data) => b' == b
    case Quarantine(ptr) =>
      e.Quarantine? && e.pool in m.w.rs && e.pool.base in m.w.ps
      && b' == b.(w := m.w.(ps := m.w.ps[e.pool.base := m.w.ps[e.pool.base].(readOnly := true)]))
  }

  /** The call c, made at the moment m if that is permitted, took the allocator to the moment m'. */
  ghost predicate Took(c: Call, m: Moment, e: Ideal.Event, m': Moment) {
    && (if Permitted(c, m) then Answers(c, e) && Booked(c, m, e, m') else e == Ideal.Idle && m' == m)
    && (m.initialized ==> m'.initialized)
    && Ideal.Next(m.Heap(), e, m'.Heap())
  }

  /** ms[k] is the moment before call k, es[k] what the call did. */
  ghost predicate Played(calls: seq<Call>, ms: seq<Moment>, es: seq<Ideal.Event>) {
    && |ms| == |calls| + 1 && |es| == |calls|
    && (forall k {:trigger ms[k]} :: 0 <= k < |ms| ==> ms[k].Sound())
    && (forall k {:trigger es[k]} :: 0 <= k < |es| ==> Took(calls[k], ms[k], es[k], ms[k + 1]))
  }

  ghost function Heaps(ms: seq<Moment>): (hs: seq<Ideal.Heap>)
    ensures |hs| == |ms| && forall k :: 0 <= k < |ms| ==> hs[k] == ms[k].Heap()
  {
    seq(|ms|, k requires 0 <= k < |ms| => ms[k].Heap())
  }

  /** What was played is a run, so all that holds of runs holds of these calls. */
  lemma PlayedRun(calls: seq<Call>, ms: seq<Moment>, es: seq<Ideal.Event>)
    requires Played(calls, ms, es)
    ensures Ideal.Run(Heaps(ms), es)
  {
    hide World, HeapOf, Ideal.Next, Permitted, Answers, Booked;
    SoundHeap(ms[0].mem, ms[0].head, ms[0].w, ms[0].s);
    forall k | 0 <= k < |es| ensures Ideal.Next(Heaps(ms)[k], es[k], Heaps(ms)[k + 1]) {
      assert Took(calls[k], ms[k], es[k], ms[k + 1]);
    }
  }

  /** The call frees, resizes or writes p. */
  predicate Names(c: Call, p: nat) {
    (c.Free? || c.Realloc? || c.Write?) && c.ptr == p
  }

  /** An allocation that none of the calls from j to k names is there after them, with every byte as it was. */
  lemma CallsKeep(calls: seq<Call>, ms: seq<Moment>, es: seq<Ideal.Event>, j: nat, k: nat, p: nat)
    requires Played(calls, ms, es) && j <= k < |ms| && p in ms[j].w.live
    requires forall i :: j <= i < k ==> !Names(calls[i], p)
    ensures p in ms[k].w.live && ms[k].w.live[p] == ms[j].w.live[p]
    ensures Window(ms[k].mem, p, ms[k].w.live[p]) == Window(ms[j].mem, p, ms[j].w.live[p])
  {
    hide World, Ideal.Next, Permitted, Booked, Ideal.Run, Window;
    PlayedRun(calls, ms, es);
    forall i | j <= i < k ensures !Ideal.Concerns(es[i], p) {
      assert Took(calls[i], ms[i], es[i], ms[i + 1]);
    }
    var hs := Heaps(ms);
    CellAt(ms[j].mem, ms[j].w, p);
    Ideal.ContentsSurvive(hs, es, j, k, p);
    CellOf(ms[k], p);
  }

  /**
   * After any calls, so after any chain of reallocs, the size of a direct allocation fits the recorded one and exceeds
   * 80 percent of it: slack does not accumulate.
   */
  lemma PlayedSlack(calls: seq<Call>, ms: seq<Moment>, es: seq<Ideal.Event>, k: nat, g: nat)
    requires Played(calls, ms, es) && k < |ms| && g < |ms[k].w.rs| && ms[k].w.rs[g].kind == DIRECT_KIND
    ensures DirectOK(ms[k].mem, ms[k].w.rs[g], ms[k].w.ds, ms[k].w.live)
  {
    hide World, DirectOK, Took;
    var m := ms[k];
    assert m.Sound();
    FactsAt(m.mem, m.head, m.w, m.s, g);
  }

  /** Call k is a direct malloc that got its mapping. */
  ghost predicate MapsOne(calls: seq<Call>, ms: seq<Moment>, es: seq<Ideal.Event>, k: nat)
    requires k < |calls| && |ms| == |calls| + 1 && |es| == |calls|
  {
    calls[k].Malloc? && calls[k].size > DAM_GENERAL_MAX && Permitted(calls[k], ms[k]) && es[k].Malloc? && es[k].ptr != 0
  }

  /** Each of i such calls in a row lengthens the list of pools by one, and the general pools stay as they are. */
  lemma {:induction false} MappingsAdd(calls: seq<Call>, ms: seq<Moment>, es: seq<Ideal.Event>, j: nat, i: nat, n: nat)
    requires Played(calls, ms, es) && j + i <= |calls| && ms[j].initialized
    requires forall k {:trigger MapsOne(calls, ms, es, k)} :: j <= k < j + i ==> MapsOne(calls, ms, es, k)
    ensures ms[j + i].initialized && |ms[j + i].w.rs| == |ms[j].w.rs| + i
    ensures NoneOffers(ms[j + i].w, n) <==> NoneOffers(ms[j].w, n)
    ensures Generals(ms[j + i].w.rs) == Generals(ms[j].w.rs)
  {
    hide World, NoneOffers, Ideal.Next, Permitted, MallocCall;
    if i > 0 {
      MappingsAdd(calls, ms, es, j, i - 1, n);
      var k := j + i - 1;
      assert MapsOne(calls, ms, es, k) && Took(calls[k], ms[k], es[k], ms[k + 1]);
      CalledNow(BooksOf(ms[k]), BooksOf(ms[k + 1]), calls[k].t, calls[k].size, es[k].ptr);
      MappingAdded(BooksOf(ms[k]), BooksOf(ms[k + 1]), calls[k].t, calls[k].size, es[k].ptr);
      MappingOffersNothing(ms[k].w, ms[k + 1].w, n);
    }
  }

  /**
   * Direct allocations fill the list of pools, nineteen beside the initial pool or twenty without it. After that a
   * general malloc is refused as soon as the general pools that there are offer no block: none is added to them.
   */
  lemma MappingsFill(calls: seq<Call>, ms: seq<Moment>, es: seq<Ideal.Event>, j: nat, i: nat)
    requires Played(calls, ms, es) && j + i < |calls| && ms[j].initialized && |ms[j].w.rs| + i >= MAX_POOLS
    requires forall k {:trigger MapsOne(calls, ms, es, k)} :: j <= k < j + i ==> MapsOne(calls, ms, es, k)
    requires calls[j + i].Malloc? && DAM_SMALL_MAX < calls[j + i].size <= DAM_GENERAL_MAX
             && Permitted(calls[j + i], ms[j + i])
    requires NoneOffers(ms[j].w, calls[j + i].size)
    ensures es[j + i] == Ideal.Malloc(calls[j + i].size, 0)
  {
    hide World, NoneOffers, Ideal.Next, Permitted, MallocCall;
    MappingsAdd(calls, ms, es, j, i, calls[j + i].size);
    assert Took(calls[j + i], ms[j + i], es[j + i], ms[j + i + 1]);
    CalledNow(BooksOf(ms[j + i]), BooksOf(ms[j + i + 1]), calls[j + i].t, calls[j + i].size, es[j + i].ptr);
  }

  lemma CellOf(m: Moment, p: nat)
    requires p in m.Heap().cells
    ensures p in m.w.live && m.Heap().cells[p] == Window(m.mem, p, m.w.live[p]) && |m.Heap().cells[p]| == m.w.live[p]
  {
  }

  // ----- deciding whether a call is permitted

  /** The kind of the pool of an address, 0 if it belongs to none. */
  method OwnerKind(d: Dam, ptr: nat) returns (kind: nat, pool: nat, ghost g: nat)
    requires d.Valid()
    ensures kind == 0 <==> Foreign(d.w, ptr)
    ensures kind != 0 ==>
              g < |d.w.rs| && d.w.rs[g].Has(ptr) && kind == d.w.rs[g].kind && pool == d.w.rs[g].base && d.Running()
    ensures kind == SMALL_KIND <==> InSmallPool(d.w, ptr)
    ensures kind == GENERAL_KIND <==> InTier(d.w, ptr, GENERAL_KIND)
  {
    hide Dam.Running, World;
    d.PoolList();
    pool, g := PoolFromPtr(d.ram, d.poolList, ptr, d.w.rs);
    kind := 0;
    if pool != 0 {
      d.KindOf(ptr, g);
      assert d.w.rs[g] in d.w.rs;
      var own := d.ram.ReadPool(pool);
      kind := own.kind;
    }
  }

  /** Whether a realloc of ptr reads the cache of its thread. */
  method TestCache(d: Dam, ptr: nat, size: nat) returns (b: bool)
    requires d.Valid() && size <= MAX_REQUEST && (ptr == 0 || ptr in d.w.live || Foreign(d.w, ptr))
    ensures b <==> ReadsCache(d.w, ptr, size)
  {
    hide Dam.Running, World, InTier, StaysInPlace, Foreign;
    if ptr == 0 {
      return 0 < size <= DAM_SMALL_MAX;
    }
    var kind, pool;
    ghost var g;
    kind, pool, g := OwnerKind(d, ptr);
    if size == 0 || kind == SMALL_KIND {
      return kind == SMALL_KIND && (size == 0 || size > DAM_SMALL_MAX);
    }
    if kind == 0 {
      d.NotThere(ptr);
      return false;
    }
    if size > DAM_SMALL_MAX {
      return false;
    }
    if kind == GENERAL_KIND {
      var stays := TestInPlace(d, ptr, size, g);
      return !stays;
    }
    d.StaysGeneral(ptr, size, g);
    return true;
  }

  method TestInPlace(d: Dam, ptr: nat, size: nat, ghost g: nat) returns (b: bool)
    requires d.Running() && g < |d.w.rs| && d.w.rs[g].kind == GENERAL_KIND && d.w.rs[g].Has(ptr) && ptr in d.w.live
    requires size <= MAX_REQUEST
    ensures b <==> StaysInPlace(d.w, ptr, size)
  {
    hide World, StaysInPlace, Image, InPlace, SmallTier.Ordered;
    ghost var i := BlockOf(d.ram.mem, d.poolList, d.w, d.small.s, g, ptr);
    b := FitsInBlock(d.ram, ptr - HEADER_SIZE, size, d.w.ps[d.w.rs[g].base], i);
    NotInPlace(d.ram.mem, d.poolList, d.w, d.small.s, g, i, ptr, size, b);
  }

  /** The client finds out whether it may make the call. */
  method May(d: Dam, c: Call, mine: map<nat, nat>) returns (b: bool)
    requires d.Valid() && mine == Sizes(d.Heap())
    ensures b <==> Permitted(c, d.Now())
  {
    hide Dam.Valid, Dam.Heap, Sizes, InTier, ReadsCache, Foreign;
    var cell := d.small.cell;
    match c {
      case Malloc(t, size) =>
        return t < |cell| && size <= MAX_REQUEST && (0 < size <= DAM_SMALL_MAX ==> cell[t] != MapFailed);
      case Calloc(t, count, size) =>
        var n := Product(count, size);
        return t < |cell| && n <= MAX_REQUEST && (0 < n <= DAM_SMALL_MAX ==> cell[t] != MapFailed);
      case Realloc(t, ptr, size) =>
        Owned(d, ptr);
        var kind, pool;
        ghost var g;
        kind, pool, g := OwnerKind(d, ptr);
        if !(t < |cell| && size <= MAX_REQUEST && (ptr == 0 || ptr in mine || kind == 0)) {
          return false;
        }
        var needs := TestCache(d, ptr, size);
        return needs ==> cell[t] != MapFailed;
      case Free(t, ptr) =>
        Owned(d, ptr);
        var kind, pool;
        ghost var g;
        kind, pool, g := OwnerKind(d, ptr);
        return t < |cell| && (ptr == 0 || ptr in mine || kind == 0) && (kind == SMALL_KIND ==> cell[t] != MapFailed);
      case Write(ptr, at, data) =>
        Owned(d, ptr);
        return ptr in mine && at < mine[ptr];
      case Quarantine(ptr) =>
        var kind, pool;
        ghost var g;
        kind, pool, g := OwnerKind(d, ptr);
        return kind == GENERAL_KIND;
    }
  }

  // ----- what the client remembers: its allocations and their sizes

  function Sizes(h: Ideal.Heap): map<nat, nat> {
    map p | p in h.cells :: |h.cells[p]|
  }

  lemma SizesWith(h: Ideal.Heap, p: nat, s: seq<byte>)
    ensures Sizes(Ideal.With(h, p, s)) == Sizes(h)[p := |s|]
  {
  }

  lemma SizesLess(h: Ideal.Heap, p: nat)
    ensures Sizes(Ideal.Less(h, p)) == Sizes(h) - {p}
  {
  }

  /** The client's memory after its call was answered. */
  function Remembered(mine: map<nat, nat>, e: Ideal.Event): map<nat, nat> {
    match e
    case Malloc(n, p) => if p == 0 then mine else mine[p := n]
    case Calloc(k, n, p) => if p == 0 then mine else mine[p := k * n]
    case Realloc(from, n, p) =>
      if n == 0 then mine - {from}
      else if p == 0 then mine
      else (mine - {from})[p := n]
    case Free(from) => mine - {from}
    case Write(from, at, data) => mine
    case Quarantine(pool) => mine
    case Idle => mine
  }

  lemma SizesMore(h: Ideal.Heap, n: nat, p: nat, h': Ideal.Heap)
    requires Ideal.Allocates(h, n, p, h')
    ensures Sizes(h') == Sizes(h)[p := n]
  {
    hide Sizes, Ideal.Room;
    SizesWith(h, p, h'.cells[p]);
  }

  /** What the client remembers is right. */
  lemma RemembersRight(h: Ideal.Heap, e: Ideal.Event, h': Ideal.Heap)
    requires Ideal.Sound(h) && Ideal.Next(h, e, h')
    ensures Sizes(h') == Remembered(Sizes(h), e)
  {
    hide Ideal.Sound, Ideal.Allocates, Ideal.Keeps;
    match e
    case Malloc(n, p) => if p != 0 { SizesMore(h, n, p, h'); }
    case Calloc(k, n, p) => if p != 0 { SizesMore(h, k * n, p, h'); }
    case Realloc(from, n, p) => RemembersRealloc(h, from, n, p, h');
    case Free(from) => SizesLess(h, from);
    case Write(from, at, data) => SizesWith(h, from, h.cells[from][at := data]);
    case Quarantine(pool) =>
    case Idle =>
  }

  lemma RemembersRealloc(h: Ideal.Heap, from: nat, n: nat, p: nat, h': Ideal.Heap)
    requires Ideal.Sound(h) && Ideal.Next(h, Ideal.Realloc(from, n, p), h')
    ensures Sizes(h') == Remembered(Sizes(h), Ideal.Realloc(from, n, p))
  {
    hide Sizes, Ideal.Keeps;
    SizesLess(h, from);
    NoNull(h);
    if p != 0 && from == 0 {
      SizesMore(h, n, p, h');
    } else if p != 0 {
      SizesMore(Ideal.Less(h, from), n, p, h');
    }
  }

  lemma NoNull(h: Ideal.Heap)
    requires Ideal.Sound(h)
    ensures Sizes(h) - {0} == Sizes(h)
  {
  }

  lemma Owned(d: Dam, p: nat)
    ensures p in Sizes(d.Heap()) <==> p in d.w.live
    ensures p in d.w.live ==> Sizes(d.Heap())[p] == d.w.live[p]
  {
    d.InHeap(p);
  }

  // ----- playing

  /** A call is made exactly when it is permitted. */
  method Perform(d: Dam, c: Call, mine: map<nat, nat>) returns (mine': map<nat, nat>, ghost e: Ideal.Event)
    requires d.Valid() && mine == Sizes(d.Heap())
    modifies d, d.ram, d.small
    ensures d.Valid() && mine' == Sizes(d.Heap())
    ensures Took(c, old(d.Now()), e, d.Now())
  {
    hide Dam.Valid, Ideal.Next, Ideal.Sound, Sizes, Permitted, HeapOf, Booked;
    d.SoundState();
    ghost var m := d.Now();
    var may := May(d, c, mine);
    if may {
      mine', e := Make(d, c, mine);
    } else {
      mine', e := mine, Ideal.Idle;
      IdleNext(d.Heap());
    }
  }

  lemma IdleNext(h: Ideal.Heap)
    ensures Ideal.Next(h, Ideal.Idle, h)
  {
  }

  /** The call itself. */
  method Make(d: Dam, c: Call, mine: map<nat, nat>) returns (mine': map<nat, nat>, ghost e: Ideal.Event)
    requires d.Valid() && mine == Sizes(d.Heap()) && Permitted(c, d.Now())
    modifies d, d.ram, d.small
    ensures d.Valid() && mine' == Sizes(d.Heap())
    ensures Answers(c, e) && Booked(c, old(d.Now()), e, d.Now()) && Ideal.Next(old(d.Heap()), e, d.Heap())
    ensures old(d.initialized) ==> d.initialized
  {
    hide Dam.Valid, Dam.Heap, Ideal.Next, Ideal.Sound, Sizes, InTier, Foreign, Product, StaysInPlace, MallocCall,
         ReallocCall, FreedCall;
    d.SoundState();
    ghost var h := d.Heap();
    match c {
      case Malloc(t, size) =>
        var p := d.Malloc(t, size);
        e, mine' := Ideal.Malloc(size, p), Remembered(mine, Ideal.Malloc(size, p));
      case Calloc(t, count, size) =>
        ProductFits(count, size);
        var p := d.Calloc(t, count, size);
        if count * size < U64 {
          e, mine' := Ideal.Calloc(count, size, p), Remembered(mine, Ideal.Calloc(count, size, p));
        } else {
          e, mine' := Ideal.Calloc(1, Product(count, size), p),
              Remembered(mine, Ideal.Calloc(1, Product(count, size), p));
        }
      case Realloc(t, ptr, size) =>
        var p, strayed := d.Realloc(t, ptr, size);
        e, mine' := Ideal.Realloc(ptr, size, p), Remembered(mine, Ideal.Realloc(ptr, size, p));
      case Free(t, ptr) =>
        d.Free(t, ptr);
        e, mine' := Ideal.Free(ptr), Remembered(mine, Ideal.Free(ptr));
      case Write(ptr, at, data) =>
        d.Write(ptr, at, data);
        e, mine' := Ideal.Write(ptr, at, data), mine;
      case Quarantine(ptr) =>
        mine' := mine;
        e := QuarantineOwner(d, ptr);
    }
    RemembersRight(h, e, d.Heap());
  }

  /** The general pool of an address is put in quarantine. */
  method QuarantineOwner(d: Dam, ptr: nat) returns (ghost e: Ideal.Event)
    requires d.Valid() && InTier(d.w, ptr, GENERAL_KIND)
    modifies d`w, d.ram`mem
    ensures d.Valid() && Ideal.Next(old(d.Heap()), e, d.Heap())
    ensures e.Quarantine? && e.pool.kind == GENERAL_KIND && e.pool.Has(ptr)
    ensures e.pool in old(d.w).rs && e.pool.base in old(d.w).ps
    ensures d.w == old(d.w).(ps := old(d.w).ps[e.pool.base := old(d.w).ps[e.pool.base].(readOnly := true)])
  {
    hide Dam.Running, Dam.Heap, Ideal.Next, InTier, Foreign;
    var kind, pool;
    ghost var g;
    kind, pool, g := OwnerKind(d, ptr);
    e := Ideal.Quarantine(d.w.rs[g]);
    d.Quarantine(pool, g);
  }

  lemma PlayedMore(calls: seq<Call>, n: nat, ms: seq<Moment>, es: seq<Ideal.Event>, e: Ideal.Event, m: Moment)
    requires n < |calls| && Played(calls[..n], ms, es) && Took(calls[n], ms[n], e, m) && m.Sound()
    ensures Played(calls[..n + 1], ms + [m], es + [e])
  {
    hide Took, World;
    var ms', es' := ms + [m], es + [e];
    forall k | 0 <= k < |es'| ensures Took(calls[..n + 1][k], ms'[k], es'[k], ms'[k + 1]) {
      assert k < n ==> Took(calls[..n][k], ms[k], es[k], ms[k + 1]);
    }
    forall k | 0 <= k < |ms'| ensures ms'[k].Sound() {
      assert k < |ms| ==> ms[k].Sound();
    }
  }

  /**
   * Any calls at all: each of them, in order, is the step that was asked for, or no step where it was not permitted.
   * With PlayedRun, contents survive, quarantine drains and allocations never overlap.
   */
  method Play(d: Dam, calls: seq<Call>) returns (mine: map<nat, nat>, ghost ms: seq<Moment>, ghost es: seq<Ideal.Event>)
    requires d.Valid() && d.Heap().cells == map[]
    modifies d, d.ram, d.small
    ensures d.Valid() && mine == Sizes(d.Heap())
    ensures Played(calls, ms, es) && ms[0] == old(d.Now()) && ms[|calls|] == d.Now()
  {
    hide Dam.Valid, Dam.Heap, Took, World;
    mine, ms, es := map[], [d.Now()], [];
    d.NowSound();
    for i := 0 to |calls|
      invariant d.Valid() && mine == Sizes(d.Heap())
      invariant Played(calls[..i], ms, es) && ms[0] == old(d.Now()) && ms[i] == d.Now()
    {
      ghost var e;
      mine, e := Perform(d, calls[i], mine);
      d.NowSound();
      PlayedMore(calls, i, ms, es, e, d.Now());
      ms, es := ms + [d.Now()], es + [e];
    }
    assert calls[..|calls|] == calls;
  }
}
