/** The global list of pools: registration, removal and the lookup of the pool that an address belongs to. */
module Registry {
  import opened Bytes
  import opened Layout
  import opened Machine
  import opened FreeList

  datatype Region = Region(base: nat, size: nat, kind: nat) {
    predicate Has(x: nat) {
      base <= x < base + size
    }
  }

  ghost predicate Clear(r: Region, s: Region) {
    r.base + r.size <= s.base || s.base + s.size <= r.base
  }

  ghost predicate Separate(rs: seq<Region>) {
    forall g, h {:trigger Clear(rs[g], rs[h])} :: 0 <= g < |rs| && 0 <= h < |rs| && g != h ==> Clear(rs[g], rs[h])
  }

  ghost predicate Backed(m: Mem, r: Region) {
    && 0 < r.base && r.base % ALIGNMENT == 0 && POOL_HEADER_SIZE <= r.size && r.size % ALIGNMENT == 0
       && r.base + r.size < U64
    && Mapped(m, r.base, r.size)
  }

  function BaseAt(rs: seq<Region>, g: nat): nat {
    if g < |rs| then rs[g].base else 0
  }

  /** The header of pool g: where it is, what it is and which pool comes next. */
  ghost predicate Listed(m: Mem, rs: seq<Region>, g: nat)
    requires g < |rs|
  {
    var h := PoolAt(m, rs[g].base);
    h.memory == rs[g].base && h.size == rs[g].size && h.kind == rs[g].kind && h.next == BaseAt(rs, g + 1)
  }

  /** dam_pool_list is head and holds exactly the pools rs, newest first; they are mapped and do not overlap. */
  ghost predicate Registered(m: Mem, head: nat, rs: seq<Region>) {
    && head == BaseAt(rs, 0)
    && Separate(rs)
    && (forall g {:trigger Backed(m, rs[g])} :: 0 <= g < |rs| ==> Backed(m, rs[g]))
    && (forall g {:trigger Listed(m, rs, g)} :: 0 <= g < |rs| ==> Listed(m, rs, g))
  }

  /** At most one pool holds an address, so the order of registration does not matter to a lookup. */
  lemma OwnerUnique(rs: seq<Region>, g: nat, h: nat, x: nat)
    requires Separate(rs) && g < |rs| && h < |rs| && rs[g].Has(x) && rs[h].Has(x)
    ensures g == h
  {
    assert g != h ==> Clear(rs[g], rs[h]);
  }

  /** The newest pool that holds x, or NULL. */
  function Lookup(rs: seq<Region>, x: nat): nat {
    if rs == [] then 0 else if rs[0].Has(x) then rs[0].base else Lookup(rs[1..], x)
  }

  lemma {:induction false} LookupAt(rs: seq<Region>, g: nat, x: nat)
    requires g < |rs| && rs[g].Has(x) && forall h {:trigger rs[h]} :: 0 <= h < |rs| && rs[h].Has(x) ==> h == g
    ensures Lookup(rs, x) == rs[g].base
  {
    if g > 0 {
      assert rs[g].Has(x) && !rs[0].Has(x);
      forall h | 0 <= h < |rs[1..]| && rs[1..][h].Has(x) ensures h == g - 1 {
        assert rs[h + 1].Has(x);
      }
      LookupAt(rs[1..], g - 1, x);
    }
  }

  lemma {:induction false} LookupNone(rs: seq<Region>, x: nat)
    requires forall h {:trigger rs[h]} :: 0 <= h < |rs| ==> !rs[h].Has(x)
    ensures Lookup(rs, x) == 0
  {
    if rs != [] {
      LookupNone(rs[1..], x);
    }
  }

  /**
   * As long as its own pool is listed, an address is looked up to that pool: whatever other pools are registered or
   * removed, and in whatever order.
   */
  lemma LookupStable(rs: seq<Region>, rs': seq<Region>, r: Region, x: nat)
    requires Separate(rs) && Separate(rs') && r in rs && r in rs' && r.Has(x)
    ensures Lookup(rs, x) == Lookup(rs', x) == r.base
  {
    var g :| 0 <= g < |rs| && rs[g] == r;
    var g' :| 0 <= g' < |rs'| && rs'[g'] == r;
    forall h | 0 <= h < |rs| && rs[h].Has(x) ensures h == g {
      OwnerUnique(rs, g, h, x);
    }
    forall h | 0 <= h < |rs'| && rs'[h].Has(x) ensures h == g' {
      OwnerUnique(rs', g', h, x);
    }
    LookupAt(rs, g, x);
    LookupAt(rs', g', x);
  }

  method PoolFromPtr(ram: Ram, head: nat, ptr: nat, ghost rs: seq<Region>) returns (pool: nat, ghost g: nat)
    requires Registered(ram.mem, head, rs)
    ensures pool == Lookup(rs, ptr)
    ensures pool == 0 ==> forall h :: 0 <= h < |rs| ==> !rs[h].Has(ptr)
    ensures pool != 0 ==> g < |rs| && pool == rs[g].base && rs[g].Has(ptr)
    ensures pool != 0 ==> forall h :: 0 <= h < |rs| && rs[h].Has(ptr) ==> h == g
  {
    hide PoolAt, Mapped;
    pool, g := head, 0;
    assert |rs| > 0 ==> Backed(ram.mem, rs[0]);
    while pool != 0
      invariant g <= |rs| && pool == BaseAt(rs, g) && (pool == 0 ==> g == |rs|)
      invariant forall h :: 0 <= h < g ==> !rs[h].Has(ptr)
      decreases |rs| - g
    {
      assert Backed(ram.mem, rs[g]) && Listed(ram.mem, rs, g);
      HeaderBacked(ram.mem, rs[g]);
      var own := ram.ReadPool(pool);
      if ptr >= own.memory && ptr < own.memory + own.size {
        forall h | 0 <= h < |rs| && rs[h].Has(ptr) ensures h == g {
          OwnerUnique(rs, g, h, ptr);
        }
        LookupAt(rs, g, ptr);
        return;
      }
      pool, g := own.next, g + 1;
      assert g < |rs| ==> Backed(ram.mem, rs[g]);
    }
    LookupNone(rs, ptr);
  }

  lemma HeaderBacked(m: Mem, r: Region)
    requires Backed(m, r)
    ensures Mapped(m, r.base, POOL_HEADER_SIZE) && 0 < r.base < U64 && POOL_HEADER_SIZE <= r.size
  {
  }

  method RegisterPool(ram: Ram, head: nat, pool: nat, ghost rs: seq<Region>, ghost r: Region) returns (head': nat)
    requires Registered(ram.mem, head, rs)
    requires Backed(ram.mem, r) && r.base == pool
    requires forall g {:trigger rs[g]} :: 0 <= g < |rs| ==> Clear(r, rs[g])
    requires var h := PoolAt(ram.mem, pool); h.memory == r.base && h.size == r.size && h.kind == r.kind
    modifies ram`mem
    ensures head' == pool && Registered(ram.mem, head', [r] + rs)
    ensures Touches(old(ram.mem), ram.mem, pool + NextPool.At().off, NextPool.At().width)
    ensures PoolAt(ram.mem, pool) == PoolAt(old(ram.mem), pool).(next := head)
  {
    hide PoolAt, HeaderAt, LinksAt, CanaryAt, OnlyAt, Limit, Mapped, Backed;
    Limits();
    if |rs| > 0 {
      assert Backed(ram.mem, rs[0]);
      HeaderBacked(ram.mem, rs[0]);
    }
    HeaderBacked(ram.mem, r);
    ram.SetPool(pool, NextPool, head);
    head' := pool;
    ghost var rs' := [r] + rs;
    forall g | 0 <= g < |rs'| ensures Listed(ram.mem, rs', g) && Backed(ram.mem, rs'[g]) {
      if g > 0 {
        assert rs'[g] == rs[g - 1] && Listed(old(ram.mem), rs, g - 1) && Backed(old(ram.mem), rs[g - 1]);
        assert BaseAt(rs', g + 1) == BaseAt(rs, g);
        BackedKeys(old(ram.mem), ram.mem, rs[g - 1]);
        HeaderBacked(ram.mem, rs[g - 1]);
        assert Clear(r, rs[g - 1]);
      } else {
        BackedKeys(old(ram.mem), ram.mem, r);
      }
    }
    forall g, h | 0 <= g < |rs'| && 0 <= h < |rs'| && g != h ensures Clear(rs'[g], rs'[h]) {
      assert g > 0 && h > 0 ==> Clear(rs[g - 1], rs[h - 1]);
    }
  }

  lemma BackedKeys(m: Mem, m': Mem, r: Region)
    requires Backed(m, r) && m'.Keys == m.Keys
    ensures Backed(m', r)
  {
  }

  /**
   * Only the link of the pool in front of the removed one is rewritten; k == |rs| stands for a pool that is not
   * listed.
   */
  method UnregisterPool(ram: Ram, head: nat, pool: nat, ghost rs: seq<Region>, ghost k: nat) returns (head': nat)
    requires Registered(ram.mem, head, rs)
    requires k <= |rs| && (k < |rs| ==> rs[k].base == pool) && (k == |rs| ==> forall r :: r in rs ==> r.base != pool)
    modifies ram`mem
    ensures k == |rs| ==> head' == head
    ensures k < |rs| ==> Registered(ram.mem, head', Without(rs, k))
    ensures k == 0 || k == |rs| ==> ram.mem == old(ram.mem)
    ensures 0 < k < |rs| ==> Touches(old(ram.mem), ram.mem, rs[k - 1].base + NextPool.At().off, NextPool.At().width)
    ensures 0 < k < |rs| ==> (PoolAt(ram.mem, rs[k - 1].base) ==
                              PoolAt(old(ram.mem), rs[k - 1].base).(next := PoolAt(ram.mem, rs[k - 1].base).next))
  {
    hide PoolAt, HeaderAt, LinksAt, CanaryAt, OnlyAt, Limit, Mapped, Without, Touches;
    var before, current := 0, head;
    ghost var g := 0;
    assert |rs| > 0 ==> Backed(ram.mem, rs[0]);
    while current != 0
      invariant ram.mem == old(ram.mem)
      invariant g <= |rs| && current == BaseAt(rs, g) && (current == 0 ==> g == |rs|) && g <= k
      invariant before == (if g == 0 then 0 else rs[g - 1].base)
      decreases |rs| - g
    {
      assert Backed(ram.mem, rs[g]) && Listed(ram.mem, rs, g) && rs[g] in rs;
      HeaderBacked(ram.mem, rs[g]);
      var own := ram.ReadPool(current);
      if current == pool {
        DistinctBases(ram.mem, rs, g, k);
        head' := Relink(ram, head, before, own.next, rs, k);
        return;
      }
      before, current, g := current, own.next, g + 1;
      assert g < |rs| ==> Backed(ram.mem, rs[g]);
    }
    head' := head;
  }

  /** The link that leads to pool k, dam_pool_list itself or the next of the pool before, skips it. */
  method Relink(ram: Ram, head: nat, before: nat, next: nat, ghost rs: seq<Region>, ghost k: nat) returns (head': nat)
    requires Registered(ram.mem, head, rs) && k < |rs|
    requires before == (if k == 0 then 0 else rs[k - 1].base) && next == BaseAt(rs, k + 1)
    modifies ram`mem
    ensures Registered(ram.mem, head', Without(rs, k))
    ensures k == 0 ==> ram.mem == old(ram.mem)
    ensures k > 0 ==> Touches(old(ram.mem), ram.mem, rs[k - 1].base + NextPool.At().off, NextPool.At().width)
    ensures k > 0 ==> (PoolAt(ram.mem, rs[k - 1].base) ==
                       PoolAt(old(ram.mem), rs[k - 1].base).(next := PoolAt(ram.mem, rs[k - 1].base).next))
  {
    hide PoolAt, HeaderAt, LinksAt, CanaryAt, OnlyAt, Limit, Mapped, Without;
    Limits();
    assert k > 0 ==> Backed(ram.mem, rs[k - 1]);
    if before == 0 {
      head' := next;
    } else {
      assert k + 1 < |rs| ==> Backed(ram.mem, rs[k + 1]);
      HeaderBacked(ram.mem, rs[k - 1]);
      ram.SetPool(before, NextPool, next);
      head' := head;
      forall g | 0 <= g < |rs| && g != k - 1 ensures PoolAt(ram.mem, rs[g].base) == PoolAt(old(ram.mem), rs[g].base) {
        assert Clear(rs[g], rs[k - 1]) && Backed(old(ram.mem), rs[g]);
      }
    }
    NextOf(old(ram.mem), head, rs, k);
    Unlisted(old(ram.mem), ram.mem, head, head', rs, k);
  }

  lemma NextOf(m: Mem, head: nat, rs: seq<Region>, k: nat)
    requires Registered(m, head, rs) && k < |rs|
    ensures PoolAt(m, rs[k].base).next == BaseAt(rs, k + 1)
  {
    hide PoolAt, Backed;
    assert Listed(m, rs, k);
  }

  lemma Unlisted(m: Mem, m': Mem, head: nat, head': nat, rs: seq<Region>, k: nat)
    requires Registered(m, head, rs) && k < |rs| && m'.Keys == m.Keys
    requires head' == (if k == 0 then BaseAt(rs, 1) else head)
    requires forall g {:trigger PoolAt(m', rs[g].base)} :: 0 <= g < |rs| && g != k ==>
               PoolAt(m', rs[g].base) ==
               PoolAt(m, rs[g].base).(next := if g == k - 1 then BaseAt(rs, k + 1) else PoolAt(m, rs[g].base).next)
    ensures Registered(m', head', Without(rs, k))
  {
    hide PoolAt, Mapped;
    var rs' := Without(rs, k);
    WithoutRegions(rs, k);
    forall j | 0 <= j < |rs'| ensures Listed(m', rs', j) && Backed(m', rs'[j]) {
      var g := Shift(j, k);
      assert rs'[j] == rs[g] && Listed(m, rs, g) && Backed(m, rs[g]);
      assert j + 1 < |rs'| ==> rs'[j + 1] == rs[Shift(j + 1, k)];
      BackedKeys(m, m', rs[g]);
    }
    assert |rs'| > 0 ==> rs'[0] == rs[Shift(0, k)];
  }

  lemma WithoutRegions(rs: seq<Region>, k: nat)
    requires k < |rs|
    ensures |Without(rs, k)| == |rs| - 1
    ensures forall j {:trigger Without(rs, k)[j]} :: 0 <= j < |rs| - 1 ==> Without(rs, k)[j] == rs[Shift(j, k)]
    ensures Separate(rs) ==> Separate(Without(rs, k))
  {
  }

  lemma DistinctBases(m: Mem, rs: seq<Region>, g: nat, h: nat)
    requires Separate(rs) && g < |rs| && h < |rs| && Backed(m, rs[g]) && Backed(m, rs[h]) && rs[g].base == rs[h].base
    ensures g == h
  {
    OwnerUnique(rs, g, h, rs[g].base);
  }
}
