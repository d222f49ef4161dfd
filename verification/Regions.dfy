/** What operations inside one region of memory leave alone. */
module Regions {
  import opened Bytes
  import opened Layout
  import opened Machine
  import opened Registry

  /** The pool of region r kept its bytes, but for its link on the list of pools. */
  ghost predicate Kept(m: Mem, m': Mem, r: Region) {
    && r.size >= POOL_HEADER_SIZE
    && Mapped(m', r.base, r.size)
    && Same(m, m', r.base + POOL_HEADER_SIZE, r.size - POOL_HEADER_SIZE)
    && PoolAt(m', r.base) == PoolAt(m, r.base).(next := PoolAt(m', r.base).next)
  }

  /** A region was mapped at base and, since then, only that region was written. */
  ghost predicate Grew(m: Mem, m': Mem, base: nat, len: nat) {
    && (forall x: nat :: base <= x < base + len ==> x !in m && x in m')
    && (forall x: nat :: !(base <= x < base + len) ==> (x in m' <==> x in m) && Peek(m', x) == Peek(m, x))
  }

  lemma GrewClear(m: Mem, m': Mem, base: nat, len: nat, r: Region)
    requires Backed(m, r) && Grew(m, m', base, len) && len > 0
    ensures r.base + r.size <= base || base + len <= r.base
  {
    var x := if r.base < base then base else r.base;
    assert r.Has(x) ==> x in m;
    assert base <= x < base + len ==> x !in m;
  }

  lemma GrewKept(m: Mem, m': Mem, base: nat, len: nat, r: Region)
    requires Backed(m, r) && Grew(m, m', base, len) && len > 0
    ensures Kept(m, m', r) && Backed(m', r)
  {
    hide PoolAt;
    GrewClear(m, m', base, len, r);
    PoolSame(m, m', r.base);
  }

  lemma FromMap(m: Mem, m': Mem, base: nat, len: nat)
    requires MappedFrom(m, m', base, len)
    ensures Mapped(m', base, len) && Grew(m, m', base, len)
  {
  }

  lemma StillGrew(m: Mem, m1: Mem, m2: Mem, base: nat, len: nat, a: nat, n: nat)
    requires Grew(m, m1, base, len) && OnlyAt(m1, m2, a, n) && base <= a && a + n <= base + len
    ensures Grew(m, m2, base, len) && Mapped(m2, base, len)
  {
  }

  lemma PoolGrew(m: Mem, m': Mem, base: nat, len: nat, r: Region)
    requires Backed(m, r) && Grew(m, m', base, len) && len > 0
    ensures PoolAt(m', r.base) == PoolAt(m, r.base)
  {
    hide PoolAt;
    GrewClear(m, m', base, len, r);
    PoolSame(m, m', r.base);
  }

  lemma LinkWriteKept(m: Mem, m': Mem, r: Region)
    requires Backed(m, r) && Touches(m, m', r.base + NextPool.At().off, NextPool.At().width)
    requires PoolAt(m', r.base) == PoolAt(m, r.base).(next := PoolAt(m', r.base).next)
    ensures Kept(m, m', r) && Backed(m', r)
  {
    hide PoolAt, HeaderAt, LinksAt, CanaryAt;
  }

  /** A write inside region r leaves a region that is clear of it alone. */
  lemma OtherKept(m: Mem, m': Mem, r: Region, s: Region)
    requires Backed(m, r) && Backed(m, s) && Clear(r, s) && OnlyAt(m, m', r.base, r.size)
    ensures Kept(m, m', s) && Backed(m', s)
  {
    PoolSame(m, m', s.base);
  }

  /** The pools that are already listed do not notice a new region. */
  lemma RegisteredGrew(m: Mem, m': Mem, head: nat, rs: seq<Region>, base: nat, len: nat)
    requires Registered(m, head, rs) && Grew(m, m', base, len) && len > 0
    ensures Registered(m', head, rs)
    ensures forall g {:trigger rs[g]} :: 0 <= g < |rs| ==>
              Kept(m, m', rs[g]) && (base + len <= rs[g].base || rs[g].base + rs[g].size <= base)
  {
    hide PoolAt, Kept, Grew, Backed;
    forall g | 0 <= g < |rs|
      ensures Listed(m', rs, g) && Backed(m', rs[g]) && Kept(m, m', rs[g])
      ensures base + len <= rs[g].base || rs[g].base + rs[g].size <= base
    {
      assert Backed(m, rs[g]) && Listed(m, rs, g);
      GrewClear(m, m', base, len, rs[g]);
      GrewKept(m, m', base, len, rs[g]);
      PoolGrew(m, m', base, len, rs[g]);
    }
  }

  /** Writes behind the header of pool g leave the list and the other pools alone. */
  lemma RegisteredInside(m: Mem, m': Mem, head: nat, rs: seq<Region>, g: nat)
    requires Registered(m, head, rs) && g < |rs| && rs[g].size >= POOL_HEADER_SIZE
    requires OnlyAt(m, m', rs[g].base + POOL_HEADER_SIZE, rs[g].size - POOL_HEADER_SIZE)
    ensures Registered(m', head, rs)
    ensures PoolAt(m', rs[g].base) == PoolAt(m, rs[g].base)
    ensures forall h {:trigger rs[h]} :: 0 <= h < |rs| && h != g ==> Kept(m, m', rs[h])
  {
    hide PoolAt, Kept, Backed;
    PoolSame(m, m', rs[g].base);
    forall h | 0 <= h < |rs| ensures Listed(m', rs, h) && Backed(m', rs[h]) && (h != g ==> Kept(m, m', rs[h])) {
      assert Backed(m, rs[h]) && Listed(m, rs, h) && Backed(m, rs[g]);
      BackedKeys(m, m', rs[h]);
      if h != g {
        assert Clear(rs[g], rs[h]);
        OtherKept(m, m', rs[g], rs[h]);
        OtherPool(m, m', rs[g], rs[h]);
      }
    }
  }

  lemma OtherPool(m: Mem, m': Mem, r: Region, s: Region)
    requires Backed(m, s) && Clear(r, s) && OnlyAt(m, m', r.base, r.size)
    ensures PoolAt(m', s.base) == PoolAt(m, s.base)
  {
    PoolSame(m, m', s.base);
  }
}
