/**
 * How the general pools grow over a run. General pools are never unregistered, so their order is that of their
 * creation.
 */
module PoolGrowth {
  import opened Layout
  import opened FreeList
  import opened Registry
  import opened PoolModel
  import opened GeneralTier

  /** The number of general pools in a list of pools. */
  function Generals(rs: seq<Region>): nat {
    if rs == [] then 0 else (if rs[0].kind == GENERAL_KIND then 1 else 0) + Generals(rs[1..])
  }

  function Pow2(n: nat): nat {
    if n == 0 then 1 else 2 * Pow2(n - 1)
  }

  /**
   * Every general pool is at least 2 MiB and twice as large as any older one, and there are at most MAX_POOLS of them.
   */
  ghost predicate Grown(rs: seq<Region>) {
    && Generals(rs) <= MAX_POOLS
    && (forall g {:trigger rs[g]} :: 0 <= g < |rs| && rs[g].kind == GENERAL_KIND ==> rs[g].size >= 2 * MIB)
    && (forall g, h {:trigger rs[g], rs[h]} ::
          0 <= g < h < |rs| && rs[g].kind == GENERAL_KIND && rs[h].kind == GENERAL_KIND ==>
            rs[g].size >= 2 * rs[h].size)
  }

  lemma {:induction false} GeneralsAppend(xs: seq<Region>, ys: seq<Region>)
    ensures Generals(xs + ys) == Generals(xs) + Generals(ys)
  {
    if xs == [] {
      assert xs + ys == ys;
    } else {
      assert (xs + ys)[1..] == xs[1..] + ys;
      GeneralsAppend(xs[1..], ys);
    }
  }

  lemma {:induction false} GeneralsBound(rs: seq<Region>)
    ensures Generals(rs) <= |rs|
  {
    if rs != [] {
      GeneralsBound(rs[1..]);
    }
  }

  /** create_general_pool: below MAX_POOLS pools of any kind, and twice the size of each of them. */
  lemma GrownByGeneral(rs: seq<Region>, r: Region)
    requires Grown(rs) && |rs| < MAX_POOLS && r.kind == GENERAL_KIND && r.size >= 2 * MIB
    requires forall g :: 0 <= g < |rs| ==> r.size >= 2 * rs[g].size
    ensures Grown([r] + rs)
  {
    GeneralsBound(rs);
    GeneralsAppend([r], rs);
    assert Generals([r]) == 1 by {
      assert [r][1..] == [];
    }
  }

  /** Pools of the other tiers may come and go. */
  lemma GrownByOther(rs: seq<Region>, r: Region)
    requires Grown(rs) && r.kind != GENERAL_KIND
    ensures Grown([r] + rs)
  {
    GeneralsAppend([r], rs);
    assert Generals([r]) == 0 by {
      assert [r][1..] == [];
    }
  }

  lemma GrownWithout(rs: seq<Region>, k: nat)
    requires Grown(rs) && k < |rs| && rs[k].kind != GENERAL_KIND
    ensures Grown(Without(rs, k))
  {
    hide Without;
    GeneralsWithout(rs, k);
    WithoutRegions(rs, k);
    var rs' := Without(rs, k);
    forall g | 0 <= g < |rs'| && rs'[g].kind == GENERAL_KIND ensures rs'[g].size >= 2 * MIB {
      assert rs'[g] == rs[Shift(g, k)];
    }
    forall g, h | 0 <= g < h < |rs'| && rs'[g].kind == GENERAL_KIND && rs'[h].kind == GENERAL_KIND
      ensures rs'[g].size >= 2 * rs'[h].size
    {
      assert rs'[g] == rs[Shift(g, k)] && rs'[h] == rs[Shift(h, k)];
    }
  }

  lemma GeneralsWithout(rs: seq<Region>, k: nat)
    requires k < |rs| && rs[k].kind != GENERAL_KIND
    ensures Generals(Without(rs, k)) == Generals(rs)
  {
    hide Generals;
    assert rs == rs[..k] + ([rs[k]] + rs[k + 1..]);
    GeneralsAppend(rs[..k], [rs[k]] + rs[k + 1..]);
    GeneralsAppend([rs[k]], rs[k + 1..]);
    GeneralsAppend(rs[..k], rs[k + 1..]);
    GeneralsOne(rs[k]);
  }

  lemma GeneralsOne(r: Region)
    ensures Generals([r]) == if r.kind == GENERAL_KIND then 1 else 0
  {
    assert [r][1..] == [];
  }

  /** The n-th general pool ever created holds at least 2^n MiB. */
  lemma {:induction false} GrownPower(rs: seq<Region>, g: nat)
    requires Grown(rs) && g < |rs| && rs[g].kind == GENERAL_KIND
    ensures rs[g].size >= Pow2(Generals(rs[g..])) * MIB
    decreases |rs| - g
  {
    if h :| g < h < |rs| && rs[h].kind == GENERAL_KIND && forall k :: g < k < h ==> rs[k].kind != GENERAL_KIND {
      GrownPower(rs, h);
      GeneralsSkip(rs, g + 1, h);
      assert rs[g..][1..] == rs[g + 1..];
    } else {
      NextGeneral(rs, g + 1);
      assert rs[g..][1..] == rs[g + 1..];
    }
  }

  lemma {:induction false} GeneralsSkip(rs: seq<Region>, g: nat, h: nat)
    requires g <= h <= |rs| && forall k :: g <= k < h ==> rs[k].kind != GENERAL_KIND
    ensures Generals(rs[g..]) == Generals(rs[h..])
    decreases h - g
  {
    if g < h {
      assert rs[g..][1..] == rs[g + 1..];
      GeneralsSkip(rs, g + 1, h);
    }
  }

  /** Without a first general pool from g on there is none. */
  lemma {:induction false} NextGeneral(rs: seq<Region>, g: nat)
    requires g <= |rs|
    ensures Generals(rs[g..]) == 0
         || exists h ::
              && g <= h < |rs| && rs[h].kind == GENERAL_KIND
              && forall k :: g <= k < h ==> rs[k].kind != GENERAL_KIND
    decreases |rs| - g
  {
    if g < |rs| && rs[g].kind != GENERAL_KIND {
      assert rs[g..][1..] == rs[g + 1..];
      NextGeneral(rs, g + 1);
    }
  }

  /** A pool made for a request serves it, so malloc cannot fail once the pool exists. */
  lemma FreshOffers(r: Region, ps: map<nat, Pool>, n: nat)
    requires r.kind == GENERAL_KIND && r.size >= POOL_GENERAL_SIZE + HEADER_SIZE + n
    ensures Offers(r, ps[r.base := Fresh(r.base, r.size)], n)
  {
    var p := Fresh(r.base, r.size);
    assert SizeAt(p.blocks, p.freeList[0]) == p.blocks[0].size;
  }
}
