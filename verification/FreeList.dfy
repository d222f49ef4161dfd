/** A pool's doubly linked free list, whose links lie in the payloads of the free blocks. */
module FreeList {
  import opened Bytes
  import opened Layout
  import opened Machine

  function Head(fl: seq<nat>): nat {
    if fl == [] then 0 else fl[0]
  }

  function LinksOf(fl: seq<nat>, j: nat): Links
    requires j < |fl|
  {
    Links(if j == 0 then 0 else fl[j - 1], if j + 1 < |fl| then fl[j + 1] else 0)
  }

  function Without<T>(fl: seq<T>, k: nat): seq<T>
    requires k < |fl|
  {
    fl[..k] + fl[k + 1..]
  }

  ghost predicate LinkOK(m: Mem, fl: seq<nat>, j: nat)
    requires j < |fl|
  {
    LinksAt(m, fl[j]) == LinksOf(fl, j)
  }

  /** a can be a member of the list of the pool at base: its links are mapped and lie behind the pool's prefix. */
  ghost predicate Room(m: Mem, base: nat, a: nat) {
    && base + POOL_GENERAL_SIZE <= a < U64
    && Mapped(m, a + HEADER_SIZE, LINKS_SIZE)
  }

  ghost predicate Apart(a: nat, b: nat) {
    a + HEADER_SIZE + LINKS_SIZE <= b || b + HEADER_SIZE + LINKS_SIZE <= a
  }

  /** No two members overlap, so they are also distinct. */
  ghost predicate Spaced(fl: seq<nat>) {
    forall j, l {:trigger Apart(fl[j], fl[l])} ::
      0 <= j < |fl| && 0 <= l < |fl| && j != l ==> Apart(fl[j], fl[l])
  }

  /** The members have room for their links and do not overlap; the pool's header is mapped. */
  ghost predicate Members(m: Mem, base: nat, fl: seq<nat>) {
    && base > 0
    && Mapped(m, base, POOL_HEADER_SIZE)
    && (forall j {:trigger fl[j]} :: 0 <= j < |fl| ==> Room(m, base, fl[j]))
    && Spaced(fl)
  }

  /** The list in memory is fl, front first: the head pointer, has_free and every pair of links. */
  ghost predicate ListRep(m: Mem, base: nat, fl: seq<nat>) {
    && Members(m, base, fl)
    && PoolAt(m, base).freeList == Head(fl)
    && PoolAt(m, base).hasFree == (if fl == [] then 0 else 1)
    && (forall j {:trigger LinkOK(m, fl, j)} :: 0 <= j < |fl| ==> LinkOK(m, fl, j))
  }

  /** x lies outside the list's own storage: the head, has_free and the links of the members. */
  ghost predicate OffList(base: nat, fl: seq<nat>, x: nat) {
    && x != base + HasFree.At().off
    && !(base + FreeListHead.At().off <= x < base + POOL_HEADER_SIZE)
    && forall a {:trigger a in fl} :: a in fl ==> !(a + HEADER_SIZE <= x < a + HEADER_SIZE + LINKS_SIZE)
  }

  /** Only the list's own storage may differ. */
  ghost predicate OnlyList(m: Mem, m': Mem, base: nat, fl: seq<nat>) {
    && m'.Keys == m.Keys
    && PoolAt(m', base) == PoolAt(m, base).(hasFree := PoolAt(m', base).hasFree, freeList := PoolAt(m', base).freeList)
    && forall x: nat {:trigger Peek(m', x)} :: OffList(base, fl, x) ==> Peek(m', x) == Peek(m, x)
  }

  /** From m to m' only the links of member a changed, from l to l'. */
  ghost predicate Relinked(m: Mem, m': Mem, base: nat, fl: seq<nat>, a: nat, l': Links) {
    && LinksAt(m', a) == l'
    && (forall b {:trigger LinksAt(m', b)} :: b in fl && b != a ==> LinksAt(m', b) == LinksAt(m, b))
    && PoolAt(m', base) == PoolAt(m, base)
  }

  method SetLink(ram: Ram, a: nat, f: LinkField, v: nat, ghost m: Mem, ghost pool: nat, ghost fl: seq<nat>)
    requires Members(ram.mem, pool, fl) && a in fl && v < U64
    requires OnlyList(m, ram.mem, pool, fl)
    modifies ram`mem
    ensures Members(ram.mem, pool, fl)
    ensures Relinked(old(ram.mem), ram.mem, pool, fl, a, LinksAt(old(ram.mem), a).With(f, v))
    ensures OnlyList(m, ram.mem, pool, fl)
  {
    hide HeaderAt, LinksAt, PoolAt, CanaryAt;
    ghost var j :| 0 <= j < |fl| && fl[j] == a;
    ram.SetLinks(a, f, v);
    forall b | b in fl && b != a ensures LinksAt(ram.mem, b) == LinksAt(old(ram.mem), b) {
      var l :| 0 <= l < |fl| && fl[l] == b;
      assert Apart(fl[l], fl[j]);
    }
  }

  method SetList(ram: Ram, pool: nat, f: PoolField, v: nat, ghost m: Mem, ghost fl: seq<nat>)
    requires Members(ram.mem, pool, fl)
    requires (f.HasFree? && v < 256) || (f.FreeListHead? && v < U64)
    requires OnlyList(m, ram.mem, pool, fl)
    modifies ram`mem
    ensures Members(ram.mem, pool, fl)
    ensures forall b :: b in fl ==> LinksAt(ram.mem, b) == LinksAt(old(ram.mem), b)
    ensures PoolAt(ram.mem, pool) == PoolAt(old(ram.mem), pool).With(f, v)
    ensures OnlyList(m, ram.mem, pool, fl)
  {
    hide HeaderAt, LinksAt, PoolAt, CanaryAt, Limit;
    Limits();
    ram.SetPool(pool, f, v);
  }

  method AddToFreeList(ram: Ram, pool: nat, block: nat, ghost fl: seq<nat>)
    requires ListRep(ram.mem, pool, fl)
    requires Members(ram.mem, pool, [block] + fl)
    modifies ram`mem
    ensures ListRep(ram.mem, pool, [block] + fl)
    ensures OnlyList(old(ram.mem), ram.mem, pool, [block] + fl)
  {
    hide HeaderAt, LinksAt, PoolAt, CanaryAt, OnlyAt, OnlyList, Mapped;
    ghost var m, fl' := ram.mem, [block] + fl;
    assert OnlyList(m, m, pool, fl') by { OnlyListRefl(m, pool, fl'); }
    assert fl != [] ==> fl'[1] == fl[0] && LinkOK(m, fl, 0);
    assert Room(m, pool, fl'[0]) && (fl != [] ==> Room(m, pool, fl'[1]) && Apart(fl'[0], fl'[1]));
    var p := ram.ReadPool(pool);
    SetLink(ram, block, NextFree, p.freeList, m, pool, fl');
    SetLink(ram, block, PrevFree, 0, m, pool, fl');
    if p.freeList != 0 {
      SetLink(ram, p.freeList, PrevFree, block, m, pool, fl');
    }
    SetList(ram, pool, FreeListHead, block, m, fl');
    SetList(ram, pool, HasFree, 1, m, fl');
    forall j | 0 <= j < |fl'| ensures LinkOK(ram.mem, fl', j) {
      assert j > 0 ==> LinkOK(m, fl, j - 1) && fl'[j] == fl[j - 1];
      assert j > 1 ==> fl'[j - 1] == fl[j - 2] && Apart(fl'[1], fl'[j]);
      assert j > 0 ==> Apart(fl'[0], fl'[j]);
      assert j + 1 < |fl'| ==> fl'[j + 1] == fl[j];
    }
  }

  function Shift(j: nat, k: nat): nat {
    if j < k then j else j + 1
  }

  lemma WithoutMembers(m: Mem, base: nat, fl: seq<nat>, k: nat)
    requires k < |fl| && Members(m, base, fl)
    ensures |Without(fl, k)| == |fl| - 1
    ensures forall j {:trigger Without(fl, k)[j]} :: 0 <= j < |fl| - 1 ==> Without(fl, k)[j] == fl[Shift(j, k)]
    ensures Members(m, base, Without(fl, k))
  {
  }

  method RemoveFromFreeList(ram: Ram, pool: nat, block: nat, ghost fl: seq<nat>, ghost k: nat)
    requires ListRep(ram.mem, pool, fl)
    requires k < |fl| && fl[k] == block
    modifies ram`mem
    ensures ListRep(ram.mem, pool, Without(fl, k))
    ensures OnlyList(old(ram.mem), ram.mem, pool, fl)
  {
    hide HeaderAt, LinksAt, PoolAt, CanaryAt, OnlyAt, OnlyList, Mapped, Without;
    ghost var m, fl' := ram.mem, Without(fl, k);
    OnlyListRefl(m, pool, fl);
    assert LinkOK(m, fl, k) && Room(m, pool, fl[k]);
    assert k > 0 ==> Room(m, pool, fl[k - 1]);
    assert k + 1 < |fl| ==> Room(m, pool, fl[k + 1]);
    var links := ram.ReadLinks(block);
    if links.prev != 0 {
      SetLink(ram, links.prev, NextFree, links.next, m, pool, fl);
    } else {
      SetList(ram, pool, FreeListHead, links.next, m, fl);
    }
    if links.next != 0 {
      SetLink(ram, links.next, PrevFree, links.prev, m, pool, fl);
    }
    var p := ram.ReadPool(pool);
    if p.freeList == 0 {
      SetList(ram, pool, HasFree, 0, m, fl);
    }
    WithoutMembers(ram.mem, pool, fl, k);
    forall j | 0 <= j < |fl'| ensures LinkOK(ram.mem, fl', j) {
      var i := Shift(j, k);
      assert fl'[j] == fl[i] && LinkOK(m, fl, i);
      assert k > 0 && i != k - 1 ==> Apart(fl[i], fl[k - 1]);
      assert k + 1 < |fl| && i != k + 1 ==> Apart(fl[i], fl[k + 1]);
      assert j > 0 ==> fl'[j - 1] == fl[Shift(j - 1, k)];
      assert j + 1 < |fl'| ==> fl'[j + 1] == fl[Shift(j + 1, k)];
    }
  }

  lemma OnlyListRefl(m: Mem, base: nat, fl: seq<nat>)
    ensures OnlyList(m, m, base, fl)
  {
  }
}
