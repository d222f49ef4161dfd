/** The process's address space as the allocator sees it: member loads and stores, memcpy, memset, mmap and munmap. */
module Machine {
  import opened Bytes
  import opened Layout

  const PAGE_SIZE: nat := 4096

  /** No address of a user process is as large as this. */
  const USER_SPACE: nat := 0x100_0000_0000_0000

  /** A call of mmap: the bytes asked for, and whether they were granted. */
  datatype Mmap = Mmap(len: nat, granted: bool)

  class Ram {
    var mem: Mem
    ghost var maps: seq<Mmap>   // the calls of mmap so far

    constructor ()
      ensures mem == map[] && maps == []
    {
      mem := map[];
      maps := [];
    }

    method ReadHeader(a: nat) returns (h: Header)
      requires Mapped(mem, a, HEADER_SIZE)
      ensures h == HeaderAt(mem, a)
    {
      h := HeaderAt(mem, a);
    }

    method ReadLinks(a: nat) returns (l: Links)
      requires Mapped(mem, a + HEADER_SIZE, LINKS_SIZE)
      ensures l == LinksAt(mem, a)
    {
      l := LinksAt(mem, a);
    }

    method ReadPool(a: nat) returns (p: PoolHeader)
      requires Mapped(mem, a, POOL_HEADER_SIZE)
      ensures p == PoolAt(mem, a)
    {
      p := PoolAt(mem, a);
    }

    /** The 32-bit word at a. */
    method ReadWord(a: nat) returns (v: nat)
      requires Mapped(mem, a, CANARY_SIZE)
      ensures v == CanaryAt(mem, a)
    {
      v := CanaryAt(mem, a);
    }

    method Write(a: nat, f: Field, v: nat)
      requires Mapped(mem, a + f.off, f.width)
      requires v < Limit(f.width)
      modifies this`mem
      ensures Wrote(old(mem), mem, a, f, v)
    {
      StoreWrote(mem, a, f, v);
      mem := Store(mem, a + f.off, f.width, v);
    }

    method SetHeader(a: nat, f: HeaderField, v: nat)
      requires Mapped(mem, a, HEADER_SIZE)
      requires v < Limit(f.At().width)
      modifies this`mem
      ensures Touches(old(mem), mem, a, HEADER_SIZE)
      ensures HeaderAt(mem, a) == HeaderAt(old(mem), a).With(f, v)
    {
      hide HeaderAt, LinksAt, PoolAt, CanaryAt, Get, Limit;
      Write(a, f.At(), v);
      HeaderWith(old(mem), mem, a, f, v);
      TouchesOnly(old(mem), mem, a, HEADER_SIZE);
    }

    method ReadSmall(a: nat) returns (h: SmallHeader)
      requires Mapped(mem, a, SMALL_HEADER_SIZE)
      ensures h == SmallAt(mem, a)
    {
      h := SmallAt(mem, a);
    }

    method SetSmall(a: nat, f: SmallField, v: nat)
      requires Mapped(mem, a, SMALL_HEADER_SIZE)
      requires v < Limit(f.At().width)
      modifies this`mem
      ensures Touches(old(mem), mem, a, SMALL_HEADER_SIZE)
      ensures SmallAt(mem, a) == SmallAt(old(mem), a).With(f, v)
    {
      hide HeaderAt, LinksAt, PoolAt, SmallAt, CanaryAt, Get, Limit;
      Write(a, f.At(), v);
      SmallWith(old(mem), mem, a, f, v);
      TouchesOnly(old(mem), mem, a, SMALL_HEADER_SIZE);
    }

    method SetLinks(a: nat, f: LinkField, v: nat)
      requires Mapped(mem, a + HEADER_SIZE, LINKS_SIZE)
      requires v < U64
      modifies this`mem
      ensures Touches(old(mem), mem, a + HEADER_SIZE, LINKS_SIZE)
      ensures LinksAt(mem, a) == LinksAt(old(mem), a).With(f, v)
    {
      hide HeaderAt, LinksAt, PoolAt, CanaryAt, Get, Limit;
      Limits();
      Write(a, f.At(), v);
      LinksWith(old(mem), mem, a, f, v);
      TouchesOnly(old(mem), mem, a + HEADER_SIZE, LINKS_SIZE);
    }

    method SetPool(a: nat, f: PoolField, v: nat)
      requires Mapped(mem, a, POOL_HEADER_SIZE)
      requires v < Limit(f.At().width)
      modifies this`mem
      ensures Touches(old(mem), mem, a + f.At().off, f.At().width)
      ensures PoolAt(mem, a) == PoolAt(old(mem), a).With(f, v)
    {
      hide HeaderAt, LinksAt, PoolAt, CanaryAt, Get, Limit;
      Write(a, f.At(), v);
      PoolWith(old(mem), mem, a, f, v);
      TouchesOnly(old(mem), mem, a + f.At().off, f.At().width);
    }

    /**
     * mmap of len private, anonymous bytes. The kernel answers with any page-aligned region that is not mapped yet,
     * all of it zero, or fails; 0 stands for MAP_FAILED. A length of 0 is refused.
     */
    method Map(len: nat) returns (base: nat)
      modifies this
      ensures maps == old(maps) + [Mmap(len, base != 0)]
      ensures base == 0 ==> mem == old(mem)
      ensures len == 0 ==> base == 0
      ensures base != 0 ==> PageAligned(base) && base + len < USER_SPACE < U64 && MappedFrom(old(mem), mem, base, len)
    {
      base := *;
      if base == 0 || len == 0 || !PageAligned(base) || base + len >= USER_SPACE {
        maps := maps + [Mmap(len, false)];
        return 0;
      }
      if exists x :: base <= x < base + len && x in mem {
        maps := maps + [Mmap(len, false)];
        return 0;
      }
      mem := mem + Zeros(base, len);
      maps := maps + [Mmap(len, true)];
    }

    /** mmap of len bytes whose contents are not part of this memory. */
    method MapApart(len: nat) returns (granted: bool)
      modifies this`maps
      ensures maps == old(maps) + [Mmap(len, granted)]
    {
      granted := *;
      maps := maps + [Mmap(len, granted)];
    }

    /** munmap. */
    method Unmap(base: nat, len: nat)
      modifies this`mem
      ensures forall x: nat :: x in mem <==> x in old(mem) && !(base <= x < base + len)
      ensures forall x: nat :: !(base <= x < base + len) ==> Peek(mem, x) == Peek(old(mem), x)
    {
      mem := map x | x in mem && !(base <= x < base + len) :: mem[x];
    }

    /** memcpy of n bytes between regions that do not overlap. */
    method Copy(to: nat, from: nat, n: nat)
      requires Mapped(mem, to, n) && Mapped(mem, from, n)
      requires to + n <= from || from + n <= to
      modifies this`mem
      ensures OnlyAt(old(mem), mem, to, n)
      ensures forall x: nat {:trigger Peek(mem, x)} ::
                to <= x < to + n ==> Peek(mem, x) == Peek(old(mem), x - to + from)
    {
      mem := map x | x in mem :: if to <= x < to + n then Peek(mem, x - to + from) else mem[x];
    }

    /** memset to zero. */
    method Zero(to: nat, n: nat)
      requires Mapped(mem, to, n)
      modifies this`mem
      ensures OnlyAt(old(mem), mem, to, n)
      ensures forall x: nat {:trigger Peek(mem, x)} :: to <= x < to + n ==> Peek(mem, x) == 0
    {
      mem := map x | x in mem :: if to <= x < to + n then 0 else mem[x];
    }
  }

  predicate PageAligned(a: nat) {
    a % PAGE_SIZE == 0
  }

  lemma PagesAligned(a: nat)
    requires PageAligned(a)
    ensures a % ALIGNMENT == 0
  {
  }

  predicate InRange(x: nat, base: nat, len: nat) {
    base <= x < base + len
  }

  function Zeros(base: nat, len: nat): (z: Mem)
    ensures forall x: nat :: x in z <==> base <= x < base + len
    ensures forall x: nat :: x in z ==> z[x] == 0
  {
    map x: nat | base <= x < base + len && InRange(x, base, len) :: 0
  }

  /** A fresh region of zeros was mapped and nothing else happened. */
  ghost predicate MappedFrom(m: Mem, m': Mem, base: nat, len: nat) {
    && (forall x: nat :: base <= x < base + len ==> x !in m && x in m' && Peek(m', x) == 0)
    && (forall x: nat :: !(base <= x < base + len) ==> (x in m' <==> x in m) && Peek(m', x) == Peek(m, x))
  }
}
