/** The sizes, magic numbers and structures of the allocator on an LP64 platform. */
module Layout {
  import opened Bytes

  const ALIGNMENT: nat := 16
  const HEADER_SIZE: nat := 48
  const LINKS_SIZE: nat := 16
  const MIN_BLOCK_SIZE: nat := 320
  const POOL_HEADER_SIZE: nat := 48
  const POOL_GENERAL_SIZE: nat := 4096
  const SMALL_HEADER_SIZE: nat := 16
  const CANARY_SIZE: nat := 4

  // dam_layer_type_t
  const SMALL_KIND: nat := 1
  const GENERAL_KIND: nat := 2
  const DIRECT_KIND: nat := 3

  const BLOCK_MAGIC: nat := 0xDEADBEEF
  const FREED_MAGIC: nat := 0xFEEDFACE
  const SMALL_MAGIC: nat := 0xD34D
  const SMALL_FREED_MAGIC: nat := 0xF33D
  const CANARY_VALUE: nat := 0xDEADC0DE

  /** struct block_header */
  datatype Header = Header(size: nat, user: nat, prev: nat, next: nat, pool: nat, magic: nat, isFree: nat) {
    function With(f: HeaderField, v: nat): Header {
      match f
      case Size => this.(size := v)
      case User => this.(user := v)
      case Prev => this.(prev := v)
      case Next => this.(next := v)
      case PoolPtr => this.(pool := v)
      case Magic => this.(magic := v)
      case IsFree => this.(isFree := v)
    }
  }

  datatype HeaderField = Size | User | Prev | Next | PoolPtr | Magic | IsFree {
    function At(): Field {
      match this
      case Size => Field(0, 8)
      case User => Field(8, 8)
      case Prev => Field(16, 8)
      case Next => Field(24, 8)
      case PoolPtr => Field(32, 8)
      case Magic => Field(40, 4)
      case IsFree => Field(44, 1)
    }
  }

  function HeaderAt(m: Mem, a: nat): Header {
    Header(Get(m, a, Size.At()), Get(m, a, User.At()), Get(m, a, Prev.At()), Get(m, a, Next.At()),
           Get(m, a, PoolPtr.At()), Get(m, a, Magic.At()), Get(m, a, IsFree.At()))
  }

  /** struct free_block_header, which overlays the payload of the free block at a */
  datatype Links = Links(prev: nat, next: nat) {
    function With(f: LinkField, v: nat): Links {
      match f
      case PrevFree => this.(prev := v)
      case NextFree => this.(next := v)
    }
  }

  datatype LinkField = PrevFree | NextFree {
    function At(): Field {
      match this
      case PrevFree => Field(48, 8)
      case NextFree => Field(56, 8)
    }
  }

  function LinksAt(m: Mem, a: nat): Links {
    Links(Get(m, a, PrevFree.At()), Get(m, a, NextFree.At()))
  }

  /** struct pool_header */
  datatype PoolHeader = PoolHeader(memory: nat, size: nat, kind: nat, readOnly: nat, hasFree: nat,
                                   next: nat, blockList: nat, freeList: nat) {
    function With(f: PoolField, v: nat): PoolHeader {
      match f
      case Memory => this.(memory := v)
      case PoolSize => this.(size := v)
      case Kind => this.(kind := v)
      case ReadOnly => this.(readOnly := v)
      case HasFree => this.(hasFree := v)
      case NextPool => this.(next := v)
      case BlockList => this.(blockList := v)
      case FreeListHead => this.(freeList := v)
    }
  }

  datatype PoolField = Memory | PoolSize | Kind | ReadOnly | HasFree | NextPool | BlockList | FreeListHead {
    function At(): Field {
      match this
      case Memory => Field(0, 8)
      case PoolSize => Field(8, 8)
      case Kind => Field(16, 4)
      case ReadOnly => Field(20, 1)
      case HasFree => Field(21, 1)
      case NextPool => Field(24, 8)
      case BlockList => Field(32, 8)
      case FreeListHead => Field(40, 8)
    }
  }

  function PoolAt(m: Mem, a: nat): PoolHeader {
    PoolHeader(Get(m, a, Memory.At()), Get(m, a, PoolSize.At()), Get(m, a, Kind.At()), Get(m, a, ReadOnly.At()),
               Get(m, a, HasFree.At()), Get(m, a, NextPool.At()), Get(m, a, BlockList.At()),
                   Get(m, a, FreeListHead.At()))
  }

  /** struct size_class_header */
  datatype SmallHeader = SmallHeader(magic: nat, cls: nat, isFree: nat, next: nat) {
    function With(f: SmallField, v: nat): SmallHeader {
      match f
      case SmallMagic => this.(magic := v)
      case ClassIndex => this.(cls := v)
      case SmallFree => this.(isFree := v)
      case SmallNext => this.(next := v)
    }
  }

  datatype SmallField = SmallMagic | ClassIndex | SmallFree | SmallNext {
    function At(): Field {
      match this
      case SmallMagic => Field(0, 4)
      case ClassIndex => Field(4, 1)
      case SmallFree => Field(5, 1)
      case SmallNext => Field(8, 8)
    }
  }

  function SmallAt(m: Mem, a: nat): SmallHeader {
    SmallHeader(Get(m, a, SmallMagic.At()), Get(m, a, ClassIndex.At()), Get(m, a, SmallFree.At()),
        Get(m, a, SmallNext.At()))
  }

  /** The word behind the user's bytes. */
  const CANARY := Field(0, 4)

  function CanaryAt(m: Mem, a: nat): nat {
    Get(m, a, CANARY)
  }

  /**
   * Only bytes of [a, a + n) may differ between m and m', nothing was mapped or unmapped, and so every structure that
   * does not overlap the range reads as before.
   */
  ghost predicate Touches(m: Mem, m': Mem, a: nat, n: nat) {
    && m'.Keys == m.Keys
    && OnlyAt(m, m', a, n)
    && (forall b: nat {:trigger HeaderAt(m', b)} ::
          b + HEADER_SIZE <= a || a + n <= b ==> HeaderAt(m', b) == HeaderAt(m, b))
    && (forall b: nat {:trigger LinksAt(m', b)} ::
          b + HEADER_SIZE + LINKS_SIZE <= a || a + n <= b + HEADER_SIZE ==> LinksAt(m', b) == LinksAt(m, b))
    && (forall b: nat {:trigger PoolAt(m', b)} ::
          b + POOL_HEADER_SIZE <= a || a + n <= b ==> PoolAt(m', b) == PoolAt(m, b))
    && (forall b: nat {:trigger SmallAt(m', b)} ::
          b + SMALL_HEADER_SIZE <= a || a + n <= b ==> SmallAt(m', b) == SmallAt(m, b))
    && (forall b: nat {:trigger CanaryAt(m', b)} ::
          b + CANARY_SIZE <= a || a + n <= b ==> CanaryAt(m', b) == CanaryAt(m, b))
  }

  lemma HeaderSame(m: Mem, m': Mem, b: nat)
    requires Same(m, m', b, HEADER_SIZE)
    ensures HeaderAt(m', b) == HeaderAt(m, b)
  {
    hide Get;
    GetSame(m, m', b, Size.At());
    GetSame(m, m', b, User.At());
    GetSame(m, m', b, Prev.At());
    GetSame(m, m', b, Next.At());
    GetSame(m, m', b, PoolPtr.At());
    GetSame(m, m', b, Magic.At());
    GetSame(m, m', b, IsFree.At());
  }

  lemma LinksSame(m: Mem, m': Mem, b: nat)
    requires Same(m, m', b + HEADER_SIZE, LINKS_SIZE)
    ensures LinksAt(m', b) == LinksAt(m, b)
  {
    hide Get;
    GetSame(m, m', b, PrevFree.At());
    GetSame(m, m', b, NextFree.At());
  }

  lemma PoolSame(m: Mem, m': Mem, b: nat)
    requires Same(m, m', b, POOL_HEADER_SIZE)
    ensures PoolAt(m', b) == PoolAt(m, b)
  {
    hide Get;
    GetSame(m, m', b, Memory.At());
    GetSame(m, m', b, PoolSize.At());
    GetSame(m, m', b, Kind.At());
    GetSame(m, m', b, ReadOnly.At());
    GetSame(m, m', b, HasFree.At());
    GetSame(m, m', b, NextPool.At());
    GetSame(m, m', b, BlockList.At());
    GetSame(m, m', b, FreeListHead.At());
  }

  lemma SmallSame(m: Mem, m': Mem, b: nat)
    requires Same(m, m', b, SMALL_HEADER_SIZE)
    ensures SmallAt(m', b) == SmallAt(m, b)
  {
    hide Get;
    GetSame(m, m', b, SmallMagic.At());
    GetSame(m, m', b, ClassIndex.At());
    GetSame(m, m', b, SmallFree.At());
    GetSame(m, m', b, SmallNext.At());
  }

  lemma TouchesOnly(m: Mem, m': Mem, a: nat, n: nat)
    requires OnlyAt(m, m', a, n)
    ensures Touches(m, m', a, n)
  {
    hide HeaderAt, LinksAt, PoolAt, SmallAt, Get;
    forall b: nat | b + SMALL_HEADER_SIZE <= a || a + n <= b ensures SmallAt(m', b) == SmallAt(m, b) {
      SmallSame(m, m', b);
    }
    forall b: nat | b + HEADER_SIZE <= a || a + n <= b ensures HeaderAt(m', b) == HeaderAt(m, b) {
      HeaderSame(m, m', b);
    }
    forall b: nat | b + HEADER_SIZE + LINKS_SIZE <= a || a + n <= b + HEADER_SIZE
      ensures LinksAt(m', b) == LinksAt(m, b)
    {
      LinksSame(m, m', b);
    }
    forall b: nat | b + POOL_HEADER_SIZE <= a || a + n <= b ensures PoolAt(m', b) == PoolAt(m, b) {
      PoolSame(m, m', b);
    }
    forall b: nat | b + CANARY_SIZE <= a || a + n <= b ensures CanaryAt(m', b) == CanaryAt(m, b) {
      GetSame(m, m', b, CANARY);
    }
  }

  /** In zeroed memory every member of a structure is zero. */
  lemma ZeroStructs(m: Mem, a: nat)
    requires forall x :: a <= x < a + HEADER_SIZE ==> Peek(m, x) == 0
    ensures HeaderAt(m, a) == Header(0, 0, 0, 0, 0, 0, 0)
    ensures PoolAt(m, a) == PoolHeader(0, 0, 0, 0, 0, 0, 0, 0)
  {
    hide Load;
    LoadZero(m, a, 8);
    LoadZero(m, a + 8, 8);
    LoadZero(m, a + 16, 8);
    LoadZero(m, a + 24, 8);
    LoadZero(m, a + 32, 8);
    LoadZero(m, a + 40, 8);
    LoadZero(m, a + 16, 4);
    LoadZero(m, a + 40, 4);
    LoadZero(m, a + 20, 1);
    LoadZero(m, a + 21, 1);
    LoadZero(m, a + 44, 1);
  }

  /** Writing one member of a structure leaves its other members alone. */
  lemma HeaderWith(m: Mem, m': Mem, a: nat, f: HeaderField, v: nat)
    requires Wrote(m, m', a, f.At(), v)
    ensures HeaderAt(m', a) == HeaderAt(m, a).With(f, v)
  {
    hide Get, OnlyAt;
  }

  lemma LinksWith(m: Mem, m': Mem, a: nat, f: LinkField, v: nat)
    requires Wrote(m, m', a, f.At(), v)
    ensures LinksAt(m', a) == LinksAt(m, a).With(f, v)
  {
    hide Get, OnlyAt;
  }

  lemma PoolWith(m: Mem, m': Mem, a: nat, f: PoolField, v: nat)
    requires Wrote(m, m', a, f.At(), v)
    ensures PoolAt(m', a) == PoolAt(m, a).With(f, v)
  {
    hide Get, OnlyAt;
  }

  lemma SmallWith(m: Mem, m': Mem, a: nat, f: SmallField, v: nat)
    requires Wrote(m, m', a, f.At(), v)
    ensures SmallAt(m', a) == SmallAt(m, a).With(f, v)
  {
    hide Get, OnlyAt;
  }

  function AlignUp(n: nat, alignment: nat): nat
    requires alignment > 0
  {
    n + alignment - 1 - (n + alignment - 1) % alignment
  }

  /** The same in size_t, where both the sum and the caller's number wrap around. */
  function AlignUp64(n: nat, alignment: nat): nat
    requires alignment > 0
  {
    var t := (n + alignment - 1) % U64;
    t - t % alignment
  }

  lemma Unwrapped(n: nat)
    requires n < U64
    ensures n % U64 == n
  {
  }

  lemma WrappedOnce(n: nat)
    requires U64 <= n < 2 * U64
    ensures n % U64 == n - U64
  {
  }

  /** Without a carry the two agree. */
  lemma AlignSame(n: nat, alignment: nat)
    requires alignment > 0 && n + alignment - 1 < U64
    ensures AlignUp64(n, alignment) == AlignUp(n, alignment)
  {
    Unwrapped(n + alignment - 1);
  }
}
