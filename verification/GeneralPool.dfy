/** One general pool in memory: splitting, merging, taking, freeing and resizing its blocks. */
module GeneralPool {
  import opened Bytes
  import opened Layout
  import opened Machine
  import opened FreeList
  import opened PoolModel

  function HeaderOf(base: nat, bs: seq<Block>, k: nat): Header
    requires k < |bs|
  {
    Header(bs[k].size, bs[k].user,
           if k == 0 then 0 else bs[k - 1].addr, if k + 1 < |bs| then bs[k + 1].addr else 0,
           base, if bs[k].free then FREED_MAGIC else BLOCK_MAGIC, if bs[k].free then 1 else 0)
  }

  ghost predicate HeaderOK(m: Mem, base: nat, bs: seq<Block>, k: nat)
    requires k < |bs|
  {
    HeaderAt(m, bs[k].addr) == HeaderOf(base, bs, k)
  }

  ghost predicate Headers(m: Mem, base: nat, bs: seq<Block>) {
    forall k {:trigger HeaderOK(m, base, bs, k)} :: 0 <= k < |bs| ==> HeaderOK(m, base, bs, k)
  }

  ghost predicate PoolFields(m: Mem, p: Pool) {
    var h := PoolAt(m, p.base);
    && h.memory == p.base && h.size == p.size && h.kind == GENERAL_KIND
    && h.readOnly == (if p.readOnly then 1 else 0)
    && h.blockList == p.base + POOL_GENERAL_SIZE
  }

  /** The bytes of the pool are those of p. */
  ghost predicate Rep(m: Mem, p: Pool) {
    && Mapped(m, p.base, p.size)
    && PoolFields(m, p)
    && ListRep(m, p.base, p.freeList)
    && Headers(m, p.base, p.blocks)
  }

  /** Only headers of these blocks may differ. */
  ghost predicate OnlyHeaders(m: Mem, m': Mem, bs: seq<Block>) {
    && m'.Keys == m.Keys
    && forall x: nat {:trigger Peek(m', x)} :: OffHeaders(bs, x) ==> Peek(m', x) == Peek(m, x)
  }

  ghost predicate OffHeaders(bs: seq<Block>, x: nat) {
    forall k {:trigger bs[k]} :: 0 <= k < |bs| ==> !(bs[k].addr <= x < bs[k].Payload())
  }

  function Addrs(bs: seq<Block>): set<nat> {
    set b | b in bs :: b.addr
  }

  ghost predicate PayloadSame(m: Mem, m': Mem, b: Block) {
    Same(m, m', b.Payload(), b.size)
  }

  /** The payload of every live block, its canary included, holds the same bytes. */
  ghost predicate LiveSame(m: Mem, m': Mem, bs: seq<Block>) {
    forall b {:trigger PayloadSame(m, m', b)} :: b in bs && !b.free ==> PayloadSame(m, m', b)
  }

  /** The rest of memory, and the pool's place on the list of pools, are unchanged. */
  ghost predicate OutsideSame(m: Mem, m': Mem, p: Pool) {
    && m'.Keys == m.Keys
    && PoolAt(m', p.base).next == PoolAt(m, p.base).next
    && forall x: nat {:trigger Peek(m', x)} :: !(p.base <= x < p.base + p.size) ==> Peek(m', x) == Peek(m, x)
  }

  lemma PayloadOffHeaders(p: Pool, k: nat, x: nat)
    requires Shape(p) && k < |p.blocks| && p.blocks[k].Payload() <= x < p.blocks[k].End()
    ensures OffHeaders(p.blocks, x)
  {
    forall l | 0 <= l < |p.blocks| ensures !(p.blocks[l].addr <= x < p.blocks[l].Payload()) {
      TilesAt(p.blocks, p.base + POOL_GENERAL_SIZE, p.base + p.size, k, l);
      TilesAt(p.blocks, p.base + POOL_GENERAL_SIZE, p.base + p.size, l, k);
    }
  }

  lemma OutsideOffHeaders(p: Pool, x: nat)
    requires Shape(p) && !(p.base + POOL_GENERAL_SIZE <= x < p.base + p.size)
    ensures OffHeaders(p.blocks, x)
  {
    forall l | 0 <= l < |p.blocks| ensures !(p.blocks[l].addr <= x < p.blocks[l].Payload()) {
      TilesAt(p.blocks, p.base + POOL_GENERAL_SIZE, p.base + p.size, l, l);
    }
  }

  lemma ListMember(p: Pool, j: nat) returns (k: nat)
    requires Shape(p) && j < |p.freeList|
    ensures k < |p.blocks| && p.blocks[k].addr == p.freeList[j] && p.blocks[k].free && Good(p.blocks[k])
  {
    assert p.freeList[j] in p.freeList;
    var b :| b in p.blocks && b.free && b.addr == p.freeList[j];
    k :| 0 <= k < |p.blocks| && p.blocks[k] == b;
  }

  lemma ShapeMembers(m: Mem, p: Pool)
    requires Shape(p) && Mapped(m, p.base, p.size)
    ensures Members(m, p.base, p.freeList)
  {
    hide Tiles, FreeAddrs;
    var lo, hi := p.base + POOL_GENERAL_SIZE, p.base + p.size;
    TilesBounds(p.blocks, lo, hi);
    forall j | 0 <= j < |p.freeList| ensures Room(m, p.base, p.freeList[j]) {
      var k := ListMember(p, j);
      TilesAt(p.blocks, lo, hi, k, k);
    }
    forall j, l | 0 <= j < |p.freeList| && 0 <= l < |p.freeList| && j != l
      ensures Apart(p.freeList[j], p.freeList[l])
    {
      var k := ListMember(p, j);
      var n := ListMember(p, l);
      TilesAt(p.blocks, lo, hi, k, n);
      TilesAt(p.blocks, lo, hi, n, k);
    }
  }

  /** Header writes leave the pool header, the free links, every payload and the rest of memory alone. */
  lemma HeadersQuiet(m: Mem, m': Mem, p: Pool)
    requires Shape(p) && Mapped(m, p.base, p.size) && OnlyHeaders(m, m', p.blocks)
    ensures PoolAt(m', p.base) == PoolAt(m, p.base)
    ensures OutsideSame(m, m', p)
    ensures forall k :: 0 <= k < |p.blocks| ==> PayloadSame(m, m', p.blocks[k])
    ensures ListRep(m, p.base, p.freeList) ==> ListRep(m', p.base, p.freeList)
  {
    hide Tiles, FreeAddrs, PoolAt, LinksAt, HeaderAt, OffHeaders;
    forall x: nat | !(p.base + POOL_GENERAL_SIZE <= x < p.base + p.size) ensures Peek(m', x) == Peek(m, x) {
      OutsideOffHeaders(p, x);
    }
    assert PoolAt(m', p.base) == PoolAt(m, p.base) by { PoolSame(m, m', p.base); }
    forall k | 0 <= k < |p.blocks| ensures PayloadSame(m, m', p.blocks[k]) {
      PayloadKept(m, m', p, k);
    }
    if ListRep(m, p.base, p.freeList) {
      ShapeMembers(m', p);
      forall j | 0 <= j < |p.freeList| ensures LinkOK(m', p.freeList, j) {
        assert LinkOK(m, p.freeList, j);
        var k := ListMember(p, j);
        assert PayloadSame(m, m', p.blocks[k]);
        LinksSame(m, m', p.freeList[j]);
      }
    }
  }

  lemma PayloadKept(m: Mem, m': Mem, p: Pool, k: nat)
    requires Shape(p) && OnlyHeaders(m, m', p.blocks) && k < |p.blocks|
    ensures PayloadSame(m, m', p.blocks[k])
  {
    hide Tiles, FreeAddrs, OffHeaders;
    forall x | p.blocks[k].Payload() <= x < p.blocks[k].End() ensures Peek(m', x) == Peek(m, x) {
      PayloadOffHeaders(p, k, x);
    }
  }

  /** Free-list writes leave every header, every live payload and the rest of memory alone. */
  lemma ListQuiet(m: Mem, m': Mem, p: Pool)
    requires Shape(p) && OnlyList(m, m', p.base, p.freeList)
    ensures forall k {:trigger p.blocks[k]} :: 0 <= k < |p.blocks| ==>
              HeaderAt(m', p.blocks[k].addr) == HeaderAt(m, p.blocks[k].addr)
    ensures LiveSame(m, m', p.blocks)
    ensures OutsideSame(m, m', p)
  {
    hide Tiles, FreeAddrs, PoolAt, HeaderAt, OffList;
    var lo, hi := p.base + POOL_GENERAL_SIZE, p.base + p.size;
    TilesBounds(p.blocks, lo, hi);
    forall k | 0 <= k < |p.blocks| ensures HeaderAt(m', p.blocks[k].addr) == HeaderAt(m, p.blocks[k].addr) {
      forall x | p.blocks[k].addr <= x < p.blocks[k].Payload() ensures Peek(m', x) == Peek(m, x) {
        ListOff(p, k, x);
      }
      HeaderSame(m, m', p.blocks[k].addr);
    }
    forall k | 0 <= k < |p.blocks| && !p.blocks[k].free ensures PayloadSame(m, m', p.blocks[k]) {
      forall x | p.blocks[k].Payload() <= x < p.blocks[k].End() ensures Peek(m', x) == Peek(m, x) {
        ListOff(p, k, x);
      }
    }
    forall x: nat | !(p.base <= x < p.base + p.size) ensures Peek(m', x) == Peek(m, x) {
      ListOffOutside(p, x);
    }
  }

  /** The links lie in the payloads of free blocks only. */
  lemma ListOff(p: Pool, k: nat, x: nat)
    requires Shape(p) && k < |p.blocks| && p.blocks[k].addr <= x < p.blocks[k].End()
    requires x < p.blocks[k].Payload() || !p.blocks[k].free
    ensures OffList(p.base, p.freeList, x)
  {
    hide Tiles, FreeAddrs;
    var lo, hi := p.base + POOL_GENERAL_SIZE, p.base + p.size;
    TilesAt(p.blocks, lo, hi, k, k);
    forall a | a in p.freeList ensures !(a + HEADER_SIZE <= x < a + HEADER_SIZE + LINKS_SIZE) {
      var j :| 0 <= j < |p.freeList| && p.freeList[j] == a;
      var l := ListMember(p, j);
      TilesAt(p.blocks, lo, hi, k, l);
      TilesAt(p.blocks, lo, hi, l, k);
    }
  }

  lemma ListOffOutside(p: Pool, x: nat)
    requires Shape(p) && !(p.base <= x < p.base + p.size)
    ensures OffList(p.base, p.freeList, x)
  {
    hide Tiles, FreeAddrs;
    var lo, hi := p.base + POOL_GENERAL_SIZE, p.base + p.size;
    TilesBounds(p.blocks, lo, hi);
    forall a | a in p.freeList ensures !(a + HEADER_SIZE <= x < a + HEADER_SIZE + LINKS_SIZE) {
      var j :| 0 <= j < |p.freeList| && p.freeList[j] == a;
      var l := ListMember(p, j);
      TilesAt(p.blocks, lo, hi, l, l);
    }
  }

  /** One member of the header of a block of p is written. */
  method SetField(ram: Ram, a: nat, f: HeaderField, v: nat, ghost m: Mem, ghost p: Pool)
    requires Shape(p) && a in Addrs(p.blocks)
    requires ram.mem.Keys == m.Keys && Mapped(m, p.base, p.size)
    requires v < Limit(f.At().width)
    requires OnlyHeaders(m, ram.mem, p.blocks)
    modifies ram`mem
    ensures HeaderAt(ram.mem, a) == HeaderAt(old(ram.mem), a).With(f, v)
    ensures forall c {:trigger HeaderAt(ram.mem, c)} :: c in Addrs(p.blocks) && c != a ==>
              HeaderAt(ram.mem, c) == HeaderAt(old(ram.mem), c)
    ensures ram.mem.Keys == m.Keys
    ensures OnlyHeaders(m, ram.mem, p.blocks)
  {
    hide Tiles, FreeAddrs, HeaderAt, LinksAt, PoolAt, CanaryAt, Limit;
    var lo, hi := p.base + POOL_GENERAL_SIZE, p.base + p.size;
    ghost var k :| 0 <= k < |p.blocks| && p.blocks[k].addr == a;
    TilesAt(p.blocks, lo, hi, k, k);
    ram.SetHeader(a, f, v);
    forall c | c in Addrs(p.blocks) && c != a ensures HeaderAt(ram.mem, c) == HeaderAt(old(ram.mem), c) {
      var l :| 0 <= l < |p.blocks| && p.blocks[l].addr == c;
      TilesAt(p.blocks, lo, hi, k, l);
      TilesAt(p.blocks, lo, hi, l, k);
    }
  }

  /** Every member of the header of a block of p is written. */
  method InitHeader(ram: Ram, a: nat, h: Header, ghost m: Mem, ghost p: Pool)
    requires Shape(p) && a in Addrs(p.blocks)
    requires ram.mem.Keys == m.Keys && Mapped(m, p.base, p.size)
    requires h.size < U64 && h.user < U64 && h.prev < U64 && h.next < U64 && h.pool < U64 && h.magic < U32
             && h.isFree < 256
    requires OnlyHeaders(m, ram.mem, p.blocks)
    modifies ram`mem
    ensures HeaderAt(ram.mem, a) == h
    ensures forall c {:trigger HeaderAt(ram.mem, c)} :: c in Addrs(p.blocks) && c != a ==>
              HeaderAt(ram.mem, c) == HeaderAt(old(ram.mem), c)
    ensures ram.mem.Keys == m.Keys
    ensures OnlyHeaders(m, ram.mem, p.blocks)
  {
    hide Tiles, FreeAddrs, Addrs, HeaderAt, Limit, OnlyHeaders, Shape;
    Limits();
    SetField(ram, a, Size, h.size, m, p);
    SetField(ram, a, User, h.user, m, p);
    SetField(ram, a, IsFree, h.isFree, m, p);
    SetField(ram, a, Next, h.next, m, p);
    SetField(ram, a, Prev, h.prev, m, p);
    SetField(ram, a, Magic, h.magic, m, p);
    SetField(ram, a, PoolPtr, h.pool, m, p);
  }

  /** The header writes of a split. */
  method CutBlock(ram: Ram, block: nat, actual: nat, h: Header, ghost p: Pool, ghost i: nat)
    requires Shape(p) && Rep(ram.mem, p)
    requires i < |p.blocks| && p.blocks[i].addr == block && Splits(p.blocks[i], actual) && h == HeaderAt(ram.mem, block)
    requires Shape(Cut(p, i, actual))
    modifies ram`mem
    ensures Headers(ram.mem, p.base, Cut(p, i, actual).blocks)
    ensures OnlyHeaders(old(ram.mem), ram.mem, Cut(p, i, actual).blocks)
  {
    hide Tiles, FreeAddrs, Addrs, HeaderAt, Limit, OnlyHeaders, ListRep, Shape, Cut;
    ghost var m, q := ram.mem, Cut(p, i, actual);
    var rest := block + HEADER_SIZE + actual;
    CutAddrs(p, i, actual, rest);
    HeaderFacts(m, p, i);
    OnlyHeadersRefl(m, q.blocks);
    hide HeaderAt, Headers, Shape, Cut, Addrs, OnlyHeaders, Mapped, Limit, ListRep;
    InitHeader(ram, rest, Header(h.size - actual - HEADER_SIZE, 0, block, h.next, h.pool, FREED_MAGIC, 1), m, q);
    if h.next != 0 {
      SetField(ram, h.next, Prev, rest, m, q);
    }
    SetField(ram, block, Size, actual, m, q);
    SetField(ram, block, Next, rest, m, q);
    assert CutWritten(m, ram.mem, Addrs(p.blocks), block, actual, rest);
    CutHeaders(m, ram.mem, p, i, actual, rest);
  }

  lemma CutAddrs(p: Pool, i: nat, n: nat, rest: nat)
    requires Shape(p) && i < |p.blocks| && Splits(p.blocks[i], n) && rest == p.blocks[i].addr + HEADER_SIZE + n
    ensures var q := Cut(p, i, n); q.base == p.base && q.size == p.size
    ensures Addrs(Cut(p, i, n).blocks) == Addrs(p.blocks) + {rest}
    ensures rest !in Addrs(p.blocks) && rest < U64
  {
    hide Tiles, FreeAddrs;
    var bs, q := p.blocks, Cut(p, i, n).blocks;
    forall c | c in bs ensures c.addr in Addrs(q) && c.addr != rest {
      var k :| 0 <= k < |bs| && bs[k] == c;
      assert q[if k <= i then k else k + 1].addr == c.addr;
      TilesAt(bs, p.base + POOL_GENERAL_SIZE, p.base + p.size, k, i);
      TilesAt(bs, p.base + POOL_GENERAL_SIZE, p.base + p.size, i, k);
    }
    assert q[i + 1].addr == rest;
    forall c | c in q ensures c.addr in Addrs(p.blocks) + {rest} {
      assert c in bs || c == q[i] || c == q[i + 1];
      assert bs[i] in bs;
    }
    BlockRange(p, i);
  }

  /** What the header of block k says, with the bounds that make its members storable. */
  lemma HeaderFacts(m: Mem, p: Pool, k: nat)
    requires Shape(p) && Headers(m, p.base, p.blocks) && k < |p.blocks|
    ensures HeaderAt(m, p.blocks[k].addr) == HeaderOf(p.base, p.blocks, k)
    ensures p.blocks[k].addr in Addrs(p.blocks)
    ensures 0 < p.blocks[k].addr < U64 && p.blocks[k].size < U64 && p.base < U64
    ensures k + 1 < |p.blocks| ==>
              p.blocks[k + 1].addr in Addrs(p.blocks) && p.blocks[k].addr < p.blocks[k + 1].addr < U64
    ensures k > 0 ==> p.blocks[k - 1].addr in Addrs(p.blocks) && 0 < p.blocks[k - 1].addr < p.blocks[k].addr
    ensures Limit(8) == U64
  {
    hide Tiles, FreeAddrs, HeaderAt;
    Limits();
    assert HeaderOK(m, p.base, p.blocks, k);
    BlockRange(p, k);
    assert p.blocks[k] in p.blocks;
    if k + 1 < |p.blocks| {
      assert p.blocks[k + 1] in p.blocks;
      BlockRange(p, k + 1);
    }
    if k > 0 {
      assert p.blocks[k - 1] in p.blocks;
      BlockRange(p, k - 1);
    }
  }

  /** The headers as the writes of a split leave them. */
  ghost predicate CutWritten(m: Mem, m': Mem, all: set<nat>, a: nat, n: nat, rest: nat) {
    var h := HeaderAt(m, a);
    && h.size >= n + HEADER_SIZE
    && HeaderAt(m', rest) == Header(h.size - n - HEADER_SIZE, 0, a, h.next, h.pool, FREED_MAGIC, 1)
    && HeaderAt(m', a) == h.(size := n, next := rest)
    && (h.next != 0 ==> HeaderAt(m', h.next) == HeaderAt(m, h.next).(prev := rest))
    && (forall c {:trigger HeaderAt(m', c)} :: c in all && c != a && c != h.next ==> HeaderAt(m', c) == HeaderAt(m, c))
  }

  lemma CutAt(p: Pool, i: nat, n: nat)
    requires i < |p.blocks| && Splits(p.blocks[i], n)
    ensures var q := Cut(p, i, n).blocks;
            && |q| == |p.blocks| + 1 && q[i] == p.blocks[i].(size := n) && q[i + 1] == Rest(p.blocks[i], n)
            && (forall k {:trigger q[k]} :: 0 <= k < i ==> q[k] == p.blocks[k])
            && (forall k {:trigger q[k]} :: i + 1 < k < |q| ==> q[k] == p.blocks[k - 1])
  {
  }

  lemma CutHeader(m: Mem, m': Mem, p: Pool, i: nat, n: nat, rest: nat, k: nat)
    requires Shape(p) && Headers(m, p.base, p.blocks)
    requires i < |p.blocks| && Splits(p.blocks[i], n) && k <= |p.blocks|
    requires rest == p.blocks[i].addr + HEADER_SIZE + n
    requires CutWritten(m, m', Addrs(p.blocks), p.blocks[i].addr, n, rest)
    ensures |Cut(p, i, n).blocks| == |p.blocks| + 1
    ensures HeaderOK(m', p.base, Cut(p, i, n).blocks, k)
  {
    hide HeaderAt, Shape, Addrs, Headers, Cut;
    CutAt(p, i, n);
    var l, q := if k <= i then k else k - 1, Cut(p, i, n).blocks;
    HeaderFacts(m, p, i);
    HeaderFacts(m, p, l);
    if l != i && p.blocks[l].addr == p.blocks[i].addr {
      AddrInjective(p, l, i);
    }
    if i + 1 < |p.blocks| && l != i + 1 && p.blocks[l].addr == p.blocks[i + 1].addr {
      AddrInjective(p, l, i + 1);
    }
  }

  lemma CutHeaders(m: Mem, m': Mem, p: Pool, i: nat, n: nat, rest: nat)
    requires Shape(p) && Headers(m, p.base, p.blocks)
    requires i < |p.blocks| && Splits(p.blocks[i], n)
    requires rest == p.blocks[i].addr + HEADER_SIZE + n
    requires CutWritten(m, m', Addrs(p.blocks), p.blocks[i].addr, n, rest)
    ensures Headers(m', p.base, Cut(p, i, n).blocks)
  {
    hide HeaderAt, Shape, CutWritten, HeaderOK;
    assert |Cut(p, i, n).blocks| == |p.blocks| + 1;
    forall k | 0 <= k < |p.blocks| + 1 ensures HeaderOK(m', p.base, Cut(p, i, n).blocks, k) {
      CutHeader(m, m', p, i, n, rest, k);
    }
  }

  method SplitBlockIfPossible(ram: Ram, block: nat, actual: nat, ghost p: Pool, ghost i: nat)
    requires Shape(p) && Rep(ram.mem, p)
    requires i < |p.blocks| && p.blocks[i].addr == block && !p.blocks[i].free
    requires actual >= LINKS_SIZE && actual % ALIGNMENT == 0
    modifies ram`mem
    ensures Rep(ram.mem, Split(p, i, actual))
    ensures LiveSame(old(ram.mem), ram.mem, Split(p, i, actual).blocks)
    ensures OutsideSame(old(ram.mem), ram.mem, p)
  {
    hide Tiles, FreeAddrs, HeaderAt, LinksAt, PoolAt, CanaryAt, OnlyHeaders, OnlyList, Members, Shape, Same;
    ghost var m := ram.mem;
    assert HeaderOK(m, p.base, p.blocks, i);
    BlockRange(p, i);
    var h := ram.ReadHeader(block);
    if h.size >= actual + HEADER_SIZE + MIN_BLOCK_SIZE {
      ghost var q := Cut(p, i, actual);
      SplitShape(p, i, actual);
      CutBlock(ram, block, actual, h, p, i);
      ghost var m1 := ram.mem;
      HeadersQuiet(m, m1, q);
      ShapeMembers(m1, Split(p, i, actual));
      AddToFreeList(ram, h.pool, block + HEADER_SIZE + actual, p.freeList);
      AfterListWrite(m, m1, ram.mem, Split(p, i, actual));
    } else {
      Unchanged(m, p);
    }
  }

  lemma Unchanged(m: Mem, p: Pool)
    ensures LiveSame(m, m, p.blocks) && OutsideSame(m, m, p)
  {
  }

  /** Header writes followed by free-list writes give the pool its new bytes and keep every live payload. */
  lemma AfterListWrite(m: Mem, m1: Mem, m2: Mem, q: Pool)
    requires Shape(q) && Mapped(m, q.base, q.size) && PoolFields(m, q)
    requires m1.Keys == m.Keys && PoolAt(m1, q.base) == PoolAt(m, q.base) && OutsideSame(m, m1, q)
    requires LiveSame(m, m1, q.blocks)
    requires Headers(m1, q.base, q.blocks)
    requires OnlyList(m1, m2, q.base, q.freeList) && ListRep(m2, q.base, q.freeList)
    ensures Rep(m2, q) && LiveSame(m, m2, q.blocks) && OutsideSame(m, m2, q)
  {
    hide Tiles, FreeAddrs, HeaderAt, LinksAt, PoolAt, Shape, Members;
    ListQuiet(m1, m2, q);
    forall k | 0 <= k < |q.blocks| ensures HeaderOK(m2, q.base, q.blocks, k) {
      assert HeaderOK(m1, q.base, q.blocks, k);
    }
    forall b | b in q.blocks && !b.free ensures PayloadSame(m, m2, b) {
      assert PayloadSame(m, m1, b) && PayloadSame(m1, m2, b);
    }
  }

  lemma OnlyHeadersRefl(m: Mem, bs: seq<Block>)
    ensures OnlyHeaders(m, m, bs)
  {
  }

  lemma BlockRange(p: Pool, k: nat)
    requires Shape(p) && k < |p.blocks|
    ensures p.base + POOL_GENERAL_SIZE <= p.blocks[k].addr && p.blocks[k].End() <= p.base + p.size < U64
    ensures Good(p.blocks[k])
    ensures k + 1 < |p.blocks| ==> p.blocks[k].End() == p.blocks[k + 1].addr
  {
    TilesAt(p.blocks, p.base + POOL_GENERAL_SIZE, p.base + p.size, k, if k + 1 < |p.blocks| then k + 1 else k);
  }

  /** The headers as the writes of a merge of the block at a with the block at c behind it leave them. */
  ghost predicate MergeWritten(m: Mem, m': Mem, all: set<nat>, a: nat, c: nat) {
    var h, g := HeaderAt(m, a), HeaderAt(m, c);
    && HeaderAt(m', a) == h.(size := h.size + HEADER_SIZE + g.size, next := g.next)
    && (g.next != 0 ==> HeaderAt(m', g.next) == HeaderAt(m, g.next).(prev := a))
    && (forall b {:trigger HeaderAt(m', b)} ::
          b in all && b != a && b != c && b != g.next ==> HeaderAt(m', b) == HeaderAt(m, b))
  }

  lemma MergeAt(p: Pool, i: nat)
    requires i + 1 < |p.blocks|
    ensures var q := Merge(p, i).blocks;
            && |q| == |p.blocks| - 1
               && q[i] == p.blocks[i].(size := p.blocks[i].size + HEADER_SIZE + p.blocks[i + 1].size)
            && (forall k {:trigger q[k]} :: 0 <= k < i ==> q[k] == p.blocks[k])
            && (forall k {:trigger q[k]} :: i < k < |q| ==> q[k] == p.blocks[k + 1])
  {
  }

  lemma MergeHeader(m: Mem, m': Mem, p: Pool, i: nat, k: nat)
    requires Shape(p) && Headers(m, p.base, p.blocks)
    requires i + 1 < |p.blocks| && k + 1 < |p.blocks|
    requires MergeWritten(m, m', Addrs(p.blocks), p.blocks[i].addr, p.blocks[i + 1].addr)
    ensures |Merge(p, i).blocks| == |p.blocks| - 1
    ensures HeaderOK(m', p.base, Merge(p, i).blocks, k)
  {
    hide HeaderAt, Shape, Addrs, Headers, Merge;
    MergeAt(p, i);
    var l, q := if k <= i then k else k + 1, Merge(p, i).blocks;
    HeaderFacts(m, p, i);
    HeaderFacts(m, p, i + 1);
    HeaderFacts(m, p, l);
    if l != i && p.blocks[l].addr == p.blocks[i].addr {
      AddrInjective(p, l, i);
    }
    if p.blocks[l].addr == p.blocks[i + 1].addr {
      AddrInjective(p, l, i + 1);
    }
    if i + 2 < |p.blocks| && l != i + 2 && p.blocks[l].addr == p.blocks[i + 2].addr {
      AddrInjective(p, l, i + 2);
    }
  }

  lemma MergeHeaders(m: Mem, m': Mem, p: Pool, i: nat)
    requires Shape(p) && Headers(m, p.base, p.blocks) && i + 1 < |p.blocks|
    requires MergeWritten(m, m', Addrs(p.blocks), p.blocks[i].addr, p.blocks[i + 1].addr)
    ensures Headers(m', p.base, Merge(p, i).blocks)
  {
    hide HeaderAt, Shape, MergeWritten, HeaderOK;
    assert |Merge(p, i).blocks| == |p.blocks| - 1;
    forall k | 0 <= k < |p.blocks| - 1 ensures HeaderOK(m', p.base, Merge(p, i).blocks, k) {
      MergeHeader(m, m', p, i, k);
    }
  }

  /** The header writes that make the block at a take over the block at c behind it. */
  method MergeBlocks(ram: Ram, a: nat, c: nat, ghost p: Pool, ghost i: nat)
    requires Shape(p) && Rep(ram.mem, p)
    requires i + 1 < |p.blocks| && p.blocks[i].addr == a && p.blocks[i + 1].addr == c
    modifies ram`mem
    ensures Rep(ram.mem, Merge(p, i))
    ensures OnlyHeaders(old(ram.mem), ram.mem, p.blocks)
    ensures HeaderAt(ram.mem, c) == HeaderAt(old(ram.mem), c)
  {
    hide HeaderAt, Headers, Shape, Merge, Addrs, OnlyHeaders, ListRep, Limit, Mapped, PoolFields, Good, HeaderOK;
    ghost var m, all := ram.mem, Addrs(p.blocks);
    HeaderFacts(m, p, i);
    HeaderFacts(m, p, i + 1);
    BlockRange(p, i);
    BlockRange(p, i + 1);
    HeaderMapped(m, p, i);
    HeaderMapped(m, p, i + 1);
    OnlyHeadersRefl(m, p.blocks);
    var h := ram.ReadHeader(a);
    var g := ram.ReadHeader(c);
    SetField(ram, a, Size, h.size + HEADER_SIZE + g.size, m, p);
    SetField(ram, a, Next, g.next, m, p);
    if g.next != 0 {
      SetField(ram, g.next, Prev, a, m, p);
    }
    MergeRep(m, ram.mem, p, i);
  }

  lemma MergeRep(m: Mem, m': Mem, p: Pool, i: nat)
    requires Shape(p) && Rep(m, p) && i + 1 < |p.blocks|
    requires MergeWritten(m, m', Addrs(p.blocks), p.blocks[i].addr, p.blocks[i + 1].addr)
    requires OnlyHeaders(m, m', p.blocks)
    ensures Rep(m', Merge(p, i))
  {
    hide HeaderAt, PoolAt, Shape, MergeWritten, Headers, ListRep, Addrs;
    MergeHeaders(m, m', p, i);
    HeadersQuiet(m, m', p);
  }

  lemma HeaderMapped(m: Mem, p: Pool, k: nat)
    requires Shape(p) && Mapped(m, p.base, p.size) && k < |p.blocks|
    ensures Mapped(m, p.blocks[k].addr, HEADER_SIZE)
  {
    BlockRange(p, k);
  }

  method CoalesceIfPossible(ram: Ram, block: nat, pool: nat, ghost p: Pool, ghost i: nat) returns (merged: nat)
    requires Shape(p) && Rep(ram.mem, p) && pool == p.base
    requires i < |p.blocks| && p.blocks[i].addr == block && p.blocks[i].free && block !in p.freeList
    requires forall k :: 0 <= k < |p.blocks| && k != i && p.blocks[k].free ==> p.blocks[k].addr in p.freeList
    modifies ram`mem
    ensures Rep(ram.mem, Coalesce(p, i).0)
    ensures merged == p.blocks[Coalesce(p, i).1].addr
    ensures LiveSame(old(ram.mem), ram.mem, p.blocks) && OutsideSame(old(ram.mem), ram.mem, p)
  {
    hide HeaderAt, PoolAt, LinksAt, Headers, Shape, Merge, Addrs, OnlyHeaders, OnlyList, ListRep, Limit, Mapped,
         HeaderOK, Without, Pos;
    ghost var m := ram.mem;
    PoolMapped(m, p);
    HeaderFacts(m, p, i);
    HeaderMapped(m, p, i);
    Unchanged(m, p);
    var h := ram.ReadHeader(block);
    if h.prev != 0 {
      HeaderFacts(m, p, i - 1);
      HeaderMapped(m, p, i - 1);
      var g := ram.ReadHeader(h.prev);
      if g.isFree != 0 && g.magic == FREED_MAGIC {
        UnlinkBlock(ram, pool, h.prev, p);
        MergeAfter(ram, h.prev, block, m, p, Unlink(p, h.prev), i - 1);
        return h.prev;
      }
    }
    if h.next != 0 {
      HeaderFacts(m, p, i + 1);
      HeaderMapped(m, p, i + 1);
      var g := ram.ReadHeader(h.next);
      if g.isFree != 0 && g.magic == FREED_MAGIC {
        BlockRange(p, i + 1);
        var own := ram.ReadPool(pool);
        if h.next >= own.memory && h.next < own.memory + own.size {
          UnlinkBlock(ram, pool, h.next, p);
          MergeAfter(ram, block, h.next, m, p, Unlink(p, h.next), i);
          return block;
        }
      }
    }
    return block;
  }

  lemma PoolMapped(m: Mem, p: Pool)
    requires Shape(p) && Mapped(m, p.base, p.size)
    ensures Mapped(m, p.base, POOL_HEADER_SIZE)
  {
    TilesBounds(p.blocks, p.base + POOL_GENERAL_SIZE, p.base + p.size);
  }

  /** remove_from_free_list for a block given by its address. */
  method UnlinkBlock(ram: Ram, pool: nat, a: nat, ghost p: Pool)
    requires Shape(p) && Rep(ram.mem, p) && pool == p.base && a in p.freeList
    modifies ram`mem
    ensures Shape(Unlink(p, a)) && Rep(ram.mem, Unlink(p, a))
    ensures LiveSame(old(ram.mem), ram.mem, p.blocks) && OutsideSame(old(ram.mem), ram.mem, p)
  {
    hide Tiles, FreeAddrs, HeaderAt, LinksAt, PoolAt, Shape, Members, Without, LiveSame, OutsideSame, LinkOK;
    UnlinkShape(p, a);
    RemoveFromFreeList(ram, pool, a, p.freeList, Pos(p.freeList, a));
    ListQuiet(old(ram.mem), ram.mem, p);
    assert Headers(ram.mem, p.base, p.blocks) by {
      forall k | 0 <= k < |p.blocks| ensures HeaderOK(ram.mem, p.base, p.blocks, k) {
        assert HeaderOK(old(ram.mem), p.base, p.blocks, k);
      }
    }
  }

  /** MergeBlocks on a pool whose live payloads were kept since m. */
  method MergeAfter(ram: Ram, a: nat, c: nat, ghost m: Mem, ghost p: Pool, ghost q: Pool, ghost i: nat)
    requires Shape(q) && Rep(ram.mem, q) && q.blocks == p.blocks && q.base == p.base && q.size == p.size
    requires i + 1 < |p.blocks| && p.blocks[i].addr == a && p.blocks[i + 1].addr == c
    requires LiveSame(m, ram.mem, p.blocks) && OutsideSame(m, ram.mem, p)
    modifies ram`mem
    ensures Rep(ram.mem, Merge(q, i))
    ensures LiveSame(m, ram.mem, p.blocks) && OutsideSame(m, ram.mem, p)
    ensures HeaderAt(ram.mem, c) == HeaderAt(old(ram.mem), c)
  {
    hide Tiles, FreeAddrs, HeaderAt, PoolAt, Shape, ListRep, Headers, Merge;
    ghost var m1 := ram.mem;
    MergeBlocks(ram, a, c, q, i);
    HeadersQuiet(m1, ram.mem, q);
    SameTrans(m, m1, ram.mem, p);
  }

  lemma SameTrans(m: Mem, m1: Mem, m2: Mem, p: Pool)
    requires LiveSame(m, m1, p.blocks) && OutsideSame(m, m1, p)
    requires LiveSame(m1, m2, p.blocks) && OutsideSame(m1, m2, p)
    ensures LiveSame(m, m2, p.blocks) && OutsideSame(m, m2, p)
  {
    forall b | b in p.blocks && !b.free ensures PayloadSame(m, m2, b) {
      assert PayloadSame(m, m1, b) && PayloadSame(m1, m2, b);
    }
  }

  method SearchInFreeList(ram: Ram, pool: nat, actual: nat, ghost p: Pool) returns (block: nat, ghost i: nat)
    requires Shape(p) && Rep(ram.mem, p) && pool == p.base
    modifies ram`mem
    ensures block == 0 ==> ram.mem == old(ram.mem) && FirstFit(p.blocks, p.freeList, actual) == |p.freeList|
    ensures block != 0 ==>
              && FirstFit(p.blocks, p.freeList, actual) < |p.freeList|
              && block == p.freeList[FirstFit(p.blocks, p.freeList, actual)]
              && i < |p.blocks| && p.blocks[i].addr == block && p.blocks[i].free && p.blocks[i].size >= actual
              && Shape(Unlink(p, block)) && Rep(ram.mem, Unlink(p, block))
    ensures LiveSame(old(ram.mem), ram.mem, p.blocks) && OutsideSame(old(ram.mem), ram.mem, p)
  {
    hide Tiles, FreeAddrs, HeaderAt, LinksAt, PoolAt, Without, LiveSame, OutsideSame, Spaced, Headers, PoolFields,
         Distinct;
    Unchanged(ram.mem, p);
    PoolMapped(ram.mem, p);
    i := 0;
    var own := ram.ReadPool(pool);
    var current := own.freeList;
    ghost var j := 0;
    while current != 0
      invariant ram.mem == old(ram.mem)
      invariant j <= |p.freeList| && current == (if j < |p.freeList| then p.freeList[j] else 0)
      invariant forall l {:trigger p.freeList[l]} :: 0 <= l < j ==> SizeAt(p.blocks, p.freeList[l]) < actual
      decreases |p.freeList| - j
    {
      i := ListMember(p, j);
      HeaderFacts(ram.mem, p, i);
      HeaderMapped(ram.mem, p, i);
      SizeAtBlock(p.blocks, p.base + POOL_GENERAL_SIZE, p.base + p.size, i);
      var h := ram.ReadHeader(current);
      if h.size >= actual {
        assert FirstFit(p.blocks, p.freeList, actual) == j;
        UnlinkBlock(ram, pool, current, p);
        return current, i;
      }
      assert Room(ram.mem, p.base, p.freeList[j]) && LinkOK(ram.mem, p.freeList, j);
      var l := ram.ReadLinks(current);
      current := l.next;
      j := j + 1;
      assert j < |p.freeList| ==> Room(ram.mem, p.base, p.freeList[j]);
    }
    return 0, 0;
  }

  ghost predicate CanaryOK(m: Mem, b: Block) {
    CanaryAt(m, b.Payload() + b.user) == CANARY_VALUE
  }

  /** The canary behind the user bytes of every live block is intact. */
  ghost predicate Canaries(m: Mem, bs: seq<Block>) {
    forall b {:trigger CanaryOK(m, b)} :: b in bs && !b.free ==> CanaryOK(m, b)
  }

  /**
   * A pool between two operations: its model is in order, its bytes are those of the model and the canaries are
   * intact.
   */
  ghost predicate Image(m: Mem, p: Pool) {
    WF(p) && Rep(m, p) && Canaries(m, p.blocks)
  }

  lemma CanaryKept(m: Mem, m': Mem, b: Block)
    requires PayloadSame(m, m', b) && b.user + CANARY_SIZE <= b.size && CanaryOK(m, b)
    ensures CanaryOK(m', b)
  {
    GetSame(m, m', b.Payload() + b.user, CANARY);
  }

  /** The header of block i now describes b, which has the same place and size. */
  lemma PutRep(m: Mem, m': Mem, p: Pool, i: nat, b: Block)
    requires Shape(p) && Rep(m, p) && i < |p.blocks|
    requires b.addr == p.blocks[i].addr && b.size == p.blocks[i].size
    requires OnlyHeaders(m, m', p.blocks)
    requires HeaderAt(m', b.addr) == HeaderOf(p.base, Put(p, i, b).blocks, i)
    requires forall c {:trigger HeaderAt(m', c)} ::
               c in Addrs(p.blocks) && c != b.addr ==> HeaderAt(m', c) == HeaderAt(m, c)
    ensures Rep(m', Put(p, i, b))
    ensures LiveSame(m, m', p.blocks) && OutsideSame(m, m', p)
  {
    hide Tiles, FreeAddrs, HeaderAt, PoolAt, LinksAt, ListRep, OnlyHeaders;
    HeadersQuiet(m, m', p);
    forall k | 0 <= k < |p.blocks| ensures HeaderOK(m', p.base, Put(p, i, b).blocks, k) {
      assert HeaderOK(m, p.base, p.blocks, k) && p.blocks[k] in p.blocks;
      if k != i && p.blocks[k].addr == b.addr {
        AddrInjective(p, k, i);
      }
    }
  }

  /** Bytes of the payload of the live block i may be overwritten without harm to the pool or its other live blocks. */
  lemma PayloadQuiet(m: Mem, m': Mem, p: Pool, i: nat)
    requires Shape(p) && Rep(m, p) && i < |p.blocks| && !p.blocks[i].free
    requires OnlyAt(m, m', p.blocks[i].Payload(), p.blocks[i].size)
    ensures Rep(m', p) && OutsideSame(m, m', p)
    ensures PoolAt(m', p.base) == PoolAt(m, p.base)
    ensures forall b :: b in p.blocks && !b.free && b != p.blocks[i] ==> PayloadSame(m, m', b)
  {
    hide Tiles, FreeAddrs, HeaderAt, PoolAt, LinksAt;
    var lo, hi := p.base + POOL_GENERAL_SIZE, p.base + p.size;
    BlockRange(p, i);
    PoolSame(m, m', p.base);
    forall k | 0 <= k < |p.blocks| ensures HeaderOK(m', p.base, p.blocks, k) {
      assert HeaderOK(m, p.base, p.blocks, k);
      TilesAt(p.blocks, lo, hi, i, k);
      TilesAt(p.blocks, lo, hi, k, i);
      HeaderSame(m, m', p.blocks[k].addr);
    }
    forall j | 0 <= j < |p.freeList| ensures LinkOK(m', p.freeList, j) {
      assert LinkOK(m, p.freeList, j);
      var k := ListMember(p, j);
      TilesAt(p.blocks, lo, hi, i, k);
      TilesAt(p.blocks, lo, hi, k, i);
      LinksSame(m, m', p.freeList[j]);
    }
    ShapeMembers(m', p);
    forall b | b in p.blocks && !b.free && b != p.blocks[i] ensures PayloadSame(m, m', b) {
      var k :| 0 <= k < |p.blocks| && p.blocks[k] == b;
      TilesAt(p.blocks, lo, hi, i, k);
      TilesAt(p.blocks, lo, hi, k, i);
    }
  }
}
