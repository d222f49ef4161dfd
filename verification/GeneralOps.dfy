/** malloc, free and realloc on one general pool in memory. */
module GeneralOps {
  import opened Bytes
  import opened Layout
  import opened Machine
  import opened FreeList
  import opened PoolModel
  import opened GeneralPool

  /** The live blocks other than the one at a keep their payloads. */
  ghost predicate OthersSame(m: Mem, m': Mem, bs: seq<Block>, a: nat) {
    forall b {:trigger PayloadSame(m, m', b)} :: b in bs && !b.free && b.addr != a ==> PayloadSame(m, m', b)
  }

  method WriteUserSize(ram: Ram, block: nat, size: nat, ghost p: Pool, ghost i: nat)
    requires Shape(p) && Rep(ram.mem, p) && i < |p.blocks| && p.blocks[i].addr == block && !p.blocks[i].free
    requires size < U64
    modifies ram`mem
    ensures Shape(SetUser(p, i, size)) && Rep(ram.mem, SetUser(p, i, size))
    ensures LiveSame(old(ram.mem), ram.mem, p.blocks) && OutsideSame(old(ram.mem), ram.mem, p)
  {
    hide Tiles, HeaderAt, LinksAt, PoolAt, ListRep, OnlyHeaders, LiveSame, OutsideSame, Addrs, FreeAddrs, Limit;
    ghost var m := ram.mem;
    HeaderFacts(m, p, i);
    OnlyHeadersRefl(m, p.blocks);
    FreeAt(p, i);
    PutShape(p, i, p.blocks[i].(user := size));
    SetField(ram, block, User, size, m, p);
    PutRep(m, ram.mem, p, i, p.blocks[i].(user := size));
  }

  method WriteCanary(ram: Ram, ptr: nat, size: nat, ghost p: Pool, ghost i: nat)
    requires Shape(p) && Rep(ram.mem, p) && i < |p.blocks| && p.blocks[i].Payload() == ptr && !p.blocks[i].free
    requires size + CANARY_SIZE <= p.blocks[i].size
    modifies ram`mem
    ensures Rep(ram.mem, p) && CanaryAt(ram.mem, ptr + size) == CANARY_VALUE
    ensures OthersSame(old(ram.mem), ram.mem, p.blocks, p.blocks[i].addr) && OutsideSame(old(ram.mem), ram.mem, p)
    ensures Same(old(ram.mem), ram.mem, ptr, size)
  {
    hide Tiles, HeaderAt, LinksAt, PoolAt, Get, Limit, Rep, FreeAddrs;
    Limits();
    CanaryMapped(ram.mem, p, i, size);
    ram.Write(ptr + size, CANARY, CANARY_VALUE);
    PayloadQuiet(old(ram.mem), ram.mem, p, i);
  }

  lemma CanaryMapped(m: Mem, p: Pool, i: nat, size: nat)
    requires Shape(p) && Rep(m, p) && i < |p.blocks| && size + CANARY_SIZE <= p.blocks[i].size
    ensures Mapped(m, p.blocks[i].Payload() + size, CANARY_SIZE)
  {
    hide Tiles, HeaderAt, LinksAt, PoolAt;
    BlockRange(p, i);
  }

  /** is_free and magic of a block taken off the free list. */
  method MarkLive(ram: Ram, block: nat, ghost p: Pool, ghost i: nat)
    requires Shape(p) && Rep(ram.mem, p) && i < |p.blocks| && p.blocks[i].addr == block && block !in p.freeList
    modifies ram`mem
    ensures Shape(Put(p, i, p.blocks[i].(free := false))) && Rep(ram.mem, Put(p, i, p.blocks[i].(free := false)))
    ensures LiveSame(old(ram.mem), ram.mem, p.blocks) && OutsideSame(old(ram.mem), ram.mem, p)
  {
    hide Tiles, HeaderAt, LinksAt, PoolAt, ListRep, OnlyHeaders, LiveSame, OutsideSame, Addrs, FreeAddrs, Limit;
    ghost var m := ram.mem;
    Limits();
    HeaderFacts(m, p, i);
    OnlyHeadersRefl(m, p.blocks);
    PutShape(p, i, p.blocks[i].(free := false));
    SetField(ram, block, IsFree, 0, m, p);
    SetField(ram, block, Magic, BLOCK_MAGIC, m, p);
    PutRep(m, ram.mem, p, i, p.blocks[i].(free := false));
  }

  /** magic and is_free of a block that is freed. */
  method MarkFree(ram: Ram, block: nat, ghost p: Pool, ghost i: nat)
    requires Shape(p) && Rep(ram.mem, p) && i < |p.blocks| && p.blocks[i].addr == block
    modifies ram`mem
    ensures Shape(Put(p, i, p.blocks[i].(free := true))) && Rep(ram.mem, Put(p, i, p.blocks[i].(free := true)))
    ensures LiveSame(old(ram.mem), ram.mem, p.blocks) && OutsideSame(old(ram.mem), ram.mem, p)
  {
    hide Tiles, HeaderAt, LinksAt, PoolAt, ListRep, OnlyHeaders, LiveSame, OutsideSame, Addrs, FreeAddrs, Limit;
    ghost var m := ram.mem;
    Limits();
    HeaderFacts(m, p, i);
    OnlyHeadersRefl(m, p.blocks);
    PutShape(p, i, p.blocks[i].(free := true));
    SetField(ram, block, Magic, FREED_MAGIC, m, p);
    SetField(ram, block, IsFree, 1, m, p);
    PutRep(m, ram.mem, p, i, p.blocks[i].(free := true));
  }

  lemma PutOthers(p: Pool, i: nat, c: Block, b: Block)
    requires i < |p.blocks| && c.addr == p.blocks[i].addr && b.addr != c.addr
    ensures b in Put(p, i, c).blocks <==> b in p.blocks
  {
    if b in p.blocks {
      var k :| 0 <= k < |p.blocks| && p.blocks[k] == b;
      assert Put(p, i, c).blocks[k] == b;
    }
  }

  lemma SplitOthers(p: Pool, i: nat, n: nat, b: Block)
    requires i < |p.blocks| && b.addr != p.blocks[i].addr
    ensures b in p.blocks ==> b in Split(p, i, n).blocks
    ensures b in Split(p, i, n).blocks && !b.free ==> b in p.blocks
  {
    var q := Split(p, i, n);
    if b in p.blocks {
      var k :| 0 <= k < |p.blocks| && p.blocks[k] == b;
      assert q.blocks[if k < i || !Splits(p.blocks[i], n) then k else k + 1] == b;
    }
  }

  lemma MallocOthers(p: Pool, i: nat, size: nat, b: Block)
    requires i < |p.blocks| && p.blocks[i].addr in p.freeList && b.addr != p.blocks[i].addr
    requires ActualSize(size) <= p.blocks[i].size && p.blocks[i].size % ALIGNMENT == 0
    ensures var p3 := Split(Put(Unlink(p, p.blocks[i].addr), i, p.blocks[i].(free := false)), i, ActualSize(size));
            (b in p.blocks ==> b in p3.blocks) && (b in p.blocks ==> b in Malloc(p, i, size).blocks)
    ensures b in Malloc(p, i, size).blocks && !b.free ==> b in p.blocks
  {
    hide Without, Pos, Split, AlignUp, Put;
    var n, c := ActualSize(size), p.blocks[i].(free := false);
    var p1 := Unlink(p, p.blocks[i].addr);
    SizesRound(size);
    PutOthers(p1, i, c, b);
    var p2 := Put(p1, i, c);
    assert p2.blocks[i] == c && p1.blocks == p.blocks by { PutAt(p1, i, c); }
    SplitOthers(p2, i, n, b);
    SplitBlocks(p2, i, n);
    var p3 := Split(p2, i, n);
    PutOthers(p3, i, p3.blocks[i].(user := size), b);
  }

  lemma PutAt(p: Pool, i: nat, c: Block)
    requires i < |p.blocks|
    ensures |Put(p, i, c).blocks| == |p.blocks| && Put(p, i, c).blocks[i] == c
  {
  }

  /** The rest of malloc, once a free block was found and taken off the list. */
  method UseBlock(ram: Ram, block: nat, size: nat, ghost p: Pool, ghost i: nat) returns (ptr: nat)
    requires WF(p) && i < |p.blocks| && p.blocks[i].addr == block && block in p.freeList
    requires Rep(ram.mem, Unlink(p, block)) && Canaries(ram.mem, p.blocks)
    requires ActualSize(size) <= p.blocks[i].size
    modifies ram`mem
    ensures ptr == p.blocks[i].Payload()
    ensures Image(ram.mem, Malloc(p, i, size))
    ensures LiveSame(old(ram.mem), ram.mem, p.blocks) && OutsideSame(old(ram.mem), ram.mem, p)
  {
    hide Tiles, HeaderAt, LinksAt, PoolAt, CanaryAt, Rep, OnlyHeaders, Addrs, FreeAddrs, Limit, Shape, Without, Pos,
         AlignUp, Split, PayloadSame;
    ghost var m, n := ram.mem, ActualSize(size);
    ghost var p1 := Unlink(p, block);
    ghost var p2 := Put(p1, i, p.blocks[i].(free := false));
    ghost var p3 := Split(p2, i, n);
    MallocWF(p, i, size);
    SizesRound(size);
    BlockRange(p, i);
    UnlinkShape(p, block);
    MarkLive(ram, block, p1, i);
    ghost var m1 := ram.mem;
    SplitBlockIfPossible(ram, block, AlignUp(AlignUp(size, ALIGNMENT) + CANARY_SIZE, ALIGNMENT), p2, i);
    ghost var m2 := ram.mem;
    SplitShape(p2, i, n);
    SplitBlocks(p2, i, n);
    WriteUserSize(ram, block, size, p3, i);
    ghost var m3 := ram.mem;
    ptr := block + HEADER_SIZE;
    WriteCanary(ram, ptr, size, Malloc(p, i, size), i);
    MallocKeeps(m, m1, m2, m3, ram.mem, p, i, size);
  }

  lemma MallocKeeps(m: Mem, m1: Mem, m2: Mem, m3: Mem, m4: Mem, p: Pool, i: nat, size: nat)
    requires WF(p) && i < |p.blocks| && p.blocks[i].addr in p.freeList && ActualSize(size) <= p.blocks[i].size
    requires LiveSame(m, m1, p.blocks)
    requires var p3 := Split(Put(Unlink(p, p.blocks[i].addr), i, p.blocks[i].(free := false)), i, ActualSize(size));
             LiveSame(m1, m2, p3.blocks) && LiveSame(m2, m3, p3.blocks)
    requires OthersSame(m3, m4, Malloc(p, i, size).blocks, p.blocks[i].addr)
    requires Canaries(m, p.blocks) && CanaryAt(m4, p.blocks[i].Payload() + size) == CANARY_VALUE
    ensures LiveSame(m, m4, p.blocks)
    ensures Canaries(m4, Malloc(p, i, size).blocks)
  {
    hide Tiles, CanaryAt, FreeAddrs, Without, Pos, Split, AlignUp, Malloc, PayloadSame;
    FreeAt(p, i);
    MallocWF(p, i, size);
    forall b | b in p.blocks && !b.free ensures PayloadSame(m, m4, b) {
      var k :| 0 <= k < |p.blocks| && p.blocks[k] == b;
      if b.addr == p.blocks[i].addr {
        AddrInjective(p, k, i);
      }
      assert Good(p.blocks[i]);
      MallocOthers(p, i, size, b);
      assert PayloadSame(m, m1, b) && PayloadSame(m1, m2, b) && PayloadSame(m2, m3, b) && PayloadSame(m3, m4, b);
      PayloadTrans(m, m1, m2, b);
      PayloadTrans(m, m2, m3, b);
      PayloadTrans(m, m3, m4, b);
    }
    forall b | b in Malloc(p, i, size).blocks && !b.free ensures CanaryOK(m4, b) {
      if b.addr == p.blocks[i].addr {
        var q := Malloc(p, i, size);
        var k :| 0 <= k < |q.blocks| && q.blocks[k] == b;
        AddrInjective(q, k, i);
      } else {
        assert Good(p.blocks[i]);
        MallocOthers(p, i, size, b);
        assert Snug(b) && CanaryOK(m, b);
        CanaryKept(m, m4, b);
      }
    }
  }

  lemma PayloadTrans(m: Mem, m1: Mem, m2: Mem, b: Block)
    requires PayloadSame(m, m1, b) && PayloadSame(m1, m2, b)
    ensures PayloadSame(m, m2, b)
  {
  }

  /** The steps that end both in-place cases of realloc: user_size, the canary and the split. */
  method Settle(ram: Ram, block: nat, ptr: nat, size: nat, ghost p: Pool, ghost i: nat)
    requires Shape(p) && Indexed(p) && Rep(ram.mem, p)
    requires i < |p.blocks| && p.blocks[i].addr == block && ptr == block + HEADER_SIZE && !p.blocks[i].free
    requires ResizedSize(size) <= p.blocks[i].size
    requires forall k :: 0 <= k < |p.blocks| && k != i ==> Snug(p.blocks[k])
    requires forall b :: b in p.blocks && !b.free && b.addr != block ==> CanaryOK(ram.mem, b)
    modifies ram`mem
    ensures Image(ram.mem, Shrink(p, i, size))
    ensures OthersSame(old(ram.mem), ram.mem, p.blocks, block) && Same(old(ram.mem), ram.mem, ptr, size)
    ensures OutsideSame(old(ram.mem), ram.mem, p)
  {
    hide Tiles, HeaderAt, LinksAt, PoolAt, CanaryAt, Rep, OnlyHeaders, Addrs, FreeAddrs, Limit, Shape, Without, Pos,
         AlignUp, Split, PayloadSame, Same, LiveSame, OthersSame, Snug, CanaryOK;
    ghost var m, n := ram.mem, ResizedSize(size);
    ghost var p1 := SetUser(p, i, size);
    SizesRound(size);
    BlockRange(p, i);
    WriteUserSize(ram, block, size, p, i);
    ghost var m1 := ram.mem;
    WriteCanary(ram, ptr, size, p1, i);
    ghost var m2 := ram.mem;
    SplitBlockIfPossible(ram, block, AlignUp(size + CANARY_SIZE, ALIGNMENT), p1, i);
    SettleWF(p, i, n, size);
    SettleKeeps(m, m1, m2, ram.mem, p, i, size);
  }

  lemma ShrinkOthers(p: Pool, i: nat, size: nat, b: Block)
    requires i < |p.blocks| && b.addr != p.blocks[i].addr
    ensures b in p.blocks ==> b in SetUser(p, i, size).blocks && b in Shrink(p, i, size).blocks
    ensures b in Shrink(p, i, size).blocks && !b.free ==> b in p.blocks
  {
    hide Split, AlignUp;
    PutOthers(p, i, p.blocks[i].(user := size), b);
    SplitOthers(SetUser(p, i, size), i, ResizedSize(size), b);
  }

  lemma SettleKeeps(m: Mem, m1: Mem, m2: Mem, m3: Mem, p: Pool, i: nat, size: nat)
    requires Shape(p) && Indexed(p) && i < |p.blocks| && !p.blocks[i].free && ResizedSize(size) <= p.blocks[i].size
    requires forall k :: 0 <= k < |p.blocks| && k != i ==> Snug(p.blocks[k])
    requires forall b :: b in p.blocks && !b.free && b.addr != p.blocks[i].addr ==> CanaryOK(m, b)
    requires LiveSame(m, m1, p.blocks)
    requires OthersSame(m1, m2, SetUser(p, i, size).blocks, p.blocks[i].addr)
    requires Same(m1, m2, p.blocks[i].Payload(), size)
    requires CanaryAt(m2, p.blocks[i].Payload() + size) == CANARY_VALUE
    requires LiveSame(m2, m3, Shrink(p, i, size).blocks)
    ensures OthersSame(m, m3, p.blocks, p.blocks[i].addr) && Same(m, m3, p.blocks[i].Payload(), size)
    ensures Canaries(m3, Shrink(p, i, size).blocks)
  {
    hide Tiles, CanaryAt, FreeAddrs, Without, Pos, Split, AlignUp, PayloadSame, Tiles;
    SizesRound(size);
    SettleWF(p, i, ResizedSize(size), size);
    var q := Shrink(p, i, size);
    forall b | b in p.blocks && !b.free && b.addr != p.blocks[i].addr ensures PayloadSame(m, m3, b) {
      ShrinkOthers(p, i, size, b);
      assert PayloadSame(m, m1, b) && PayloadSame(m1, m2, b) && PayloadSame(m2, m3, b);
      PayloadTrans(m, m1, m2, b);
      PayloadTrans(m, m2, m3, b);
    }
    forall b | b in q.blocks && !b.free ensures CanaryOK(m3, b) {
      if b.addr == p.blocks[i].addr {
        var k :| 0 <= k < |q.blocks| && q.blocks[k] == b;
        AddrInjective(q, k, i);
        assert PayloadSame(m2, m3, b);
        CanaryKept(m2, m3, b);
      } else {
        ShrinkOthers(p, i, size, b);
        assert CanaryOK(m, b);
        var k :| 0 <= k < |p.blocks| && p.blocks[k] == b;
        assert Snug(p.blocks[k]);
        CanaryKept(m, m3, b);
      }
    }
    PrefixKept(m, m1, m2, m3, p, i, size);
  }

  lemma PrefixKept(m: Mem, m1: Mem, m2: Mem, m3: Mem, p: Pool, i: nat, size: nat)
    requires Shape(p) && Indexed(p) && i < |p.blocks| && !p.blocks[i].free && ResizedSize(size) <= p.blocks[i].size
    requires forall k :: 0 <= k < |p.blocks| && k != i ==> Snug(p.blocks[k])
    requires LiveSame(m, m1, p.blocks) && Same(m1, m2, p.blocks[i].Payload(), size)
    requires LiveSame(m2, m3, Shrink(p, i, size).blocks)
    ensures Same(m, m3, p.blocks[i].Payload(), size)
  {
    hide Tiles, FreeAddrs, Split, AlignUp, Distinct;
    SizesRound(size);
    SettleWF(p, i, ResizedSize(size), size);
    var q := Shrink(p, i, size);
    assert p.blocks[i] in p.blocks && PayloadSame(m, m1, p.blocks[i]);
    assert q.blocks[i] in q.blocks && PayloadSame(m2, m3, q.blocks[i]);
  }

  /** Clear magic and the links of the header at c, which now lies inside the payload of the live block i. */
  method ForgetHeader(ram: Ram, c: nat, ghost p: Pool, ghost i: nat)
    requires Shape(p) && Rep(ram.mem, p) && i < |p.blocks| && !p.blocks[i].free
    requires p.blocks[i].Payload() <= c && c + HEADER_SIZE <= p.blocks[i].End()
    modifies ram`mem
    ensures Rep(ram.mem, p) && OutsideSame(old(ram.mem), ram.mem, p)
    ensures OthersSame(old(ram.mem), ram.mem, p.blocks, p.blocks[i].addr)
    ensures Same(old(ram.mem), ram.mem, p.blocks[i].Payload(), c - p.blocks[i].Payload())
  {
    hide Tiles, FreeAddrs, HeaderAt, LinksAt, PoolAt, CanaryAt, Limit, ListRep, Headers, PoolFields;
    Limits();
    ghost var m := ram.mem;
    BlockRange(p, i);
    ram.SetHeader(c, Magic, 0);
    ram.SetHeader(c, Next, 0);
    ram.SetHeader(c, Prev, 0);
    PayloadQuiet(m, ram.mem, p, i);
  }

  /** The second in-place case: the free block behind is unlinked and merged, then the block is sized. */
  method AbsorbNext(ram: Ram, pool: nat, ptr: nat, size: nat, block: nat, next: nat, ghost p: Pool, ghost i: nat)
    requires Image(ram.mem, p) && pool == p.base
    requires i + 1 < |p.blocks| && p.blocks[i].addr == block && ptr == block + HEADER_SIZE && !p.blocks[i].free
    requires p.blocks[i + 1].addr == next && p.blocks[i + 1].free && next in p.freeList
    requires ResizedSize(size) <= p.blocks[i].size + HEADER_SIZE + p.blocks[i + 1].size
    modifies ram`mem
    ensures Image(ram.mem, Absorb(p, i, size))
    ensures Same(old(ram.mem), ram.mem, ptr, if size < p.blocks[i].user then size else p.blocks[i].user)
    ensures OthersSame(old(ram.mem), ram.mem, p.blocks, block) && OutsideSame(old(ram.mem), ram.mem, p)
  {
    hide Tiles, HeaderAt, LinksAt, PoolAt, CanaryAt, OnlyHeaders, Addrs, FreeAddrs, Limit, Without, Pos, AlignUp, Rep,
         Split, PayloadSame, CanaryOK, Mapped, Same, Merge, LiveSame, OthersSame, Shape, Snug, Shrink;
    ghost var m, p2 := ram.mem, Merge(Unlink(p, next), i);
    AbsorbShape(p, i);
    BlockRange(p, i);
    UnlinkBlock(ram, pool, next, p);
    MergeAfter(ram, block, next, m, p, Unlink(p, next), i);
    ghost var m2 := ram.mem;
    ForgetHeader(ram, next, p2, i);
    ghost var m3 := ram.mem;
    AbsorbOthers(m, m2, m3, p, i);
    Settle(ram, block, ptr, size, p2, i);
    AbsorbKeeps(m, m2, m3, ram.mem, p, i, size);
  }

  /** The other live blocks, and their canaries, come through the merge. */
  lemma AbsorbOthers(m: Mem, m2: Mem, m3: Mem, p: Pool, i: nat)
    requires WF(p) && Canaries(m, p.blocks)
    requires i + 1 < |p.blocks| && !p.blocks[i].free && p.blocks[i + 1].free && p.blocks[i + 1].addr in p.freeList
    requires LiveSame(m, m2, p.blocks)
    requires OthersSame(m2, m3, Merge(Unlink(p, p.blocks[i + 1].addr), i).blocks, p.blocks[i].addr)
    ensures var q := Merge(Unlink(p, p.blocks[i + 1].addr), i);
            && (forall k :: 0 <= k < |q.blocks| && k != i ==> Snug(q.blocks[k]))
            && (forall b :: b in q.blocks && !b.free && b.addr != p.blocks[i].addr ==> CanaryOK(m3, b))
    ensures OthersSame(m, m3, p.blocks, p.blocks[i].addr)
  {
    hide Tiles, FreeAddrs, Distinct, Without, Pos, Merge, PayloadSame, CanaryOK, Good;
    AbsorbShape(p, i);
    var q := Merge(Unlink(p, p.blocks[i + 1].addr), i);
    forall b | b in p.blocks && !b.free && b.addr != p.blocks[i].addr
      ensures PayloadSame(m, m3, b) && CanaryOK(m3, b)
    {
      assert PayloadSame(m, m2, b) && PayloadSame(m2, m3, b) && CanaryOK(m, b) && Snug(b);
      PayloadTrans(m, m2, m3, b);
      CanaryKept(m, m3, b);
    }
    forall b | b in q.blocks && !b.free && b.addr != p.blocks[i].addr ensures CanaryOK(m3, b) {
      var k :| 0 <= k < |q.blocks| && q.blocks[k] == b;
      assert b in p.blocks;
    }
  }

  lemma AbsorbKeeps(m: Mem, m2: Mem, m3: Mem, m4: Mem, p: Pool, i: nat, size: nat)
    requires WF(p)
    requires i + 1 < |p.blocks| && !p.blocks[i].free && p.blocks[i + 1].free && p.blocks[i + 1].addr in p.freeList
    requires LiveSame(m, m2, p.blocks) && OthersSame(m, m3, p.blocks, p.blocks[i].addr)
    requires Same(m2, m3, p.blocks[i].Payload(), p.blocks[i].size) && Same(m3, m4, p.blocks[i].Payload(), size)
    requires OthersSame(m3, m4, Merge(Unlink(p, p.blocks[i + 1].addr), i).blocks, p.blocks[i].addr)
    ensures OthersSame(m, m4, p.blocks, p.blocks[i].addr)
    ensures Same(m, m4, p.blocks[i].Payload(), if size < p.blocks[i].user then size else p.blocks[i].user)
  {
    hide Tiles, FreeAddrs, Distinct, Without, Pos, Merge, Good;
    AbsorbShape(p, i);
    assert p.blocks[i] in p.blocks && PayloadSame(m, m2, p.blocks[i]) && Snug(p.blocks[i]);
    forall b | b in p.blocks && !b.free && b.addr != p.blocks[i].addr ensures PayloadSame(m, m4, b) {
      assert PayloadSame(m, m3, b) && PayloadSame(m3, m4, b);
      PayloadTrans(m, m3, m4, b);
    }
  }

  /** The in-place part of realloc: shrink, else take over a free block behind; false when the caller has to copy. */
  method ReallocInPlace(ram: Ram, ptr: nat, size: nat, block: nat, ghost p: Pool, ghost i: nat) returns (done: bool)
    requires Image(ram.mem, p) && size <= MAX_RESIZE
    requires i < |p.blocks| && p.blocks[i].addr == block && ptr == block + HEADER_SIZE && !p.blocks[i].free
    modifies ram`mem
    ensures done <==> InPlace(p, i, size)
    ensures !done ==> ram.mem == old(ram.mem)
    ensures done ==> i + 1 < |p.blocks| && p.blocks[i + 1].free ==> p.blocks[i + 1].addr in p.freeList
    ensures done ==> Image(ram.mem, Resize(p, i, size))
    ensures done ==> Same(old(ram.mem), ram.mem, ptr, if size < p.blocks[i].user then size else p.blocks[i].user)
    ensures OthersSame(old(ram.mem), ram.mem, p.blocks, block) && OutsideSame(old(ram.mem), ram.mem, p)
  {
    hide Tiles, HeaderAt, LinksAt, PoolAt, CanaryAt, ListRep, Headers, OnlyHeaders, Addrs, FreeAddrs, Limit, Without,
         Pos, AlignUp, ResizedSize, ResizedSize64, Split, Snug, CanaryOK, Mapped, Absorb, Shrink, Distinct;
    ghost var m := ram.mem;
    PoolMapped(m, p);
    HeaderFacts(m, p, i);
    HeaderMapped(m, p, i);
    if i + 1 < |p.blocks| {
      FreeAt(p, i + 1);
      HeaderFacts(m, p, i + 1);
      HeaderMapped(m, p, i + 1);
    }
    ResizeFits(size);
    var needed := ResizedSize64(size);
    var h := ram.ReadHeader(block);
    var own := ram.ReadPool(h.pool);
    var quarantine := own.readOnly != 0;
    if h.size >= needed && !quarantine {
      StartSettle(m, p, i);
      Settle(ram, block, ptr, size, p, i);
      return true;
    }
    if h.next != 0 {
      var g := ram.ReadHeader(h.next);
      if g.isFree != 0 && !quarantine {
        var available := h.size + HEADER_SIZE + g.size;
        if available >= needed {
          AbsorbNext(ram, h.pool, ptr, size, block, h.next, p, i);
          return true;
        }
      }
    }
    return false;
  }

  /** The guards of the in-place cases alone. */
  method FitsInBlock(ram: Ram, block: nat, size: nat, ghost p: Pool, ghost i: nat) returns (fits: bool)
    requires Image(ram.mem, p) && size <= MAX_RESIZE
    requires i < |p.blocks| && p.blocks[i].addr == block
    ensures fits <==> InPlace(p, i, size)
  {
    hide Tiles, HeaderAt, LinksAt, PoolAt, CanaryAt, ListRep, Headers, FreeAddrs, AlignUp, ResizedSize, ResizedSize64,
         Snug, CanaryOK, Mapped, Distinct;
    ghost var m := ram.mem;
    PoolMapped(m, p);
    HeaderFacts(m, p, i);
    HeaderMapped(m, p, i);
    if i + 1 < |p.blocks| {
      HeaderFacts(m, p, i + 1);
      HeaderMapped(m, p, i + 1);
      BlockRange(p, i + 1);
    }
    ResizeFits(size);
    var needed := ResizedSize64(size);
    var h := ram.ReadHeader(block);
    var own := ram.ReadPool(h.pool);
    fits := own.readOnly == 0 && h.size >= needed;
    if own.readOnly == 0 && !fits && h.next != 0 {
      var g := ram.ReadHeader(h.next);
      fits := g.isFree != 0 && h.size + HEADER_SIZE + g.size >= needed;
    }
  }

  lemma StartSettle(m: Mem, p: Pool, i: nat)
    requires Image(m, p)
    ensures forall k :: 0 <= k < |p.blocks| && k != i ==> Snug(p.blocks[k])
    ensures forall b :: b in p.blocks && !b.free ==> CanaryOK(m, b)
    ensures i < |p.blocks| ==> Snug(p.blocks[i])
  {
  }

  /** How dam_general_free_internal ends. */
  datatype FreeOutcome = Freed(canaryIntact: bool) | DoubleFree | Misaligned | BadMagic | BadSize

  method FreeInternal(ram: Ram, ptr: nat, pool: nat, block: nat, ghost p: Pool, ghost i: nat) returns (r: FreeOutcome)
    requires Image(ram.mem, p) && pool == p.base
    requires i < |p.blocks| && p.blocks[i].addr == block && ptr == block + HEADER_SIZE
    modifies ram`mem
    ensures p.blocks[i].free ==> r == DoubleFree && ram.mem == old(ram.mem)
    ensures !p.blocks[i].free ==> r == Freed(true) && Image(ram.mem, Free(p, i))
    ensures OthersSame(old(ram.mem), ram.mem, p.blocks, block) && OutsideSame(old(ram.mem), ram.mem, p)
  {
    hide Tiles, HeaderAt, LinksAt, PoolAt, ListRep, Headers, OnlyHeaders, Addrs, FreeAddrs, Limit, Without, Pos, Snug,
         Mapped, Distinct, Coalesce, LiveSame, OthersSame, OutsideSame, PayloadSame, Get;
    ghost var m := ram.mem;
    HeaderFacts(m, p, i);
    HeaderMapped(m, p, i);
    FreeAt(p, i);
    BlockRange(p, i);
    OthersRefl(m, p, block);
    var h := ram.ReadHeader(block);
    if h.magic == FREED_MAGIC {
      return DoubleFree;
    }
    BlockAligned(p, i);
    if ptr % ALIGNMENT != 0 {
      return Misaligned;
    }
    if h.magic != BLOCK_MAGIC {
      return BadMagic;
    }
    if h.size == 0 {
      return BadSize;
    }
    StartSettle(m, p, i);
    CanaryMapped(m, p, i, h.user);
    var canary := ram.ReadWord(ptr + h.user);
    MarkFree(ram, block, p, i);
    ghost var m1 := ram.mem;
    ghost var p1 := Put(p, i, p.blocks[i].(free := true));
    FreeStart(p, i);
    FreeParts(p, i);
    var merged := CoalesceIfPossible(ram, block, pool, p1, i);
    ghost var m2 := ram.mem;
    ghost var (q, k) := Coalesce(p1, i);
    HeaderFacts(m2, q, k);
    HeaderMapped(m2, q, k);
    var g := ram.ReadHeader(merged);
    ShapeMembers(m2, Free(p, i));
    AddToFreeList(ram, g.pool, merged, q.freeList);
    FreeKeeps(m, m1, m2, ram.mem, p, i);
    return Freed(canary == CANARY_VALUE);
  }

  lemma FreeParts(p: Pool, i: nat)
    requires WF(p) && i < |p.blocks| && !p.blocks[i].free
    ensures var p1 := Put(p, i, p.blocks[i].(free := true));
            var (q, k) := Coalesce(p1, i);
            && WF(Free(p, i)) && Free(p, i) == Link(q, p1.blocks[k].addr)
            && Shape(q) && k < |q.blocks| && q.blocks[k].addr == p1.blocks[k].addr
            && (forall b: Block :: !b.free ==> (b in Free(p, i).blocks <==> b in p1.blocks))
            && (forall b :: b in p.blocks && !b.free && b.addr != p.blocks[i].addr ==> b in p1.blocks)
            && (forall b :: b in p1.blocks && !b.free ==> b in p.blocks && b.addr != p.blocks[i].addr)
  {
    hide Tiles, FreeAddrs, Distinct, Coalesce, Without, Pos;
    var c := p.blocks[i].(free := true);
    var p1 := Put(p, i, c);
    FreeAt(p, i);
    PutShape(p, i, c);
    forall b | b in p1.blocks ensures Snug(b) {
      assert b == c || b in p.blocks;
    }
    CoalesceWF(p1, i);
    FreeWF(p, i);
    forall b | b in p.blocks && b.addr != p.blocks[i].addr ensures b in p1.blocks {
      PutOthers(p, i, c, b);
    }
    forall b | b in p1.blocks && !b.free ensures b in p.blocks && b.addr != p.blocks[i].addr {
      var k :| 0 <= k < |p1.blocks| && p1.blocks[k] == b;
      if b.addr == p.blocks[i].addr {
        AddrInjective(p, i, k);
      }
    }
  }

  lemma FreeKeeps(m: Mem, m1: Mem, m2: Mem, m3: Mem, p: Pool, i: nat)
    requires WF(p) && i < |p.blocks| && !p.blocks[i].free && Canaries(m, p.blocks)
    requires var p1 := Put(p, i, p.blocks[i].(free := true));
             var q := Coalesce(p1, i).0;
             && Rep(m2, q) && OnlyList(m2, m3, p.base, Free(p, i).freeList)
             && ListRep(m3, p.base, Free(p, i).freeList)
             && LiveSame(m, m1, p.blocks) && LiveSame(m1, m2, p1.blocks)
             && OutsideSame(m, m1, p) && OutsideSame(m1, m2, p1)
    ensures Image(m3, Free(p, i))
    ensures OthersSame(m, m3, p.blocks, p.blocks[i].addr) && OutsideSame(m, m3, p)
  {
    hide Tiles, HeaderAt, LinksAt, PoolAt, ListRep, Headers, FreeAddrs, Without, Pos, OnlyList, Mapped, Distinct,
         Coalesce, PayloadSame, CanaryOK;
    FreeParts(p, i);
    var q := Free(p, i);
    AfterUnlistedRep(m2, m3, Coalesce(Put(p, i, p.blocks[i].(free := true)), i).0, q);
    forall b | b in p.blocks && !b.free && b.addr != p.blocks[i].addr
      ensures PayloadSame(m, m3, b) && CanaryOK(m3, b)
    {
      assert PayloadSame(m, m1, b) && PayloadSame(m1, m2, b) && PayloadSame(m2, m3, b) && CanaryOK(m, b) && Snug(b);
      PayloadTrans(m, m1, m2, b);
      PayloadTrans(m, m2, m3, b);
      CanaryKept(m, m3, b);
    }
  }

  /** Free-list writes bring the list up to date with q; nothing else of the pool changes. */
  lemma AfterUnlistedRep(m: Mem, m': Mem, p: Pool, q: Pool)
    requires Shape(p) && Rep(m, p) && Shape(q)
    requires q == Link(p, Head(q.freeList))
    requires OnlyList(m, m', q.base, q.freeList) && ListRep(m', q.base, q.freeList)
    ensures Rep(m', q) && LiveSame(m, m', q.blocks) && OutsideSame(m, m', q)
  {
    hide Tiles, FreeAddrs, HeaderAt, LinksAt, PoolAt, Shape, ListRep;
    ListQuiet(m, m', q);
    forall k | 0 <= k < |q.blocks| ensures HeaderOK(m', q.base, q.blocks, k) {
      assert HeaderOK(m, p.base, p.blocks, k);
    }
  }

  lemma OthersRefl(m: Mem, p: Pool, a: nat)
    ensures OthersSame(m, m, p.blocks, a) && OutsideSame(m, m, p)
  {
  }

  predicate Aligned(a: nat) {
    a % ALIGNMENT == 0
  }

  lemma Multiple(k: nat)
    ensures Aligned(ALIGNMENT * k)
  {
  }

  lemma Quotient(a: nat) returns (k: nat)
    requires Aligned(a)
    ensures a == ALIGNMENT * k
  {
    k := a / ALIGNMENT;
  }

  lemma AlignedAfter(a: nat, size: nat)
    requires Aligned(a) && Aligned(size)
    ensures Aligned(a + size + HEADER_SIZE)
  {
    hide Aligned;
    var k := Quotient(a);
    var l := Quotient(size);
    Multiple(k + l + 3);
  }

  lemma FirstAligned(base: nat)
    requires Aligned(base)
    ensures Aligned(base + POOL_GENERAL_SIZE + HEADER_SIZE)
  {
    hide Aligned;
    var k := Quotient(base);
    Multiple(k + 259);
  }

  /** Every payload starts at a multiple of the alignment. */
  lemma BlockAligned(p: Pool, i: nat)
    requires Shape(p) && i < |p.blocks|
    ensures p.blocks[i].Payload() % ALIGNMENT == 0
  {
    BlockAlignedAt(p, i);
  }

  lemma PartsAligned(p: Pool, i: nat)
    requires Shape(p) && i < |p.blocks|
    ensures Aligned(p.base) && Aligned(p.blocks[i].size)
  {
    hide Tiles, FreeAddrs;
    assert Good(p.blocks[i]);
  }

  lemma BlockAlignedAt(p: Pool, i: nat)
    requires Shape(p) && i < |p.blocks|
    ensures Aligned(p.blocks[i].Payload())
  {
    hide Tiles, FreeAddrs, Aligned, Good;
    PartsAligned(p, i);
    TilesBounds(p.blocks, p.base + POOL_GENERAL_SIZE, p.base + p.size);
    if i > 0 {
      BlockAlignedAt(p, i - 1);
      BlockRange(p, i - 1);
      PartsAligned(p, i - 1);
      AlignedAfter(p.blocks[i - 1].Payload(), p.blocks[i - 1].size);
    } else {
      FirstAligned(p.base);
    }
  }

  /** Only the block just freed is free and off the list. */
  lemma FreeStart(p: Pool, i: nat)
    requires WF(p) && i < |p.blocks| && !p.blocks[i].free
    ensures var p1 := Put(p, i, p.blocks[i].(free := true));
            && Shape(p1) && p.blocks[i].addr !in p.freeList
            && forall k :: 0 <= k < |p1.blocks| && k != i && p1.blocks[k].free ==> p1.blocks[k].addr in p.freeList
  {
    hide Tiles, Distinct;
    var b := p.blocks[i].(free := true);
    FreeAt(p, i);
    PutShape(p, i, b);
    forall k | 0 <= k < |p.blocks| && k != i && p.blocks[k].free ensures p.blocks[k].addr in p.freeList {
      FreeAt(p, k);
    }
  }
}
