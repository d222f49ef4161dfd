/** The diagnostics: pool statistics and the checks of a pointer's metadata. */
module Diagnostics {
  import opened Bytes
  import opened Layout
  import opened Machine
  import opened FreeList
  import opened PoolModel
  import opened GeneralPool
  import opened PoolTheorems

  /** dam_general_fragmentation, without its ratio: the snapshot's members are the second and third arguments. */
  method Fragmentation(ram: Ram, first: nat, largest0: nat, free0: nat, ghost p: Pool) returns (largest: nat, free: nat)
    requires Shape(p) && Rep(ram.mem, p) && first == p.base + POOL_GENERAL_SIZE
    ensures free == free0 + FreeBytes(p.blocks) && largest == Max(largest0, LargestFree(p.blocks))
  {
    hide Shape, HeaderAt, Mapped, Rep;
    largest, free := largest0, free0;
    var current := first;
    ghost var k := 0;
    FirstBlock(p);
    while current != 0
      invariant k <= |p.blocks| && current == (if k < |p.blocks| then p.blocks[k].addr else 0)
                && (current == 0 ==> k == |p.blocks|)
      invariant free + FreeBytes(p.blocks[k..]) == free0 + FreeBytes(p.blocks)
      invariant Max(largest, LargestFree(p.blocks[k..])) == Max(largest0, LargestFree(p.blocks))
      decreases |p.blocks| - k
    {
      AtBlock(ram.mem, p, k);
      var h := ram.ReadHeader(current);
      assert p.blocks[k..][1..] == p.blocks[k + 1..];
      if h.isFree != 0 && h.magic == FREED_MAGIC {
        if h.size > largest {
          largest := h.size;
        }
        free := free + h.size;
      }
      current, k := h.next, k + 1;
    }
  }

  /** dam_general_pressure, without its ratio. */
  method Pressure(ram: Ram, first: nat, largest0: nat, used0: nat, ghost p: Pool) returns (largest: nat, used: nat)
    requires Shape(p) && Rep(ram.mem, p) && first == p.base + POOL_GENERAL_SIZE
    ensures used == used0 + UsedBytes(p.blocks) && largest == Max(largest0, LargestUsed(p.blocks))
  {
    hide Shape, HeaderAt, Mapped, Rep;
    largest, used := largest0, used0;
    var current := first;
    ghost var k := 0;
    FirstBlock(p);
    while current != 0
      invariant k <= |p.blocks| && current == (if k < |p.blocks| then p.blocks[k].addr else 0)
                && (current == 0 ==> k == |p.blocks|)
      invariant used + UsedBytes(p.blocks[k..]) == used0 + UsedBytes(p.blocks)
      invariant Max(largest, LargestUsed(p.blocks[k..])) == Max(largest0, LargestUsed(p.blocks))
      decreases |p.blocks| - k
    {
      AtBlock(ram.mem, p, k);
      var h := ram.ReadHeader(current);
      assert p.blocks[k..][1..] == p.blocks[k + 1..];
      if h.isFree == 0 && h.magic == BLOCK_MAGIC {
        if h.size > largest {
          largest := h.size;
        }
        used := used + h.size;
      }
      current, k := h.next, k + 1;
    }
  }

  lemma FirstBlock(p: Pool)
    requires Shape(p)
    ensures |p.blocks| > 0 && p.blocks[0].addr == p.base + POOL_GENERAL_SIZE
  {
    TilesBounds(p.blocks, p.base + POOL_GENERAL_SIZE, p.base + p.size);
  }

  lemma AtBlock(m: Mem, p: Pool, k: nat)
    requires Shape(p) && Rep(m, p) && k < |p.blocks|
    ensures Mapped(m, p.blocks[k].addr, HEADER_SIZE) && HeaderAt(m, p.blocks[k].addr) == HeaderOf(p.base, p.blocks, k)
    ensures k + 1 < |p.blocks| ==> p.blocks[k + 1].addr > 0
  {
    hide Tiles, FreeAddrs, HeaderAt, PoolAt, LinksAt, ListRep;
    HeaderFacts(m, p, k);
    HeaderMapped(m, p, k);
    BlockRange(p, k);
  }

  /** The two walks together account for every byte of the pool behind its prefix. */
  method Account(ram: Ram, first: nat, ghost p: Pool) returns (free: nat, used: nat)
    requires Shape(p) && Rep(ram.mem, p) && first == p.base + POOL_GENERAL_SIZE && WF(p)
    ensures free + used + HEADER_SIZE * |p.blocks| == p.size - POOL_GENERAL_SIZE
  {
    var largest;
    largest, free := Fragmentation(ram, first, 0, 0, p);
    largest, used := Pressure(ram, first, 0, 0, p);
    Conservation(p);
  }

  // ----- validation

  /** The header and, for a block in use, the canary behind its user bytes say that the block at ptr is intact. */
  ghost predicate GeneralIntact(m: Mem, ptr: nat, h: Header) {
    if h.isFree == 0 then h.magic == BLOCK_MAGIC && CanaryAt(m, ptr + h.user) == CANARY_VALUE
    else h.magic == FREED_MAGIC
  }

  /**
   * dam_validate_general_ptr. It says yes exactly when the metadata is intact; if it is not and the caller asks for
   * it, the pool is put in quarantine, and nothing else ever changes.
   */
  method ValidateGeneralPtr(ram: Ram, ptr: nat, pool: nat, quarantine: bool, block: nat) returns (ok: bool)
    requires Mapped(ram.mem, block, HEADER_SIZE) && Mapped(ram.mem, pool, POOL_HEADER_SIZE)
    requires var h := HeaderAt(ram.mem, block);
             h.isFree == 0 && h.magic == BLOCK_MAGIC ==> Mapped(ram.mem, ptr + h.user, CANARY_SIZE)
    modifies ram`mem
    ensures ok <==> GeneralIntact(old(ram.mem), ptr, HeaderAt(old(ram.mem), block))
    ensures ok || !quarantine ==> ram.mem == old(ram.mem)
    ensures !ok && quarantine ==>
              && Touches(old(ram.mem), ram.mem, pool + ReadOnly.At().off, ReadOnly.At().width)
              && PoolAt(ram.mem, pool) == PoolAt(old(ram.mem), pool).(readOnly := 1)
  {
    hide HeaderAt, PoolAt, LinksAt, CanaryAt, SmallAt, Touches, Limit;
    Limits();
    var h := ram.ReadHeader(block);
    if h.isFree == 0 {
      if h.magic != BLOCK_MAGIC {
        if quarantine {
          ram.SetPool(pool, ReadOnly, 1);
        }
        return false;
      }
      var canary := ram.ReadWord(ptr + h.user);
      if canary != CANARY_VALUE {
        if quarantine {
          ram.SetPool(pool, ReadOnly, 1);
        }
        return false;
      }
    } else {
      if h.magic != FREED_MAGIC {
        if quarantine {
          ram.SetPool(pool, ReadOnly, 1);
        }
        return false;
      }
    }
    return true;
  }

  predicate SmallIntact(h: SmallHeader, classes: nat) {
    h.cls < classes && h.magic == (if h.isFree == 0 then SMALL_MAGIC else SMALL_FREED_MAGIC)
  }

  predicate DirectIntact(h: Header) {
    h.magic == (if h.isFree == 0 then BLOCK_MAGIC else FREED_MAGIC)
  }

  /** dam_validate_small_ptr. */
  method ValidateSmallPtr(ram: Ram, block: nat, classes: nat) returns (ok: bool)
    requires Mapped(ram.mem, block, SMALL_HEADER_SIZE) && classes > 0
    ensures ok <==> SmallIntact(SmallAt(ram.mem, block), classes)
  {
    hide SmallAt;
    var h := ram.ReadSmall(block);
    if h.cls > classes - 1 {
      return false;
    }
    if h.isFree == 0 {
      return h.magic == SMALL_MAGIC;
    }
    return h.magic == SMALL_FREED_MAGIC;
  }

  /** dam_validate_direct_ptr. */
  method ValidateDirectPtr(ram: Ram, block: nat) returns (ok: bool)
    requires Mapped(ram.mem, block, HEADER_SIZE)
    ensures ok <==> DirectIntact(HeaderAt(ram.mem, block))
  {
    hide HeaderAt;
    var h := ram.ReadHeader(block);
    if h.isFree == 0 {
      return h.magic == BLOCK_MAGIC;
    }
    return h.magic == FREED_MAGIC;
  }

  /** A block of a pool in order, in use or free, is never reported: there are no false alarms. */
  lemma NoFalseAlarm(m: Mem, p: Pool, i: nat)
    requires Image(m, p) && i < |p.blocks|
    ensures var h := HeaderAt(m, p.blocks[i].addr);
            && GeneralIntact(m, p.blocks[i].Payload(), h)
            && (h.isFree == 0 ==>
                  h.user + CANARY_SIZE <= h.size && Mapped(m, p.blocks[i].Payload() + h.user, CANARY_SIZE))
  {
    hide HeaderAt, PoolAt, LinksAt, CanaryAt, Tiles, FreeAddrs, ListRep;
    HeaderFacts(m, p, i);
    BlockRange(p, i);
    assert Snug(p.blocks[i]);
    if !p.blocks[i].free {
      assert CanaryOK(m, p.blocks[i]);
    }
  }

  /** Any other value in the four bytes behind the user bytes of a block in use is reported. */
  lemma OverrunReported(m: Mem, m': Mem, p: Pool, i: nat)
    requires Image(m, p) && i < |p.blocks| && !p.blocks[i].free
    requires OnlyAt(m, m', p.blocks[i].Payload(), p.blocks[i].size)
    ensures GeneralIntact(m', p.blocks[i].Payload(), HeaderAt(m', p.blocks[i].addr)) <==>
            CanaryAt(m', p.blocks[i].Payload() + p.blocks[i].user) == CANARY_VALUE
    ensures forall k :: 0 <= k < |p.blocks| && k != i ==>
              GeneralIntact(m', p.blocks[k].Payload(), HeaderAt(m', p.blocks[k].addr))
  {
    hide HeaderAt, PoolAt, LinksAt, CanaryAt, Tiles, FreeAddrs, Rep, Canaries, Shape, Indexed, PayloadSame,
         GeneralIntact;
    PayloadQuiet(m, m', p, i);
    IntactHeader(m', p, i);
    forall k | 0 <= k < |p.blocks| && k != i
      ensures GeneralIntact(m', p.blocks[k].Payload(), HeaderAt(m', p.blocks[k].addr))
    {
      OtherIntact(m, m', p, i, k);
    }
  }

  lemma IntactHeader(m: Mem, p: Pool, i: nat)
    requires Shape(p) && Rep(m, p) && i < |p.blocks|
    ensures GeneralIntact(m, p.blocks[i].Payload(), HeaderAt(m, p.blocks[i].addr)) <==>
            p.blocks[i].free || CanaryAt(m, p.blocks[i].Payload() + p.blocks[i].user) == CANARY_VALUE
  {
    hide HeaderAt, PoolAt, LinksAt, CanaryAt, Tiles, FreeAddrs, Shape, ListRep;
    HeaderFacts(m, p, i);
  }

  lemma OtherIntact(m: Mem, m': Mem, p: Pool, i: nat, k: nat)
    requires Image(m, p) && i < |p.blocks| && k < |p.blocks| && k != i && Rep(m', p)
    requires OnlyAt(m, m', p.blocks[i].Payload(), p.blocks[i].size)
    ensures GeneralIntact(m', p.blocks[k].Payload(), HeaderAt(m', p.blocks[k].addr))
  {
    hide HeaderAt, PoolAt, LinksAt, Tiles, FreeAddrs, Rep;
    IntactHeader(m', p, k);
    if !p.blocks[k].free {
      TilesAt(p.blocks, p.base + POOL_GENERAL_SIZE, p.base + p.size, i, k);
      TilesAt(p.blocks, p.base + POOL_GENERAL_SIZE, p.base + p.size, k, i);
      assert Snug(p.blocks[k]) && CanaryOK(m, p.blocks[k]);
      CanaryKept(m, m', p.blocks[k]);
    }
  }
}
