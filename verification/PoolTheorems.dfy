/** What the operations of a general pool promise over and above keeping it in order. */
module PoolTheorems {
  import opened Bytes
  import opened Layout
  import opened FreeList
  import opened PoolModel
  import opened GeneralPool

  // ----- conservation

  function FreeBytes(bs: seq<Block>): nat {
    if bs == [] then 0 else (if bs[0].free then bs[0].size else 0) + FreeBytes(bs[1..])
  }

  function UsedBytes(bs: seq<Block>): nat {
    if bs == [] then 0 else (if bs[0].free then 0 else bs[0].size) + UsedBytes(bs[1..])
  }

  lemma {:induction false} TiledBytes(bs: seq<Block>, lo: nat, hi: nat)
    requires Tiles(bs, lo, hi)
    ensures FreeBytes(bs) + UsedBytes(bs) + HEADER_SIZE * |bs| == hi - lo
  {
    if bs != [] {
      TiledBytes(bs[1..], bs[0].End(), hi);
    }
  }

  /** Free bytes, used bytes and headers add up to the pool behind its prefix: nothing is lost or counted twice. */
  lemma Conservation(p: Pool)
    requires WF(p)
    ensures FreeBytes(p.blocks) + UsedBytes(p.blocks) + HEADER_SIZE * |p.blocks| == p.size - POOL_GENERAL_SIZE
  {
    TiledBytes(p.blocks, p.base + POOL_GENERAL_SIZE, p.base + p.size);
  }

  function ListBytes(bs: seq<Block>, fl: seq<nat>): nat {
    if fl == [] then 0 else SizeAt(bs, fl[0]) + ListBytes(bs, fl[1..])
  }

  lemma {:induction false} ListBytesWithout(bs: seq<Block>, fl: seq<nat>, k: nat)
    requires k < |fl|
    ensures ListBytes(bs, fl) == SizeAt(bs, fl[k]) + ListBytes(bs, Without(fl, k))
  {
    if k == 0 {
      assert Without(fl, 0) == fl[1..];
    } else {
      ListBytesWithout(bs, fl[1..], k - 1);
      assert Without(fl, k)[1..] == Without(fl[1..], k - 1);
    }
  }

  lemma {:induction false} ListBytesTail(bs: seq<Block>, fl: seq<nat>)
    requires bs != [] && bs[0].addr !in fl
    ensures ListBytes(bs, fl) == ListBytes(bs[1..], fl)
  {
    if fl != [] {
      ListBytesTail(bs, fl[1..]);
    }
  }

  /** The free list accounts for every free byte. */
  lemma {:induction false} ListSumsFree(bs: seq<Block>, fl: seq<nat>, lo: nat, hi: nat)
    requires Tiles(bs, lo, hi) && Distinct(fl)
    requires forall a :: a in fl <==> a in FreeAddrs(bs)
    ensures ListBytes(bs, fl) == FreeBytes(bs)
  {
    if bs == [] {
      if fl != [] {
        HasMember(fl);
        assert false;
      }
    } else {
      var b, rest := bs[0], bs[1..];
      FreeAppend([b], rest);
      FreeOne(b);
      assert bs == [b] + rest;
      HeadNotInTail(bs, lo, hi);
      if b.free {
        var k := Pos(fl, b.addr);
        ListBytesWithout(bs, fl, k);
        WithoutDistinct(fl, k);
        ListBytesTail(bs, Without(fl, k));
        ListSumsFree(rest, Without(fl, k), b.End(), hi);
      } else {
        ListBytesTail(bs, fl);
        ListSumsFree(rest, fl, b.End(), hi);
      }
    }
  }

  lemma HasMember(fl: seq<nat>)
    requires fl != []
    ensures exists a :: a in fl
  {
    assert fl[0] in fl;
  }

  lemma HeadNotInTail(bs: seq<Block>, lo: nat, hi: nat)
    requires Tiles(bs, lo, hi) && bs != []
    ensures bs[0].addr !in FreeAddrs(bs[1..])
  {
    forall b | b in bs[1..] ensures b.addr != bs[0].addr {
      var k :| 0 <= k < |bs| - 1 && bs[1..][k] == b;
      TilesAt(bs, lo, hi, 0, k + 1);
    }
  }

  function Max(a: nat, b: nat): nat {
    if a < b then b else a
  }

  function LargestFree(bs: seq<Block>): nat {
    if bs == [] then 0 else Max(if bs[0].free then bs[0].size else 0, LargestFree(bs[1..]))
  }

  function LargestUsed(bs: seq<Block>): nat {
    if bs == [] then 0 else Max(if bs[0].free then 0 else bs[0].size, LargestUsed(bs[1..]))
  }

  /** The largest free block is the largest on the free list: it is reached, and no member exceeds it. */
  lemma LargestListed(p: Pool)
    requires WF(p)
    ensures forall j {:trigger p.freeList[j]} ::
              0 <= j < |p.freeList| ==> SizeAt(p.blocks, p.freeList[j]) <= LargestFree(p.blocks)
    ensures p.freeList != [] ==> exists j ::
              0 <= j < |p.freeList| && SizeAt(p.blocks, p.freeList[j]) == LargestFree(p.blocks)
  {
    hide Tiles;
    var lo, hi := p.base + POOL_GENERAL_SIZE, p.base + p.size;
    forall j | 0 <= j < |p.freeList| ensures SizeAt(p.blocks, p.freeList[j]) <= LargestFree(p.blocks) {
      assert p.freeList[j] in p.freeList;
      var b :| b in p.blocks && b.free && b.addr == p.freeList[j];
      var k :| 0 <= k < |p.blocks| && p.blocks[k] == b;
      SizeAtBlock(p.blocks, lo, hi, k);
      LargestBound(p.blocks, k);
    }
    if p.freeList != [] {
      assert p.freeList[0] in FreeAddrs(p.blocks);
      var k := LargestReached(p.blocks);
      SizeAtBlock(p.blocks, lo, hi, k);
      assert p.blocks[k] in p.blocks;
      assert p.blocks[k].addr in FreeAddrs(p.blocks);
      var j :| 0 <= j < |p.freeList| && p.freeList[j] == p.blocks[k].addr;
    }
  }

  lemma {:induction false} LargestBound(bs: seq<Block>, k: nat)
    requires k < |bs| && bs[k].free
    ensures bs[k].size <= LargestFree(bs)
  {
    if k > 0 {
      LargestBound(bs[1..], k - 1);
    }
  }

  /** No block in use is larger than the largest one reported. */
  lemma {:induction false} LargestUsedBound(bs: seq<Block>, k: nat)
    requires k < |bs| && !bs[k].free
    ensures bs[k].size <= LargestUsed(bs)
  {
    if k > 0 {
      LargestUsedBound(bs[1..], k - 1);
    }
  }

  /** That size is the size of a block in use, or 0 if there is none. */
  lemma {:induction false} LargestUsedReached(bs: seq<Block>)
    ensures LargestUsed(bs) == 0 || exists k :: 0 <= k < |bs| && !bs[k].free && bs[k].size == LargestUsed(bs)
  {
    if bs != [] && LargestUsed(bs) != 0 {
      if !bs[0].free && bs[0].size == LargestUsed(bs) {
        assert !bs[0].free && bs[0].size == LargestUsed(bs);
      } else {
        LargestUsedReached(bs[1..]);
        var k :| 0 <= k < |bs| - 1 && !bs[1..][k].free && bs[1..][k].size == LargestUsed(bs[1..]);
        assert !bs[k + 1].free && bs[k + 1].size == LargestUsed(bs);
      }
    }
  }

  lemma {:induction false} LargestReached(bs: seq<Block>) returns (k: nat)
    requires FreeAddrs(bs) != {}
    ensures k < |bs| && bs[k].free && bs[k].size == LargestFree(bs)
  {
    assert bs == [bs[0]] + bs[1..];
    FreeAppend([bs[0]], bs[1..]);
    FreeOne(bs[0]);
    if FreeAddrs(bs[1..]) == {} {
      NoneFree(bs[1..]);
      k := 0;
    } else {
      k := LargestReached(bs[1..]);
      k := if bs[0].free && bs[0].size >= LargestFree(bs[1..]) then 0 else k + 1;
    }
  }

  lemma {:induction false} NoneFree(bs: seq<Block>)
    requires FreeAddrs(bs) == {}
    ensures LargestFree(bs) == 0
  {
    if bs != [] {
      assert bs == [bs[0]] + bs[1..];
      FreeAppend([bs[0]], bs[1..]);
      FreeOne(bs[0]);
      NoneFree(bs[1..]);
    }
  }

  // ----- one-sided coalescing

  predicate FreeBefore(p: Pool, i: nat)
    requires i < |p.blocks|
  {
    i > 0 && p.blocks[i - 1].free
  }

  predicate FreeBehind(p: Pool, i: nat)
    requires i < |p.blocks|
  {
    i + 1 < |p.blocks| && p.blocks[i + 1].free
  }

  /** Block i freed, in address order: merged into a free predecessor, else with a free successor, else on its own. */
  function BlocksFreed(bs: seq<Block>, i: nat): seq<Block>
    requires i < |bs|
  {
    if i > 0 && bs[i - 1].free then
      bs[..i - 1] + [bs[i - 1].(size := bs[i - 1].size + HEADER_SIZE + bs[i].size)] + bs[i + 1..]
    else if i + 1 < |bs| && bs[i + 1].free then
      bs[..i] + [bs[i].(free := true, size := bs[i].size + HEADER_SIZE + bs[i + 1].size)] + bs[i + 2..]
    else bs[i := bs[i].(free := true)]
  }

  lemma FreeEffect(p: Pool, i: nat)
    requires WF(p) && i < |p.blocks| && !p.blocks[i].free
    ensures Free(p, i).blocks == BlocksFreed(p.blocks, i)
    ensures FreeBefore(p, i) ==> p.blocks[i - 1].addr in p.freeList
    ensures FreeBehind(p, i) ==> p.blocks[i + 1].addr in p.freeList
    ensures Free(p, i).freeList ==
            if FreeBefore(p, i) then [p.blocks[i - 1].addr] + Without(p.freeList, Pos(p.freeList, p.blocks[i - 1].addr))
            else if FreeBehind(p, i) then
              [p.blocks[i].addr] + Without(p.freeList, Pos(p.freeList, p.blocks[i + 1].addr))
            else [p.blocks[i].addr] + p.freeList
  {
    hide Tiles, FreeAddrs, Without, Pos, Distinct, BlocksFreed, Free, Coalesce;
    if i > 0 {
      FreeAt(p, i - 1);
    }
    if i + 1 < |p.blocks| {
      FreeAt(p, i + 1);
    }
    if FreeBefore(p, i) {
      FreeMergesBefore(p, i);
    } else if FreeBehind(p, i) {
      FreeMergesBehind(p, i);
    } else {
      FreeAlone(p, i);
    }
  }

  lemma FreeMergesBefore(p: Pool, i: nat)
    requires i < |p.blocks| && FreeBefore(p, i) && p.blocks[i - 1].addr in p.freeList
    ensures Free(p, i).blocks == BlocksFreed(p.blocks, i)
    ensures Free(p, i).freeList == [p.blocks[i - 1].addr] + Without(p.freeList, Pos(p.freeList, p.blocks[i - 1].addr))
  {
    hide Without, Pos;
    var p1 := Put(p, i, p.blocks[i].(free := true));
    assert p1.blocks[..i - 1] == p.blocks[..i - 1] && p1.blocks[i + 1..] == p.blocks[i + 1..];
  }

  lemma FreeMergesBehind(p: Pool, i: nat)
    requires i < |p.blocks| && !FreeBefore(p, i) && FreeBehind(p, i) && p.blocks[i + 1].addr in p.freeList
    ensures Free(p, i).blocks == BlocksFreed(p.blocks, i)
    ensures Free(p, i).freeList == [p.blocks[i].addr] + Without(p.freeList, Pos(p.freeList, p.blocks[i + 1].addr))
  {
    hide Without, Pos;
    var p1 := Put(p, i, p.blocks[i].(free := true));
    assert p1.blocks[..i] == p.blocks[..i] && p1.blocks[i + 2..] == p.blocks[i + 2..];
  }

  lemma FreeAlone(p: Pool, i: nat)
    requires i < |p.blocks| && !FreeBefore(p, i) && !FreeBehind(p, i)
    ensures Free(p, i).blocks == BlocksFreed(p.blocks, i)
    ensures Free(p, i).freeList == [p.blocks[i].addr] + p.freeList
  {
  }

  /** The number of neighbours that are both free. */
  function Pairs(bs: seq<Block>): nat {
    if |bs| < 2 then 0 else (if bs[0].free && bs[1].free then 1 else 0) + Pairs(bs[1..])
  }

  function Joint(xs: seq<Block>, ys: seq<Block>): nat {
    if xs != [] && ys != [] && xs[|xs| - 1].free && ys[0].free then 1 else 0
  }

  lemma {:induction false} PairsAppend(xs: seq<Block>, ys: seq<Block>)
    ensures Pairs(xs + ys) == Pairs(xs) + Joint(xs, ys) + Pairs(ys)
  {
    if xs == [] {
      assert xs + ys == ys;
    } else if |xs| == 1 {
      assert (xs + ys)[1..] == ys;
    } else {
      assert (xs + ys)[1..] == xs[1..] + ys;
      PairsAppend(xs[1..], ys);
    }
  }

  lemma PairsAround(xs: seq<Block>, b: Block, ys: seq<Block>)
    ensures Pairs(xs + [b] + ys) == Pairs(xs) + Joint(xs, [b]) + Joint([b], ys) + Pairs(ys)
  {
    PairsAppend(xs, [b]);
    PairsAppend(xs + [b], ys);
  }

  /**
   * A free merges with at most one neighbour, the predecessor first: the number of blocks drops by one if either
   * neighbour was free, and the number of adjacent free blocks grows by one exactly if both were.
   */
  lemma FreePairs(p: Pool, i: nat)
    requires WF(p) && i < |p.blocks| && !p.blocks[i].free
    ensures Pairs(Free(p, i).blocks) == Pairs(p.blocks) + (if FreeBefore(p, i) && FreeBehind(p, i) then 1 else 0)
    ensures |Free(p, i).blocks| == |p.blocks| - (if FreeBefore(p, i) || FreeBehind(p, i) then 1 else 0)
    ensures FreeBytes(Free(p, i).blocks) ==
            FreeBytes(p.blocks) + p.blocks[i].size + (if FreeBefore(p, i) || FreeBehind(p, i) then HEADER_SIZE else 0)
  {
    hide WF, BlocksFreed, Free;
    FreeEffect(p, i);
    FreedPairs(p.blocks, i);
    FreedBytes(p.blocks, i);
  }

  lemma FreedPairs(bs: seq<Block>, i: nat)
    requires i < |bs| && !bs[i].free
    ensures var before, behind := i > 0 && bs[i - 1].free, i + 1 < |bs| && bs[i + 1].free;
            && Pairs(BlocksFreed(bs, i)) == Pairs(bs) + (if before && behind then 1 else 0)
            && |BlocksFreed(bs, i)| == |bs| - (if before || behind then 1 else 0)
  {
    hide Pairs, BlocksFreed;
    if i > 0 && bs[i - 1].free {
      FreedPairsBefore(bs, i);
    } else if i + 1 < |bs| && bs[i + 1].free {
      FreedPairsBehind(bs, i);
    } else {
      FreedPairsAlone(bs, i);
    }
  }

  lemma FreedPairsBefore(bs: seq<Block>, i: nat)
    requires 0 < i < |bs| && !bs[i].free && bs[i - 1].free
    ensures Pairs(BlocksFreed(bs, i)) == Pairs(bs) + (if i + 1 < |bs| && bs[i + 1].free then 1 else 0)
    ensures |BlocksFreed(bs, i)| == |bs| - 1
  {
    hide Pairs, BlocksFreed;
    var b, l, pre0, post := bs[i], bs[i - 1], bs[..i - 1], bs[i + 1..];
    var l' := l.(size := l.size + HEADER_SIZE + b.size);
    BeforeParts(bs, i);
    PairsAround(pre0 + [l], b, post);
    PairsAppend(pre0, [l]);
    PairsAround(pre0, l', post);
    PairsOne(l, l');
  }

  lemma FreedPairsBehind(bs: seq<Block>, i: nat)
    requires i + 1 < |bs| && !bs[i].free && bs[i + 1].free && !(i > 0 && bs[i - 1].free)
    ensures Pairs(BlocksFreed(bs, i)) == Pairs(bs) && |BlocksFreed(bs, i)| == |bs| - 1
  {
    hide Pairs, BlocksFreed;
    var b, r, pre, post := bs[i], bs[i + 1], bs[..i], bs[i + 2..];
    var b' := b.(free := true, size := b.size + HEADER_SIZE + r.size);
    BehindParts(bs, i);
    PairsAround(pre, b, [r] + post);
    PairsAppend([r], post);
    PairsAround(pre, b', post);
    PairsOne(r, b');
  }

  lemma FreedPairsAlone(bs: seq<Block>, i: nat)
    requires i < |bs| && !bs[i].free
    requires !(i > 0 && bs[i - 1].free) && !(i + 1 < |bs| && bs[i + 1].free)
    ensures Pairs(BlocksFreed(bs, i)) == Pairs(bs) && |BlocksFreed(bs, i)| == |bs|
  {
    hide Pairs;
    var pre, b, b', post := bs[..i], bs[i], bs[i].(free := true), bs[i + 1..];
    assert bs == pre + [b] + post && bs[i := b'] == pre + [b'] + post;
    PairsAround(pre, b, post);
    PairsAround(pre, b', post);
  }

  lemma PairsOne(b: Block, c: Block)
    ensures Pairs([b]) == 0 && Pairs([c]) == 0
  {
  }

  lemma {:induction false} FreeBytesAppend(xs: seq<Block>, ys: seq<Block>)
    ensures FreeBytes(xs + ys) == FreeBytes(xs) + FreeBytes(ys)
  {
    if xs == [] {
      assert xs + ys == ys;
    } else {
      assert (xs + ys)[1..] == xs[1..] + ys;
      FreeBytesAppend(xs[1..], ys);
    }
  }

  lemma FreeBytesAround(xs: seq<Block>, b: Block, ys: seq<Block>)
    ensures FreeBytes(xs + [b] + ys) == FreeBytes(xs) + (if b.free then b.size else 0) + FreeBytes(ys)
  {
    FreeBytesAppend(xs, [b]);
    FreeBytesAppend(xs + [b], ys);
    assert [b][1..] == [];
  }

  lemma FreedBytes(bs: seq<Block>, i: nat)
    requires i < |bs| && !bs[i].free
    ensures var merges := (i > 0 && bs[i - 1].free) || (i + 1 < |bs| && bs[i + 1].free);
            FreeBytes(BlocksFreed(bs, i)) == FreeBytes(bs) + bs[i].size + (if merges then HEADER_SIZE else 0)
  {
    hide FreeBytes, BlocksFreed;
    if i > 0 && bs[i - 1].free {
      FreedBytesBefore(bs, i);
    } else if i + 1 < |bs| && bs[i + 1].free {
      FreedBytesBehind(bs, i);
    } else {
      FreedBytesAlone(bs, i);
    }
  }

  lemma FreedBytesAlone(bs: seq<Block>, i: nat)
    requires i < |bs| && !bs[i].free
    requires !(i > 0 && bs[i - 1].free) && !(i + 1 < |bs| && bs[i + 1].free)
    ensures FreeBytes(BlocksFreed(bs, i)) == FreeBytes(bs) + bs[i].size
  {
    hide FreeBytes, BlocksFreed;
    AloneParts(bs, i);
    FreeBytesAround(bs[..i], bs[i], bs[i + 1..]);
    FreeBytesAround(bs[..i], bs[i].(free := true), bs[i + 1..]);
  }

  lemma AloneParts(bs: seq<Block>, i: nat)
    requires i < |bs| && !bs[i].free
    requires !(i > 0 && bs[i - 1].free) && !(i + 1 < |bs| && bs[i + 1].free)
    ensures bs == bs[..i] + [bs[i]] + bs[i + 1..]
    ensures BlocksFreed(bs, i) == bs[..i] + [bs[i].(free := true)] + bs[i + 1..]
  {
  }

  lemma FreedBytesBehind(bs: seq<Block>, i: nat)
    requires i + 1 < |bs| && !bs[i].free && bs[i + 1].free && !(i > 0 && bs[i - 1].free)
    ensures FreeBytes(BlocksFreed(bs, i)) == FreeBytes(bs) + bs[i].size + HEADER_SIZE
  {
    hide FreeBytes, BlocksFreed;
    var b, r, pre0, post := bs[i], bs[i + 1], bs[..i], bs[i + 2..];
    var b' := b.(free := true, size := b.size + HEADER_SIZE + r.size);
    BehindParts(bs, i);
    FreeBytesAround(pre0, b, [r] + post);
    FreeBytesAppend([r], post);
    FreeBytesOne(r);
    FreeBytesAround(pre0, b', post);
  }

  lemma BehindParts(bs: seq<Block>, i: nat)
    requires i + 1 < |bs| && !bs[i].free && bs[i + 1].free && !(i > 0 && bs[i - 1].free)
    ensures bs == bs[..i] + [bs[i]] + ([bs[i + 1]] + bs[i + 2..])
    ensures BlocksFreed(bs, i) ==
            bs[..i] + [bs[i].(free := true, size := bs[i].size + HEADER_SIZE + bs[i + 1].size)] + bs[i + 2..]
  {
    hide FreeBytes;
  }

  lemma FreedBytesBefore(bs: seq<Block>, i: nat)
    requires 0 < i < |bs| && !bs[i].free && bs[i - 1].free
    ensures FreeBytes(BlocksFreed(bs, i)) == FreeBytes(bs) + bs[i].size + HEADER_SIZE
  {
    hide FreeBytes, BlocksFreed;
    var b, l, pre0, post := bs[i], bs[i - 1], bs[..i - 1], bs[i + 1..];
    var l' := l.(size := l.size + HEADER_SIZE + b.size);
    BeforeParts(bs, i);
    FreeBytesAround(pre0 + [l], b, post);
    FreeBytesAppend(pre0, [l]);
    FreeBytesOne(l);
    FreeBytesAround(pre0, l', post);
  }

  lemma BeforeParts(bs: seq<Block>, i: nat)
    requires 0 < i < |bs| && !bs[i].free && bs[i - 1].free
    ensures bs == (bs[..i - 1] + [bs[i - 1]]) + [bs[i]] + bs[i + 1..]
    ensures BlocksFreed(bs, i) ==
            bs[..i - 1] + [bs[i - 1].(size := bs[i - 1].size + HEADER_SIZE + bs[i].size)] + bs[i + 1..]
  {
    hide FreeBytes;
  }

  lemma FreeBytesOne(b: Block)
    ensures FreeBytes([b]) == if b.free then b.size else 0
  {
    assert [b][1..] == [];
  }

  // ----- malloc and free undo each other

  /** The same blocks up to the user_size that a free block remembers from its last use. */
  predicate SameBlocks(bs: seq<Block>, cs: seq<Block>) {
    && |bs| == |cs|
    && forall k {:trigger bs[k]} {:trigger cs[k]} :: 0 <= k < |bs| ==> Alike(bs[k], cs[k])
  }

  predicate Alike(b: Block, c: Block) {
    c == b.(user := c.user) && (b.free || c.user == b.user)
  }

  /** Malloc cuts block i in two or uses it whole. */
  lemma MallocBlocks(p: Pool, i: nat, size: nat)
    requires WF(p) && i < |p.blocks| && p.blocks[i].addr in p.freeList
    ensures var b, n, q := p.blocks[i], ActualSize(size), Malloc(p, i, size);
            && q.blocks == (if Splits(b, n)
                            then p.blocks[..i] + [b.(size := n, user := size, free := false), Rest(b, n)]
                                 + p.blocks[i + 1..]
                            else p.blocks[i := b.(user := size, free := false)])
            && q.freeList == (if Splits(b, n) then [Rest(b, n).addr] else [])
                             + Without(p.freeList, Pos(p.freeList, b.addr))
  {
    hide AlignUp, Without, Pos, WF, ActualSize;
    CutThenPut(p.blocks, i, ActualSize(size), size);
  }

  lemma CutThenPut(bs: seq<Block>, i: nat, n: nat, size: nat)
    requires i < |bs|
    ensures var b1 := bs[i].(free := false);
            Splits(bs[i], n) ==>
              (bs[i := b1][..i] + [b1.(size := n), Rest(b1, n)] + bs[i := b1][i + 1..])
                [i := b1.(size := n, user := size)]
              == bs[..i] + [bs[i].(size := n, user := size, free := false), Rest(bs[i], n)] + bs[i + 1..]
  {
    var b1 := bs[i].(free := false);
    assert bs[i := b1][..i] == bs[..i] && bs[i := b1][i + 1..] == bs[i + 1..];
  }

  /** The condition a caller could check before the malloc. */
  predicate Undoable(p: Pool, i: nat, size: nat)
    requires i < |p.blocks|
  {
    !FreeBefore(p, i) && (Splits(p.blocks[i], ActualSize(size)) || !FreeBehind(p, i))
  }

  /**
   * A free right after a malloc restores the blocks exactly if the chosen block had no free predecessor and was split
   * or had no free successor. The free list is then as before, but for the block's move to the front.
   */
  lemma FreeUndoesMalloc(p: Pool, i: nat, size: nat)
    requires WF(p) && i < |p.blocks| && p.blocks[i].addr in p.freeList && ActualSize(size) <= p.blocks[i].size
    ensures i < |Malloc(p, i, size).blocks|
    ensures SameBlocks(p.blocks, Free(Malloc(p, i, size), i).blocks) <==> Undoable(p, i, size)
    ensures Undoable(p, i, size) ==>
              (Free(Malloc(p, i, size), i).freeList
               == [p.blocks[i].addr] + Without(p.freeList, Pos(p.freeList, p.blocks[i].addr)))
  {
    hide WF, Malloc, Free, AlignUp, BlocksFreed, SameBlocks, Without, Pos;
    var b, n, q := p.blocks[i], ActualSize(size), Malloc(p, i, size);
    MallocWF(p, i, size);
    MallocBlocks(p, i, size);
    ChosenFree(p, i);
    FreeEffect(q, i);
    if FreeBefore(p, i) {
      assert q.blocks[i - 1] == p.blocks[i - 1];
      GrownBefore(p.blocks, q.blocks, i);
    } else if Splits(b, n) {
      UndoSplit(p.blocks, i, n, size);
      StaleUser(p.blocks, i, size);
      UnlinkFirst(Rest(b, n).addr, Without(p.freeList, Pos(p.freeList, b.addr)));
    } else if FreeBehind(p, i) {
      ShorterBehind(p.blocks, q.blocks, i);
    } else {
      UndoWhole(p.blocks, i, size);
      StaleUser(p.blocks, i, size);
    }
  }

  lemma GrownBefore(bs: seq<Block>, cs: seq<Block>, i: nat)
    requires 0 < i < |bs| && i < |cs| && cs[i - 1] == bs[i - 1] && cs[i - 1].free
    ensures !SameBlocks(bs, BlocksFreed(cs, i))
  {
    assert BlocksFreed(cs, i)[i - 1].size > bs[i - 1].size;
  }

  lemma ShorterBehind(bs: seq<Block>, cs: seq<Block>, i: nat)
    requires i + 1 < |bs| && |cs| == |bs| && cs[i + 1].free && !(i > 0 && cs[i - 1].free)
    ensures !SameBlocks(bs, BlocksFreed(cs, i))
  {
    assert |BlocksFreed(cs, i)| == |bs| - 1;
  }

  lemma StaleUser(bs: seq<Block>, i: nat, size: nat)
    requires i < |bs| && bs[i].free
    ensures SameBlocks(bs, bs[i := bs[i].(user := size)])
  {
  }

  lemma UndoWhole(bs: seq<Block>, i: nat, size: nat)
    requires i < |bs| && bs[i].free && !(i > 0 && bs[i - 1].free) && !(i + 1 < |bs| && bs[i + 1].free)
    ensures BlocksFreed(bs[i := bs[i].(user := size, free := false)], i) == bs[i := bs[i].(user := size)]
  {
  }

  lemma ChosenFree(p: Pool, i: nat)
    requires WF(p) && i < |p.blocks| && p.blocks[i].addr in p.freeList
    ensures p.blocks[i].free
  {
    FreeAt(p, i);
  }

  lemma UnlinkFirst(a: nat, fl: seq<nat>)
    ensures Without([a] + fl, Pos([a] + fl, a)) == fl
  {
  }

  lemma UndoSplit(bs: seq<Block>, i: nat, n: nat, size: nat)
    requires i < |bs| && bs[i].free && Splits(bs[i], n) && !(i > 0 && bs[i - 1].free)
    ensures var cs := bs[..i] + [bs[i].(size := n, user := size, free := false), Rest(bs[i], n)] + bs[i + 1..];
            BlocksFreed(cs, i) == bs[i := bs[i].(user := size)]
  {
    var cs := bs[..i] + [bs[i].(size := n, user := size, free := false), Rest(bs[i], n)] + bs[i + 1..];
    assert cs[..i] == bs[..i] && cs[i + 2..] == bs[i + 1..];
    assert cs[i + 1] == Rest(bs[i], n);
    assert i > 0 ==> cs[i - 1] == bs[i - 1];
  }

  // ----- any number of mallocs, freed in reverse

  /** No two neighbours are both free. */
  predicate NoFreeNeighbours(p: Pool) {
    forall k {:trigger FreeBehind(p, k)} :: 0 <= k < |p.blocks| && p.blocks[k].free ==> !FreeBehind(p, k)
  }

  function IndexAt(bs: seq<Block>, a: nat): (k: nat)
    ensures k <= |bs|
    ensures k < |bs| ==> bs[k].addr == a
  {
    if bs == [] || bs[0].addr == a then 0 else 1 + IndexAt(bs[1..], a)
  }

  predicate Serves(p: Pool, size: nat) {
    FirstFit(p.blocks, p.freeList, ActualSize(size)) < |p.freeList|
  }

  /** The header of the block that malloc picks: the first fit on the free list. */
  function Picked(p: Pool, size: nat): nat
    requires Serves(p, size)
  {
    p.freeList[FirstFit(p.blocks, p.freeList, ActualSize(size))]
  }

  function MallocFirst(p: Pool, size: nat): Pool
    requires Serves(p, size)
  {
    var i := IndexAt(p.blocks, Picked(p, size));
    if i < |p.blocks| then Malloc(p, i, size) else p
  }

  predicate ServesAll(p: Pool, sizes: seq<nat>)
    decreases sizes
  {
    sizes == [] || (Serves(p, sizes[0]) && ServesAll(MallocFirst(p, sizes[0]), sizes[1..]))
  }

  function MallocAll(p: Pool, sizes: seq<nat>): Pool
    requires ServesAll(p, sizes)
    decreases sizes
  {
    if sizes == [] then p else MallocAll(MallocFirst(p, sizes[0]), sizes[1..])
  }

  /** The headers of the blocks served, in the order of the requests. */
  function Served(p: Pool, sizes: seq<nat>): seq<nat>
    requires ServesAll(p, sizes)
    decreases sizes
  {
    if sizes == [] then [] else [Picked(p, sizes[0])] + Served(MallocFirst(p, sizes[0]), sizes[1..])
  }

  function FreeHeader(p: Pool, a: nat): Pool {
    var i := IndexAt(p.blocks, a);
    if i < |p.blocks| then Free(p, i) else p
  }

  /** Free the blocks of these headers, the last one first. */
  function FreeReversed(p: Pool, headers: seq<nat>): Pool {
    if headers == [] then p else FreeHeader(FreeReversed(p, headers[1..]), headers[0])
  }

  lemma PickedBlock(p: Pool, size: nat) returns (i: nat)
    requires WF(p) && Serves(p, size)
    ensures i < |p.blocks| && i == IndexAt(p.blocks, Picked(p, size)) && p.blocks[i].addr == Picked(p, size)
    ensures p.blocks[i].free && ActualSize(size) <= p.blocks[i].size && p.blocks[i].addr in p.freeList
  {
    hide Tiles;
    var lo, hi, a := p.base + POOL_GENERAL_SIZE, p.base + p.size, Picked(p, size);
    assert a in p.freeList;
    var b :| b in p.blocks && b.free && b.addr == a;
    var k :| 0 <= k < |p.blocks| && p.blocks[k] == b;
    IndexAtBlock(p.blocks, lo, hi, k);
    SizeAtBlock(p.blocks, lo, hi, k);
    i := k;
  }

  lemma {:induction false} IndexAtBlock(bs: seq<Block>, lo: nat, hi: nat, k: nat)
    requires Tiles(bs, lo, hi) && k < |bs|
    ensures IndexAt(bs, bs[k].addr) == k
  {
    if k > 0 {
      TilesAt(bs, lo, hi, 0, k);
      IndexAtBlock(bs[1..], bs[0].End(), hi, k - 1);
    }
  }

  lemma MallocIsolates(p: Pool, i: nat, size: nat)
    requires WF(p) && NoFreeNeighbours(p) && i < |p.blocks| && p.blocks[i].addr in p.freeList
    ensures NoFreeNeighbours(Malloc(p, i, size))
    ensures Undoable(p, i, size)
  {
    hide WF, Malloc, AlignUp;
    MallocBlocks(p, i, size);
    ChosenFree(p, i);
    var b, n, q := p.blocks[i], ActualSize(size), Malloc(p, i, size);
    assert !FreeBehind(p, i);
    assert i > 0 && p.blocks[i - 1].free ==> !FreeBehind(p, i - 1);
    forall k | 0 <= k < |q.blocks| && q.blocks[k].free ensures !FreeBehind(q, k) {
      if k < i {
        assert q.blocks[k] == p.blocks[k] && !FreeBehind(p, k);
      } else if Splits(b, n) && k > i + 1 {
        assert q.blocks[k] == p.blocks[k - 1] && !FreeBehind(p, k - 1);
      } else if !Splits(b, n) && k > i {
        assert q.blocks[k] == p.blocks[k] && !FreeBehind(p, k);
      }
    }
  }

  lemma AlikeParts(bs: seq<Block>, cs: seq<Block>, k: nat)
    requires SameBlocks(bs, cs) && k <= |bs|
    ensures SameBlocks(bs[..k], cs[..k]) && SameBlocks(bs[k..], cs[k..])
  {
  }

  lemma AlikeJoined(xs: seq<Block>, b: Block, ys: seq<Block>, xs': seq<Block>, b': Block, ys': seq<Block>)
    requires SameBlocks(xs, xs') && Alike(b, b') && SameBlocks(ys, ys')
    ensures SameBlocks(xs + [b] + ys, xs' + [b'] + ys')
  {
  }

  lemma FreedAlike(bs: seq<Block>, cs: seq<Block>, i: nat)
    requires SameBlocks(bs, cs) && i < |bs| && !bs[i].free
    ensures SameBlocks(BlocksFreed(bs, i), BlocksFreed(cs, i))
  {
    hide SameBlocks;
    AlikeAt(bs, cs, i);
    AlikeParts(bs, cs, i);
    AlikeParts(bs, cs, i + 1);
    var b, c := bs[i], cs[i];
    if i > 0 && bs[i - 1].free {
      AlikeAt(bs, cs, i - 1);
      AlikeParts(bs, cs, i - 1);
      var l, m := bs[i - 1], cs[i - 1];
      AlikeJoined(bs[..i - 1], l.(size := l.size + HEADER_SIZE + b.size), bs[i + 1..],
                  cs[..i - 1], m.(size := m.size + HEADER_SIZE + c.size), cs[i + 1..]);
    } else {
      BehindAlike(bs, cs, i);
    }
  }

  lemma BehindAlike(bs: seq<Block>, cs: seq<Block>, i: nat)
    requires SameBlocks(bs, cs) && i < |bs| && !bs[i].free && !(i > 0 && bs[i - 1].free)
    ensures SameBlocks(BlocksFreed(bs, i), BlocksFreed(cs, i))
  {
    hide SameBlocks, BlocksFreed;
    AlikeAt(bs, cs, i);
    if i > 0 {
      AlikeAt(bs, cs, i - 1);
    }
    var b, c := bs[i], cs[i];
    if i + 1 < |bs| && bs[i + 1].free {
      AlikeAt(bs, cs, i + 1);
      BehindParts(bs, i);
      BehindParts(cs, i);
      AlikeParts(bs, cs, i);
      AlikeParts(bs, cs, i + 2);
      AlikeJoined(bs[..i], b.(free := true, size := b.size + HEADER_SIZE + bs[i + 1].size), bs[i + 2..],
                  cs[..i], c.(free := true, size := c.size + HEADER_SIZE + cs[i + 1].size), cs[i + 2..]);
    } else {
      AloneAlike(bs, cs, i);
    }
  }

  lemma AloneAlike(bs: seq<Block>, cs: seq<Block>, i: nat)
    requires SameBlocks(bs, cs) && i < |bs| && !bs[i].free && !(i > 0 && bs[i - 1].free)
             && !(i + 1 < |bs| && bs[i + 1].free)
    ensures SameBlocks(BlocksFreed(bs, i), BlocksFreed(cs, i))
  {
    assert i > 0 ==> Alike(bs[i - 1], cs[i - 1]);
    assert i + 1 < |bs| ==> Alike(bs[i + 1], cs[i + 1]);
  }

  lemma {:induction false} IndexAlike(bs: seq<Block>, cs: seq<Block>, a: nat)
    requires SameBlocks(bs, cs)
    ensures IndexAt(bs, a) == IndexAt(cs, a)
  {
    if bs != [] {
      assert Alike(bs[0], cs[0]);
      assert forall k {:trigger bs[1..][k]} :: 0 <= k < |bs| - 1 ==> Alike(bs[1..][k], cs[1..][k]);
      IndexAlike(bs[1..], cs[1..], a);
    }
  }

  lemma AlikeTrans(bs: seq<Block>, cs: seq<Block>, ds: seq<Block>)
    requires SameBlocks(bs, cs) && SameBlocks(cs, ds)
    ensures SameBlocks(bs, ds)
  {
    forall k | 0 <= k < |bs| ensures Alike(bs[k], ds[k]) {
      assert Alike(bs[k], cs[k]) && Alike(cs[k], ds[k]);
    }
  }

  lemma LifoStep(p: Pool, q: Pool, i: nat, size: nat)
    requires WF(p) && i < |p.blocks| && p.blocks[i].addr in p.freeList && ActualSize(size) <= p.blocks[i].size
    requires Undoable(p, i, size)
    requires WF(q) && SamePlace(p, q) && SameBlocks(Malloc(p, i, size).blocks, q.blocks)
    ensures var r := FreeHeader(q, p.blocks[i].addr); WF(r) && SamePlace(p, r) && SameBlocks(p.blocks, r.blocks)
  {
    hide WF, Malloc, Free, AlignUp, SameBlocks, BlocksFreed, Undoable;
    var p1 := Malloc(p, i, size);
    MallocWF(p, i, size);
    Find(p1, i);
    IndexAlike(p1.blocks, q.blocks, p.blocks[i].addr);
    AlikeAt(p1.blocks, q.blocks, i);
    FreeUndoesMalloc(p, i, size);
    FreeEffect(p1, i);
    FreeEffect(q, i);
    FreedAlike(p1.blocks, q.blocks, i);
    FreeWF(q, i);
    AlikeTrans(p.blocks, Free(p1, i).blocks, Free(q, i).blocks);
  }

  lemma AlikeAt(bs: seq<Block>, cs: seq<Block>, i: nat)
    requires SameBlocks(bs, cs) && i < |bs|
    ensures |cs| == |bs| && Alike(bs[i], cs[i])
  {
  }

  lemma Find(p: Pool, i: nat)
    requires WF(p) && i < |p.blocks|
    ensures IndexAt(p.blocks, p.blocks[i].addr) == i
  {
    IndexAtBlock(p.blocks, p.base + POOL_GENERAL_SIZE, p.base + p.size, i);
  }

  /**
   * LIFO inversion. From any pool without adjacent free blocks, whatever mallocs the pool serves are undone by freeing
   * the blocks in reverse order: the physical list is back, and with it the free list as a set.
   */
  lemma {:induction false} LifoRestores(p: Pool, sizes: seq<nat>)
    requires WF(p) && NoFreeNeighbours(p) && ServesAll(p, sizes)
    ensures var q := FreeReversed(MallocAll(p, sizes), Served(p, sizes));
            WF(q) && SamePlace(p, q) && SameBlocks(p.blocks, q.blocks)
    decreases sizes
  {
    hide WF, Malloc, Free, AlignUp, NoFreeNeighbours, FreeHeader, Undoable, IndexAt, SameBlocks;
    if sizes == [] {
      AlikeRefl(p.blocks);
    } else {
      var size, rest := sizes[0], sizes[1..];
      var i := PickedBlock(p, size);
      var p1 := MallocFirst(p, size);
      MallocWF(p, i, size);
      MallocIsolates(p, i, size);
      LifoRestores(p1, rest);
      var q := FreeReversed(MallocAll(p1, rest), Served(p1, rest));
      LifoStep(p, q, i, size);
      assert Served(p, sizes)[1..] == Served(p1, rest);
    }
  }

  lemma AlikeRefl(bs: seq<Block>)
    ensures SameBlocks(bs, bs)
  {
  }

  /** From a fresh pool the single free block is back, alone on the free list. */
  lemma FreshLifo(p: Pool, sizes: seq<nat>)
    requires WF(p) && |p.blocks| == 1 && p.blocks[0].free && ServesAll(p, sizes)
    ensures var q := FreeReversed(MallocAll(p, sizes), Served(p, sizes));
            |q.blocks| == 1 && q.blocks[0] == p.blocks[0].(user := q.blocks[0].user) && q.freeList == [p.blocks[0].addr]
  {
    LifoRestores(p, sizes);
    var q := FreeReversed(MallocAll(p, sizes), Served(p, sizes));
    assert Alike(p.blocks[0], q.blocks[0]);
    assert q.blocks[0] in q.blocks && q.blocks == [q.blocks[0]];
    SingleFree(q.freeList, q.blocks[0].addr, q);
  }

  lemma SingleFree(fl: seq<nat>, a: nat, q: Pool)
    requires WF(q) && fl == q.freeList && |q.blocks| == 1 && q.blocks[0].free && a == q.blocks[0].addr
    ensures fl == [a]
  {
    FreeOne(q.blocks[0]);
    assert q.blocks == [q.blocks[0]];
    assert a in fl;
    if |fl| > 1 {
      TwoMembers(fl);
      assert false;
    }
  }

  lemma TwoMembers(fl: seq<nat>)
    requires |fl| > 1 && Distinct(fl)
    ensures exists a, b :: a in fl && b in fl && a != b
  {
    assert fl[0] in fl && fl[1] in fl && fl[0] != fl[1];
  }

  // ----- what the sizes and the in-place cases come to

  /** malloc takes the user's bytes rounded up to the alignment, and one unit more; realloc makes do with the canary. */
  lemma SizesExact(size: nat, k: nat)
    requires k % ALIGNMENT == 0
    ensures size <= k < size + ALIGNMENT ==> ActualSize(size) == k + ALIGNMENT
    ensures size + CANARY_SIZE <= k < size + CANARY_SIZE + ALIGNMENT ==> ResizedSize(size) == k
  {
    hide AlignUp;
    AlignedUp(size);
    AlignedUp(AlignUp(size, ALIGNMENT) + CANARY_SIZE);
    AlignedUp(size + CANARY_SIZE);
    if size <= k < size + ALIGNMENT {
      OneMultiple(AlignUp(size, ALIGNMENT), k);
      OneMultiple(ActualSize(size), k + ALIGNMENT);
    }
    if size + CANARY_SIZE <= k < size + CANARY_SIZE + ALIGNMENT {
      OneMultiple(ResizedSize(size), k);
    }
  }

  lemma OneMultiple(x: nat, y: nat)
    requires x % ALIGNMENT == 0 && y % ALIGNMENT == 0 && -16 < x - y < 16
    ensures x == y
  {
  }

  /**
   * realloc keeps a block where it is if its pool is not in quarantine and the block, alone or together with a free
   * one behind it, has room for the user's bytes and the canary. The rounding does not matter, because blocks are
   * whole units.
   */
  lemma InPlaceExactly(p: Pool, i: nat, size: nat)
    requires WF(p) && i < |p.blocks|
    ensures InPlace(p, i, size) <==>
            && !p.readOnly
            && (|| size + CANARY_SIZE <= p.blocks[i].size
                || (&& i + 1 < |p.blocks| && p.blocks[i + 1].free
                    && size + CANARY_SIZE <= p.blocks[i].size + HEADER_SIZE + p.blocks[i + 1].size))
  {
    hide Tiles, FreeAddrs, Distinct, AlignUp, Indexed, WF, ResizedSize;
    WholeBlock(p, i);
    Rounded(size, p.blocks[i].size);
    if i + 1 < |p.blocks| {
      WholeBlock(p, i + 1);
      WholeSum(p.blocks[i].size, p.blocks[i + 1].size);
      Rounded(size, p.blocks[i].size + HEADER_SIZE + p.blocks[i + 1].size);
    }
  }

  lemma WholeBlock(p: Pool, i: nat)
    requires WF(p) && i < |p.blocks|
    ensures p.blocks[i].size % ALIGNMENT == 0
  {
    hide Tiles, FreeAddrs, Distinct, Indexed;
    assert Good(p.blocks[i]);
  }

  lemma WholeSum(a: nat, b: nat)
    requires a % ALIGNMENT == 0 && b % ALIGNMENT == 0
    ensures (a + HEADER_SIZE + b) % ALIGNMENT == 0
  {
  }

  /** A whole block holds the rounded size exactly if it holds the size. */
  lemma Rounded(size: nat, b: nat)
    requires b % ALIGNMENT == 0
    ensures ResizedSize(size) <= b <==> size + CANARY_SIZE <= b
  {
    hide AlignUp;
    AlignedUp(size + CANARY_SIZE);
    var r := ResizedSize(size);
    assert r == ALIGNMENT * (r / ALIGNMENT) && b == ALIGNMENT * (b / ALIGNMENT);
  }

  /** The block sized for n bytes and, if what is left makes a header and MIN_BLOCK_SIZE bytes, a free rest. */
  function Sized(b: Block, n: nat, size: nat): seq<Block> {
    if b.size >= n + HEADER_SIZE + MIN_BLOCK_SIZE then [b.(size := n, user := size), Rest(b, n)] else [b.(user := size)]
  }

  /**
   * A block that is large enough alone is resized alone: the block behind it stays, free or not, and so does the free
   * list.
   */
  lemma ResizedAlone(p: Pool, i: nat, size: nat)
    requires WF(p) && i < |p.blocks| && InPlace(p, i, size) && size + CANARY_SIZE <= p.blocks[i].size
    requires i + 1 < |p.blocks| && p.blocks[i + 1].free ==> p.blocks[i + 1].addr in p.freeList
    ensures var l := Sized(p.blocks[i], ResizedSize(size), size);
            && Resize(p, i, size).blocks == p.blocks[..i] + l + p.blocks[i + 1..]
            && Resize(p, i, size).freeList == (if |l| > 1 then [l[1].addr] else []) + p.freeList
  {
    hide Tiles, FreeAddrs, Distinct, AlignUp, Indexed, Absorb;
    WholeBlock(p, i);
    Rounded(size, p.blocks[i].size);
    ShrinkParts(p, i, size);
  }

  lemma ShrinkParts(p: Pool, i: nat, size: nat)
    requires i < |p.blocks|
    ensures var l := Sized(p.blocks[i], ResizedSize(size), size);
            && Shrink(p, i, size).blocks == p.blocks[..i] + l + p.blocks[i + 1..]
            && Shrink(p, i, size).freeList == (if |l| > 1 then [l[1].addr] else []) + p.freeList
  {
    hide AlignUp;
    var b := p.blocks[i].(user := size);
    assert p.blocks[i := b][..i] == p.blocks[..i] && p.blocks[i := b][i + 1..] == p.blocks[i + 1..];
    assert p.blocks[i := b] == p.blocks[..i] + [b] + p.blocks[i + 1..];
  }

  /** Otherwise it takes over the free block behind it, which leaves the free list, and is then sized the same way. */
  lemma ResizedWithNext(p: Pool, i: nat, size: nat)
    requires WF(p) && i + 1 < |p.blocks| && InPlace(p, i, size) && p.blocks[i].size < size + CANARY_SIZE
    requires p.blocks[i + 1].free && p.blocks[i + 1].addr in p.freeList
    ensures var b := p.blocks[i].(size := p.blocks[i].size + HEADER_SIZE + p.blocks[i + 1].size);
            var l := Sized(b, ResizedSize(size), size);
            && Resize(p, i, size).blocks == p.blocks[..i] + l + p.blocks[i + 2..]
            && Resize(p, i, size).freeList ==
               (if |l| > 1 then [l[1].addr] else []) + Without(p.freeList, Pos(p.freeList, p.blocks[i + 1].addr))
  {
    hide Tiles, FreeAddrs, Distinct, AlignUp, Indexed, Shrink, Without, Pos;
    AlignedUp(size + CANARY_SIZE);
    var q := Merge(Unlink(p, p.blocks[i + 1].addr), i);
    MergeAt(Unlink(p, p.blocks[i + 1].addr), i);
    ShrinkParts(q, i, size);
    assert q.blocks[..i] == p.blocks[..i] && q.blocks[i + 1..] == p.blocks[i + 2..];
  }

  // ----- how much a live block can waste

  /** A pool with a single block. */
  function OneBlock(b: Block): Pool
    requires b.addr >= POOL_GENERAL_SIZE
  {
    Pool(b.addr - POOL_GENERAL_SIZE, POOL_GENERAL_SIZE + HEADER_SIZE + b.size, false, [b],
         if b.free then [b.addr] else [])
  }

  lemma OneBlockWF(b: Block)
    requires b.addr > POOL_GENERAL_SIZE && b.addr % ALIGNMENT == 0 && Good(b) && Snug(b) && b.End() < U64
    ensures WF(OneBlock(b))
  {
    TilesOne(b);
    var p := OneBlock(b);
    assert p.blocks[0] == b;
    assert FreeAddrs(p.blocks) == (if b.free then {b.addr} else {}) by {
      assert b in p.blocks;
    }
  }

  /** The upper bound of Snug is reached, by a malloc of one byte, so it cannot be lowered. */
  lemma MostWasted()
    ensures var p := OneBlock(Block(8192, 384, 0, true));
            && WF(p) && ActualSize(1) <= p.blocks[0].size
            && Malloc(p, 0, 1).blocks[0].size == Malloc(p, 0, 1).blocks[0].user + MAX_WASTE
  {
    hide WF, Malloc;
    OneBlockWF(Block(8192, 384, 0, true));
    MallocBlocks(OneBlock(Block(8192, 384, 0, true)), 0, 1);
  }

  /** The lower bound is reached by a realloc to twelve bytes. */
  lemma LeastWasted()
    ensures var p := OneBlock(Block(8192, 16, 11, false));
            && WF(p) && ResizedSize(12) <= p.blocks[0].size
            && Shrink(p, 0, 12).blocks[0].size == Shrink(p, 0, 12).blocks[0].user + CANARY_SIZE
  {
    hide WF;
    OneBlockWF(Block(8192, 16, 11, false));
    assert !Splits(Block(8192, 16, 12, false), ResizedSize(12));
  }

  /**
   * Above MAX_RESIZE the first in-place case of dam_general_realloc takes any block, whatever its size, for large
   * enough, and the address of the new canary wraps around into the block's own header.
   */
  lemma ResizeWraps(p: Pool, i: nat, size: nat)
    requires WF(p) && i < |p.blocks| && MAX_RESIZE < size < U64
    ensures ResizedSize64(size) <= p.blocks[i].size < size
    ensures p.blocks[i].addr <= (p.blocks[i].Payload() + size) % U64 < p.blocks[i].Payload()
  {
    hide Tiles, FreeAddrs, Distinct, ResizedSize64;
    ResizeFits(size);
    TilesAt(p.blocks, p.base + POOL_GENERAL_SIZE, p.base + p.size, i, i);
    assert Good(p.blocks[i]);
  }

  /**
   * A block of 16 bytes, resized to the largest size_t: judged large enough, its canary would start one byte before
   * it.
   */
  lemma ResizeWrapped()
    ensures var p := OneBlock(Block(8192, 16, 11, false));
            && WF(p) && ResizedSize64(U64 - 1) <= p.blocks[0].size
            && (p.blocks[0].Payload() + (U64 - 1)) % U64 == p.blocks[0].Payload() - 1
  {
    hide WF;
    OneBlockWF(Block(8192, 16, 11, false));
  }

  // ----- a free that does not undo its malloc

  /** Two free blocks of 32 bytes side by side, as a free between two free blocks leaves them. */
  function TwoFree(): Pool {
    Pool(4096, POOL_GENERAL_SIZE + 160, false, [Block(8192, 32, 0, true), Block(8272, 32, 0, true)], [8272, 8192])
  }

  lemma TwoFreeWF()
    ensures WF(TwoFree())
  {
    var p := TwoFree();
    TilesTwo(p.blocks[0], p.blocks[1]);
    FreeTwo(p.blocks[0], p.blocks[1]);
    assert p.freeList[0] == 8272 && p.freeList[1] == 8192;
  }

  /**
   * One byte is taken from the second block and given back: the block is merged with the first one and does not come
   * back.
   */
  lemma FreeUndoesNot()
    ensures var p := TwoFree();
            && WF(p) && p.blocks[1].addr in p.freeList && ActualSize(1) <= p.blocks[1].size
            && 1 < |Malloc(p, 1, 1).blocks| && !SameBlocks(p.blocks, Free(Malloc(p, 1, 1), 1).blocks)
  {
    hide WF, Malloc, Free, SameBlocks;
    TwoFreeWF();
    assert TwoFree().freeList[0] == TwoFree().blocks[1].addr;
    FreeUndoesMalloc(TwoFree(), 1, 1);
  }
}
