/** What a general pool is, apart from its bytes: the blocks in address order and the free list, front first. */
module PoolModel {
  import opened Bytes
  import opened Layout
  import opened FreeList

  datatype Block = Block(addr: nat, size: nat, user: nat, free: bool) {
    function Payload(): nat {
      addr + HEADER_SIZE
    }

    function End(): nat {
      addr + HEADER_SIZE + size
    }
  }

  datatype Pool = Pool(base: nat, size: nat, readOnly: bool, blocks: seq<Block>, freeList: seq<nat>)

  /** The blocks lie end to end and fill [lo, hi) exactly. */
  ghost predicate Tiles(bs: seq<Block>, lo: nat, hi: nat) {
    if bs == [] then lo == hi else bs[0].addr == lo && Tiles(bs[1..], bs[0].End(), hi)
  }

  function EndOf(bs: seq<Block>, lo: nat): nat {
    if bs == [] then lo else bs[|bs| - 1].End()
  }

  lemma {:induction false} TilesAppend(xs: seq<Block>, ys: seq<Block>, lo: nat, hi: nat)
    ensures Tiles(xs + ys, lo, hi) <==> Tiles(xs, lo, EndOf(xs, lo)) && Tiles(ys, EndOf(xs, lo), hi)
  {
    if xs == [] {
      assert xs + ys == ys;
    } else {
      assert (xs + ys)[1..] == xs[1..] + ys;
      TilesAppend(xs[1..], ys, xs[0].End(), hi);
      assert EndOf(xs[1..], xs[0].End()) == EndOf(xs, lo);
    }
  }

  /** Blocks that fill the same bytes can stand in for one another. */
  lemma TilesSplice(pre: seq<Block>, mid: seq<Block>, mid': seq<Block>, post: seq<Block>, lo: nat, hi: nat)
    requires Tiles(pre + mid + post, lo, hi)
    requires mid != [] && mid' != [] && mid'[0].addr == mid[0].addr && EndOf(mid', lo) == EndOf(mid, lo)
    requires Tiles(mid', mid[0].addr, EndOf(mid, lo))
    ensures Tiles(pre + mid' + post, lo, hi)
  {
    TilesAppend(pre + mid, post, lo, hi);
    var at := EndOf(pre, lo);
    TilesAppend(pre, mid, lo, EndOf(pre + mid, lo));
    assert (pre + mid)[|pre + mid| - 1] == mid[|mid| - 1];
    assert (pre + mid')[|pre + mid'| - 1] == mid'[|mid'| - 1];
    TilesAppend(pre, mid', lo, EndOf(pre + mid, lo));
    TilesAppend(pre + mid', post, lo, hi);
  }

  /** Any two blocks keep their order without overlap; a block ends where the next one starts. */
  lemma {:induction false} TilesAt(bs: seq<Block>, lo: nat, hi: nat, k: nat, l: nat)
    requires Tiles(bs, lo, hi) && k < |bs| && l < |bs|
    ensures lo <= bs[k].addr && bs[k].End() <= hi
    ensures k < l ==> bs[k].End() <= bs[l].addr
    ensures k + 1 == l ==> bs[k].End() == bs[l].addr
    decreases |bs|
  {
    TilesBounds(bs, lo, hi);
    if k > 0 && l > 0 {
      TilesAt(bs[1..], bs[0].End(), hi, k - 1, l - 1);
    } else if k == 0 && l > 0 {
      TilesAt(bs[1..], bs[0].End(), hi, l - 1, l - 1);
    } else if k > 0 {
      TilesAt(bs[1..], bs[0].End(), hi, k - 1, k - 1);
    }
  }

  lemma {:induction false} TilesBounds(bs: seq<Block>, lo: nat, hi: nat)
    requires Tiles(bs, lo, hi)
    ensures lo <= hi
    ensures bs != [] ==> bs[0].addr == lo && bs[0].End() <= hi && bs[|bs| - 1].End() == hi
  {
    if bs != [] {
      TilesBounds(bs[1..], bs[0].End(), hi);
    }
  }

  ghost predicate Good(b: Block) {
    b.size >= LINKS_SIZE && b.size % ALIGNMENT == 0
  }

  function FreeAddrs(bs: seq<Block>): set<nat> {
    set b | b in bs && b.free :: b.addr
  }

  ghost predicate Distinct(fl: seq<nat>) {
    forall j, l {:trigger fl[j], fl[l]} :: 0 <= j < l < |fl| ==> fl[j] != fl[l]
  }

  /** The blocks tile the pool behind its prefix and only free blocks are on the list, each once. */
  ghost predicate Shape(p: Pool) {
    && p.base > 0 && p.base % ALIGNMENT == 0
    && p.base + p.size < U64
    && Tiles(p.blocks, p.base + POOL_GENERAL_SIZE, p.base + p.size)
    && p.blocks != []
    && (forall b :: b in p.blocks ==> Good(b))
    && Distinct(p.freeList)
    && (forall a :: a in p.freeList ==> a in FreeAddrs(p.blocks))
  }

  /** The free list holds every free block. */
  ghost predicate Indexed(p: Pool) {
    forall a :: a in FreeAddrs(p.blocks) ==> a in p.freeList
  }

  const MAX_WASTE: nat := 383

  /** A live block holds its user bytes and the canary, and is at most MAX_WASTE bytes larger than the user bytes. */
  ghost predicate Snug(b: Block) {
    b.free || b.user + CANARY_SIZE <= b.size <= b.user + MAX_WASTE
  }

  /** What holds of every pool between two operations. */
  ghost predicate WF(p: Pool) {
    Shape(p) && Indexed(p) && forall b :: b in p.blocks ==> Snug(b)
  }

  ghost predicate LiveBlock(b: Block, ptr: nat, user: nat) {
    !b.free && b.Payload() == ptr && b.user == user
  }

  /** The pool serves ptr as an allocation of user bytes. */
  ghost predicate LiveAt(p: Pool, ptr: nat, user: nat) {
    exists k :: 0 <= k < |p.blocks| && LiveBlock(p.blocks[k], ptr, user)
  }

  // ----- the steps of the allocator on a pool

  /** No step moves a pool, resizes it or changes its quarantine. */
  predicate SamePlace(p: Pool, q: Pool) {
    q.base == p.base && q.size == p.size && q.readOnly == p.readOnly
  }

  function Pos(fl: seq<nat>, a: nat): (k: nat)
    requires a in fl
    ensures k < |fl| && fl[k] == a
  {
    if fl[0] == a then 0 else 1 + Pos(fl[1..], a)
  }

  /** Take a block off the free list. */
  function Unlink(p: Pool, a: nat): (q: Pool)
    requires a in p.freeList
    ensures SamePlace(p, q)
  {
    p.(freeList := Without(p.freeList, Pos(p.freeList, a)))
  }

  /** Put a block at the front of the free list. */
  function Link(p: Pool, a: nat): (q: Pool)
    ensures SamePlace(p, q)
  {
    p.(freeList := [a] + p.freeList)
  }

  function Put(p: Pool, i: nat, b: Block): (q: Pool)
    requires i < |p.blocks|
    ensures SamePlace(p, q)
  {
    p.(blocks := p.blocks[i := b])
  }

  function Rest(b: Block, n: nat): Block
    requires b.size >= n + HEADER_SIZE
  {
    Block(b.addr + HEADER_SIZE + n, b.size - n - HEADER_SIZE, 0, true)
  }

  predicate Splits(b: Block, n: nat) {
    b.size >= n + HEADER_SIZE + MIN_BLOCK_SIZE
  }

  /** Cut block i into its first n bytes and a free rest. */
  function Cut(p: Pool, i: nat, n: nat): (q: Pool)
    requires i < |p.blocks| && Splits(p.blocks[i], n)
    ensures SamePlace(p, q)
  {
    p.(blocks := p.blocks[..i] + [p.blocks[i].(size := n), Rest(p.blocks[i], n)] + p.blocks[i + 1..])
  }

  /** Keep n bytes of block i and put the rest on the free list, when that leaves a header and MIN_BLOCK_SIZE. */
  function Split(p: Pool, i: nat, n: nat): (q: Pool)
    requires i < |p.blocks|
    ensures SamePlace(p, q)
  {
    if Splits(p.blocks[i], n) then Link(Cut(p, i, n), Rest(p.blocks[i], n).addr) else p
  }

  /** Block i takes over block i + 1. */
  function Merge(p: Pool, i: nat): (q: Pool)
    requires i + 1 < |p.blocks|
    ensures SamePlace(p, q)
  {
    var b := p.blocks[i];
    p.(blocks := p.blocks[..i] + [b.(size := b.size + HEADER_SIZE + p.blocks[i + 1].size)] + p.blocks[i + 2..])
  }

  /** Addresses identify blocks. */
  lemma AddrInjective(p: Pool, k: nat, l: nat)
    requires Shape(p) && k < |p.blocks| && l < |p.blocks| && p.blocks[k].addr == p.blocks[l].addr
    ensures k == l
  {
    TilesAt(p.blocks, p.base + POOL_GENERAL_SIZE, p.base + p.size, k, l);
    TilesAt(p.blocks, p.base + POOL_GENERAL_SIZE, p.base + p.size, l, k);
  }

  lemma WithoutDistinct(fl: seq<nat>, k: nat)
    requires k < |fl| && Distinct(fl)
    ensures Distinct(Without(fl, k))
    ensures forall c :: c in Without(fl, k) <==> c in fl && c != fl[k]
  {
    var fl' := Without(fl, k);
    assert forall j {:trigger fl'[j]} :: 0 <= j < |fl'| ==> fl'[j] == fl[Shift(j, k)];
    forall c | c in fl && c != fl[k] ensures c in fl' {
      var j :| 0 <= j < |fl| && fl[j] == c;
      assert fl'[if j < k then j else j - 1] == c;
    }
  }

  lemma UnlinkShape(p: Pool, a: nat)
    requires Shape(p) && a in p.freeList
    ensures Shape(Unlink(p, a))
    ensures forall c :: c in Unlink(p, a).freeList <==> c in p.freeList && c != a
  {
    hide Without, Distinct;
    WithoutDistinct(p.freeList, Pos(p.freeList, a));
  }

  lemma LinkShape(p: Pool, a: nat)
    requires Shape(p) && a in FreeAddrs(p.blocks) && a !in p.freeList
    ensures Shape(Link(p, a))
  {
  }

  lemma FreeAppend(xs: seq<Block>, ys: seq<Block>)
    ensures FreeAddrs(xs + ys) == FreeAddrs(xs) + FreeAddrs(ys)
  {
    assert forall b {:trigger b in xs + ys} :: b in xs + ys <==> b in xs || b in ys;
  }

  /** A pool seen around its block i. */
  lemma FreeAround(p: Pool, i: nat, mid: seq<Block>, n: nat)
    requires i + n <= |p.blocks|
    ensures FreeAddrs(p.blocks[..i] + mid + p.blocks[i + n..])
         == FreeAddrs(p.blocks[..i]) + FreeAddrs(mid) + FreeAddrs(p.blocks[i + n..])
  {
    FreeAppend(p.blocks[..i] + mid, p.blocks[i + n..]);
    FreeAppend(p.blocks[..i], mid);
  }

  /** A block that starts inside [blocks[i], blocks[i + n]) is none of the others. */
  lemma NotAround(p: Pool, i: nat, n: nat, a: nat)
    requires Shape(p) && n > 0 && i + n <= |p.blocks|
    requires p.blocks[i].addr <= a < p.blocks[i + n - 1].End()
    ensures a !in FreeAddrs(p.blocks[..i]) && a !in FreeAddrs(p.blocks[i + n..])
  {
    var lo, hi := p.base + POOL_GENERAL_SIZE, p.base + p.size;
    forall b | b in p.blocks[..i] ensures b.addr != a {
      var k :| 0 <= k < i && p.blocks[..i][k] == b;
      TilesAt(p.blocks, lo, hi, k, i);
    }
    forall b | b in p.blocks[i + n..] ensures b.addr != a {
      var k :| 0 <= k < |p.blocks| - (i + n) && p.blocks[i + n..][k] == b;
      assert p.blocks[i + n + k] == b;
      TilesAt(p.blocks, lo, hi, i + n - 1, i + n + k);
    }
  }

  lemma FreeAt(p: Pool, i: nat)
    requires Shape(p) && i < |p.blocks|
    ensures p.blocks[i].addr in FreeAddrs(p.blocks) <==> p.blocks[i].free
  {
    var b := p.blocks[i];
    assert p.blocks == p.blocks[..i] + [b] + p.blocks[i + 1..];
    FreeAround(p, i, [b], 1);
    NotAround(p, i, 1, b.addr);
  }

  /** Replacing n blocks at i by blocks that fill the same bytes: the shape stays if the free list still fits. */
  lemma SpliceShape(p: Pool, i: nat, n: nat, mid: seq<Block>, p': Pool)
    requires Shape(p) && n > 0 && i + n <= |p.blocks| && mid != []
    requires mid[0].addr == p.blocks[i].addr && EndOf(mid, 0) == p.blocks[i + n - 1].End()
    requires Tiles(mid, mid[0].addr, EndOf(mid, 0))
    requires forall b :: b in mid ==> Good(b)
    requires p' == p.(blocks := p.blocks[..i] + mid + p.blocks[i + n..])
    requires forall a :: a in p.freeList && p.blocks[i].addr <= a < p.blocks[i + n - 1].End() ==> a in FreeAddrs(mid)
    ensures Shape(p')
    ensures FreeAddrs(p'.blocks) == FreeAddrs(p.blocks[..i]) + FreeAddrs(mid) + FreeAddrs(p.blocks[i + n..])
    ensures FreeAddrs(p.blocks) ==
            FreeAddrs(p.blocks[..i]) + FreeAddrs(p.blocks[i..i + n]) + FreeAddrs(p.blocks[i + n..])
  {
    hide FreeAddrs, Tiles, Without;
    var lo, hi := p.base + POOL_GENERAL_SIZE, p.base + p.size;
    var cut := p.blocks[i..i + n];
    assert p.blocks == p.blocks[..i] + cut + p.blocks[i + n..];
    FreeAround(p, i, mid, n);
    FreeAround(p, i, cut, n);
    TilesSplice(p.blocks[..i], cut, mid, p.blocks[i + n..], lo, hi);
    forall b | b in p'.blocks ensures Good(b) {
      assert b in p.blocks || b in mid;
    }
    forall a | a in p.freeList ensures a in FreeAddrs(p'.blocks) {
      if a in FreeAddrs(cut) {
        CutRange(p, i, n, a);
      }
    }
  }

  lemma CutRange(p: Pool, i: nat, n: nat, a: nat)
    requires Shape(p) && i + n <= |p.blocks| && a in FreeAddrs(p.blocks[i..i + n])
    ensures n > 0 && p.blocks[i].addr <= a < p.blocks[i + n - 1].End()
  {
    var lo, hi := p.base + POOL_GENERAL_SIZE, p.base + p.size;
    var cut := p.blocks[i..i + n];
    var b :| b in cut && b.addr == a;
    var k :| 0 <= k < n && cut[k] == b;
    assert p.blocks[i + k] == b;
    TilesAt(p.blocks, lo, hi, i, i + k);
    TilesAt(p.blocks, lo, hi, i + k, i + n - 1);
  }

  lemma FreeOne(b: Block)
    ensures FreeAddrs([b]) == if b.free then {b.addr} else {}
  {
    assert b in [b];
  }

  lemma FreeTwo(b: Block, c: Block)
    ensures FreeAddrs([b, c]) == FreeAddrs([b]) + FreeAddrs([c])
  {
    FreeAppend([b], [c]);
    assert [b] + [c] == [b, c];
  }

  lemma TilesOne(b: Block)
    ensures Tiles([b], b.addr, b.End())
  {
  }

  lemma TilesTwo(b: Block, c: Block)
    requires b.End() == c.addr
    ensures Tiles([b, c], b.addr, c.End())
  {
    assert [b, c][1..] == [c];
    TilesOne(c);
  }

  lemma PutShape(p: Pool, i: nat, b: Block)
    requires Shape(p) && i < |p.blocks|
    requires b.addr == p.blocks[i].addr && b.size == p.blocks[i].size
    requires b.free || b.addr !in p.freeList
    ensures Shape(Put(p, i, b))
    ensures FreeAddrs(Put(p, i, b).blocks) == FreeAddrs(p.blocks) - {b.addr} + (if b.free then {b.addr} else {})
  {
    hide Tiles, FreeAddrs, Distinct;
    var bs := p.blocks;
    assert bs[i := b] == bs[..i] + [b] + bs[i + 1..];
    assert bs[i..i + 1] == [bs[i]];
    assert Good(bs[i]);
    TilesOne(b);
    FreeOne(b);
    FreeOne(bs[i]);
    NotAround(p, i, 1, b.addr);
    TailsOfList(p, i, 1);
    SpliceShape(p, i, 1, [b], Put(p, i, b));
  }

  /** A member of the free list inside [blocks[i], blocks[i + n]) is one of those blocks. */
  lemma TailsOfList(p: Pool, i: nat, n: nat)
    requires Shape(p) && n > 0 && i + n <= |p.blocks|
    ensures forall a :: a in p.freeList && p.blocks[i].addr <= a < p.blocks[i + n - 1].End()
                        ==> a in FreeAddrs(p.blocks[i..i + n])
  {
    forall a | a in p.freeList && p.blocks[i].addr <= a < p.blocks[i + n - 1].End()
      ensures a in FreeAddrs(p.blocks[i..i + n])
    {
      var cut := p.blocks[i..i + n];
      assert p.blocks == p.blocks[..i] + cut + p.blocks[i + n..];
      FreeAround(p, i, cut, n);
      NotAround(p, i, n, a);
    }
  }

  lemma SplitShape(p: Pool, i: nat, n: nat)
    requires Shape(p) && i < |p.blocks| && !p.blocks[i].free
    requires n >= LINKS_SIZE && n % ALIGNMENT == 0
    ensures Splits(p.blocks[i], n) ==> Shape(Cut(p, i, n))
    ensures Shape(Split(p, i, n))
    ensures Indexed(p) ==> Indexed(Split(p, i, n))
  {
    hide Tiles, FreeAddrs, Distinct;
    var bs, b := p.blocks, p.blocks[i];
    assert Good(b);
    if Splits(b, n) {
      var kept, rest := b.(size := n), Rest(b, n);
      assert bs[i..i + 1] == [b];
      TilesTwo(kept, rest);
      FreeTwo(kept, rest);
      FreeOne(kept);
      FreeOne(rest);
      FreeOne(b);
      TailsOfList(p, i, 1);
      NotAround(p, i, 1, rest.addr);
      SpliceShape(p, i, 1, [kept, rest], Cut(p, i, n));
      LinkShape(Cut(p, i, n), rest.addr);
    }
  }

  lemma MergeShape(p: Pool, i: nat)
    requires Shape(p) && i + 1 < |p.blocks|
    requires p.blocks[i + 1].addr !in p.freeList
    ensures Shape(Merge(p, i))
    ensures FreeAddrs(Merge(p, i).blocks) == FreeAddrs(p.blocks) - {p.blocks[i + 1].addr}
  {
    hide Tiles, FreeAddrs, Distinct;
    var bs, b, c := p.blocks, p.blocks[i], p.blocks[i + 1];
    var merged := b.(size := b.size + HEADER_SIZE + c.size);
    TilesAt(bs, p.base + POOL_GENERAL_SIZE, p.base + p.size, i, i + 1);
    assert bs[i..i + 2] == [b, c];
    assert Good(b) && Good(c);
    TilesOne(merged);
    FreeTwo(b, c);
    FreeOne(b);
    FreeOne(c);
    FreeOne(merged);
    TailsOfList(p, i, 2);
    NotAround(p, i, 2, c.addr);
    SpliceShape(p, i, 2, [merged], Merge(p, i));
  }

  // ----- searching

  /** The size in the header at a. */
  function SizeAt(bs: seq<Block>, a: nat): nat {
    if bs == [] then 0 else if bs[0].addr == a then bs[0].size else SizeAt(bs[1..], a)
  }

  lemma {:induction false} SizeAtBlock(bs: seq<Block>, lo: nat, hi: nat, k: nat)
    requires Tiles(bs, lo, hi) && k < |bs|
    ensures SizeAt(bs, bs[k].addr) == bs[k].size
  {
    if k > 0 {
      TilesAt(bs, lo, hi, 0, k);
      SizeAtBlock(bs[1..], bs[0].End(), hi, k - 1);
    }
  }

  /** The place on the free list of the first block that holds n bytes; the length of the list if there is none. */
  function FirstFit(bs: seq<Block>, fl: seq<nat>, n: nat): (r: nat)
    ensures r <= |fl|
    ensures r < |fl| ==> SizeAt(bs, fl[r]) >= n
    ensures forall j {:trigger fl[j]} :: 0 <= j < r ==> SizeAt(bs, fl[j]) < n
  {
    if fl == [] || SizeAt(bs, fl[0]) >= n then 0 else 1 + FirstFit(bs, fl[1..], n)
  }

  /** The place in address order of the first free block that holds n bytes; the number of blocks if there is none. */
  function FirstFree(bs: seq<Block>, n: nat): (r: nat)
    ensures r <= |bs|
    ensures r < |bs| ==> bs[r].free && bs[r].size >= n
    ensures forall k {:trigger bs[k]} :: 0 <= k < r ==> !(bs[k].free && bs[k].size >= n)
  {
    if bs == [] || (bs[0].free && bs[0].size >= n) then 0 else 1 + FirstFree(bs[1..], n)
  }

  /** The free list finds a block exactly when the scan of all the blocks does. */
  lemma FitAgrees(p: Pool, n: nat)
    requires Shape(p) && Indexed(p)
    ensures FirstFit(p.blocks, p.freeList, n) < |p.freeList| <==> FirstFree(p.blocks, n) < |p.blocks|
  {
    hide Tiles;
    var lo, hi := p.base + POOL_GENERAL_SIZE, p.base + p.size;
    var j, k := FirstFit(p.blocks, p.freeList, n), FirstFree(p.blocks, n);
    if j < |p.freeList| {
      assert p.freeList[j] in p.freeList;
      var b :| b in p.blocks && b.free && b.addr == p.freeList[j];
      var l :| 0 <= l < |p.blocks| && p.blocks[l] == b;
      SizeAtBlock(p.blocks, lo, hi, l);
    }
    if k < |p.blocks| {
      assert p.blocks[k] in p.blocks;
      assert p.blocks[k].addr in FreeAddrs(p.blocks);
      var l :| 0 <= l < |p.freeList| && p.freeList[l] == p.blocks[k].addr;
      SizeAtBlock(p.blocks, lo, hi, k);
    }
  }

  // ----- the operations

  function ActualSize(size: nat): nat {
    AlignUp(AlignUp(size, ALIGNMENT) + CANARY_SIZE, ALIGNMENT)
  }

  function ResizedSize(size: nat): nat {
    AlignUp(size + CANARY_SIZE, ALIGNMENT)
  }

  /** new_actual_size as dam_general_realloc computes it in size_t. */
  function ResizedSize64(size: nat): nat {
    AlignUp64((size + CANARY_SIZE) % U64, ALIGNMENT)
  }

  /** The largest size for which it is computed without wrapping around. */
  const MAX_RESIZE: nat := U64 - 20

  lemma ResizeWhole(size: nat)
    requires size <= MAX_RESIZE
    ensures ResizedSize64(size) == ResizedSize(size)
  {
    hide AlignUp, AlignUp64;
    Unwrapped(size + CANARY_SIZE);
    AlignSame(size + CANARY_SIZE, ALIGNMENT);
  }

  /** What is left after a carry is too small to make more than one unit. */
  lemma AlignedRest(t: nat)
    requires t < 2 * ALIGNMENT
    ensures t - t % ALIGNMENT <= ALIGNMENT
  {
  }

  lemma ResizeNothing(size: nat)
    requires MAX_RESIZE < size < U64
    ensures ResizedSize64(size) <= ALIGNMENT
  {
    if size + CANARY_SIZE < U64 {
      Unwrapped(size + CANARY_SIZE);
      WrappedOnce(size + CANARY_SIZE + ALIGNMENT - 1);
      AlignedRest(size + CANARY_SIZE + ALIGNMENT - 1 - U64);
    } else {
      WrappedOnce(size + CANARY_SIZE);
      Unwrapped(size + CANARY_SIZE - U64 + ALIGNMENT - 1);
      AlignedRest(size + CANARY_SIZE - U64 + ALIGNMENT - 1);
    }
  }

  /**
   * The computed size holds the user's bytes and the canary exactly up to MAX_RESIZE; above that it is at most one
   * unit.
   */
  lemma ResizeFits(size: nat)
    requires size < U64
    ensures size + CANARY_SIZE <= ResizedSize64(size) <==> size <= MAX_RESIZE
    ensures size <= MAX_RESIZE ==> ResizedSize64(size) == ResizedSize(size)
    ensures size > MAX_RESIZE ==> ResizedSize64(size) <= ALIGNMENT
  {
    hide ResizedSize, ResizedSize64;
    if size <= MAX_RESIZE {
      ResizeWhole(size);
      SizesRound(size);
    } else {
      ResizeNothing(size);
    }
  }

  function SetUser(p: Pool, i: nat, user: nat): (q: Pool)
    requires i < |p.blocks|
    ensures SamePlace(p, q)
  {
    Put(p, i, p.blocks[i].(user := user))
  }

  /** Serve size user bytes from the free block i. */
  function Malloc(p: Pool, i: nat, size: nat): (q: Pool)
    requires i < |p.blocks| && p.blocks[i].addr in p.freeList
    ensures SamePlace(p, q)
  {
    var b := p.blocks[i];
    SetUser(Split(Put(Unlink(p, b.addr), i, b.(free := false)), i, ActualSize(size)), i, size)
  }

  /**
   * The pool after a just freed block i was merged with its predecessor, else with its successor, and where it is now.
   */
  function Coalesce(p: Pool, i: nat): (r: (Pool, nat))
    requires i < |p.blocks|
    ensures r.1 < |p.blocks| && r.1 <= i && SamePlace(p, r.0)
  {
    if i > 0 && p.blocks[i - 1].free && p.blocks[i - 1].addr in p.freeList then
      (Merge(Unlink(p, p.blocks[i - 1].addr), i - 1), i - 1)
    else if i + 1 < |p.blocks| && p.blocks[i + 1].free && p.blocks[i + 1].addr in p.freeList then
      (Merge(Unlink(p, p.blocks[i + 1].addr), i), i)
    else
      (p, i)
  }

  function Free(p: Pool, i: nat): (q: Pool)
    requires i < |p.blocks|
    ensures SamePlace(p, q)
  {
    var (q, k) := Coalesce(Put(p, i, p.blocks[i].(free := true)), i);
    Link(q, p.blocks[k].addr)
  }

  /** Resize the live block i inside its own bytes. */
  function Shrink(p: Pool, i: nat, size: nat): (q: Pool)
    requires i < |p.blocks|
    ensures SamePlace(p, q)
  {
    Split(SetUser(p, i, size), i, ResizedSize(size))
  }

  /** Resize the live block i into the free block behind it. */
  function Absorb(p: Pool, i: nat, size: nat): (q: Pool)
    requires i + 1 < |p.blocks| && p.blocks[i + 1].addr in p.freeList
    ensures SamePlace(p, q)
  {
    Shrink(Merge(Unlink(p, p.blocks[i + 1].addr), i), i, size)
  }

  /** When realloc keeps block i where it is. */
  predicate InPlace(p: Pool, i: nat, size: nat)
    requires i < |p.blocks|
  {
    && !p.readOnly
    && (|| ResizedSize(size) <= p.blocks[i].size
        || (&& i + 1 < |p.blocks| && p.blocks[i + 1].free
            && ResizedSize(size) <= p.blocks[i].size + HEADER_SIZE + p.blocks[i + 1].size))
  }

  /** The pool after realloc kept block i where it is. */
  function Resize(p: Pool, i: nat, size: nat): (q: Pool)
    requires i < |p.blocks| && InPlace(p, i, size)
    requires i + 1 < |p.blocks| && p.blocks[i + 1].free ==> p.blocks[i + 1].addr in p.freeList
    ensures SamePlace(p, q)
  {
    if ResizedSize(size) <= p.blocks[i].size then Shrink(p, i, size) else Absorb(p, i, size)
  }

  lemma AlignedUp(n: nat)
    ensures AlignUp(n, ALIGNMENT) % ALIGNMENT == 0 && n <= AlignUp(n, ALIGNMENT) < n + ALIGNMENT
  {
  }

  lemma PutLive(p: Pool, i: nat, b: Block)
    requires Shape(p) && i < |p.blocks| && b.addr == p.blocks[i].addr
    ensures forall ptr, user :: LiveAt(Put(p, i, b), ptr, user) <==>
              if ptr == b.Payload() then LiveBlock(b, ptr, user) else LiveAt(p, ptr, user)
  {
    hide Shape;
    var bs, cs := p.blocks, Put(p, i, b).blocks;
    forall ptr, user
      ensures LiveAt(Put(p, i, b), ptr, user) <==>
        if ptr == b.Payload() then LiveBlock(b, ptr, user) else LiveAt(p, ptr, user)
    {
      if ptr == b.Payload() {
        if LiveBlock(b, ptr, user) {
          assert LiveBlock(cs[i], ptr, user);
        }
        if LiveAt(Put(p, i, b), ptr, user) {
          var k :| 0 <= k < |cs| && LiveBlock(cs[k], ptr, user);
          AddrInjective(p, i, k);
        }
      } else {
        if LiveAt(Put(p, i, b), ptr, user) {
          var k :| 0 <= k < |cs| && LiveBlock(cs[k], ptr, user);
          assert LiveBlock(bs[k], ptr, user);
        }
        if LiveAt(p, ptr, user) {
          var k :| 0 <= k < |bs| && LiveBlock(bs[k], ptr, user);
          assert LiveBlock(cs[k], ptr, user);
        }
      }
    }
  }

  lemma SplitLive(p: Pool, i: nat, n: nat)
    requires i < |p.blocks|
    requires !p.blocks[i].free
    ensures forall ptr, user :: LiveAt(Split(p, i, n), ptr, user) <==> LiveAt(p, ptr, user)
  {
    if Splits(p.blocks[i], n) {
      var bs, cs := p.blocks, Split(p, i, n).blocks;
      forall ptr, user ensures LiveAt(Split(p, i, n), ptr, user) <==> LiveAt(p, ptr, user) {
        if LiveAt(Split(p, i, n), ptr, user) {
          var k :| 0 <= k < |cs| && LiveBlock(cs[k], ptr, user);
          assert LiveBlock(bs[if k <= i then k else k - 1], ptr, user);
        }
        if LiveAt(p, ptr, user) {
          var k :| 0 <= k < |bs| && LiveBlock(bs[k], ptr, user);
          assert LiveBlock(cs[if k <= i then k else k + 1], ptr, user);
        }
      }
    }
  }

  lemma MergeLive(p: Pool, i: nat)
    requires i + 1 < |p.blocks| && p.blocks[i + 1].free
    ensures forall ptr, user :: LiveAt(Merge(p, i), ptr, user) <==> LiveAt(p, ptr, user)
  {
    var bs, cs := p.blocks, Merge(p, i).blocks;
    forall ptr, user ensures LiveAt(Merge(p, i), ptr, user) <==> LiveAt(p, ptr, user) {
      if LiveAt(Merge(p, i), ptr, user) {
        var k :| 0 <= k < |cs| && LiveBlock(cs[k], ptr, user);
        assert LiveBlock(bs[if k <= i then k else k + 1], ptr, user);
      }
      if LiveAt(p, ptr, user) {
        var k :| 0 <= k < |bs| && LiveBlock(bs[k], ptr, user);
        assert LiveBlock(cs[if k <= i then k else k - 1], ptr, user);
      }
    }
  }

  /** The kept part is less than MIN_BLOCK_SIZE plus a header larger than asked for, and the other blocks stay. */
  lemma SplitBlocks(p: Pool, i: nat, n: nat)
    requires i < |p.blocks| && n <= p.blocks[i].size && n % ALIGNMENT == 0 && p.blocks[i].size % ALIGNMENT == 0
    ensures var q := Split(p, i, n);
            && |p.blocks| <= |q.blocks|
            && q.blocks[i] == p.blocks[i].(size := q.blocks[i].size)
            && n <= q.blocks[i].size <= n + HEADER_SIZE + MIN_BLOCK_SIZE - ALIGNMENT
            && forall k {:trigger q.blocks[k]} :: 0 <= k < |q.blocks| && k != i ==>
                 q.blocks[k] in p.blocks || q.blocks[k].free
  {
  }

  /** It does not matter whether user_size is set before or after the split. */
  lemma SplitSetUser(p: Pool, i: nat, n: nat, user: nat)
    requires i < |p.blocks|
    ensures i < |Split(p, i, n).blocks|
    ensures SetUser(Split(p, i, n), i, user) == Split(SetUser(p, i, user), i, n)
  {
    var b := p.blocks[i];
    if Splits(b, n) {
      assert SetUser(p, i, user).blocks[..i] == p.blocks[..i];
      assert SetUser(p, i, user).blocks[i + 1..] == p.blocks[i + 1..];
      assert SetUser(Split(p, i, n), i, user).blocks == Split(SetUser(p, i, user), i, n).blocks;
    }
  }

  /** Sizing the live block i for its new user bytes ends every malloc and every realloc in place. */
  lemma SettleWF(p: Pool, i: nat, n: nat, size: nat)
    requires Shape(p) && Indexed(p) && i < |p.blocks| && !p.blocks[i].free
    requires forall k :: 0 <= k < |p.blocks| && k != i ==> Snug(p.blocks[k])
    requires n % ALIGNMENT == 0 && size + CANARY_SIZE <= n < size + 2 * ALIGNMENT && n <= p.blocks[i].size
    ensures var q := Split(SetUser(p, i, size), i, n);
            && WF(q) && i < |q.blocks|
            && q.blocks[i].addr == p.blocks[i].addr && !q.blocks[i].free && q.blocks[i].user == size
            && forall ptr, user :: LiveAt(q, ptr, user) <==>
                 if ptr == p.blocks[i].Payload() then user == size else LiveAt(p, ptr, user)
  {
    hide Tiles, FreeAddrs, Distinct, Without, Pos;
    var b := p.blocks[i].(user := size);
    var p1 := SetUser(p, i, size);
    FreeAt(p, i);
    PutShape(p, i, b);
    PutLive(p, i, b);
    assert p1.blocks[i] in p1.blocks;
    SplitShape(p1, i, n);
    SplitLive(p1, i, n);
    SplitBlocks(p1, i, n);
    var q := Split(p1, i, n);
    forall c | c in q.blocks ensures Snug(c) {
      var k :| 0 <= k < |q.blocks| && q.blocks[k] == c;
      if k != i && !c.free {
        OtherBlocks(p1, i, n, k);
      }
    }
  }

  lemma OtherBlocks(p: Pool, i: nat, n: nat, k: nat)
    requires i < |p.blocks| && k < |Split(p, i, n).blocks| && k != i && !Split(p, i, n).blocks[k].free
    ensures exists l :: 0 <= l < |p.blocks| && l != i && Split(p, i, n).blocks[k] == p.blocks[l]
  {
    var l := if k < i || !Splits(p.blocks[i], n) then k else k - 1;
    assert Split(p, i, n).blocks[k] == p.blocks[l];
  }

  lemma SizesRound(size: nat)
    ensures ActualSize(size) % ALIGNMENT == 0 && size + CANARY_SIZE <= ActualSize(size) < size + 2 * ALIGNMENT
    ensures ResizedSize(size) % ALIGNMENT == 0 && size + CANARY_SIZE <= ResizedSize(size) < size + 2 * ALIGNMENT
  {
    hide AlignUp;
    AlignedUp(size);
    AlignedUp(size + CANARY_SIZE);
    AlignedUp(AlignUp(size, ALIGNMENT) + CANARY_SIZE);
    Next16(AlignUp(size, ALIGNMENT), ActualSize(size));
  }

  lemma Next16(a: nat, r: nat)
    requires a % ALIGNMENT == 0 && r % ALIGNMENT == 0 && a < r < a + 2 * ALIGNMENT
    ensures r == a + ALIGNMENT
  {
  }

  lemma MallocWF(p: Pool, i: nat, size: nat)
    requires WF(p) && i < |p.blocks| && p.blocks[i].addr in p.freeList
    requires ActualSize(size) <= p.blocks[i].size
    ensures WF(Malloc(p, i, size))
    ensures i < |Malloc(p, i, size).blocks|
    ensures var b := Malloc(p, i, size).blocks[i]; !b.free && b.addr == p.blocks[i].addr && b.user == size
    ensures forall ptr, user :: LiveAt(Malloc(p, i, size), ptr, user) <==>
              LiveAt(p, ptr, user) || (ptr == p.blocks[i].Payload() && user == size)
  {
    hide Tiles, FreeAddrs, Distinct, Without, Pos, AlignUp;
    SizesRound(size);
    var b := p.blocks[i];
    FreeAt(p, i);
    var p1 := Unlink(p, b.addr);
    UnlinkShape(p, b.addr);
    var p2 := Put(p1, i, b.(free := false));
    PutShape(p1, i, b.(free := false));
    PutLive(p1, i, b.(free := false));
    SettleWF(p2, i, ActualSize(size), size);
    SplitSetUser(p2, i, ActualSize(size), size);
    forall ptr, user ensures LiveAt(p1, ptr, user) == LiveAt(p, ptr, user) {
      assert p1.blocks == p.blocks;
    }
    PutLive(p, i, b);
    assert Put(p, i, b) == p;
  }

  lemma CoalesceWF(p: Pool, i: nat)
    requires Shape(p) && i < |p.blocks| && p.blocks[i].free && p.blocks[i].addr !in p.freeList
    requires forall a :: a in FreeAddrs(p.blocks) && a != p.blocks[i].addr ==> a in p.freeList
    requires forall b :: b in p.blocks ==> Snug(b)
    ensures var (q, k) := Coalesce(p, i);
            && WF(Link(q, p.blocks[k].addr)) && Shape(q)
            && k < |q.blocks| && q.blocks[k].addr == p.blocks[k].addr
            && (forall b: Block :: !b.free ==> (b in q.blocks <==> b in p.blocks))
            && forall ptr, user :: LiveAt(q, ptr, user) <==> LiveAt(p, ptr, user)
  {
    hide Tiles, FreeAddrs, Distinct, Without, Pos;
    FreeAt(p, i);
    var (q, k) := Coalesce(p, i);
    if k < i {
      MergeListed(p, i - 1, i - 1);
    } else if q != p {
      FreeAt(p, i + 1);
      MergeListed(p, i, i + 1);
    }
    LinkShape(q, p.blocks[k].addr);
  }

  /** Blocks i and i + 1 are free and only j of them is on the list: it is unlinked and the two are merged. */
  lemma MergeListed(p: Pool, i: nat, j: nat)
    requires Shape(p) && i + 1 < |p.blocks| && p.blocks[i].free && p.blocks[i + 1].free
    requires i <= j <= i + 1 && p.blocks[j].addr in p.freeList
    requires p.blocks[2 * i + 1 - j].addr !in p.freeList
    ensures var q := Merge(Unlink(p, p.blocks[j].addr), i);
            && Shape(q)
            && FreeAddrs(q.blocks) == FreeAddrs(p.blocks) - {p.blocks[i + 1].addr}
            && (forall a :: a in q.freeList <==> a in p.freeList && a != p.blocks[j].addr)
            && (forall b: Block :: !b.free ==> (b in q.blocks <==> b in p.blocks))
            && p.blocks[i].addr in FreeAddrs(q.blocks)
            && q.blocks[i].addr == p.blocks[i].addr
            && forall ptr, user :: LiveAt(q, ptr, user) <==> LiveAt(p, ptr, user)
  {
    hide Tiles, FreeAddrs, Distinct, Without, Pos;
    var p1 := Unlink(p, p.blocks[j].addr);
    UnlinkShape(p, p.blocks[j].addr);
    MergeShape(p1, i);
    MergeLive(p1, i);
    FreeAt(p, i);
    if p.blocks[i].addr == p.blocks[i + 1].addr {
      AddrInjective(p, i, i + 1);
    }
    forall b | b in p.blocks && !b.free ensures b in Merge(p1, i).blocks {
      var k :| 0 <= k < |p.blocks| && p.blocks[k] == b;
      assert Merge(p1, i).blocks[if k < i then k else k - 1] == b;
    }
    forall ptr, user ensures LiveAt(p1, ptr, user) == LiveAt(p, ptr, user) {
      assert p1.blocks == p.blocks;
    }
  }

  lemma FreeWF(p: Pool, i: nat)
    requires WF(p) && i < |p.blocks| && !p.blocks[i].free
    ensures WF(Free(p, i))
    ensures forall ptr, user :: LiveAt(Free(p, i), ptr, user) <==> LiveAt(p, ptr, user) && ptr != p.blocks[i].Payload()
  {
    hide Tiles, FreeAddrs, Distinct, Without, Pos;
    var b := p.blocks[i].(free := true);
    var p1 := Put(p, i, b);
    FreeAt(p, i);
    PutShape(p, i, b);
    PutLive(p, i, b);
    forall c | c in p1.blocks ensures Snug(c) {
      assert c == b || c in p.blocks;
    }
    CoalesceWF(p1, i);
    var (q, k) := Coalesce(p1, i);
    assert p1.blocks[k].addr == p.blocks[k].addr;
    LinkLive(q, p.blocks[k].addr);
  }

  lemma LinkLive(p: Pool, a: nat)
    ensures forall ptr, user :: LiveAt(Link(p, a), ptr, user) <==> LiveAt(p, ptr, user)
  {
    assert Link(p, a).blocks == p.blocks;
  }

  /** Realloc in place, when the block is large enough. */
  lemma ShrinkWF(p: Pool, i: nat, size: nat)
    requires WF(p) && i < |p.blocks| && !p.blocks[i].free && ResizedSize(size) <= p.blocks[i].size
    ensures WF(Shrink(p, i, size)) && i < |Shrink(p, i, size).blocks|
    ensures var b := Shrink(p, i, size).blocks[i]; !b.free && b.addr == p.blocks[i].addr && b.user == size
    ensures forall ptr, user :: LiveAt(Shrink(p, i, size), ptr, user) <==>
              if ptr == p.blocks[i].Payload() then user == size else LiveAt(p, ptr, user)
  {
    hide Tiles, FreeAddrs, Distinct, AlignUp;
    SizesRound(size);
    SettleWF(p, i, ResizedSize(size), size);
  }

  /** The pool once block i has taken over the free block behind it. */
  lemma AbsorbShape(p: Pool, i: nat)
    requires WF(p) && i + 1 < |p.blocks| && !p.blocks[i].free && p.blocks[i + 1].free
    ensures p.blocks[i + 1].addr in p.freeList
    ensures var q := Merge(Unlink(p, p.blocks[i + 1].addr), i);
            && Shape(q) && Indexed(q) && i < |q.blocks|
            && q.blocks[i] == p.blocks[i].(size := p.blocks[i].size + HEADER_SIZE + p.blocks[i + 1].size)
            && (forall k {:trigger q.blocks[k]} :: 0 <= k < |q.blocks| && k != i ==> q.blocks[k] in p.blocks)
            && (forall b :: b in p.blocks && b != p.blocks[i] && b != p.blocks[i + 1] ==> b in q.blocks)
            && forall ptr, user :: LiveAt(q, ptr, user) <==> LiveAt(p, ptr, user)
  {
    hide Tiles, FreeAddrs, Distinct, Without, Pos;
    FreeAt(p, i + 1);
    var p1 := Unlink(p, p.blocks[i + 1].addr);
    UnlinkShape(p, p.blocks[i + 1].addr);
    MergeShape(p1, i);
    MergeLive(p1, i);
    var q := Merge(p1, i);
    forall b | b in p.blocks && b != p.blocks[i] && b != p.blocks[i + 1] ensures b in q.blocks {
      var k :| 0 <= k < |p.blocks| && p.blocks[k] == b;
      assert q.blocks[if k < i then k else k - 1] == b;
    }
    forall ptr, user ensures LiveAt(p1, ptr, user) == LiveAt(p, ptr, user) {
      assert p1.blocks == p.blocks;
    }
  }

  /** Realloc in place, taking the free block behind. */
  lemma AbsorbWF(p: Pool, i: nat, size: nat)
    requires WF(p) && i + 1 < |p.blocks| && !p.blocks[i].free && p.blocks[i + 1].free
    requires ResizedSize(size) <= p.blocks[i].size + HEADER_SIZE + p.blocks[i + 1].size
    ensures p.blocks[i + 1].addr in p.freeList
    ensures WF(Absorb(p, i, size)) && i < |Absorb(p, i, size).blocks|
    ensures var b := Absorb(p, i, size).blocks[i]; !b.free && b.addr == p.blocks[i].addr && b.user == size
    ensures forall ptr, user :: LiveAt(Absorb(p, i, size), ptr, user) <==>
              if ptr == p.blocks[i].Payload() then user == size else LiveAt(p, ptr, user)
  {
    hide Tiles, FreeAddrs, Distinct, Without, Pos, AlignUp, Merge;
    SizesRound(size);
    AbsorbShape(p, i);
    SettleWF(Merge(Unlink(p, p.blocks[i + 1].addr), i), i, ResizedSize(size), size);
  }
}
