/**
 * Who owns the blocks of the small tier: a class's central list, a thread's bin of that class, or a client. Every
 * operation is one step, taken by any thread at any time: a fast path touches only the thread's own bin and a block it
 * owns, a slow path runs under the lock.
 */
module SmallModel {

  const CLASSES: nat := 5
  const BLOCKS_PER_POOL: nat := 1000
  const MAX_CACHED: nat := 64

  datatype Small = Small(
    pools: seq<nat>,            // per class: the pools created for it
    carved: seq<set<nat>>,      // per class: all the blocks ever carved for it
    central: seq<seq<nat>>,     // per class: the central free list, front first
    bins: seq<seq<seq<nat>>>,   // per thread and class: the bin, front first
    live: seq<set<nat>>)        // per class: the blocks in the hands of clients

  function Bin(bins: seq<seq<seq<nat>>>, t: nat, c: nat): seq<nat> {
    if t < |bins| && c < |bins[t]| then bins[t][c] else []
  }

  /** The blocks in the bins of all the threads. */
  function Binned(bins: seq<seq<seq<nat>>>, c: nat): multiset<nat> {
    if bins == [] then multiset{} else multiset(Bin(bins, 0, c)) + Binned(bins[1..], c)
  }

  function BinnedCount(bins: seq<seq<seq<nat>>>, c: nat): nat {
    if bins == [] then 0 else |Bin(bins, 0, c)| + BinnedCount(bins[1..], c)
  }

  function Owned(s: Small, c: nat): multiset<nat>
    requires c < |s.central| && c < |s.live|
  {
    multiset(s.central[c]) + Binned(s.bins, c) + multiset(s.live[c])
  }

  ghost predicate Formed(s: Small) {
    && |s.pools| == |s.carved| == |s.central| == |s.live| == CLASSES
    && forall t {:trigger s.bins[t]} :: 0 <= t < |s.bins| ==> |s.bins[t]| == CLASSES
  }

  /**
   * The blocks of a class are owned once each and nothing else is, no bin exceeds its bound, no block has two classes,
   * and every pool contributed its thousand blocks.
   */
  ghost predicate Inv(s: Small) {
    && Formed(s)
    && (forall c {:trigger s.carved[c]} :: 0 <= c < CLASSES ==> Owned(s, c) == multiset(s.carved[c]))
    && (forall c {:trigger s.carved[c]} :: 0 <= c < CLASSES ==> |s.carved[c]| == BLOCKS_PER_POOL * s.pools[c])
    && (forall t, c {:trigger Bin(s.bins, t, c)} :: |Bin(s.bins, t, c)| <= MAX_CACHED)
    && (forall c, d {:trigger s.carved[c], s.carved[d]} :: 0 <= c < d < CLASSES ==> s.carved[c] !! s.carved[d])
  }

  // ----- the steps

  function PopCentral(s: Small, c: nat): Small
    requires Formed(s) && c < CLASSES && s.central[c] != []
  {
    s.(central := s.central[c := s.central[c][1..]], live := s.live[c := s.live[c] + {s.central[c][0]}])
  }

  function PushCentral(s: Small, c: nat, a: nat): Small
    requires Formed(s) && c < CLASSES
  {
    s.(central := s.central[c := [a] + s.central[c]], live := s.live[c := s.live[c] - {a}])
  }

  function SetBin(s: Small, t: nat, c: nat, l: seq<nat>): Small
    requires Formed(s) && c < CLASSES && t < |s.bins|
  {
    s.(bins := s.bins[t := s.bins[t][c := l]])
  }

  function PopBin(s: Small, t: nat, c: nat): Small
    requires Formed(s) && c < CLASSES && t < |s.bins| && Bin(s.bins, t, c) != []
  {
    var l := s.bins[t][c];
    SetBin(s, t, c, l[1..]).(live := s.live[c := s.live[c] + {l[0]}])
  }

  function PushBin(s: Small, t: nat, c: nat, a: nat): Small
    requires Formed(s) && c < CLASSES && t < |s.bins|
  {
    SetBin(s, t, c, [a] + s.bins[t][c]).(live := s.live[c := s.live[c] - {a}])
  }

  /** A new pool for class c; its blocks go to the front of the central list. */
  function Carve(s: Small, c: nat, blocks: seq<nat>): Small
    requires Formed(s) && c < CLASSES
  {
    s.(pools := s.pools[c := s.pools[c] + 1],
       carved := s.carved[c := s.carved[c] + (set a | a in blocks)],
       central := s.central[c := blocks + s.central[c]])
  }

  /** The blocks of a new pool are distinct and new. */
  ghost predicate FreshBlocks(s: Small, blocks: seq<nat>) {
    && |blocks| == BLOCKS_PER_POOL
    && (forall j, k :: 0 <= j < k < |blocks| ==> blocks[j] != blocks[k])
    && (forall a, c :: a in blocks && 0 <= c < |s.carved| ==> a !in s.carved[c])
  }

  datatype Step =
    | MallocCached(t: nat, c: nat)
    | MallocCentral(t: nat, c: nat)
    | MallocCarved(t: nat, c: nat, blocks: seq<nat>)
    | FreeCached(t: nat, c: nat, a: nat)
    | FreeCentral(t: nat, c: nat, a: nat)
    | Grow(t: nat, c: nat, a: nat, d: nat)
    | GrowCarved(t: nat, c: nat, a: nat, d: nat, blocks: seq<nat>)

  /** When thread t takes this step; hasCache says whether it got a thread cache. A free may be any thread's. */
  ghost predicate Enabled(s: Small, hasCache: bool, e: Step)
    requires Formed(s)
  {
    e.c < CLASSES && e.t < |s.bins| &&
    match e
    case MallocCached(t, c) => hasCache && Bin(s.bins, t, c) != []
    case MallocCentral(t, c) => !(hasCache && Bin(s.bins, t, c) != []) && s.central[c] != []
    case MallocCarved(t, c, blocks) =>
      !(hasCache && Bin(s.bins, t, c) != []) && s.central[c] == [] && FreshBlocks(s, blocks)
    case FreeCached(t, c, a) => a in s.live[c] && hasCache && |Bin(s.bins, t, c)| < MAX_CACHED
    case FreeCentral(t, c, a) => a in s.live[c] && !(hasCache && |Bin(s.bins, t, c)| < MAX_CACHED)
    case Grow(t, c, a, d) => a in s.live[c] && c < d < CLASSES && s.central[d] != []
    case GrowCarved(t, c, a, d, blocks) =>
      a in s.live[c] && c < d < CLASSES && s.central[d] == [] && FreshBlocks(s, blocks)
  }

  function Apply(s: Small, e: Step): Small
    requires Formed(s) && e.c < CLASSES && e.t < |s.bins|
  {
    match e
    case MallocCached(t, c) => if Bin(s.bins, t, c) != [] then PopBin(s, t, c) else s
    case MallocCentral(t, c) => if s.central[c] != [] then PopCentral(s, c) else s
    case MallocCarved(t, c, blocks) => if blocks != [] then PopCentral(Carve(s, c, blocks), c) else s
    case FreeCached(t, c, a) => PushBin(s, t, c, a)
    case FreeCentral(t, c, a) => PushCentral(s, c, a)
    case Grow(t, c, a, d) => if d < CLASSES && s.central[d] != [] then PushCentral(PopCentral(s, d), c, a) else s
    case GrowCarved(t, c, a, d, blocks) =>
      if d < CLASSES && blocks != [] then PushCentral(PopCentral(Carve(s, d, blocks), d), c, a) else s
  }

  /** The front of the class's central list is taken; a new pool is carved first when the list is empty. */
  ghost predicate TookCentral(s: Small, s': Small, c: nat) {
    && Formed(s) && c < CLASSES
    && if s.central[c] != [] then s' == PopCentral(s, c) else
       exists blocks :: FreshBlocks(s, blocks) && s' == PopCentral(Carve(s, c, blocks), c)
  }

  /** Thread t, which has a cache or not, took a step of class c. */
  ghost predicate Stepped(s: Small, s': Small, t: nat, c: nat, hasCache: bool) {
    && Formed(s)
    && exists e {:trigger Enabled(s, hasCache, e)} ::
         Enabled(s, hasCache, e) && e.t == t && e.c == c && s' == Apply(s, e)
  }

  /** Taking from the central list is a step when the thread's bin does not serve. */
  lemma CentralStep(s: Small, s': Small, t: nat, c: nat, hasCache: bool)
    requires TookCentral(s, s', c) && t < |s.bins| && !(hasCache && Bin(s.bins, t, c) != [])
    ensures Stepped(s, s', t, c, hasCache)
  {
    if s.central[c] != [] {
      assert Enabled(s, hasCache, MallocCentral(t, c));
    } else {
      var blocks :| FreshBlocks(s, blocks) && s' == PopCentral(Carve(s, c, blocks), c);
      assert Enabled(s, hasCache, MallocCarved(t, c, blocks));
    }
  }

  /** So is growing an allocation from class c to a larger class d, whether the thread has a cache or not. */
  lemma GrowStep(s: Small, s1: Small, s': Small, t: nat, c: nat, d: nat, a: nat, hasCache: bool)
    requires TookCentral(s, s1, d) && t < |s.bins| && c < d && a in s.live[c] && s' == PushCentral(s1, c, a)
    ensures Stepped(s, s', t, c, hasCache)
  {
    if s.central[d] != [] {
      assert Enabled(s, hasCache, Grow(t, c, a, d));
    } else {
      var blocks :| FreshBlocks(s, blocks) && s1 == PopCentral(Carve(s, d, blocks), d);
      assert Enabled(s, hasCache, GrowCarved(t, c, a, d, blocks));
    }
  }

  // ----- every step keeps the invariant

  lemma {:induction false} BinnedSet(bins: seq<seq<seq<nat>>>, t: nat, b: seq<seq<nat>>, c: nat)
    requires t < |bins|
    ensures Binned(bins[t := b], c) + multiset(Bin(bins, t, c)) ==
            Binned(bins, c) + multiset(if c < |b| then b[c] else [])
  {
    if t == 0 {
      assert bins[0 := b][1..] == bins[1..];
    } else {
      assert bins[t := b][1..] == bins[1..][t - 1 := b];
      assert Bin(bins[1..], t - 1, c) == Bin(bins, t, c) && Bin(bins[t := b], 0, c) == Bin(bins, 0, c);
      BinnedSet(bins[1..], t - 1, b, c);
      Regroup(multiset(Bin(bins, 0, c)), Binned(bins[1..][t - 1 := b], c), multiset(Bin(bins, t, c)),
              Binned(bins[1..], c), multiset(if c < |b| then b[c] else []));
    }
  }

  lemma Regroup(x: multiset<nat>, y': multiset<nat>, m: multiset<nat>, y: multiset<nat>, n: multiset<nat>)
    requires y' + m == y + n
    ensures (x + y') + m == (x + y) + n
  {
    assert (x + y') + m == x + (y' + m);
    assert (x + y) + n == x + (y + n);
  }

  lemma Cancel(x: multiset<nat>, y: multiset<nat>, m: multiset<nat>)
    requires x + m == y + m
    ensures x == y
  {
    assert x == (x + m) - m;
    assert y == (y + m) - m;
  }

  /** A block of the class that is on no list and in no bin is live, and the other way round. */
  lemma {:induction false} InBins(bins: seq<seq<seq<nat>>>, c: nat, a: nat)
    ensures a in Binned(bins, c) <==> exists t {:trigger Bin(bins, t, c)} :: 0 <= t < |bins| && a in Bin(bins, t, c)
  {
    if bins != [] {
      InBins(bins[1..], c, a);
      forall t | 0 <= t < |bins| - 1 ensures Bin(bins[1..], t, c) == Bin(bins, t + 1, c) {
      }
      if t :| 0 <= t < |bins| && a in Bin(bins, t, c) && t > 0 {
        assert a in Bin(bins[1..], t - 1, c);
      }
    }
  }

  /** A member of a list of the class was carved for it and is not live. */
  lemma ListedCarved(s: Small, c: nat, l: seq<nat>)
    requires Inv(s) && c < CLASSES && l != [] && multiset(l) <= multiset(s.central[c]) + Binned(s.bins, c)
    ensures l[0] in s.carved[c] && l[0] !in s.live[c]
  {
    var a := l[0];
    assert l == [a] + l[1..];
    assert multiset(l)[a] >= 1;
    assert Owned(s, c)[a] == multiset(s.carved[c])[a] <= 1;
  }

  lemma BinInBinned(bins: seq<seq<seq<nat>>>, t: nat, c: nat)
    requires t < |bins|
    ensures multiset(Bin(bins, t, c)) <= Binned(bins, c)
  {
    if t > 0 {
      assert Bin(bins[1..], t - 1, c) == Bin(bins, t, c);
      BinInBinned(bins[1..], t - 1, c);
    }
  }

  lemma PopCentralInv(s: Small, c: nat)
    requires Inv(s) && c < CLASSES && s.central[c] != []
    ensures Inv(PopCentral(s, c))
    ensures s.central[c][0] in s.carved[c] && s.central[c][0] !in s.live[c]
  {
    var a, s' := s.central[c][0], PopCentral(s, c);
    ListedCarved(s, c, s.central[c]);
    assert s.central[c] == [a] + s.central[c][1..];
    forall d | 0 <= d < CLASSES ensures Owned(s', d) == multiset(s'.carved[d]) {
      assert Owned(s, d) == multiset(s.carved[d]);
    }
  }

  lemma PushCentralInv(s: Small, c: nat, a: nat)
    requires Inv(s) && c < CLASSES && a in s.live[c]
    ensures Inv(PushCentral(s, c, a))
  {
    var s' := PushCentral(s, c, a);
    forall d | 0 <= d < CLASSES ensures Owned(s', d) == multiset(s'.carved[d]) {
      assert Owned(s, d) == multiset(s.carved[d]);
    }
  }

  lemma SetBinBinned(s: Small, t: nat, c: nat, l: seq<nat>, d: nat)
    requires Formed(s) && c < CLASSES && t < |s.bins| && d < CLASSES
    ensures var bins' := SetBin(s, t, c, l).bins;
            Binned(bins', d) + multiset(Bin(s.bins, t, d)) ==
            Binned(s.bins, d) + multiset(if d == c then l else Bin(s.bins, t, d))
  {
    BinnedSet(s.bins, t, s.bins[t][c := l], d);
  }

  lemma SetBinFormed(s: Small, t: nat, c: nat, l: seq<nat>)
    requires Formed(s) && c < CLASSES && t < |s.bins|
    ensures Formed(SetBin(s, t, c, l))
    ensures forall u, d {:trigger Bin(SetBin(s, t, c, l).bins, u, d)} ::
              Bin(SetBin(s, t, c, l).bins, u, d) == if u == t && d == c then l else Bin(s.bins, u, d)
  {
  }

  /** a leaves the bins for the live set. */
  lemma MoveOut(x: multiset<nat>, y': multiset<nat>, y: multiset<nat>, m: multiset<nat>, live: set<nat>, a: nat)
    requires y' + (multiset{a} + m) == y + m && a !in live
    ensures x + y' + multiset(live + {a}) == x + y + multiset(live)
  {
    assert y' + (multiset{a} + m) == (y' + multiset{a}) + m;
    Cancel(y' + multiset{a}, y, m);
    assert multiset(live + {a}) == multiset(live) + multiset{a};
    assert x + y' + multiset(live + {a}) == x + (y' + multiset{a}) + multiset(live);
  }

  /** a leaves the live set for the bins. */
  lemma MoveIn(x: multiset<nat>, y': multiset<nat>, y: multiset<nat>, m: multiset<nat>, live: set<nat>, a: nat)
    requires y' + m == y + (multiset{a} + m) && a in live
    ensures x + y' + multiset(live - {a}) == x + y + multiset(live)
  {
    assert y + (multiset{a} + m) == (y + multiset{a}) + m;
    Cancel(y', y + multiset{a}, m);
    assert multiset(live) == multiset(live - {a}) + multiset{a};
    assert x + y' + multiset(live - {a}) == x + y + (multiset{a} + multiset(live - {a}));
  }

  lemma PopBinInv(s: Small, t: nat, c: nat)
    requires Inv(s) && c < CLASSES && t < |s.bins| && Bin(s.bins, t, c) != []
    ensures Inv(PopBin(s, t, c))
    ensures Bin(s.bins, t, c)[0] in s.carved[c] && Bin(s.bins, t, c)[0] !in s.live[c]
  {
    hide Binned;
    var l, s' := Bin(s.bins, t, c), PopBin(s, t, c);
    BinInBinned(s.bins, t, c);
    ListedCarved(s, c, l);
    SetBinFormed(s, t, c, l[1..]);
    forall d | 0 <= d < CLASSES ensures Owned(s', d) == multiset(s'.carved[d]) {
      SetBinBinned(s, t, c, l[1..], d);
      assert Owned(s, d) == multiset(s.carved[d]);
      if d == c {
        assert l == [l[0]] + l[1..];
        MoveOut(multiset(s.central[c]), Binned(s'.bins, c), Binned(s.bins, c), multiset(l[1..]), s.live[c], l[0]);
      } else {
        Cancel(Binned(s'.bins, d), Binned(s.bins, d), multiset(Bin(s.bins, t, d)));
      }
    }
  }

  lemma PushBinInv(s: Small, t: nat, c: nat, a: nat)
    requires Inv(s) && c < CLASSES && t < |s.bins| && a in s.live[c] && |Bin(s.bins, t, c)| < MAX_CACHED
    ensures Inv(PushBin(s, t, c, a))
  {
    hide Binned;
    var l, s' := [a] + Bin(s.bins, t, c), PushBin(s, t, c, a);
    SetBinFormed(s, t, c, l);
    forall d | 0 <= d < CLASSES ensures Owned(s', d) == multiset(s'.carved[d]) {
      SetBinBinned(s, t, c, l, d);
      assert Owned(s, d) == multiset(s.carved[d]);
      if d == c {
        MoveIn(multiset(s.central[c]), Binned(s'.bins, c), Binned(s.bins, c), multiset(Bin(s.bins, t, c)), s.live[c],
            a);
      } else {
        Cancel(Binned(s'.bins, d), Binned(s.bins, d), multiset(Bin(s.bins, t, d)));
      }
    }
  }

  lemma {:induction false} DistinctSet(l: seq<nat>)
    requires forall j, k :: 0 <= j < k < |l| ==> l[j] != l[k]
    ensures multiset(l) == multiset(set a | a in l) && |set a | a in l| == |l|
  {
    if l == [] {
      assert (set a | a in l) == {};
    } else {
      DistinctSet(l[1..]);
      assert l == [l[0]] + l[1..];
      assert (set a | a in l) == {l[0]} + (set a | a in l[1..]);
      assert l[0] !in l[1..];
    }
  }

  lemma CarveInv(s: Small, c: nat, blocks: seq<nat>)
    requires Inv(s) && c < CLASSES && FreshBlocks(s, blocks)
    ensures Inv(Carve(s, c, blocks))
  {
    hide Binned, Owned, FreshBlocks;
    var s' := Carve(s, c, blocks);
    forall d | 0 <= d < CLASSES
      ensures Owned(s', d) == multiset(s'.carved[d]) && |s'.carved[d]| == BLOCKS_PER_POOL * s'.pools[d]
    {
      if d == c {
        CarveClass(s, c, blocks);
      } else {
        CarveElsewhere(s, c, blocks, d);
      }
    }
    forall d, e | 0 <= d < e < CLASSES ensures s'.carved[d] !! s'.carved[e] {
      CarveApart(s, c, blocks, d, e);
    }
    forall t, d ensures |Bin(s'.bins, t, d)| <= MAX_CACHED {
      assert |Bin(s.bins, t, d)| <= MAX_CACHED;
    }
  }

  lemma CarveClass(s: Small, c: nat, blocks: seq<nat>)
    requires Inv(s) && c < CLASSES && FreshBlocks(s, blocks)
    ensures var s' := Carve(s, c, blocks);
            Owned(s', c) == multiset(s'.carved[c]) && |s'.carved[c]| == BLOCKS_PER_POOL * s'.pools[c]
  {
    hide Binned;
    var more := set a | a in blocks;
    DistinctSet(blocks);
    assert more !! s.carved[c];
    CarvedMore(s.carved[c], more);
    assert Owned(s, c) == multiset(s.carved[c]);
    assert multiset(blocks + s.central[c]) == multiset(blocks) + multiset(s.central[c]);
    AddIn(multiset(blocks), multiset(s.central[c]), Binned(s.bins, c), multiset(s.live[c]));
  }

  lemma CarveElsewhere(s: Small, c: nat, blocks: seq<nat>, d: nat)
    requires Inv(s) && c < CLASSES && d < CLASSES && d != c
    ensures var s' := Carve(s, c, blocks);
            Owned(s', d) == multiset(s'.carved[d]) && |s'.carved[d]| == BLOCKS_PER_POOL * s'.pools[d]
  {
    hide Binned;
    assert Owned(s, d) == multiset(s.carved[d]);
  }

  lemma CarveApart(s: Small, c: nat, blocks: seq<nat>, d: nat, e: nat)
    requires Inv(s) && c < CLASSES && FreshBlocks(s, blocks) && d < e < CLASSES
    ensures Carve(s, c, blocks).carved[d] !! Carve(s, c, blocks).carved[e]
  {
    hide Binned, Owned;
    var more := set a | a in blocks;
    assert s.carved[d] !! s.carved[e] && more !! s.carved[d] && more !! s.carved[e];
  }

  lemma CarvedMore(x: set<nat>, more: set<nat>)
    requires more !! x
    ensures |x + more| == |x| + |more| && multiset(x + more) == multiset(x) + multiset(more)
  {
  }

  lemma AddIn(n: multiset<nat>, x: multiset<nat>, y: multiset<nat>, z: multiset<nat>)
    ensures (n + x) + y + z == (x + y + z) + n
  {
  }

  lemma StepInv(s: Small, hasCache: bool, e: Step)
    requires Inv(s) && Enabled(s, hasCache, e)
    ensures Inv(Apply(s, e))
  {
    hide Binned, Owned;
    match e
    case MallocCached(t, c) => PopBinInv(s, t, c);
    case MallocCentral(t, c) => PopCentralInv(s, c);
    case MallocCarved(t, c, blocks) =>
      CarveInv(s, c, blocks);
      PopCentralInv(Carve(s, c, blocks), c);
    case FreeCached(t, c, a) => PushBinInv(s, t, c, a);
    case FreeCentral(t, c, a) => PushCentralInv(s, c, a);
    case Grow(t, c, a, d) =>
      PopCentralInv(s, d);
      PushCentralInv(PopCentral(s, d), c, a);
    case GrowCarved(t, c, a, d, blocks) =>
      CarveInv(s, d, blocks);
      PopCentralInv(Carve(s, d, blocks), d);
      PushCentralInv(PopCentral(Carve(s, d, blocks), d), c, a);
  }

  // ----- a fast path beside any other step

  /** The step of a fast path: it uses the thread's own bin and no list that is shared. */
  predicate Fast(e: Step) {
    e.MallocCached? || e.FreeCached?
  }

  /** The step gives back the block e.a. */
  predicate GivesBack(e: Step) {
    e.FreeCached? || e.FreeCentral? || e.Grow? || e.GrowCarved?
  }

  /** The class of the block that a step hands out. */
  function OutClass(e: Step): nat {
    if e.Grow? || e.GrowCarved? then e.d else e.c
  }

  /** The block that a step hands out. */
  function Out(s: Small, e: Step): nat
    requires Formed(s) && Ready(s, e)
  {
    match e
    case MallocCached(t, c) => s.bins[t][c][0]
    case MallocCentral(t, c) => s.central[c][0]
    case MallocCarved(t, c, blocks) => blocks[0]
    case Grow(t, c, a, d) => s.central[d][0]
    case GrowCarved(t, c, a, d, blocks) => blocks[0]
    case _ => 0
  }

  /** There is a block to hand out. */
  ghost predicate Ready(s: Small, e: Step)
    requires Formed(s)
  {
    && e.c < CLASSES && e.t < |s.bins| && OutClass(e) < CLASSES
    && match e
       case MallocCached(t, c) => s.bins[t][c] != []
       case MallocCentral(t, c) => s.central[c] != []
       case MallocCarved(t, c, blocks) => blocks != []
       case Grow(t, c, a, d) => s.central[d] != []
       case GrowCarved(t, c, a, d, blocks) => blocks != []
       case _ => true
  }

  function Gained(live: seq<set<nat>>, c: nat, x: nat): (r: seq<set<nat>>)
    requires c < |live|
    ensures |r| == |live|
  {
    live[c := live[c] + {x}]
  }

  function Lost(live: seq<set<nat>>, c: nat, x: nat): (r: seq<set<nat>>)
    requires c < |live|
    ensures |r| == |live|
  {
    live[c := live[c] - {x}]
  }

  /** The live blocks after a step that hands out x, if it hands out any. */
  function LiveAfter(live: seq<set<nat>>, e: Step, x: nat): (r: seq<set<nat>>)
    requires |live| == CLASSES && e.c < CLASSES && OutClass(e) < CLASSES
    ensures |r| == CLASSES
  {
    if !GivesBack(e) then Gained(live, e.c, x)
    else if e.Grow? || e.GrowCarved? then Lost(Gained(live, e.d, x), e.c, e.a)
    else Lost(live, e.c, e.a)
  }

  /** The bin of the thread after its fast path. */
  function BinAfter(l: seq<nat>, e: Step): seq<nat> {
    if e.MallocCached? then (if l == [] then l else l[1..]) else if e.FreeCached? then [e.a] + l else l
  }

  lemma FastApply(s: Small, e: Step)
    requires Formed(s) && Fast(e) && Ready(s, e)
    ensures Apply(s, e) == s.(bins := s.bins[e.t := s.bins[e.t][e.c := BinAfter(s.bins[e.t][e.c], e)]],
                              live := LiveAfter(s.live, e, Out(s, e)))
    ensures Formed(Apply(s, e))
  {
  }

  /** A slow path neither reads nor writes the bins, and of the live blocks it concerns only those of its own. */
  lemma SlowApply(s: Small, bins: seq<seq<seq<nat>>>, live: seq<set<nat>>, f: Step)
    requires Formed(s) && !Fast(f) && Ready(s, f) && |s.bins| == |bins|
    requires Formed(s.(bins := bins, live := live))
    ensures Formed(Apply(s, f)) && Apply(s, f).bins == s.bins && Apply(s, f).live == LiveAfter(s.live, f, Out(s, f))
    ensures Apply(s.(bins := bins, live := live), f) ==
            Apply(s, f).(bins := bins, live := LiveAfter(live, f, Out(s, f)))
  {
  }

  lemma GainedGained(live: seq<set<nat>>, c: nat, x: nat, d: nat, y: nat)
    requires c < |live| && d < |live|
    ensures Gained(Gained(live, c, x), d, y) == Gained(Gained(live, d, y), c, x)
  {
    assert live[c] + {x} + {y} == live[c] + {y} + {x};
  }

  lemma LostLost(live: seq<set<nat>>, c: nat, x: nat, d: nat, y: nat)
    requires c < |live| && d < |live|
    ensures Lost(Lost(live, c, x), d, y) == Lost(Lost(live, d, y), c, x)
  {
    assert live[c] - {x} - {y} == live[c] - {y} - {x};
  }

  lemma GainedLost(live: seq<set<nat>>, c: nat, x: nat, d: nat, y: nat)
    requires c < |live| && d < |live| && x != y
    ensures Lost(Gained(live, c, x), d, y) == Gained(Lost(live, d, y), c, x)
  {
    assert live[c] + {x} - {y} == live[c] - {y} + {x};
  }

  /** Steps commute on the live blocks, unless one hands out what the other takes back. */
  lemma LiveCommutes(live: seq<set<nat>>, e: Step, x: nat, f: Step, y: nat)
    requires |live| == CLASSES && e.c < CLASSES && OutClass(e) < CLASSES && f.c < CLASSES && OutClass(f) < CLASSES
             && Fast(e)
    requires GivesBack(f) && !GivesBack(e) ==> x != f.a
    requires GivesBack(e) && !Frees(f) ==> y != e.a
    ensures LiveAfter(LiveAfter(live, e, x), f, y) == LiveAfter(LiveAfter(live, f, y), e, x)
  {
    hide Gained, Lost;
    if !GivesBack(e) {
      if !GivesBack(f) {
        GainedGained(live, e.c, x, f.c, y);
      } else if Frees(f) {
        GainedLost(live, e.c, x, f.c, f.a);
      } else {
        GainedGained(live, e.c, x, f.d, y);
        GainedLost(Gained(live, f.d, y), e.c, x, f.c, f.a);
      }
    } else {
      if !GivesBack(f) {
        GainedLost(live, f.c, y, e.c, e.a);
      } else if Frees(f) {
        LostLost(live, e.c, e.a, f.c, f.a);
      } else {
        GainedLost(live, f.d, y, e.c, e.a);
        LostLost(Gained(live, f.d, y), e.c, e.a, f.c, f.a);
      }
    }
  }

  predicate Frees(f: Step) {
    f.FreeCached? || f.FreeCentral?
  }

  /** A block on a list of its class, or not carved yet, is not live. */
  lemma ListedNotLive(s: Small, c: nat, t: nat, x: nat)
    requires Inv(s) && c < CLASSES && (x in s.central[c] || x in Bin(s.bins, t, c))
    ensures forall d :: 0 <= d < CLASSES ==> x !in s.live[d]
  {
    hide Binned, Owned;
    OneOwner(s, c, x);
    forall d | 0 <= d < CLASSES ensures x !in s.live[d] {
      OneOwner(s, d, x);
    }
  }

  lemma FreshNotLive(s: Small, blocks: seq<nat>)
    requires Inv(s) && FreshBlocks(s, blocks)
    ensures blocks != [] && forall d :: 0 <= d < CLASSES ==> blocks[0] !in s.live[d]
  {
    hide Binned, Owned;
    forall d | 0 <= d < CLASSES ensures blocks[0] !in s.live[d] {
      OneOwner(s, d, blocks[0]);
      assert blocks[0] in blocks;
    }
  }

  /** A step that can be taken finds its block, and that block was not live. */
  lemma OutNotLive(s: Small, h: bool, e: Step)
    requires Inv(s) && Enabled(s, h, e)
    ensures Ready(s, e)
    ensures !Frees(e) ==> forall d :: 0 <= d < CLASSES ==> Out(s, e) !in s.live[d]
  {
    hide Binned, Owned;
    match e
    case MallocCached(t, c) => ListedNotLive(s, c, t, s.bins[t][c][0]);
    case MallocCentral(t, c) => ListedNotLive(s, c, t, s.central[c][0]);
    case MallocCarved(t, c, blocks) => FreshNotLive(s, blocks);
    case Grow(t, c, a, d) => ListedNotLive(s, d, t, s.central[d][0]);
    case GrowCarved(t, c, a, d, blocks) => FreshNotLive(s, blocks);
    case _ =>
  }

  /** Two steps of different threads, one of them a fast path, that do not give back the same block. */
  predicate Independent(e: Step, f: Step) {
    e.t != f.t && Fast(e) && (GivesBack(e) && GivesBack(f) ==> e.a != f.a)
  }

  lemma LiveStays(live: seq<set<nat>>, e: Step, x: nat, c: nat, a: nat)
    requires |live| == CLASSES && e.c < CLASSES && OutClass(e) < CLASSES && c < CLASSES && a in live[c]
    requires GivesBack(e) ==> e.a != a
    ensures a in LiveAfter(live, e, x)[c]
  {
  }

  /** Neither of them prevents the other. */
  lemma FastEnables(s: Small, h: bool, e: Step, k: bool, f: Step)
    requires Inv(s) && Enabled(s, h, e) && Enabled(s, k, f) && Independent(e, f)
    ensures Formed(Apply(s, e)) && Formed(Apply(s, f))
    ensures Enabled(Apply(s, e), k, f) && Enabled(Apply(s, f), h, e)
  {
    hide Binned, Owned, LiveAfter, Apply;
    OutNotLive(s, h, e);
    OutNotLive(s, k, f);
    FastApply(s, e);
    if GivesBack(f) {
      LiveStays(s.live, e, Out(s, e), f.c, f.a);
    }
    if GivesBack(e) {
      LiveStays(s.live, f, Out(s, f), e.c, e.a);
    }
    if Fast(f) {
      FastApply(s, f);
    } else {
      SlowApply(s, s.bins, s.live, f);
    }
  }

  /**
   * A fast path and any step of another thread that can happen at the same time give the same state in either order,
   * and neither prevents the other.
   */
  lemma FastCommutes(s: Small, h: bool, e: Step, k: bool, f: Step)
    requires Inv(s) && Enabled(s, h, e) && Enabled(s, k, f) && Independent(e, f)
    ensures Formed(Apply(s, e)) && Formed(Apply(s, f))
    ensures Enabled(Apply(s, e), k, f) && Enabled(Apply(s, f), h, e)
    ensures Apply(Apply(s, e), f) == Apply(Apply(s, f), e)
  {
    hide Binned, Owned, LiveAfter, Apply, Enabled;
    FastEnables(s, h, e, k, f);
    OutNotLive(s, h, e);
    OutNotLive(s, k, f);
    Classes(s, h, e, k, f);
    FastApply(s, e);
    LiveCommutes(s.live, e, Out(s, e), f, Out(s, f));
    if Fast(f) {
      FastApply(s, f);
      FastApply(Apply(s, e), f);
      FastApply(Apply(s, f), e);
    } else {
      SlowApply(s, Apply(s, e).bins, Apply(s, e).live, f);
      FastApply(Apply(s, f), e);
    }
  }

  lemma Classes(s: Small, h: bool, e: Step, k: bool, f: Step)
    requires Inv(s) && Enabled(s, h, e) && Enabled(s, k, f) && Independent(e, f)
    ensures e.c < CLASSES && OutClass(e) < CLASSES && f.c < CLASSES && OutClass(f) < CLASSES
    ensures GivesBack(e) ==> e.a in s.live[e.c]
    ensures GivesBack(f) ==> f.a in s.live[f.c]
  {
    hide Binned, Owned;
  }

  /** The blocks whose bytes a step reads or writes: those it hands out, takes back, copies or carves. */
  function Touched(s: Small, e: Step): set<nat>
    requires Formed(s) && Ready(s, e)
  {
    (if GivesBack(e) then {e.a} else {})
    + (if e.MallocCarved? || e.GrowCarved? then set a | a in e.blocks else if Frees(e) then {} else {Out(s, e)})
  }

  /** A block in a thread's bin is in no other bin, in no central list and not live, whatever the class. */
  lemma BinAlone(s: Small, t: nat, c: nat, x: nat)
    requires Inv(s) && c < CLASSES && t < |s.bins| && x in Bin(s.bins, t, c)
    ensures x in s.carved[c]
    ensures forall d :: 0 <= d < CLASSES ==> x !in s.central[d] && x !in s.live[d]
    ensures forall u, d {:trigger Bin(s.bins, u, d)} ::
              0 <= u < |s.bins| && 0 <= d < CLASSES && u != t ==> x !in Bin(s.bins, u, d)
  {
    hide Binned, Owned;
    OneOwner(s, c, x);
    forall d | 0 <= d < CLASSES ensures x !in s.central[d] && x !in s.live[d] {
      OneOwner(s, d, x);
    }
    forall u, d | 0 <= u < |s.bins| && 0 <= d < CLASSES && u != t ensures x !in Bin(s.bins, u, d) {
      OneOwner(s, d, x);
    }
  }

  lemma FreshNowhere(s: Small, blocks: seq<nat>, x: nat)
    requires Inv(s) && FreshBlocks(s, blocks) && x in blocks
    ensures forall d :: 0 <= d < CLASSES ==> x !in s.carved[d] && x !in s.live[d]
  {
    hide Binned, Owned;
    forall d | 0 <= d < CLASSES ensures x !in s.live[d] {
      OneOwner(s, d, x);
    }
  }

  /** Where the blocks come from that a step touches. */
  lemma TouchedFrom(s: Small, h: bool, e: Step, x: nat)
    requires Inv(s) && Enabled(s, h, e)
    ensures Ready(s, e)
    ensures x in Touched(s, e) ==>
              || (GivesBack(e) && x == e.a && x in s.live[e.c])
              || (e.MallocCached? && x in Bin(s.bins, e.t, e.c))
              || (exists c :: 0 <= c < CLASSES && x in s.central[c])
              || (forall c :: 0 <= c < CLASSES ==> x !in s.carved[c] && x !in s.live[c])
  {
    hide Binned, Owned;
    OutNotLive(s, h, e);
    if x in Touched(s, e) && (e.MallocCarved? || e.GrowCarved?) && x in e.blocks {
      FreshNowhere(s, e.blocks, x);
    }
  }

  /** A fast path and any step of another thread that can happen at the same time touch no common block. */
  lemma FastApart(s: Small, h: bool, e: Step, k: bool, f: Step, x: nat)
    requires Inv(s) && Enabled(s, h, e) && Enabled(s, k, f) && Independent(e, f)
    ensures Ready(s, e) && Ready(s, f) && !(x in Touched(s, e) && x in Touched(s, f))
  {
    hide Binned, Owned, Touched, FreshBlocks;
    TouchedFrom(s, h, e, x);
    TouchedFrom(s, k, f, x);
    if x in Touched(s, e) && x in Touched(s, f) {
      if e.MallocCached? {
        FastTouches(s, h, e, x);
        BinAlone(s, e.t, e.c, x);
      } else {
        FastTouches(s, h, e, x);
        LiveAlone(s, e.c, x);
      }
    }
  }

  lemma FastTouches(s: Small, h: bool, e: Step, x: nat)
    requires Inv(s) && Enabled(s, h, e) && Fast(e) && Ready(s, e) && x in Touched(s, e)
    ensures if e.MallocCached? then x in Bin(s.bins, e.t, e.c) else x == e.a && x in s.live[e.c]
  {
    hide Binned, Owned;
  }

  /** A live block is on no list. */
  lemma LiveAlone(s: Small, c: nat, x: nat)
    requires Inv(s) && c < CLASSES && x in s.live[c]
    ensures x in s.carved[c]
    ensures forall d :: 0 <= d < CLASSES ==> x !in s.central[d]
    ensures forall t, d {:trigger Bin(s.bins, t, d)} ::
              0 <= t < |s.bins| && 0 <= d < CLASSES ==> x !in Bin(s.bins, t, d)
  {
    hide Binned, Owned;
    OneOwner(s, c, x);
    forall d | 0 <= d < CLASSES ensures x !in s.central[d] {
      OneOwner(s, d, x);
    }
    forall t, d | 0 <= t < |s.bins| && 0 <= d < CLASSES ensures x !in Bin(s.bins, t, d) {
      OneOwner(s, d, x);
    }
  }

  // ----- every run

  function Start(threads: nat): Small {
    Small(seq(CLASSES, _ => 0), seq(CLASSES, _ => {}), seq(CLASSES, _ => []),
          seq(threads, _ => seq(CLASSES, _ => [])), seq(CLASSES, _ => {}))
  }

  /** A schedule: states with some thread's step between any two of them. */
  ghost predicate Run(ss: seq<Small>, threads: nat) {
    && ss != [] && ss[0] == Start(threads)
    && forall k {:trigger Next(ss, k)} :: 0 < k < |ss| ==> Next(ss, k)
  }

  ghost predicate Next(ss: seq<Small>, k: nat)
    requires 0 < k < |ss|
  {
    Formed(ss[k - 1]) && exists h, e {:trigger Enabled(ss[k - 1], h, e)} ::
        Enabled(ss[k - 1], h, e) && ss[k] == Apply(ss[k - 1], e)
  }

  lemma StartInv(threads: nat)
    ensures Inv(Start(threads))
  {
    var s := Start(threads);
    forall c | 0 <= c < CLASSES ensures Binned(s.bins, c) == multiset{} {
      NothingBinned(s.bins, c);
    }
  }

  lemma {:induction false} NothingBinned(bins: seq<seq<seq<nat>>>, c: nat)
    requires forall t {:trigger Bin(bins, t, c)} :: 0 <= t < |bins| ==> Bin(bins, t, c) == []
    ensures Binned(bins, c) == multiset{}
  {
    if bins != [] {
      forall t | 0 <= t < |bins| - 1 ensures Bin(bins[1..], t, c) == [] {
        assert Bin(bins, t + 1, c) == [];
      }
      assert Bin(bins, 0, c) == [];
      NothingBinned(bins[1..], c);
    }
  }

  /** Any number of threads, any schedule: the invariant holds in every state of every run. */
  lemma {:induction false} RunInv(ss: seq<Small>, threads: nat, k: nat)
    requires Run(ss, threads) && k < |ss|
    ensures Inv(ss[k])
  {
    if k == 0 {
      StartInv(threads);
    } else {
      RunInv(ss, threads, k - 1);
      assert Next(ss, k);
      var h, e :| Enabled(ss[k - 1], h, e) && ss[k] == Apply(ss[k - 1], e);
      StepInv(ss[k - 1], h, e);
    }
  }

  /** What the invariant says about one block: it has an owner, only one, and appears there once. */
  lemma OneOwner(s: Small, c: nat, a: nat)
    requires Inv(s) && c < CLASSES
    ensures a in s.carved[c] <==>
            a in s.central[c] || a in s.live[c] || exists t {:trigger Bin(s.bins, t, c)} ::
                0 <= t < |s.bins| && a in Bin(s.bins, t, c)
    ensures a in s.central[c] ==> a !in s.live[c] && forall t :: a !in Bin(s.bins, t, c)
    ensures a in s.live[c] ==> forall t :: a !in Bin(s.bins, t, c)
    ensures forall t, u :: a in Bin(s.bins, t, c) && a in Bin(s.bins, u, c) ==> t == u
    ensures multiset(s.central[c])[a] <= 1 && forall t :: multiset(Bin(s.bins, t, c))[a] <= 1
  {
    hide Binned;
    InBins(s.bins, c, a);
    assert Owned(s, c)[a] == multiset(s.carved[c])[a] <= 1;
    forall t | 0 <= t < |s.bins| ensures multiset(Bin(s.bins, t, c))[a] <= Binned(s.bins, c)[a] {
      BinInBinned(s.bins, t, c);
    }
    forall t, u | 0 <= t < u < |s.bins|
      ensures multiset(Bin(s.bins, t, c))[a] + multiset(Bin(s.bins, u, c))[a] <= Binned(s.bins, c)[a]
    {
      TwoBins(s.bins, t, u, c, a);
    }
  }

  lemma {:induction false} TwoBins(bins: seq<seq<seq<nat>>>, t: nat, u: nat, c: nat, a: nat)
    requires t < u < |bins|
    ensures multiset(Bin(bins, t, c))[a] + multiset(Bin(bins, u, c))[a] <= Binned(bins, c)[a]
  {
    assert Bin(bins[1..], u - 1, c) == Bin(bins, u, c);
    if t == 0 {
      BinInBinned(bins[1..], u - 1, c);
    } else {
      assert Bin(bins[1..], t - 1, c) == Bin(bins, t, c);
      TwoBins(bins[1..], t - 1, u - 1, c, a);
    }
  }

  lemma {:induction false} BinnedSize(bins: seq<seq<seq<nat>>>, c: nat)
    ensures |Binned(bins, c)| == BinnedCount(bins, c)
  {
    if bins != [] {
      BinnedSize(bins[1..], c);
    }
  }

  /** Central list, bins and live blocks of a class add up to a thousand for each of its pools. */
  lemma ClassTotal(s: Small, c: nat)
    requires Inv(s) && c < CLASSES
    ensures |s.central[c]| + BinnedCount(s.bins, c) + |s.live[c]| == BLOCKS_PER_POOL * s.pools[c]
  {
    hide Binned;
    BinnedSize(s.bins, c);
    assert |Owned(s, c)| == |multiset(s.carved[c])| == |s.carved[c]|;
    assert |multiset(s.live[c])| == |s.live[c]|;
  }
}
