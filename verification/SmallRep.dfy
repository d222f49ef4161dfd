/** The small tier in memory: the headers of its blocks and the singly linked lists through them. */
module SmallRep {
  import opened Bytes
  import opened Layout
  import opened Machine
  import opened Registry
  import opened Regions
  import opened SmallModel

  const SIZES: seq<nat> := [16, 32, 64, 128, 256]
  const DAM_SMALL_MAX: nat := 256

  function ClassSize(c: nat): nat {
    if c < |SIZES| then SIZES[c] else 0
  }

  /** A block and its header. */
  function Stride(c: nat): nat {
    SMALL_HEADER_SIZE + ClassSize(c)
  }

  /** Entry c of row t becomes v. */
  function SetAt(rows: seq<seq<nat>>, t: nat, c: nat, v: nat): seq<seq<nat>>
    requires t < |rows| && c < |rows[t]|
  {
    var row: seq<nat> := rows[t][c := v];
    rows[t := row]
  }

  function Front(l: seq<nat>): nat {
    if l == [] then 0 else l[0]
  }

  ghost predicate ChainAt(m: Mem, l: seq<nat>, j: nat)
    requires j < |l|
  {
    SmallAt(m, l[j]).next == (if j + 1 < |l| then l[j + 1] else 0)
  }

  /** The list that starts at head is l. */
  ghost predicate Chain(m: Mem, head: nat, l: seq<nat>) {
    head == Front(l) && forall j {:trigger ChainAt(m, l, j)} :: 0 <= j < |l| ==> ChainAt(m, l, j)
  }

  ghost predicate IsCarved(s: Small, c: nat, a: nat) {
    c < CLASSES && c < |s.carved| && a in s.carved[c]
  }

  ghost predicate InUse(s: Small, c: nat, a: nat) {
    c < CLASSES && c < |s.live| && a in s.live[c]
  }

  /** The header of a carved block: its class, and whether it is in use. */
  ghost predicate Status(m: Mem, s: Small, c: nat, a: nat)
    requires c < |s.live|
  {
    var h := SmallAt(m, a);
    && h.cls == c
    && (if a in s.live[c] then h.magic == SMALL_MAGIC && h.isFree == 0
        else h.magic == SMALL_FREED_MAGIC && h.isFree == 1)
  }

  ghost predicate Statuses(m: Mem, s: Small)
    requires Formed(s)
  {
    forall c: nat, a: nat {:trigger IsCarved(s, c, a)} :: IsCarved(s, c, a) ==> Status(m, s, c, a)
  }

  /** A block lies behind the header of a small pool. */
  ghost predicate InPool(r: Region, c: nat, a: nat) {
    r.kind == SMALL_KIND && r.base + POOL_HEADER_SIZE <= a && a + Stride(c) <= r.base + r.size
  }

  ghost predicate Housed(rs: seq<Region>, c: nat, a: nat) {
    exists g {:trigger rs[g]} :: 0 <= g < |rs| && InPool(rs[g], c, a)
  }

  ghost predicate ApartSmall(c: nat, a: nat, d: nat, b: nat) {
    a + Stride(c) <= b || b + Stride(d) <= a
  }

  /** Every carved block is aligned, lies in a small pool and overlaps no other. */
  ghost predicate Geometry(rs: seq<Region>, s: Small) {
    && (forall c: nat, a: nat {:trigger IsCarved(s, c, a)} ::
          IsCarved(s, c, a) ==> 0 < a && a % ALIGNMENT == 0 && Housed(rs, c, a))
    && (forall c: nat, a: nat, d: nat, b: nat {:trigger IsCarved(s, c, a), IsCarved(s, d, b)} ::
          IsCarved(s, c, a) && IsCarved(s, d, b) && a != b ==> ApartSmall(c, a, d, b))
  }

  ghost predicate Chains(m: Mem, freeList: seq<nat>, heads: seq<seq<nat>>, s: Small) {
    && Formed(s) && |freeList| == CLASSES && |heads| == |s.bins|
    && (forall t {:trigger heads[t]} :: 0 <= t < |heads| ==> |heads[t]| == CLASSES)
    && (forall c {:trigger s.central[c]} :: 0 <= c < CLASSES ==> Chain(m, freeList[c], s.central[c]))
    && (forall t, c {:trigger Bin(s.bins, t, c)} ::
          0 <= t < |heads| && 0 <= c < CLASSES ==> Chain(m, heads[t][c], Bin(s.bins, t, c)))
  }

  ghost predicate Counted(counts: seq<seq<nat>>, s: Small) {
    && Formed(s) && |counts| == |s.bins|
    && (forall t {:trigger counts[t]} :: 0 <= t < |counts| ==> |counts[t]| == CLASSES)
    && (forall t, c {:trigger Bin(s.bins, t, c)} ::
          0 <= t < |counts| && 0 <= c < CLASSES ==> counts[t][c] == |Bin(s.bins, t, c)|)
  }

  /** The header of x may have changed, no other header of a carved block has. */
  ghost predicate OnlyHeaderOf(m: Mem, m': Mem, s: Small, x: nat) {
    forall c: nat, a: nat {:trigger IsCarved(s, c, a)} :: IsCarved(s, c, a) && a != x
        ==> SmallAt(m', a) == SmallAt(m, a)
  }

  lemma HeaderWrite(m: Mem, m': Mem, rs: seq<Region>, s: Small, c: nat, x: nat)
    requires Geometry(rs, s) && IsCarved(s, c, x) && OnlyAt(m, m', x, SMALL_HEADER_SIZE)
    ensures OnlyHeaderOf(m, m', s, x)
  {
    forall d, a | IsCarved(s, d, a) && a != x ensures SmallAt(m', a) == SmallAt(m, a) {
      assert ApartSmall(c, x, d, a);
      SmallSame(m, m', a);
    }
  }

  lemma OneClass(s: Small, c: nat, d: nat, a: nat)
    requires Inv(s) && IsCarved(s, c, a) && IsCarved(s, d, a)
    ensures c == d
  {
    hide Binned, Owned;
  }

  lemma MembersCarved(s: Small, t: nat, c: nat, a: nat)
    requires Inv(s) && c < CLASSES && (a in s.central[c] || a in Bin(s.bins, t, c))
    ensures IsCarved(s, c, a) && a !in s.live[c]
  {
    OneOwner(s, c, a);
  }

  /** A live block is on no list. */
  lemma LiveUnlisted(s: Small, c: nat, x: nat, d: nat, t: nat)
    requires Inv(s) && c < CLASSES && x in s.live[c] && d < CLASSES
    ensures IsCarved(s, c, x) && x !in s.central[d] && x !in Bin(s.bins, t, d)
  {
    OneOwner(s, c, x);
    assert c < d ==> s.carved[c] !! s.carved[d];
    assert d < c ==> s.carved[d] !! s.carved[c];
    if x in s.central[d] || x in Bin(s.bins, t, d) {
      MembersCarved(s, t, d, x);
    }
  }

  lemma ChainKept(m: Mem, m': Mem, head: nat, l: seq<nat>)
    requires Chain(m, head, l) && forall a :: a in l ==> SmallAt(m', a).next == SmallAt(m, a).next
    ensures Chain(m', head, l)
  {
    hide SmallAt;
    forall j | 0 <= j < |l| ensures ChainAt(m', l, j) {
      assert ChainAt(m, l, j) && l[j] in l;
    }
  }

  /** Writing the header of a live block disturbs no list. */
  lemma ChainsKept(m: Mem, m': Mem, freeList: seq<nat>, heads: seq<seq<nat>>, s: Small, c: nat, x: nat)
    requires Inv(s) && c < CLASSES && x in s.live[c] && Chains(m, freeList, heads, s) && OnlyHeaderOf(m, m', s, x)
    ensures Chains(m', freeList, heads, s)
  {
    hide SmallAt, Chain, Inv;
    forall d | 0 <= d < CLASSES ensures Chain(m', freeList[d], s.central[d]) {
      forall a | a in s.central[d] ensures SmallAt(m', a) == SmallAt(m, a) {
        MembersCarved(s, 0, d, a);
        LiveUnlisted(s, c, x, d, 0);
      }
      ChainKept(m, m', freeList[d], s.central[d]);
    }
    forall t, d | 0 <= t < |heads| && 0 <= d < CLASSES ensures Chain(m', heads[t][d], Bin(s.bins, t, d)) {
      forall a | a in Bin(s.bins, t, d) ensures SmallAt(m', a) == SmallAt(m, a) {
        MembersCarved(s, t, d, a);
        LiveUnlisted(s, c, x, d, t);
      }
      ChainKept(m, m', heads[t][d], Bin(s.bins, t, d));
    }
  }

  lemma ChainPop(m: Mem, head: nat, l: seq<nat>)
    requires Chain(m, head, l) && l != []
    ensures head == l[0] && Chain(m, SmallAt(m, head).next, l[1..])
  {
    hide SmallAt;
    assert ChainAt(m, l, 0);
    forall j | 0 <= j < |l| - 1 ensures ChainAt(m, l[1..], j) {
      assert ChainAt(m, l, j + 1);
    }
  }

  lemma ChainPush(m: Mem, head: nat, l: seq<nat>, x: nat)
    requires Chain(m, head, l) && SmallAt(m, x).next == head
    ensures Chain(m, x, [x] + l)
  {
    hide SmallAt;
    forall j | 0 <= j < |l| + 1 ensures ChainAt(m, [x] + l, j) {
      assert j > 0 ==> ChainAt(m, l, j - 1);
    }
  }

  // ----- the list operations

  lemma ChainsPopCentral(m: Mem, freeList: seq<nat>, heads: seq<seq<nat>>, s: Small, c: nat)
    requires Chains(m, freeList, heads, s) && c < CLASSES && s.central[c] != []
    ensures freeList[c] == s.central[c][0]
    ensures Chains(m, freeList[c := SmallAt(m, freeList[c]).next], heads, PopCentral(s, c))
  {
    hide SmallAt;
    ChainPop(m, freeList[c], s.central[c]);
    var s', fl' := PopCentral(s, c), freeList[c := SmallAt(m, freeList[c]).next];
    forall d | 0 <= d < CLASSES ensures Chain(m, fl'[d], s'.central[d]) {
      assert Chain(m, freeList[d], s.central[d]);
    }
  }

  lemma ChainsPushCentral(m: Mem, freeList: seq<nat>, heads: seq<seq<nat>>, s: Small, c: nat, x: nat)
    requires Chains(m, freeList, heads, s) && c < CLASSES && SmallAt(m, x).next == freeList[c]
    ensures Chains(m, freeList[c := x], heads, PushCentral(s, c, x))
  {
    hide SmallAt;
    assert Chain(m, freeList[c], s.central[c]);
    ChainPush(m, freeList[c], s.central[c], x);
    var s', fl' := PushCentral(s, c, x), freeList[c := x];
    forall d | 0 <= d < CLASSES ensures Chain(m, fl'[d], s'.central[d]) {
      assert Chain(m, freeList[d], s.central[d]);
    }
  }

  lemma ChainsSetBin(m: Mem, freeList: seq<nat>, heads: seq<seq<nat>>, s: Small, t: nat, c: nat, head: nat, l: seq<nat>)
    requires Chains(m, freeList, heads, s) && c < CLASSES && t < |heads| && Chain(m, head, l)
    ensures Chains(m, freeList, SetAt(heads, t, c, head), SetBin(s, t, c, l))
  {
    hide SmallAt, Chain;
    var s', hs' := SetBin(s, t, c, l), SetAt(heads, t, c, head);
    SetBinFormed(s, t, c, l);
    forall u, d | 0 <= u < |hs'| && 0 <= d < CLASSES ensures Chain(m, hs'[u][d], Bin(s'.bins, u, d)) {
      assert Chain(m, heads[u][d], Bin(s.bins, u, d));
    }
  }

  /** Only central lists and bins matter to the lists in memory. */
  lemma ChainsLive(m: Mem, freeList: seq<nat>, heads: seq<seq<nat>>, s: Small, live: seq<set<nat>>)
    requires Chains(m, freeList, heads, s) && |live| == CLASSES
    ensures Chains(m, freeList, heads, s.(live := live))
  {
    hide SmallAt, Chain;
    var s' := s.(live := live);
    forall t, c | 0 <= t < |heads| && 0 <= c < CLASSES ensures Chain(m, heads[t][c], Bin(s'.bins, t, c)) {
      assert Chain(m, heads[t][c], Bin(s.bins, t, c));
    }
  }

  lemma StatusesUsed(m: Mem, m': Mem, s: Small, s': Small, c: nat, x: nat)
    requires Formed(s) && Formed(s') && Statuses(m, s) && s'.carved == s.carved && c < CLASSES
    requires s'.live == s.live[c := s.live[c] + {x}] || s'.live == s.live[c := s.live[c] - {x}]
    requires forall d :: 0 <= d < CLASSES && d != c ==> x !in s.carved[d]
    requires OnlyHeaderOf(m, m', s, x) && Status(m', s', c, x)
    ensures Statuses(m', s')
  {
    hide SmallAt;
    forall d: nat, a: nat | IsCarved(s', d, a) ensures Status(m', s', d, a) {
      assert IsCarved(s, d, a) && Status(m, s, d, a);
    }
  }

  // ----- operations elsewhere

  /** The header of every carved block reads as before. */
  ghost predicate HeadersKept(m: Mem, m': Mem, s: Small) {
    forall c: nat, a: nat {:trigger IsCarved(s, c, a)} :: IsCarved(s, c, a) ==> SmallAt(m', a) == SmallAt(m, a)
  }

  lemma RegionsKept(m: Mem, m': Mem, rs: seq<Region>, s: Small)
    requires Geometry(rs, s)
    requires forall g {:trigger rs[g]} :: 0 <= g < |rs| && rs[g].kind == SMALL_KIND ==> Kept(m, m', rs[g])
    ensures HeadersKept(m, m', s)
  {
    forall c: nat, a: nat | IsCarved(s, c, a) ensures SmallAt(m', a) == SmallAt(m, a) {
      assert Housed(rs, c, a);
      var g :| 0 <= g < |rs| && InPool(rs[g], c, a);
      SmallSame(m, m', a);
    }
  }

  lemma RepKept(m: Mem, m': Mem, freeList: seq<nat>, heads: seq<seq<nat>>, s: Small)
    requires Inv(s) && Chains(m, freeList, heads, s) && Statuses(m, s) && HeadersKept(m, m', s)
    ensures Chains(m', freeList, heads, s) && Statuses(m', s)
  {
    hide SmallAt, Chain, Binned, Owned;
    forall d | 0 <= d < CLASSES ensures Chain(m', freeList[d], s.central[d]) {
      forall a | a in s.central[d] ensures SmallAt(m', a) == SmallAt(m, a) {
        MembersCarved(s, 0, d, a);
      }
      ChainKept(m, m', freeList[d], s.central[d]);
    }
    forall t, d | 0 <= t < |heads| && 0 <= d < CLASSES ensures Chain(m', heads[t][d], Bin(s.bins, t, d)) {
      forall a | a in Bin(s.bins, t, d) ensures SmallAt(m', a) == SmallAt(m, a) {
        MembersCarved(s, t, d, a);
      }
      ChainKept(m, m', heads[t][d], Bin(s.bins, t, d));
    }
  }

  /** The blocks stay housed as pools of any kind come, and as other pools go. */
  lemma HousedMore(rs: seq<Region>, rs': seq<Region>, s: Small)
    requires Geometry(rs, s)
    requires forall g {:trigger rs[g]} :: 0 <= g < |rs| && rs[g].kind == SMALL_KIND ==> rs[g] in rs'
    ensures Geometry(rs', s)
  {
    forall c: nat, a: nat | IsCarved(s, c, a) ensures Housed(rs', c, a) {
      assert Housed(rs, c, a);
      var g :| 0 <= g < |rs| && InPool(rs[g], c, a);
      var h :| 0 <= h < |rs'| && rs'[h] == rs[g];
    }
  }

  /**
   * The blocks that a fast path and a concurrent step of another thread touch, headers and users' bytes alike, share
   * no byte. rs are the pools after the step f, which may have carved one.
   */
  lemma TouchedApart(rs: seq<Region>, s: Small, h: bool, e: Step, k: bool, f: Step, c: nat, x: nat, d: nat, y: nat)
    requires Inv(s) && Enabled(s, h, e) && Enabled(s, k, f) && Independent(e, f)
    requires Ready(s, e) && Ready(s, f) && x in Touched(s, e) && y in Touched(s, f)
    requires Geometry(rs, Apply(s, f)) && IsCarved(Apply(s, f), c, x) && IsCarved(Apply(s, f), d, y)
    ensures ApartSmall(c, x, d, y)
  {
    hide Inv, Enabled, Touched, Apply;
    FastApart(s, h, e, k, f, x);
  }

  /** Every touched block is carved once the step is over, and stays so over the other thread's step. */
  lemma TouchedCarved(s: Small, h: bool, e: Step, x: nat) returns (c: nat)
    requires Inv(s) && Enabled(s, h, e) && Ready(s, e) && x in Touched(s, e)
    ensures IsCarved(Apply(s, e), c, x) && (Fast(e) ==> IsCarved(s, c, x))
  {
    hide Binned, Owned;
    StepInv(s, h, e);
    if GivesBack(e) && x == e.a {
      LiveAlone(s, e.c, x);
      c := e.c;
    } else {
      c := OutClass(e);
      OutCarved(s, h, e, x);
    }
  }

  lemma OutCarved(s: Small, h: bool, e: Step, x: nat)
    requires Inv(s) && Enabled(s, h, e) && Ready(s, e) && x in Touched(s, e) && !(GivesBack(e) && x == e.a)
    ensures IsCarved(Apply(s, e), OutClass(e), x) && (Fast(e) ==> IsCarved(s, OutClass(e), x))
  {
    hide Binned, Owned;
    OneOwner(s, OutClass(e), x);
  }
}
