/**
 * What the allocator promises its clients, without any of its data structures: a heap of allocations and the contents
 * of each. The promises about whole runs are proved here, from what one call may do.
 */
module IdealHeap {
  import opened Bytes
  import opened Layout
  import opened Registry

  /** The allocations with their contents, and the pools that are in quarantine. */
  datatype Heap = Heap(cells: map<nat, seq<byte>>, closed: set<Region>)

  /** A client's call and what it was answered, 0 stands for NULL; or no call at all. */
  datatype Event =
    | Malloc(size: nat, ptr: nat)
    | Calloc(count: nat, size: nat, ptr: nat)
    | Realloc(from: nat, size: nat, ptr: nat)
    | Free(from: nat)
    | Write(from: nat, at: nat, data: byte)
    | Quarantine(pool: Region)
    | Idle

  ghost predicate Apart(h: Heap, p: nat, q: nat)
    requires p in h.cells && q in h.cells
  {
    Disjoint(p, |h.cells[p]|, q, |h.cells[q]|)
  }

  /** No two allocations share a byte; each is aligned, not empty and not NULL. */
  ghost predicate Sound(h: Heap) {
    && (forall p {:trigger p in h.cells} :: p in h.cells ==> 0 < p && p % ALIGNMENT == 0 && |h.cells[p]| > 0)
    && (forall p, q {:trigger h.cells[p], h.cells[q]} :: p in h.cells && q in h.cells && p != q ==> Apart(h, p, q))
  }

  /** n bytes at p can be added to the heap: they overlap nothing and no pool in quarantine provides them. */
  ghost predicate Room(h: Heap, p: nat, n: nat) {
    && 0 < p && p % ALIGNMENT == 0 && n > 0
    && (forall q {:trigger q in h.cells} :: q in h.cells ==> Disjoint(p, n, q, |h.cells[q]|))
    && (forall r {:trigger r in h.closed} :: r in h.closed ==> !r.Has(p))
  }

  function Min(a: nat, b: nat): nat {
    if a < b then a else b
  }

  /** The allocation p comes to hold s. */
  function With(h: Heap, p: nat, s: seq<byte>): Heap {
    h.(cells := h.cells[p := s])
  }

  function Less(h: Heap, p: nat): Heap {
    h.(cells := h.cells - {p})
  }

  ghost predicate Allocates(h: Heap, n: nat, p: nat, h': Heap) {
    p in h'.cells && |h'.cells[p]| == n && Room(h, p, n) && h' == With(h, p, h'.cells[p])
  }

  /** What a call may do to the heap. */
  ghost predicate Next(h: Heap, e: Event, h': Heap) {
    match e
    case Malloc(n, p) => if p == 0 then h' == h else n > 0 && Allocates(h, n, p, h')
    case Calloc(k, n, p) => if p == 0 then h' == h else
      k * n > 0 && Allocates(h, k * n, p, h') && forall j :: 0 <= j < k * n ==> h'.cells[p][j] == 0
    case Realloc(from, n, p) =>
      if from == 0 then (if p == 0 then h' == h else Allocates(h, n, p, h'))
      else if n == 0 then p == 0 && h' == Less(h, from)
      else if p == 0 then h' == h
      else from in h.cells && Allocates(Less(h, from), n, p, h') && Keeps(h.cells[from], h'.cells[p])
    case Free(from) => h' == Less(h, from)
    case Write(from, at, data) =>
      from in h.cells && at < |h.cells[from]| && h' == With(h, from, h.cells[from][at := data])
    case Quarantine(pool) => h' == h.(closed := h.closed + {pool})
    case Idle => h' == h
  }

  /** s' starts like s, as far as both go. */
  ghost predicate Keeps(s: seq<byte>, s': seq<byte>) {
    s'[..Min(|s|, |s'|)] == s[..Min(|s|, |s'|)]
  }

  // ----- one call

  lemma AllocatesSound(h: Heap, n: nat, p: nat, h': Heap)
    requires Sound(h) && Allocates(h, n, p, h')
    ensures Sound(h') && p !in h.cells
  {
    forall q, r | q in h'.cells && r in h'.cells && q != r ensures Apart(h', q, r) {
      assert q != p && r != p ==> Apart(h, q, r);
    }
  }

  lemma MoveRoom(h: Heap, h1: Heap, from: nat, n: nat, p: nat)
    requires Sound(h) && from in h.cells && Allocates(h, n, p, h1)
    ensures from != 0 && p != 0 && p != from && from in h1.cells && h1.cells[from] == h.cells[from]
    ensures p in h1.cells && |h1.cells[p]| == n && Room(Less(h, from), p, n) && h1 == With(h, p, h1.cells[p])
  {
    hide Apart;
    AllocatesSound(h, n, p, h1);
  }

  lemma FilledRoom(h: Heap, n: nat, p: nat, s: seq<byte>)
    requires Room(h, p, n) && |s| == n
    ensures Allocates(h, n, p, With(h, p, s))
  {
    hide Room;
  }

  /** An allocation is moved: a new one is made, filled with the bytes of the old one, and the old one is freed. */
  lemma MoveNext(h: Heap, h1: Heap, from: nat, n: nat, p: nat, s: seq<byte>)
    requires Sound(h) && from in h.cells && n > 0 && Allocates(h, n, p, h1) && |s| == n && Keeps(h.cells[from], s)
    ensures from != 0 && from in h1.cells && h1.cells[from] == h.cells[from] && p in h1.cells && |h1.cells[p]| == n
    ensures Next(h, Realloc(from, n, p), Less(With(h1, p, s), from))
  {
    hide Sound, Apart, Allocates, Keeps;
    MoveRoom(h, h1, from, n, p);
    assert Less(With(h1, p, s), from) == With(Less(h, from), p, s);
    assert Allocates(Less(h, from), n, p, With(Less(h, from), p, s)) by { FilledRoom(Less(h, from), n, p, s); }
  }

  /**
   * A new allocation is calloc's answer once all its bytes are zero, be it that they were or that they were cleared.
   */
  lemma ClearedNext(h: Heap, n: nat, p: nat, h': Heap, s: seq<byte>)
    requires Next(h, Malloc(n, p), h') && p != 0 && |s| == n && forall j :: 0 <= j < n ==> s[j] == 0
    ensures p in h'.cells && |h'.cells[p]| == n && Next(h, Calloc(1, n, p), With(h', p, s))
  {
    assert With(h', p, s) == With(h, p, s);
  }

  lemma AnsweredCell(h: Heap, n: nat, p: nat, h': Heap)
    requires Next(h, Malloc(n, p), h')
    ensures p != 0 ==> p in h'.cells && |h'.cells[p]| == n && With(h', p, h'.cells[p]) == h'
    ensures p == 0 ==> Next(h, Calloc(1, n, 0), h')
  {
  }

  lemma CallocAs(h: Heap, count: nat, size: nat, total: nat, p: nat, h': Heap)
    requires Next(h, Calloc(1, total, p), h') && total == count * size
    ensures Next(h, Calloc(count, size, p), h')
  {
  }

  lemma LessSound(h: Heap, p: nat)
    requires Sound(h)
    ensures Sound(Less(h, p))
  {
    forall q, r | q in Less(h, p).cells && r in Less(h, p).cells && q != r ensures Apart(Less(h, p), q, r) {
      assert Apart(h, q, r);
    }
  }

  lemma WriteSound(h: Heap, p: nat, s: seq<byte>)
    requires Sound(h) && p in h.cells && |s| == |h.cells[p]|
    ensures Sound(With(h, p, s))
  {
    forall q, r | q in h.cells && r in h.cells && q != r ensures Apart(With(h, p, s), q, r) {
      assert Apart(h, q, r);
    }
  }

  lemma NextSound(h: Heap, e: Event, h': Heap)
    requires Sound(h) && Next(h, e, h')
    ensures Sound(h') && h.closed <= h'.closed
  {
    match e
    case Malloc(n, p) => if p != 0 { AllocatesSound(h, n, p, h'); }
    case Calloc(k, n, p) => if p != 0 { AllocatesSound(h, k * n, p, h'); }
    case Realloc(from, n, p) =>
      if from == 0 {
        if p != 0 { AllocatesSound(h, n, p, h'); }
      } else {
        LessSound(h, from);
        if n > 0 && p != 0 { AllocatesSound(Less(h, from), n, p, h'); }
      }
    case Free(from) => LessSound(h, from);
    case Write(from, at, data) => WriteSound(h, from, h.cells[from][at := data]);
    case Quarantine(pool) => assert forall p, q :: p in h.cells && q in h.cells && Apart(h, p, q) ==> Apart(h', p, q);
    case Idle =>
  }

  /** The call frees, moves, resizes or writes the allocation p. */
  predicate Concerns(e: Event, p: nat) {
    (e.Free? || e.Realloc? || e.Write?) && e.from == p
  }

  lemma NextUntouched(h: Heap, e: Event, h': Heap, p: nat)
    requires Sound(h) && Next(h, e, h') && p in h.cells && !Concerns(e, p)
    ensures p in h'.cells && h'.cells[p] == h.cells[p]
  {
    match e
    case Malloc(n, q) => if q != 0 { AllocatesSound(h, n, q, h'); }
    case Calloc(k, n, q) => if q != 0 { AllocatesSound(h, k * n, q, h'); }
    case Realloc(from, n, q) =>
      if from == 0 {
        if q != 0 { AllocatesSound(h, n, q, h'); }
      } else if n > 0 && q != 0 {
        LessSound(h, from);
        AllocatesSound(Less(h, from), n, q, h');
      }
    case Free(from) =>
    case Write(from, at, data) =>
    case Quarantine(pool) =>
    case Idle =>
  }

  /** A pool in quarantine provides no allocation that it did not provide before, and resizes none. */
  lemma NextDrains(h: Heap, e: Event, h': Heap, r: Region, p: nat)
    requires Sound(h) && Next(h, e, h') && r in h.closed && r.Has(p) && p in h'.cells
    ensures p in h.cells && |h.cells[p]| == |h'.cells[p]|
  {
  }

  // ----- runs

  /** hs[k] is the heap before call k. */
  ghost predicate Run(hs: seq<Heap>, es: seq<Event>) {
    && |hs| == |es| + 1 && Sound(hs[0])
    && forall k {:trigger es[k]} :: 0 <= k < |es| ==> Next(hs[k], es[k], hs[k + 1])
  }

  /** In every state of every run the allocations are disjoint, aligned and not NULL. */
  lemma {:induction false} RunSound(hs: seq<Heap>, es: seq<Event>, k: nat)
    requires Run(hs, es) && k < |hs|
    ensures Sound(hs[k])
  {
    if k > 0 {
      RunSound(hs, es, k - 1);
      NextSound(hs[k - 1], es[k - 1], hs[k]);
    }
  }

  /** Whatever else is allocated, freed, resized or written: an allocation that no call concerns keeps every byte. */
  lemma {:induction false} ContentsSurvive(hs: seq<Heap>, es: seq<Event>, j: nat, k: nat, p: nat)
    requires Run(hs, es) && j <= k < |hs| && p in hs[j].cells
    requires forall i :: j <= i < k ==> !Concerns(es[i], p)
    ensures p in hs[k].cells && hs[k].cells[p] == hs[j].cells[p]
    decreases k - j
  {
    if j < k {
      ContentsSurvive(hs, es, j, k - 1, p);
      RunSound(hs, es, k - 1);
      NextUntouched(hs[k - 1], es[k - 1], hs[k], p);
    }
  }

  /** Quarantine is for good, and from then on the pool only loses allocations. */
  lemma {:induction false} QuarantineDrains(hs: seq<Heap>, es: seq<Event>, j: nat, k: nat, r: Region)
    requires Run(hs, es) && j <= k < |hs| && r in hs[j].closed
    ensures r in hs[k].closed
    ensures forall p {:trigger p in hs[k].cells} ::
              r.Has(p) && p in hs[k].cells ==> p in hs[j].cells && |hs[j].cells[p]| == |hs[k].cells[p]|
    decreases k - j
  {
    if j < k {
      QuarantineDrains(hs, es, j, k - 1, r);
      RunSound(hs, es, k - 1);
      NextSound(hs[k - 1], es[k - 1], hs[k]);
      forall p | r.Has(p) && p in hs[k].cells ensures p in hs[j].cells && |hs[j].cells[p]| == |hs[k].cells[p]| {
        NextDrains(hs[k - 1], es[k - 1], hs[k], r, p);
      }
    }
  }

  /** Where the allocation p is after a call: it moves with a realloc that succeeds. */
  function Follow(p: nat, e: Event): nat {
    if e.Realloc? && e.from == p && p != 0 && e.ptr != 0 then e.ptr else p
  }

  function Place(p: nat, es: seq<Event>, k: nat): nat
    requires k <= |es|
  {
    if k == 0 then p else Follow(Place(p, es, k - 1), es[k - 1])
  }

  /** The call may free or write the allocation p. */
  predicate Disturbs(e: Event, p: nat) {
    (e.Free? && e.from == p) || (e.Write? && e.from == p) || (e.Realloc? && e.from == p && e.size == 0)
  }

  /**
   * An allocation that is resized any number of times, across the tiers and between any other calls, still starts with
   * those of its first n bytes that no resize cut off.
   */
  lemma {:induction false} ResizesKeep(hs: seq<Heap>, es: seq<Event>, k: nat, p: nat, n: nat)
    requires Run(hs, es) && k < |hs| && p in hs[0].cells && n <= |hs[0].cells[p]|
    requires forall i {:trigger es[i]} :: 0 <= i < k ==> !Disturbs(es[i], Place(p, es, i))
    requires forall i {:trigger es[i]} ::
               0 <= i < k && es[i].Realloc? && es[i].from == Place(p, es, i) ==> n <= es[i].size
    ensures var q := Place(p, es, k);
            q in hs[k].cells && n <= |hs[k].cells[q]| && hs[k].cells[q][..n] == hs[0].cells[p][..n]
  {
    if k > 0 {
      ResizesKeep(hs, es, k - 1, p, n);
      RunSound(hs, es, k - 1);
      var h, e, h', q := hs[k - 1], es[k - 1], hs[k], Place(p, es, k - 1);
      if Concerns(e, q) {
        ResizeKeeps(h, e, h', q, n);
      } else {
        NextUntouched(h, e, h', q);
      }
    }
  }

  lemma ResizeKeeps(h: Heap, e: Event, h': Heap, q: nat, n: nat)
    requires Sound(h) && Next(h, e, h') && q in h.cells && e.Realloc? && e.from == q && 0 < e.size && n <= e.size
             && n <= |h.cells[q]|
    ensures Follow(q, e) in h'.cells && n <= |h'.cells[Follow(q, e)]| && h'.cells[Follow(q, e)][..n] == h.cells[q][..n]
  {
    if e.ptr != 0 {
      var s, s' := h.cells[q], h'.cells[e.ptr];
      assert s[..n] == s[..Min(|s|, |s'|)][..n];
      assert s'[..n] == s'[..Min(|s|, |s'|)][..n];
    }
  }
}
