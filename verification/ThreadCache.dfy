/** The per-thread cache pointer: it is made on first use and kept, whatever the first mmap answered. */
module ThreadCache {

  /** The thread-local pointer: not set, MAP_FAILED, or a cache. */
  datatype Cell = Unset | MapFailed | Cache

  /** What dam_get_thread_cache hands out: NULL, a cache, or MAP_FAILED as if it were a cache. */
  datatype Got = Nothing | Ready | BadPointer

  /** sizeof(thread_cache_t) */
  const CACHE_BYTES: nat := 96

  function GetCache(cell: Cell, mapped: bool): (Cell, Got) {
    match cell
    case Unset => if mapped then (Cache, Ready) else (MapFailed, Nothing)
    case MapFailed => (MapFailed, BadPointer)
    case Cache => (Cache, Ready)
  }

  /** The pointer after a thread's calls, given what mmap would have answered at each of them. */
  function CellAfter(answers: seq<bool>): Cell {
    if answers == [] then Unset else GetCache(CellAfter(answers[..|answers| - 1]), answers[|answers| - 1]).0
  }

  /** A thread is handed MAP_FAILED as a cache exactly when it has called before and its first mmap failed. */
  lemma {:induction false} BadPointerIff(answers: seq<bool>, mapped: bool)
    ensures GetCache(CellAfter(answers), mapped).1 == BadPointer <==> answers != [] && !answers[0]
    ensures answers != [] ==> CellAfter(answers) == if answers[0] then Cache else MapFailed
  {
    if |answers| == 1 {
      assert CellAfter(answers[..0]) == Unset;
    } else if answers != [] {
      BadPointerIff(answers[..|answers| - 1], mapped);
    }
  }
}
