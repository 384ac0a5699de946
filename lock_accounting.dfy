/**
 * The lock operations one caller of the cache performs on the shared mutex,
 * path by path, with no other caller involved. Only their order is modelled:
 * whether the caller ever releases a mutex it does not hold.
 */
module LockAccounting {
  import opened FlagTable

  datatype LockOp = Acquire | Release

  /** Replays one caller's operations. `None` when the caller releases a mutex
      it does not hold, or acquires one it already holds (a release of an
      unlocked mutex is a fatal error in Go, and a second acquire deadlocks);
      otherwise whether the caller still holds the mutex at the end. */
  function Replay(held: bool, ops: seq<LockOp>): Option<bool>
    decreases |ops|
  {
    if ops == [] then Some(held)
    else if (ops[0] == Acquire) == held then None
    else Replay(!held, ops[1..])
  }

  function CriticalSection(): seq<LockOp> { [Acquire, Release] }

  /** A critical section taken from an unheld mutex leaves it unheld. */
  lemma CriticalSectionIsBalanced(rest: seq<LockOp>)
    ensures Replay(false, CriticalSection() + rest) == Replay(false, rest)
  {
  }

  /** How a call of the cache ends. */
  datatype Path = AnsweredFromTable | FetchSucceeded | FetchFailedOrPanicked

  /** The operations as the code orders them: lock on entry and a deferred
      unlock on return of the lookup; on a fetch, an unlock before the fetch
      and a lock/unlock pair around the publication or the cleanup. */
  function AsWrittenLockOps(p: Path): seq<LockOp>
  {
    match p
    case AnsweredFromTable => CriticalSection()
    case FetchSucceeded => CriticalSection() + CriticalSection() + [Release]
    case FetchFailedOrPanicked => CriticalSection() + CriticalSection() + [Release]
  }

  /** As written, every call that fetches ends by releasing a mutex it no
      longer holds; only the call answered from the table is balanced. */
  lemma AsWrittenFetchReleasesUnheldMutex()
    ensures Replay(false, AsWrittenLockOps(FetchSucceeded)) == None
    ensures Replay(false, AsWrittenLockOps(FetchFailedOrPanicked)) == None
    ensures Replay(false, AsWrittenLockOps(AnsweredFromTable)) == Some(false)
  {
  }

  /** The evident intent: the lookup's final unlock happens only on the path
      that does not hand over to the fetch, which releases the lock itself. */
  function CorrectedLockOps(p: Path): seq<LockOp>
  {
    match p
    case AnsweredFromTable => CriticalSection()
    case FetchSucceeded => CriticalSection() + CriticalSection()
    case FetchFailedOrPanicked => CriticalSection() + CriticalSection()
  }

  /** Corrected, every path acquires before each release and ends without
      holding the mutex. */
  lemma CorrectedLockOpsBalance(p: Path)
    ensures Replay(false, CorrectedLockOps(p)) == Some(false)
  {
    var cs := CriticalSection();
    CriticalSectionIsBalanced([]);
    assert cs + [] == cs;
    CriticalSectionIsBalanced(cs);
  }
}
