/**
 * The recursion guard of Player/Guard.swift: a process-wide set of integer
 * tags. Locking a tag that is free inserts it and hands back an unlocker;
 * locking a held tag fails. The unlocker removes exactly its own tag.
 *
 * The Swift overloads that derive the tag from a string hash or from the
 * bit pattern of a value are modelled by their result only: an integer tag.
 */
module Guards {
  import opened Wrappers

  /** The `unlock` closure handed back by a successful lock: it captures the tag. */
  datatype Unlocker = Unlocker(tag: int)

  /** What one `lock` call yields: the new lock set and the optional unlocker. */
  datatype Acquisition = Acquisition(locks: set<int>, unlock: Option<Unlocker>)

  /** `Guard.lock(tag)` as a function of the lock set before the call. */
  function TryAcquire(locks: set<int>, tag: int): (r: Acquisition)
    ensures r.unlock.Some? <==> tag !in locks
    ensures r.unlock.Some? ==> r.unlock.value == Unlocker(tag) && r.locks == locks + {tag}
    ensures r.unlock.None? ==> r.locks == locks
    ensures locks <= r.locks && tag in r.locks
  {
    if tag in locks then Acquisition(locks, None)
    else Acquisition(locks + {tag}, Some(Unlocker(tag)))
  }

  /** Calling the unlocker: `Guard.locks.remove(tag)`. */
  function Released(locks: set<int>, u: Unlocker): (r: set<int>)
    ensures u.tag !in r
    ensures forall other :: other != u.tag ==> (other in r <==> other in locks)
    ensures r <= locks
  {
    locks - {u.tag}
  }

  /** Two locks of the same tag with no unlock in between: the second fails. */
  lemma SecondLockFails(locks: set<int>, tag: int)
    ensures TryAcquire(TryAcquire(locks, tag).locks, tag).unlock.None?
    ensures TryAcquire(TryAcquire(locks, tag).locks, tag).locks == TryAcquire(locks, tag).locks
  {
  }

  /** A lock of a free tag followed by its unlock restores the lock set. */
  lemma LockThenUnlockRestores(locks: set<int>, tag: int)
    requires tag !in locks
    ensures var a := TryAcquire(locks, tag); a.unlock.Some? && Released(a.locks, a.unlock.value) == locks
  {
    var a := TryAcquire(locks, tag);
    assert Released(a.locks, a.unlock.value) == (locks + {tag}) - {tag};
  }

  /**
   * The static `locks` set as an object: `Lock` is `Guard.lock(_:)` with the
   * private `lock()`, `Unlock` is calling the returned `unlock` closure.
   */
  class Guard {
    var locks: set<int>

    constructor ()
      ensures locks == {}
    {
      locks := {};
    }

    method Lock(tag: int) returns (unlock: Option<Unlocker>)
      modifies this
      ensures Acquisition(locks, unlock) == TryAcquire(old(locks), tag)
      ensures unlock.Some? <==> tag !in old(locks)
      ensures locks == old(locks) + {tag}
    {
      if tag in locks {
        return None;
      }
      locks := locks + {tag};
      unlock := Some(Unlocker(tag));
    }

    method Unlock(u: Unlocker)
      modifies this
      ensures locks == Released(old(locks), u)
      ensures locks == old(locks) - {u.tag}
    {
      locks := locks - {u.tag};
    }
  }
}
