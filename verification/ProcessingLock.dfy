/** The processing lock: a map from id to the time its holder's claim runs out. */
module ProcessingLocks {
  predicate Held(locks: map<string, int>, id: string, now: int) {
    id in locks && locks[id] > now
  }

  function Unexpired(locks: map<string, int>, now: int): map<string, int> {
    map id | id in locks && locks[id] > now :: locks[id]
  }

  class ProcessingLock {
    const ttlMs: int
    var locks: map<string, int>

    constructor (ttlMs: int)
      ensures this.ttlMs == ttlMs && locks == map[]
    {
      this.ttlMs := ttlMs;
      locks := map[];
    }

    /** Succeeds exactly when nobody holds an unexpired claim on id. */
    method Acquire(id: string, now: int) returns (ok: bool)
      modifies this
      ensures ok <==> !Held(old(locks), id, now)
      ensures locks == if ok then old(locks)[id := now + ttlMs] else old(locks)
    {
      if id in locks && locks[id] > now {
        return false;
      }
      locks := locks[id := now + ttlMs];
      return true;
    }

    method Release(id: string)
      modifies this
      ensures locks == old(locks) - {id}
    {
      locks := locks - {id};
    }

    method SweepExpired(now: int)
      modifies this
      ensures locks == Unexpired(old(locks), now)
    {
      var todo := locks.Keys;
      while todo != {}
        invariant todo <= locks.Keys
        invariant Unexpired(locks, now) == Unexpired(old(locks), now)
        invariant forall id :: id in locks && id !in todo ==> locks[id] > now
        decreases todo
      {
        var id :| id in todo;
        todo := todo - {id};
        if locks[id] <= now {
          locks := locks - {id};
        }
      }
    }
  }

  /** A claim just taken excludes a second one at the same moment exactly when the TTL is
      positive; the TTL is not defaulted when only the stale window is configured. */
  lemma ExclusionNeedsPositiveTtl(locks: map<string, int>, id: string, now: int, ttlMs: int)
    ensures Held(locks[id := now + ttlMs], id, now) <==> ttlMs > 0
  {
  }

  /** Sweeping never changes who holds what. */
  lemma SweepKeepsHolders(locks: map<string, int>, id: string, now: int, later: int)
    requires now <= later
    ensures Held(Unexpired(locks, now), id, later) <==> Held(locks, id, later)
  {
  }
}
