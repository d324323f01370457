/** The two-level mutex: api/internal/deployments/mutex.go. */
module ClusterMutex {
  import opened Lifecycle

  // sync.Mutex, as far as TryLock and Unlock use it.
  class Lock {
    var locked: bool

    constructor ()
      ensures !locked
    {
      locked := false;
    }
  }

  class ClusterMutex {
    var per: map<ClusterId, Lock>

    ghost predicate Valid()
      reads this
    {
      forall c, d :: c in per && d in per && c != d ==> per[c] != per[d]
    }

    // The clusters whose mutex is taken.
    ghost function Held(): set<ClusterId>
      reads this, per.Values
    {
      set c | c in per && per[c].locked
    }

    constructor ()
      ensures Valid() && Held() == {} && per == map[]
    {
      per := map[];
    }

    // Takes c's mutex if it is free, creating it on first use.
    method TryLock(c: ClusterId) returns (ok: bool)
      requires Valid()
      modifies this, per.Values
      ensures Valid() && fresh(per.Values - old(per.Values))
      ensures ok <==> c !in old(Held())
      ensures Held() == old(Held()) + {c}
    {
      if c !in per {
        var m := new Lock();
        per := per[c := m];
      }
      var m := per[c];
      ok := !m.locked;
      m.locked := true;
    }

    // Unlocking a free mutex is fatal, so a caller must hold a mutex that exists.
    method Unlock(c: ClusterId)
      requires Valid() && (c in per ==> c in Held())
      modifies per.Values
      ensures Valid() && per == old(per)
      ensures Held() == old(Held()) - {c}
    {
      if c in per {
        per[c].locked := false;
      }
    }
  }
}
