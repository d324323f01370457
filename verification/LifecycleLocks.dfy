/** Per-cluster mutual exclusion of the lifecycle protocol, in every legal run, crashes included. */
module LifecycleLocks {
  import opened Lifecycle

  predicate Holds(s: System, j: JobId) { j in s.workers && !s.workers[j].phase.Unlocked? }

  ghost predicate HeldBySomeone(s: System, c: ClusterId) {
    exists j :: Holds(s, j) && s.workers[j].cluster == c
  }

  ghost predicate AtMostOneHolder(s: System) {
    forall i, j {:trigger Holds(s, i), Holds(s, j)} ::
      Holds(s, i) && Holds(s, j) && s.workers[i].cluster == s.workers[j].cluster ==> i == j
  }

  ghost predicate LocksAreHeld(s: System) {
    && (forall j :: Holds(s, j) ==> s.workers[j].cluster in s.locks)
    && (forall c :: c in s.locks ==> HeldBySomeone(s, c))
  }

  ghost predicate LockInv(s: System) {
    && AtMostOneHolder(s)
    && LocksAreHeld(s)
    && s.cancelMap == s.workers.Keys
    && s.workers.Keys <= s.issued
    && (!s.up ==> s.workers == map[])
  }

  // Equal up to the store.
  predicate SameControl(s: System, t: System) { t == s.(db := t.db) }

  // Same holders on the same clusters, up to a set of changed workers and locks.
  lemma HoldersCarryOver(s: System, t: System, c: ClusterId)
    requires HeldBySomeone(s, c)
    requires forall i :: Holds(s, i) && s.workers[i].cluster == c ==> Holds(t, i) && t.workers[i].cluster == c
    ensures HeldBySomeone(t, c)
  {
    var i :| Holds(s, i) && s.workers[i].cluster == c;
    assert Holds(t, i);
  }

  // t has a new worker on a cluster whose lock was free.
  lemma LaunchKeepsLocks(s: System, t: System, k: Kind, c: ClusterId, j: JobId)
    requires LockInv(s) && s.up && t.up && c !in s.locks && j !in s.issued
    requires t.workers == s.workers[j := Worker(k, c, Body, false)] && t.locks == s.locks + {c}
    requires t.cancelMap == s.cancelMap + {j} && t.issued == s.issued + {j}
    ensures LockInv(t)
  {
    assert forall i :: Holds(t, i) <==> Holds(s, i) || i == j;
    forall d | d in t.locks ensures HeldBySomeone(t, d) {
      if d == c {
        assert Holds(t, j);
      } else {
        HoldersCarryOver(s, t, d);
      }
    }
  }

  lemma StartedKeepsLocks(s: System, k: Kind, c: ClusterId, j: JobId)
    requires LockInv(s) && s.up && c !in s.locks && j !in s.issued
    ensures LockInv(Started(s, k, c, j))
  {
    LaunchKeepsLocks(s, Started(s, k, c, j), k, c, j);
  }

  lemma LoseRequestKeepsLocks(s: System, q: Step, n: nat)
    requires LockInv(s) && Enabled(s, DoLoseRequest(q, n))
    ensures LockInv(LoseRequest(s, q, n))
  {
    var t := LoseRequest(s, q, n);
    var l := Launch(s, q);
    if l.Some? && n >= LaunchWrites(q) {
      LaunchKeepsLocks(s, t, l.value.1, l.value.2, l.value.0);
    } else {
      SameHoldersKeepLocks(s, t);
    }
  }

  // More ids drawn, and the store: neither is the locks' business.
  lemma SameHoldersKeepLocks(s: System, t: System)
    requires LockInv(s) && t == s.(db := t.db, issued := t.issued) && s.issued <= t.issued
    ensures LockInv(t)
  {
    assert forall i :: Holds(t, i) <==> Holds(s, i);
    forall d | d in t.locks ensures HeldBySomeone(t, d) {
      HoldersCarryOver(s, t, d);
    }
  }

  lemma WorkerEditKeepsLocks(s: System, t: System, j: JobId, w: Worker)
    requires LockInv(s) && s.up && t.up && j in s.workers
    requires t.workers == s.workers[j := w]
    requires w.cluster == s.workers[j].cluster && w.phase.Unlocked? == s.workers[j].phase.Unlocked?
    requires t.locks == s.locks && t.cancelMap == s.cancelMap && t.issued == s.issued
    ensures LockInv(t)
  {
    assert forall i :: Holds(t, i) <==> Holds(s, i);
    forall d | d in t.locks ensures HeldBySomeone(t, d) {
      HoldersCarryOver(s, t, d);
    }
  }

  lemma UnlockKeepsLocks(s: System, j: JobId)
    requires LockInv(s) && s.up && InPhase(s, j, Closed)
    ensures LockInv(UnlockJob(s, j))
  {
    var t := UnlockJob(s, j);
    assert Holds(s, j);
    assert forall i :: Holds(t, i) <==> Holds(s, i) && i != j;
    forall d | d in t.locks ensures HeldBySomeone(t, d) {
      HoldersCarryOver(s, t, d);
    }
  }

  lemma DeregisterKeepsLocks(s: System, j: JobId)
    requires LockInv(s) && s.up && InPhase(s, j, Unlocked)
    ensures LockInv(DeregisterJob(s, j))
  {
    var t := DeregisterJob(s, j);
    assert forall i :: Holds(t, i) <==> Holds(s, i);
    forall d | d in t.locks ensures HeldBySomeone(t, d) {
      HoldersCarryOver(s, t, d);
    }
  }

  lemma SameControlKeepsLocks(s: System, t: System)
    requires LockInv(s) && SameControl(s, t)
    ensures LockInv(t)
  {
    assert forall i :: Holds(t, i) <==> Holds(s, i);
    forall d | d in t.locks ensures HeldBySomeone(t, d) {
      HoldersCarryOver(s, t, d);
    }
  }

  lemma DeleteKeepsLocks(s: System, c: ClusterId, cascade: bool, j: JobId, fault: bool)
    requires LockInv(s) && s.up && j !in s.issued
    ensures LockInv(DeleteRequest(s, c, cascade, j, fault))
  {
    var t := DeleteRequest(s, c, cascade, j, fault);
    var latched := s.(db := SetLatch(s.db, c, true));
    if Cascades(s.db, c, cascade) && Accepts(latched, Destroy, c, fault) {
      SameControlKeepsLocks(s, latched);
      StartedKeepsLocks(latched, Destroy, c, j);
      SameControlKeepsLocks(Started(latched, Destroy, c, j), t);
    } else {
      SameControlKeepsLocks(s, t);
    }
  }

  lemma EditStepsKeepLocks(s: System, j: JobId, ok: bool)
    requires LockInv(s) && s.up
    ensures LockInv(CancelJob(s, j))
    ensures InPhase(s, j, Body) ==> LockInv(CloseJob(s, j, ok))
  {
    if j in s.workers {
      WorkerEditKeepsLocks(s, CancelJob(s, j), j, s.workers[j].(cancelled := true));
      if s.workers[j].phase.Body? {
        WorkerEditKeepsLocks(s, CloseJob(s, j, ok), j, s.workers[j].(phase := Closed));
      }
    }
  }

  lemma LoseKeepsLocks(s: System, j: JobId, n: nat)
    requires LockInv(s) && Enabled(s, DoLose(j, n))
    ensures LockInv(LoseJob(s, j, n))
  {
    WorkerEditKeepsLocks(s, LoseJob(s, j, n), j, s.workers[j].(phase := Closed, cancelled := true));
  }

  lemma BootKeepsLocks(s: System, db: Store)
    requires LockInv(s) && !s.up
    ensures LockInv(s.(db := db, up := true))
  {
    assert s.locks == {} by {
      forall c ensures c !in s.locks { assert c in s.locks ==> HeldBySomeone(s, c); }
    }
  }

  // Mutual exclusion per cluster survives every legal step: no lock is leaked, none is shared.
  lemma StepKeepsLocks(s: System, step: Step)
    requires LockInv(s) && Enabled(s, step)
    ensures LockInv(Next(s, step))
  {
    match step
    case DoCreate(_) => SameControlKeepsLocks(s, Next(s, step));
    case DoInitialize(_, _) => SameControlKeepsLocks(s, Next(s, step));
    case DoKickoff(k, c, j, fault) => if Accepts(s, k, c, fault) { StartedKeepsLocks(s, k, c, j); }
    case DoDelete(c, cascade, j, fault) => DeleteKeepsLocks(s, c, cascade, j, fault);
    case DoCancel(j) => EditStepsKeepLocks(s, j, true);
    case DoClose(j, ok) => EditStepsKeepLocks(s, j, ok);
    case DoLose(j, n) => LoseKeepsLocks(s, j, n);
    case DoUnlock(j) => UnlockKeepsLocks(s, j);
    case DoDeregister(j) => DeregisterKeepsLocks(s, j);
    case DoCrash =>
    case DoCut(_, _, _) =>
    case DoBoot => BootKeepsLocks(s, Recovered(s.db));
    case DoCutRequest(_, _) =>
    case DoLoseRequest(q, n) => LoseRequestKeepsLocks(s, q, n);
    case DoCutBoot(_, _, _) =>
  }
}
