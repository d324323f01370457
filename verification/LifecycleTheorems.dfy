/** What operators can rely on: locks, deletes against live work, and how an operation ends, over every legal run. */
module LifecycleTheorems {
  import opened Common
  import opened StateMachine
  import opened Lifecycle
  import opened LifecycleLocks
  import opened LifecycleBlocks
  import opened LifecycleExactness
  import opened LifecycleGround
  import opened LifecycleRequests
  import opened LifecycleRows
  import opened LifecycleSafety

  /** In every legal run each held lock has exactly one worker holding it. */
  lemma {:induction false} RunKeepsLocks(s: System, run: seq<Step>)
    requires LockInv(s) && Legal(s, run)
    ensures LockInv(After(s, run))
    decreases |run|
  {
    if run != [] {
      StepKeepsLocks(s, run[0]);
      RunKeepsLocks(Next(s, run[0]), run[1..]);
    }
  }

  // ---------- delete against live work ----------

  lemma BusyRefusesDelete(s: System, c: ClusterId, cascade: bool, j: JobId, fault: bool)
    requires c in s.db.clusters && IsTransient(s.db.clusters[c].status)
    ensures DeleteRequest(s, c, cascade, j, fault) == s.(db := Log(s.db, Entry(Delete, c, OFailure, None)))
  {
    assert s.db.clusters[c].status !in CASCADE_DELETABLE && s.db.clusters[c].status !in DIRECT_DELETABLE;
  }

  /** No DELETE, cascading or not, removes or changes a row while a tracked body runs on the cluster, whatever went
      wrong before. */
  lemma DeleteSparesLiveWork(s: System, c: ClusterId, cascade: bool, j: JobId, fault: bool, i: JobId)
    requires Reachable(s) && BodyOn(s, i, c) && Tracked(s.workers[i].kind)
    ensures DeleteRequest(s, c, cascade, j, fault) == s.(db := Log(s.db, Entry(Delete, c, OFailure, None)))
  {
    assert Owns(s.db, i, s.workers[i]) by {
      ReachableGrounded(s);
      assert GroundedAt(s, c);
    }
    BusyRefusesDelete(s, c, cascade, j, fault);
  }

  // ---------- how an operation ends ----------

  // Operation k of job j on c is under way, begun with the latch as given. With the process down its row waits for
  // recovery, which may have taken c to Error already on account of another row.
  predicate OpPending(s: System, c: ClusterId, k: Kind, j: JobId, latch: bool) {
    && (k.Deploy? || k.Destroy? || k.Upgrade?)
    && j in s.issued && j in s.db.deployments && s.db.deployments[j] == Row(c, k, Running) && c in s.db.clusters
    && (|| s.db.clusters[c] == Cluster(if k.Deploy? then Deploying else if k.Upgrade? then Upgrading else Destroying,
                                       latch)
        || (!s.up && s.db.clusters[c].status == Error))
    && (s.up ==> BodyOn(s, j, c) && s.workers[j].kind == k)
  }

  // A destroy; latch tells whether it will forget the cluster.
  predicate DestroyPending(s: System, c: ClusterId, j: JobId, latch: bool) { OpPending(s, c, Destroy, j, latch) }

  // The step ends j's body, having written something if the process went down with it.
  predicate Settles(step: Step, j: JobId, verdict: bool) {
    match step
    case DoClose(i, ok) => i == j && ok == verdict
    case DoCut(i, ok, n) => i == j && ok == verdict && n > 0
    case DoLose(i, _) => i == j && verdict
    case _ => false
  }

  // A boot, whole or cut, gets as far as j's row.
  predicate Recovers(step: Step, j: JobId) {
    match step
    case DoBoot => true
    case DoCutBoot(done, i, n) => j in done || (i == j && n > 0)
    case _ => false
  }

  ghost predicate Forgotten(s: System, c: ClusterId) {
    && c !in s.db.clusters
    && (forall j :: j in s.db.deployments ==> s.db.deployments[j].cluster != c)
    && (forall j :: j in s.db.installs ==> s.db.installs[j].cluster != c)
  }

  // c came to rest, and so did j's row.
  predicate RestedIn(s: System, c: ClusterId, j: JobId, cl: Cluster, row: RowStatus) {
    && c in s.db.clusters && s.db.clusters[c] == cl
    && j in s.db.deployments && s.db.deployments[j].status == row
  }

  // A destroy that succeeds forgets a latched cluster and leaves any other Destroyed, a deploy or upgrade leaves Ready;
  // a failure or cancel leaves Error, and a destroy's clears the latch.
  ghost predicate EndsAs(t: System, c: ClusterId, k: Kind, j: JobId, latch: bool, ok: bool, cancelled: bool) {
    if ok && k.Destroy? && latch then Forgotten(t, c)
    else if ok then RestedIn(t, c, j, Cluster(if k.Destroy? then Destroyed else Ready, latch), Succeeded)
    else RestedIn(t, c, j, Cluster(Error, latch && !k.Destroy?), if cancelled then Cancelled else Failed)
  }

  predicate Flagged(s: System, j: JobId) { j in s.workers && s.workers[j].cancelled }

  // The operation stays pending until its body ends, and then ends as its verdict and latch say, or a boot gets to its
  // row, which is then failed, the cluster in Error and the latch clear.
  ghost predicate Ends(s: System, run: seq<Step>, c: ClusterId, k: Kind, j: JobId, latch: bool)
    requires Legal(s, run)
    decreases |run|
  {
    && OpPending(s, c, k, j, latch)
    && (run == [] ||
        var t := Next(s, run[0]);
        if Settles(run[0], j, true) then EndsAs(t, c, k, j, latch, true, false)
        else if Settles(run[0], j, false) then EndsAs(t, c, k, j, latch, false, Flagged(s, j))
        else if Recovers(run[0], j) then RestedIn(t, c, j, Cluster(Error, false), Failed)
        else Ends(t, run[1..], c, k, j, latch))
  }

  // A step in the middle of what is written about job j: its terminal block, or recovery at its row.
  predicate IsOwn(step: Step, j: JobId) {
    (step.DoClose? || step.DoCut? || step.DoLose? || step.DoCutBoot?) && step.j == j
  }

  // No hazard befalls job j itself.
  ghost predicate OwnClean(s: System, run: seq<Step>, j: JobId)
    requires Legal(s, run)
    decreases |run|
  {
    run == [] || (!(IsOwn(run[0], j) && Hazard(s, run[0])) && OwnClean(Next(s, run[0]), run[1..], j))
  }

  predicate Over(s: System, j: JobId) { j in s.issued && !InPhase(s, j, Body) && !IsRunning(s.db.deployments, j) }

  lemma BodyStaysOver(s: System, step: Step, j: JobId)
    requires Enabled(s, step) && j in s.issued && !InPhase(s, j, Body)
    ensures !InPhase(Next(s, step), j, Body)
  {}

  // A job whose body has ended and whose row has left Running has no hazard left.
  lemma {:induction false} OverIsClean(s: System, run: seq<Step>, j: JobId)
    requires Grounded(s) && Legal(s, run) && Over(s, j)
    ensures OwnClean(s, run, j)
    decreases |run|
  {
    if run != [] {
      StepOnRow(s, run[0], j);
      BodyStaysOver(s, run[0], j);
      StepGrounds(s, run[0]);
      OverIsClean(Next(s, run[0]), run[1..], j);
    }
  }

  // ---------- one step of a pending operation ----------

  lemma PendingElsewhere(s: System, step: Step, c: ClusterId, k: Kind, j: JobId, latch: bool)
    requires Grounded(s) && OpPending(s, c, k, j, latch) && s.up
    requires Enabled(s, step) && Target(s, step) != Some(c)
    ensures OpPending(Next(s, step), c, k, j, latch)
  {
    StepElsewhere(s, step, c);
    assert RowAt(s.db.deployments, j, c);
    if Next(s, step).up { BodiesElsewhere(s, step, c, j); }
  }

  // Requests against a busy cluster, its lock held, write nothing but the audit log.
  lemma PendingOnlyLogs(s: System, q: Step, n: nat, c: ClusterId, k: Kind, j: JobId, latch: bool)
    requires Grounded(s) && OpPending(s, c, k, j, latch) && s.up
    requires IsRequest(q) && Enabled(s, q) && Target(s, q) == Some(c) && n <= |RequestWrites(s, q)|
    ensures Launch(s, q).None?
    ensures var t := ApplyWrites(s.db, RequestWrites(s, q), n);
            t.deployments == s.db.deployments && t.clusters == s.db.clusters
  {
    Holder(s, j, c);
    assert GroundedAt(s, c);
    match q
    case DoInitialize(_, r) => InitializePrefix(s.db, c, r, n);
    case DoDelete(_, cascade, i, fault) => DeleteEffect(s, c, cascade, i, fault, n);
    case DoKickoff(_, _, _, _) =>
  }

  lemma PendingRefuses(s: System, step: Step, c: ClusterId, k: Kind, j: JobId, latch: bool)
    requires Grounded(s) && OpPending(s, c, k, j, latch) && s.up
    requires Enabled(s, step) && IsFront(step) && Target(s, step) == Some(c)
    ensures OpPending(Next(s, step), c, k, j, latch)
  {
    FrontIsPrefix(s, step);
    PendingOnlyLogs(s, FrontOf(step), FrontWrites(s, step), c, k, j, latch);
  }

  lemma NothingWritten(s: System, t: System, c: ClusterId, k: Kind, j: JobId, latch: bool, ok: bool, cancelled: bool)
    requires OpPending(s, c, k, j, latch) && t.db == s.db
    ensures !EndsAs(t, c, k, j, latch, ok, cancelled)
  {}

  lemma FirstWriteIsNoEnd(s: System, t: System, c: ClusterId, k: Kind, j: JobId, latch: bool, ok: bool)
    requires OpPending(s, c, k, j, latch) && s.up && Owns(s.db, j, s.workers[j]) && RowMatches(s.db, j, s.workers[j])
    requires !(ok && s.workers[j].cancelled)
    requires t.db == ApplyWrites(s.db, CloseWrites(s.db, j, s.workers[j], ok), 1)
    ensures !EndsAs(t, c, k, j, latch, ok, Flagged(s, j))
  {
    FirstWrite(s.db, j, s.workers[j], ok);
  }

  lemma BlockEndsIff(s: System, t: System, c: ClusterId, k: Kind, j: JobId, latch: bool, ok: bool, n: nat)
    requires OpPending(s, c, k, j, latch) && s.up && Owns(s.db, j, s.workers[j]) && RowMatches(s.db, j, s.workers[j])
    requires StoreAt(s.db, c) && !(ok && s.workers[j].cancelled)
    requires 2 <= n <= |CloseWrites(s.db, j, s.workers[j], ok)|
    requires t.db == ApplyWrites(s.db, CloseWrites(s.db, j, s.workers[j], ok), n)
    ensures EndsAs(t, c, k, j, latch, ok, Flagged(s, j)) <==> !(k.Destroy? && latch && n < LatchWrites(ok))
    ensures !IsRunning(t.db.deployments, j)
  {
    BlockEffect(s.db, j, s.workers[j], ok, n);
  }

  // The terminal block of the operation: what it leaves tells whether it was a hazard.
  lemma PendingSettles(s: System, step: Step, c: ClusterId, k: Kind, j: JobId, latch: bool, ok: bool)
    requires Grounded(s) && OpPending(s, c, k, j, latch) && s.up && Enabled(s, step) && Settles(step, j, ok)
    ensures EndsAs(Next(s, step), c, k, j, latch, ok, Flagged(s, j)) <==> !Hazard(s, step)
    ensures EndsAs(Next(s, step), c, k, j, latch, ok, Flagged(s, j)) ==> Over(Next(s, step), j)
  {
    var w := s.workers[j];
    var t := Next(s, step);
    assert GroundedAt(s, c) && Owns(s.db, j, w) && RowMatches(s.db, j, w);
    var n := if step.DoClose? then |CloseWrites(s.db, j, w, ok)| else step.n;
    if n == 0 {
      NothingWritten(s, t, c, k, j, latch, ok, Flagged(s, j));
    } else if n == 1 {
      FirstWriteIsNoEnd(s, t, c, k, j, latch, ok);
    } else {
      BlockEndsIff(s, t, c, k, j, latch, ok, n);
    }
  }

  lemma PendingBoot(s: System, c: ClusterId, k: Kind, j: JobId, latch: bool)
    requires OpPending(s, c, k, j, latch)
    ensures RestedIn(s.(db := Recovered(s.db), up := true), c, j, Cluster(Error, false), Failed)
  {
    OrphanedIff(s.db, c);
    assert RunningAt(s.db.deployments, j, c);
  }

  // Row j, the cluster under it, and c's latch after a cut recovery.
  lemma CutBootOnRow(db: Store, done: set<JobId>, i: JobId, n: nat, c: ClusterId, j: JobId)
    requires StoreAt(db, c) && RunningAt(db.deployments, j, c) && i in db.deployments && i !in done && n <= 3
    ensures var t, cs := CutRecovery(db, done, i, n), RecoveredSome(db, done).clusters;
            && c in t.clusters && c in cs && j in t.deployments
            && t.deployments[j] == (if j in done || (i == j && n > 0) then Row(c, db.deployments[j].kind, Failed)
                                    else db.deployments[j])
            && t.clusters[c] == (if db.deployments[i].cluster == c
                                 then Cluster(if n >= 2 then Error else cs[c].status, cs[c].pendingForget && n < 3)
                                 else cs[c])
            && (j in done ==> cs[c] == Cluster(Error, false))
            && (cs[c] == db.clusters[c] || cs[c] == Cluster(Error, false))
  {
    var mid := RecoveredSome(db, done);
    RecoveredStoreAt(db, done, c);
    assert RecoverWrites(mid, i) == RecoverWrites(db, i) && RowAt(mid.deployments, j, c);
    if db.deployments[i].cluster == c {
      RecoverEffect(mid, i, n);
    } else {
      WritesElsewhere(mid, RecoverWrites(mid, i), n, c);
    }
    if j in done { assert db.deployments[j].cluster in HitBy(db, done); }
  }

  // Recovery cut short: past j's row it has ended the operation, unless it was cut right there; short of it, the
  // operation waits for the next boot.
  lemma PendingCutBoot(s: System, step: Step, c: ClusterId, k: Kind, j: JobId, latch: bool)
    requires Grounded(s) && OpPending(s, c, k, j, latch) && Enabled(s, step) && step.DoCutBoot?
    ensures var t := Next(s, step);
            if Recovers(step, j)
            then RestedIn(t, c, j, Cluster(Error, false), Failed) <==> !(IsOwn(step, j) && Hazard(s, step))
            else OpPending(t, c, k, j, latch) && !(IsOwn(step, j) && Hazard(s, step))
  {
    assert GroundedAt(s, c) && RunningAt(s.db.deployments, j, c);
    CutBootOnRow(s.db, step.done, step.j, step.n, c, j);
  }

  // A step that neither settles the destroy nor boots leaves it pending, and is no hazard of its own.
  lemma PendingStays(s: System, step: Step, c: ClusterId, k: Kind, j: JobId, latch: bool)
    requires Grounded(s) && OpPending(s, c, k, j, latch) && Enabled(s, step) && s.up
    requires !Settles(step, j, true) && !Settles(step, j, false)
    ensures OpPending(Next(s, step), c, k, j, latch)
    ensures !(IsOwn(step, j) && Hazard(s, step))
  {
    Holder(s, j, c);
    if Target(s, step) != Some(c) {
      PendingElsewhere(s, step, c, k, j, latch);
    } else if step.DoClose? || step.DoCut? || step.DoLose? {
      assert BodyOn(s, step.j, c);
    } else {
      PendingRefuses(s, step, c, k, j, latch);
    }
  }

  lemma {:induction false} EndsIff(s: System, run: seq<Step>, c: ClusterId, k: Kind, j: JobId, latch: bool)
    requires Grounded(s) && Legal(s, run) && OpPending(s, c, k, j, latch)
    ensures Ends(s, run, c, k, j, latch) <==> OwnClean(s, run, j)
    decreases |run|
  {
    if run != [] {
      var step, t := run[0], Next(s, run[0]);
      StepGrounds(s, step);
      if Settles(step, j, true) || Settles(step, j, false) {
        var ok := Settles(step, j, true);
        PendingSettles(s, step, c, k, j, latch, ok);
        if EndsAs(t, c, k, j, latch, ok, Flagged(s, j)) { OverIsClean(t, run[1..], j); }
      } else if step.DoBoot? {
        PendingBoot(s, c, k, j, latch);
        OverIsClean(t, run[1..], j);
      } else if step.DoCutBoot? {
        PendingCutBoot(s, step, c, k, j, latch);
        if !Recovers(step, j) {
          EndsIff(t, run[1..], c, k, j, latch);
        } else if RestedIn(t, c, j, Cluster(Error, false), Failed) {
          OverIsClean(t, run[1..], j);
        }
      } else {
        PendingStays(s, step, c, k, j, latch);
        EndsIff(t, run[1..], c, k, j, latch);
      }
    }
  }

  /** A deploy, destroy or upgrade kicked off after any legal run ends as its verdict says, if and only if no hazard
      befalls it: a deploy or upgrade that succeeds leaves Ready and a succeeded row, a destroy Destroyed or, with the
      latch set at kickoff, no cluster at all; one that fails leaves Error and a failed row, one that is cancelled Error
      and a cancelled row, a boot that gets to its row Error, a failed row and the latch clear. */
  lemma OperationFate(s: System, c: ClusterId, k: Kind, j: JobId, run: seq<Step>)
    requires Reachable(s) && s.up && j !in s.issued && (k.Deploy? || k.Destroy? || k.Upgrade?)
    requires Accepts(s, k, c, false) && Legal(Started(s, k, c, j), run)
    ensures Ends(Started(s, k, c, j), run, c, k, j, s.db.clusters[c].pendingForget)
            <==> OwnClean(Started(s, k, c, j), run, j)
  {
    ReachableGrounded(s);
    assert GroundedAt(s, c);
    StartEffect(s.db, k, c, j, 3);
    StepGrounds(s, DoKickoff(k, c, j, false));
    EndsIff(Started(s, k, c, j), run, c, k, j, s.db.clusters[c].pendingForget);
  }

  /** A destroy kicked off after any legal run ends as its latch at kickoff says, if and only if no hazard befalls the
      destroy itself: success forgets the cluster exactly when the latch was set and leaves it Destroyed otherwise;
      failure, cancel or a reboot leaves Error with the latch clear, and where recovery is itself cut short the destroy
      waits for the boot that gets to its row. Other clusters and the past may go wrong. */
  lemma DestroyFate(s: System, c: ClusterId, j: JobId, run: seq<Step>)
    requires Reachable(s) && s.up && j !in s.issued && Accepts(s, Destroy, c, false)
    requires Legal(Started(s, Destroy, c, j), run)
    ensures Ends(Started(s, Destroy, c, j), run, c, Destroy, j, s.db.clusters[c].pendingForget)
            <==> OwnClean(Started(s, Destroy, c, j), run, j)
  {
    OperationFate(s, c, Destroy, j, run);
  }

  /** An accepted DELETE with cascade=destroy, after any legal run: the destroy stays pending with the latch set until
      it settles; success drops the row and all child rows, failure, cancel or a boot, cut short or not, that gets to
      its row leaves Error with the latch clear, if and only if no hazard befalls the destroy itself. */
  lemma CascadeEnds(s: System, c: ClusterId, j: JobId, run: seq<Step>)
    requires Reachable(s) && s.up && j !in s.issued && Cascades(s.db, c, true) && Accepts(s, Destroy, c, false)
    requires Legal(DeleteRequest(s, c, true, j, false), run)
    ensures Ends(DeleteRequest(s, c, true, j, false), run, c, Destroy, j, true)
            <==> OwnClean(DeleteRequest(s, c, true, j, false), run, j)
  {
    ReachableGrounded(s);
    assert GroundedAt(s, c);
    StepGrounds(s, DoDelete(c, true, j, false));
    StartEffect(SetLatch(s.db, c, true), Destroy, c, j, 3);
    EndsIff(DeleteRequest(s, c, true, j, false), run, c, Destroy, j, true);
  }

  // The latch of a destroy that front half q starts on c.
  function LatchOf(s: System, q: Step, c: ClusterId): bool { q.DoDelete? || Latched(s.db.clusters, c) }

  lemma LaunchLatch(s: System, q: Step, n: nat, c: ClusterId, j: JobId)
    requires StoreAt(s.db, c) && Enabled(s, DoLoseRequest(q, n))
    requires Launch(s, q) == Some((j, Destroy, c)) && n >= LaunchWrites(q)
    ensures var t := ApplyWrites(s.db, RequestWrites(s, q), n);
            c in t.clusters && t.clusters[c].pendingForget == LatchOf(s, q, c)
  {
    match q
    case DoKickoff(_, _, _, _) =>
      StartIs(s.db, Destroy, c, j, n);
      StartEffect(s.db, Destroy, c, j, n);
    case DoDelete(_, cascade, _, fault) =>
      assert RequestWrites(s, q) == CascadeWrites(c, j);
      CascadeIs(s.db, c, j, n);
      CascadeEffect(s.db, c, j, n);
  }

  // A front half that got far enough to start a destroy has left it pending.
  lemma LaunchIsPending(s: System, q: Step, n: nat, c: ClusterId, j: JobId)
    requires Grounded(s) && Enabled(s, DoLoseRequest(q, n))
    requires Launch(s, q) == Some((j, Destroy, c)) && n >= LaunchWrites(q)
    ensures DestroyPending(LoseRequest(s, q, n), c, j, LatchOf(s, q, c))
  {
    assert GroundedAt(s, c);
    LaunchTarget(s, q);
    LaunchOwns(s, q, n);
    LaunchLatch(s, q, n, c, j);
  }

  /** The same for a destroy, plain or cascading, whose client goes away at any point from which its worker still
      starts: it ends as its latch says if and only if no hazard befalls the destroy itself. */
  lemma AbandonedDestroyFate(s: System, q: Step, n: nat, c: ClusterId, j: JobId, run: seq<Step>)
    requires Reachable(s) && Enabled(s, DoLoseRequest(q, n))
    requires Launch(s, q) == Some((j, Destroy, c)) && n >= LaunchWrites(q)
    requires Legal(LoseRequest(s, q, n), run)
    ensures Ends(LoseRequest(s, q, n), run, c, Destroy, j, LatchOf(s, q, c))
            <==> OwnClean(LoseRequest(s, q, n), run, j)
  {
    ReachableGrounded(s);
    LaunchIsPending(s, q, n, c, j);
    StepGrounds(s, DoLoseRequest(q, n));
    EndsIff(LoseRequest(s, q, n), run, c, Destroy, j, LatchOf(s, q, c));
  }

  /** After any legal run, a plain destroy keeps the row as it should (Destroyed on success, Error otherwise) if and
      only if no latch was set at its kickoff and no hazard befalls it. */
  lemma PlainDestroyKeepsRow(s: System, c: ClusterId, j: JobId, run: seq<Step>)
    requires Reachable(s) && s.up && j !in s.issued && Accepts(s, Destroy, c, false)
    requires Legal(Started(s, Destroy, c, j), run)
    ensures Ends(Started(s, Destroy, c, j), run, c, Destroy, j, false)
            <==> !s.db.clusters[c].pendingForget && OwnClean(Started(s, Destroy, c, j), run, j)
  {
    DestroyFate(s, c, j, run);
    if s.db.clusters[c].pendingForget {
      ReachableGrounded(s);
      assert GroundedAt(s, c);
      StartEffect(s.db, Destroy, c, j, 3);
      assert !DestroyPending(Started(s, Destroy, c, j), c, j, false);
    }
  }

  /** After a past without hazards of jobs on c, whatever happened elsewhere, a cluster that accepts a kickoff has no
      latch set. */
  lemma CleanPastHasNoLatch(before: seq<Step>, k: Kind, c: ClusterId)
    requires Legal(EMPTY, before) && CleanAt(EMPTY, before, c)
    requires After(EMPTY, before).up && Accepts(After(EMPTY, before), k, c, false)
    ensures !After(EMPTY, before).db.clusters[c].pendingForget
  {
    EmptyIsSound(c);
    CleanPastIsSound(EMPTY, before, c);
    FreeIsRest(After(EMPTY, before), c);
  }
}
