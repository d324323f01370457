/**
  The hazards are real: from any state in which one can be taken, a legal run leads to the damage the code
  means to rule out. Each lemma gives the run.
 */
module LifecycleHazards {
  import opened StateMachine
  import opened Lifecycle
  import opened LifecycleBlocks
  import opened LifecycleExactness
  import opened LifecycleGround
  import opened LifecycleRequests
  import opened LifecycleSafety
  import opened LifecycleTheorems

  lemma Prepend(s: System, step: Step, rest: seq<Step>)
    requires Enabled(s, step) && Legal(Next(s, step), rest)
    ensures Legal(s, [step] + rest) && After(s, [step] + rest) == After(Next(s, step), rest)
  {
    assert ([step] + rest)[1..] == rest;
  }

  // c rests in status st, its lock free.
  predicate Idle(s: System, c: ClusterId, st: Status, latch: bool) {
    s.up && c in s.db.clusters && s.db.clusters[c] == Cluster(st, latch) && c !in s.locks
  }

  function OneJob(k: Kind, c: ClusterId, j: JobId): seq<Step> {
    [DoKickoff(k, c, j, false)] + ([DoClose(j, true)] + ([DoUnlock(j)] + []))
  }

  // A tracked job that runs to success with nothing in between.
  function JobDone(s: System, k: Kind, c: ClusterId, j: JobId): System {
    UnlockJob(CloseJob(Started(s, k, c, j), j, true), j)
  }

  lemma OneJobRuns(s: System, k: Kind, c: ClusterId, j: JobId, st: Status, latch: bool)
    requires Idle(s, c, st, latch) && Tracked(k) && CanTransition(st, Transient(k)) && j !in s.issued
    ensures Legal(s, OneJob(k, c, j)) && After(s, OneJob(k, c, j)) == JobDone(s, k, c, j)
  {
    var s1 := Started(s, k, c, j);
    var s2 := CloseJob(s1, j, true);
    Prepend(s2, DoUnlock(j), []);
    Prepend(s1, DoClose(j, true), [DoUnlock(j)] + []);
    Prepend(s, DoKickoff(k, c, j, false), [DoClose(j, true)] + ([DoUnlock(j)] + []));
  }

  lemma OneJobLands(s: System, k: Kind, c: ClusterId, j: JobId, st: Status, latch: bool)
    requires Idle(s, c, st, latch) && Tracked(k) && CanTransition(st, Transient(k)) && j !in s.issued
    ensures var t := JobDone(s, k, c, j);
            && t.issued == s.issued + {j}
            && (k.Destroy? && latch ==> c !in t.db.clusters)
            && (!(k.Destroy? && latch) ==> Idle(t, c, Landed(k), latch))
  {
    var s1 := Started(s, k, c, j);
    BlockIs(s1.db, j, s1.workers[j], true, |CloseWrites(s1.db, j, s1.workers[j], true)|);
  }

  lemma {:induction false} Compose(s: System, a: seq<Step>, b: seq<Step>)
    requires Legal(s, a) && Legal(After(s, a), b)
    ensures Legal(s, a + b) && After(s, a + b) == After(After(s, a), b)
    decreases |a|
  {
    if a == [] {
      assert a + b == b;
    } else {
      Compose(Next(s, a[0]), a[1..], b);
      assert (a + b)[1..] == a[1..] + b;
    }
  }

  // A destroy nobody asked to forget anything, on a cluster with a latch left set.
  lemma LatchStrikes(s: System, c: ClusterId, st: Status, k: JobId)
    requires Idle(s, c, st, true) && CanTransition(st, Destroying) && k !in s.issued
    ensures Legal(s, OneJob(Destroy, c, k)) && c !in After(s, OneJob(Destroy, c, k)).db.clusters
  {
    OneJobRuns(s, Destroy, c, k, st, true);
    OneJobLands(s, Destroy, c, k, st, true);
  }

  // ---------- the states the damage starts from can be reached ----------

  // The run is legal, leads to s, and keeps c sound.
  ghost predicate LeadsTo(run: seq<Step>, s: System, c: ClusterId) {
    Legal(EMPTY, run) && After(EMPTY, run) == s && SoundAt(s, c)
  }

  lemma OneMore(run: seq<Step>, s: System, step: Step)
    requires Legal(EMPTY, run) && After(EMPTY, run) == s && Enabled(s, step)
    ensures Legal(EMPTY, run + [step]) && After(EMPTY, run + [step]) == Next(s, step)
  {
    Prepend(s, step, []);
    assert [step] + [] == [step];
    Compose(EMPTY, run, [step]);
  }

  lemma Append(run: seq<Step>, s: System, step: Step, c: ClusterId)
    requires LeadsTo(run, s, c) && Enabled(s, step) && !HazardAt(s, step, c)
    ensures LeadsTo(run + [step], Next(s, step), c)
  {
    assert Grounded(s) by {
      assert Reachable(s);
      ReachableGrounded(s);
    }
    StepSoundIff(s, step, c);
    OneMore(run, s, step);
  }

  // A cluster created and initialized.
  function Fresh(c: ClusterId): System { EMPTY.(db := Initialize(CreateCluster(EMPTY.db, c), c, InitDone)) }

  function FreshRun(c: ClusterId): seq<Step> { [DoCreate(c)] + [DoInitialize(c, InitDone)] }

  lemma FreshIsReached(c: ClusterId)
    ensures LeadsTo(FreshRun(c), Fresh(c), c) && Idle(Fresh(c), c, Initialized, false) && Fresh(c).issued == {}
  {
    EmptyIsSound(c);
    Append([], EMPTY, DoCreate(c), c);
    assert [] + [DoCreate(c)] == [DoCreate(c)];
    Append([DoCreate(c)], Next(EMPTY, DoCreate(c)), DoInitialize(c, InitDone), c);
  }

  function DeployRun(c: ClusterId, i: JobId): seq<Step> {
    FreshRun(c) + [DoKickoff(Deploy, c, i, false)] + [DoClose(i, true)] + [DoUnlock(i)]
  }

  lemma JobIsReached(run: seq<Step>, s: System, k: Kind, c: ClusterId, j: JobId)
    requires LeadsTo(run, s, c) && s.up && j !in s.issued && Accepts(s, k, c, false) && Tracked(k)
    ensures LeadsTo(run + [DoKickoff(k, c, j, false)] + [DoClose(j, true)] + [DoUnlock(j)], JobDone(s, k, c, j), c)
  {
    var s1 := Started(s, k, c, j);
    Append(run, s, DoKickoff(k, c, j, false), c);
    Append(run + [DoKickoff(k, c, j, false)], s1, DoClose(j, true), c);
    Append(run + [DoKickoff(k, c, j, false)] + [DoClose(j, true)], CloseJob(s1, j, true), DoUnlock(j), c);
  }

  lemma DeployIsReached(c: ClusterId, i: JobId)
    ensures var s := JobDone(Fresh(c), Deploy, c, i);
            LeadsTo(DeployRun(c, i), s, c) && Idle(s, c, Ready, false) && s.issued == {i}
  {
    FreshIsReached(c);
    JobIsReached(FreshRun(c), Fresh(c), Deploy, c, i);
    OneJobLands(Fresh(c), Deploy, c, i, Initialized, false);
  }

  lemma CascadePends(s: System, c: ClusterId, j: JobId)
    requires Idle(s, c, Ready, false) && j !in s.issued
    ensures var t := DeleteRequest(s, c, true, j, false);
            t.up && DestroyPending(t, c, j, true) && !t.workers[j].cancelled && t.issued == s.issued + {j}
  {}

  /** Create, initialize, deploy, then DELETE with cascade=destroy: a legal run to a sound cluster with a cascading
      destroy pending, which is where StaleLatchForgets, LateCancelForgets and RecoveryCutForgets start. */
  lemma CascadeIsReached(c: ClusterId, i: JobId, j: JobId)
    requires i != j
    ensures var run := DeployRun(c, i) + [DoDelete(c, true, j, false)];
            && Legal(EMPTY, run)
            && var s := After(EMPTY, run);
               && Reachable(s) && SoundAt(s, c) && s.up && DestroyPending(s, c, j, true) && !s.workers[j].cancelled
               && s.issued == {i, j}
  {
    DeployIsReached(c, i);
    var s := JobDone(Fresh(c), Deploy, c, i);
    Append(DeployRun(c, i), s, DoDelete(c, true, j, false), c);
    CascadePends(s, c, j);
  }

  function CancelRun(c: ClusterId, j: JobId): seq<Step> {
    FreshRun(c) + [DoKickoff(Deploy, c, j, false)] + [DoCancel(j)]
  }

  /** Create, initialize, deploy, cancel: a legal run to a cancelled deploy still in its body, which is where
      LostWriteBreaksTable starts. */
  lemma CancelledDeployIsReached(c: ClusterId, j: JobId)
    ensures Legal(EMPTY, CancelRun(c, j))
    ensures var s := After(EMPTY, CancelRun(c, j));
            Reachable(s) && s.up && j in s.workers && s.workers[j] == Worker(Deploy, c, Body, true) && s.issued == {j}
  {
    FreshIsReached(c);
    var s0 := Fresh(c);
    Append(FreshRun(c), s0, DoKickoff(Deploy, c, j, false), c);
    Append(FreshRun(c) + [DoKickoff(Deploy, c, j, false)], Started(s0, Deploy, c, j), DoCancel(j), c);
  }

  // ---------- a cascading destroy's success block ends early ----------

  // Its row and status are written, its latch has not been read.
  lemma HalfDone(s: System, c: ClusterId, j: JobId, n: nat)
    requires Grounded(s) && s.up && DestroyPending(s, c, j, true) && !s.workers[j].cancelled && 2 <= n <= 3
    ensures |CloseWrites(s.db, j, s.workers[j], true)| == 5
    ensures var db := ApplyWrites(s.db, CloseWrites(s.db, j, s.workers[j], true), n);
            && c in db.clusters && db.clusters[c] == Cluster(Destroyed, true)
            && forall i :: RunningAt(db.deployments, i, c) ==> i != j && RunningAt(s.db.deployments, i, c)
  {
    assert GroundedAt(s, c) && Owns(s.db, j, s.workers[j]) && RowMatches(s.db, j, s.workers[j]);
    BlockEffect(s.db, j, s.workers[j], true, n);
  }

  function CutAndBoot(s: System, j: JobId): System
    requires InPhase(s, j, Body) && Enabled(s, DoCut(j, true, 2))
  {
    var t := CutJob(s, j, true, 2);
    t.(db := Recovered(t.db), up := true)
  }

  // Recovery does not see the row, so it leaves a Destroyed cluster with the latch still set.
  lemma StaleLatchSurvives(s: System, c: ClusterId, j: JobId)
    requires Grounded(s) && SoundAt(s, c) && s.up && DestroyPending(s, c, j, true) && !s.workers[j].cancelled
    ensures Enabled(s, DoCut(j, true, 2))
    ensures Idle(CutAndBoot(s, j), c, Destroyed, true) && CutAndBoot(s, j).issued == s.issued
  {
    HalfDone(s, c, j, 2);
    OnlyRunning(s, j, c);
    OrphanedIff(CutJob(s, j, true, 2).db, c);
  }

  function LoseAndUnlock(s: System, j: JobId): System
    requires Enabled(s, DoLose(j, 3))
  {
    UnlockJob(LoseJob(s, j, 3), j)
  }

  // Without any crash, the worker unlocks a Destroyed cluster with the latch still set.
  lemma StaleLatchUnlocked(s: System, c: ClusterId, j: JobId)
    requires Grounded(s) && s.up && DestroyPending(s, c, j, true) && !s.workers[j].cancelled
    ensures Enabled(s, DoLose(j, 3))
    ensures Idle(LoseAndUnlock(s, j), c, Destroyed, true) && LoseAndUnlock(s, j).issued == s.issued
  {
    HalfDone(s, c, j, 3);
  }

  lemma StaleLatchStrikes(s: System, c: ClusterId, i: JobId, k: JobId)
    requires Idle(s, c, Destroyed, true) && i !in s.issued && k !in s.issued && i != k
    ensures Legal(s, OneJob(Deploy, c, i) + OneJob(Destroy, c, k))
    ensures c !in After(s, OneJob(Deploy, c, i) + OneJob(Destroy, c, k)).db.clusters
  {
    OneJobRuns(s, Deploy, c, i, Destroyed, true);
    OneJobLands(s, Deploy, c, i, Destroyed, true);
    var t := JobDone(s, Deploy, c, i);
    LatchStrikes(t, c, Ready, k);
    Compose(s, OneJob(Deploy, c, i), OneJob(Destroy, c, k));
  }

  /**
    A crash two writes into a cascading destroy's success block, a reboot, a redeploy, and then a plain
    destroy: the plain destroy forgets the cluster nobody asked to forget.
   */
  lemma StaleLatchForgets(s: System, c: ClusterId, j: JobId, i: JobId, k: JobId)
    requires Reachable(s) && SoundAt(s, c) && s.up && DestroyPending(s, c, j, true) && !s.workers[j].cancelled
    requires i !in s.issued && k !in s.issued && i != k
    ensures var run := [DoCut(j, true, 2)] + ([DoBoot] + (OneJob(Deploy, c, i) + OneJob(Destroy, c, k)));
            Legal(s, run) && c !in After(s, run).db.clusters
  {
    var rest := OneJob(Deploy, c, i) + OneJob(Destroy, c, k);
    ReachableGrounded(s);
    StaleLatchSurvives(s, c, j);
    StaleLatchStrikes(CutAndBoot(s, j), c, i, k);
    Prepend(CutJob(s, j, true, 2), DoBoot, rest);
    Prepend(s, DoCut(j, true, 2), [DoBoot] + rest);
  }

  /**
    The same damage without a crash: a cancel lands inside the success block, after the audit row and before the
    latch is read.
   */
  lemma LateCancelForgets(s: System, c: ClusterId, j: JobId, i: JobId, k: JobId)
    requires Reachable(s) && s.up && DestroyPending(s, c, j, true) && !s.workers[j].cancelled
    requires i !in s.issued && k !in s.issued && i != k
    ensures var run := [DoLose(j, 3)] + ([DoUnlock(j)] + (OneJob(Deploy, c, i) + OneJob(Destroy, c, k)));
            Legal(s, run) && c !in After(s, run).db.clusters
  {
    var rest := OneJob(Deploy, c, i) + OneJob(Destroy, c, k);
    ReachableGrounded(s);
    StaleLatchUnlocked(s, c, j);
    StaleLatchStrikes(LoseAndUnlock(s, j), c, i, k);
    Prepend(LoseJob(s, j, 3), DoUnlock(j), rest);
    Prepend(s, DoLose(j, 3), [DoUnlock(j)] + rest);
  }

  // ---------- recovery is cut between the writes for one orphan ----------

  function CrashAndCut(s: System, j: JobId, n: nat): System
    requires Enabled(Dead(s.db, s.issued), DoCutBoot({}, j, n))
  {
    Next(Dead(s.db, s.issued), DoCutBoot({}, j, n))
  }

  // The row is failed and the latch still set; the next boot does not see the cluster.
  lemma CutLatchSurvives(s: System, c: ClusterId, j: JobId, n: nat)
    requires Grounded(s) && SoundAt(s, c) && s.up && DestroyPending(s, c, j, true) && 1 <= n <= 2
    ensures Enabled(Dead(s.db, s.issued), DoCutBoot({}, j, n))
    ensures var t := CrashAndCut(s, j, n);
            Idle(t.(db := Recovered(t.db), up := true), c, if n == 1 then Destroying else Error, true)
            && t.issued == s.issued
  {
    var t := Dead(s.db, s.issued);
    assert GroundedAt(s, c) && RecoveredSome(s.db, {}) == s.db by { RecoverNone(s.db); }
    RecoverEffect(s.db, j, n);
    var u := CrashAndCut(s, j, n);
    OnlyRunning(s, j, c);
    forall i ensures !RunningAt(u.db.deployments, i, c) {
      assert RunningAt(s.db.deployments, i, c) ==> i == j;
    }
    OrphanedIff(u.db, c);
  }

  /**
    A crash under a cascading destroy, recovery cut by another crash after one or two of its three writes, a reboot,
    and then a plain destroy: it forgets the cluster, which is what clearing the latch in recovery is there to rule
    out.
   */
  lemma RecoveryCutForgets(s: System, c: ClusterId, j: JobId, n: nat, k: JobId)
    requires Reachable(s) && SoundAt(s, c) && s.up && DestroyPending(s, c, j, true) && 1 <= n <= 2 && k !in s.issued
    ensures var run := [DoCrash] + ([DoCutBoot({}, j, n)] + ([DoBoot] + OneJob(Destroy, c, k)));
            Legal(s, run) && c !in After(s, run).db.clusters
  {
    ReachableGrounded(s);
    CutLatchSurvives(s, c, j, n);
    var down, cut, st := Dead(s.db, s.issued), CrashAndCut(s, j, n), if n == 1 then Destroying else Error;
    var t := cut.(db := Recovered(cut.db), up := true);
    LatchStrikes(t, c, st, k);
    Prepend(cut, DoBoot, OneJob(Destroy, c, k));
    Prepend(down, DoCutBoot({}, j, n), [DoBoot] + OneJob(Destroy, c, k));
    Prepend(s, DoCrash, [DoCutBoot({}, j, n)] + ([DoBoot] + OneJob(Destroy, c, k)));
  }

  // ---------- a DELETE loses its client after setting the latch ----------

  /**
    A DELETE with cascade=destroy whose client goes away after the latch is set: the kickoff fails and so does the
    roll-back, and the next plain destroy forgets the cluster.
   */
  lemma AbandonedCascadeForgets(s: System, c: ClusterId, j: JobId, k: JobId)
    requires Idle(s, c, Ready, false) && j !in s.issued && k !in s.issued && j != k
    ensures var run := [DoLoseRequest(DoDelete(c, true, j, false), 1)] + OneJob(Destroy, c, k);
            Legal(s, run) && c !in After(s, run).db.clusters
  {
    var q := DoDelete(c, true, j, false);
    assert RequestWrites(s, q) == CascadeWrites(c, j);
    CascadeIs(s.db, c, j, 1);
    var t := LoseRequest(s, q, 1);
    LatchStrikes(t, c, Ready, k);
    Prepend(s, DoLoseRequest(q, 1), OneJob(Destroy, c, k));
  }

  // ---------- cancel after the last body command ----------

  // A cancelled success block writes nothing: the row stays running, the status stays transient, the lock goes.
  lemma LostBlock(s: System, c: ClusterId, j: JobId)
    requires Grounded(s) && s.up && InPhase(s, j, Body) && s.workers[j] == Worker(Deploy, c, Body, true)
    ensures c in s.db.clusters
    ensures var t := UnlockJob(CloseJob(s, j, true), j);
            && t.db == s.db && t.issued == s.issued && Idle(t, c, Deploying, s.db.clusters[c].pendingForget)
            && IsRunning(t.db.deployments, j) && t.db.deployments[j].cluster == c
            && c in t.db.trail && |t.db.trail[c]| > 0
  {
    assert GroundedAt(s, c) && BodyOn(s, j, c) && Owns(s.db, j, s.workers[j]);
  }

  // A deploy can be started again on top of its own running row, and lands in Ready.
  lemma RestartOverRunning(s: System, c: ClusterId, i: JobId, latch: bool)
    requires Idle(s, c, Deploying, latch) && i !in s.issued && c in s.db.trail
    ensures Legal(s, OneJob(Deploy, c, i)) && After(s, OneJob(Deploy, c, i)) == JobDone(s, Deploy, c, i)
    ensures var t := JobDone(s, Deploy, c, i);
            && Idle(t, c, Ready, latch)
            && c in t.db.trail && t.db.trail[c] == s.db.trail[c] + [Ready]
            && (forall j :: j != i && IsRunning(s.db.deployments, j) ==>
                  IsRunning(t.db.deployments, j) && t.db.deployments[j].cluster == s.db.deployments[j].cluster)
  {
    var s1 := Started(s, Deploy, c, i);
    BlockIs(s1.db, i, s1.workers[i], true, |CloseWrites(s1.db, i, s1.workers[i], true)|);
    OneJobRuns(s, Deploy, c, i, Deploying, latch);
  }

  const REBOOT: seq<Step> := [DoCrash] + ([DoBoot] + [])

  // A stray running row makes recovery take a ready cluster to Error.
  lemma RebootBreaksTable(s: System, c: ClusterId, j: JobId, latch: bool)
    requires Idle(s, c, Ready, latch) && IsRunning(s.db.deployments, j) && s.db.deployments[j].cluster == c
    requires c in s.db.trail && |s.db.trail[c]| > 0 && s.db.trail[c][|s.db.trail[c]| - 1] == Ready
    ensures Legal(s, REBOOT) && c in After(s, REBOOT).db.trail && !FollowsTable(After(s, REBOOT).db.trail[c])
  {
    var t := Dead(s.db, s.issued);
    var u := t.(db := Recovered(t.db), up := true);
    assert s.db.deployments[j].cluster in Orphaned(t.db);
    assert u.db.trail[c] == s.db.trail[c] + [Error];
    assert u.db.trail[c][|s.db.trail[c]| - 1] == Ready && u.db.trail[c][|s.db.trail[c]|] == Error;
    Prepend(t, DoBoot, []);
    Prepend(s, DoCrash, [DoBoot] + []);
  }

  lemma LostRestart(s: System, c: ClusterId, j: JobId, i: JobId, latch: bool)
    requires Idle(s, c, Deploying, latch) && IsRunning(s.db.deployments, j) && s.db.deployments[j].cluster == c
    requires j in s.issued && i !in s.issued && c in s.db.trail
    ensures var run := OneJob(Deploy, c, i) + REBOOT;
            Legal(s, run) && c in After(s, run).db.trail && !FollowsTable(After(s, run).db.trail[c])
  {
    RestartOverRunning(s, c, i, latch);
    RebootBreaksTable(JobDone(s, Deploy, c, i), c, j, latch);
    Compose(s, OneJob(Deploy, c, i), REBOOT);
  }

  /**
    A deploy cancelled after its last command, deployed again to success, then a reboot: recovery takes the
    ready cluster to Error, an edge the table does not have.
   */
  lemma LostWriteBreaksTable(s: System, c: ClusterId, j: JobId, i: JobId)
    requires Reachable(s) && s.up && j in s.workers && s.workers[j] == Worker(Deploy, c, Body, true) && i !in s.issued
    ensures var run := [DoClose(j, true)] + ([DoUnlock(j)] + (OneJob(Deploy, c, i) + REBOOT));
            && Legal(s, run) && c in After(s, run).db.trail && !FollowsTable(After(s, run).db.trail[c])
  {
    ReachableGrounded(s);
    LostBlock(s, c, j);
    LostRestart(UnlockJob(CloseJob(s, j, true), j), c, j, i, s.db.clusters[c].pendingForget);
    Prepend(CloseJob(s, j, true), DoUnlock(j), OneJob(Deploy, c, i) + REBOOT);
    Prepend(s, DoClose(j, true), [DoUnlock(j)] + (OneJob(Deploy, c, i) + REBOOT));
  }
}
