/** The status table over whole runs, and what boot recovery does to rows, statuses and latches. */
module LifecycleTrails {
  import opened Common
  import opened StateMachine
  import opened Lifecycle
  import opened LifecycleBlocks
  import opened LifecycleExactness
  import opened LifecycleGround
  import opened LifecycleRequests
  import opened LifecycleSafety

  // Every change of c's status so far was an edge of the table.
  ghost predicate FollowsAt(db: Store, c: ClusterId) { c in db.trail ==> FollowsTable(db.trail[c]) }

  ghost predicate Follows(s: System) { forall c: ClusterId :: FollowsAt(s.db, c) }

  ghost predicate AlwaysFollows(s: System, run: seq<Step>)
    requires Legal(s, run)
    decreases |run|
  {
    Follows(s) && (run == [] || AlwaysFollows(Next(s, run[0]), run[1..]))
  }

  // The clusters whose status a boot writes, as far as it gets.
  function Reached(db: Store, step: Step): set<ClusterId> {
    match step
    case DoBoot => Orphaned(db)
    case DoCutBoot(done, j, n) =>
      HitBy(db, done) + if n >= 2 && j in db.deployments then {db.deployments[j].cluster} else {}
    case _ => {}
  }

  // c rests in a status from which the table has no way to Error.
  predicate StrayAt(db: Store, c: ClusterId) {
    c in db.clusters && db.clusters[c].status != Error && !Edge(db.clusters[c].status, Error)
  }

  // A boot, whole or cut, writes the status of such a cluster because it has a running row.
  ghost predicate StrayBoot(s: System, step: Step) {
    exists c: ClusterId :: c in Reached(s.db, step) && StrayAt(s.db, c)
  }

  ghost predicate NoStrayBoot(s: System, run: seq<Step>)
    requires Legal(s, run)
    decreases |run|
  {
    run == [] || (!StrayBoot(s, run[0]) && NoStrayBoot(Next(s, run[0]), run[1..]))
  }

  // ---------- the table ----------

  lemma FollowsSnoc(trail: seq<Status>, st: Status)
    requires FollowsTable(trail) && trail != [] && Edge(trail[|trail| - 1], st)
    ensures FollowsTable(trail + [st])
  {}

  lemma ExtendedFollows(db: Store, c: ClusterId, st: Status)
    requires StoreAt(db, c) && FollowsAt(db, c) && c in db.clusters && CanTransition(db.clusters[c].status, st)
    ensures FollowsTable(Extended(db.trail, c, db.clusters[c].status, st)[c])
  {
    if db.clusters[c].status != st { FollowsSnoc(db.trail[c], st); }
  }

  lemma InitializeFollows(db: Store, c: ClusterId, r: InitResult, n: nat)
    requires StoreAt(db, c) && FollowsAt(db, c) && n <= |InitializeWrites(db, c, r)|
    ensures FollowsAt(ApplyWrites(db, InitializeWrites(db, c, r), n), c)
  {
    InitializePrefix(db, c, r, n);
    if InitAccepted(db, c, r) && n > 0 {
      InitializeEffect(db, c, InitResting(r), n);
      ExtendedFollows(db, c, Initializing);
      FollowsSnoc(Extended(db.trail, c, db.clusters[c].status, Initializing)[c], InitResting(r));
    }
  }

  // Any prefix of a front half's writes.
  lemma RequestFollows(s: System, q: Step, n: nat, c: ClusterId)
    requires GroundedAt(s, c) && IsRequest(q) && Enabled(s, q) && n <= |RequestWrites(s, q)| && Target(s, q) == Some(c)
    requires FollowsAt(s.db, c)
    ensures FollowsAt(ApplyWrites(s.db, RequestWrites(s, q), n), c)
  {
    match q
    case DoCreate(_) => CreateEffect(s, c, n);
    case DoInitialize(_, r) => InitializeFollows(s.db, c, r, n);
    case DoKickoff(k, _, j, fault) =>
      if Accepts(s, k, c, fault) {
        StartIs(s.db, k, c, j, n);
        StartEffect(s.db, k, c, j, n);
        if Tracked(k) { ExtendedFollows(s.db, c, Transient(k)); }
      }
    case DoDelete(_, cascade, j, fault) =>
      if Cascades(s.db, c, cascade) && Accepts(s, Destroy, c, fault) {
        assert RequestWrites(s, q) == CascadeWrites(c, j);
        CascadeIs(s.db, c, j, n);
        CascadeEffect(s.db, c, j, n);
        ExtendedFollows(s.db, c, Destroying);
      } else {
        DeleteEffect(s, c, cascade, j, fault, n);
      }
  }

  lemma BlockFollows(s: System, j: JobId, ok: bool, n: nat)
    requires Grounded(s) && InPhase(s, j, Body) && n <= |CloseWrites(s.db, j, s.workers[j], ok)|
    requires FollowsAt(s.db, s.workers[j].cluster)
    ensures FollowsAt(ApplyWrites(s.db, CloseWrites(s.db, j, s.workers[j], ok), n), s.workers[j].cluster)
  {
    var w := s.workers[j];
    assert GroundedAt(s, w.cluster) && BodyOn(s, j, w.cluster) && RowMatches(s.db, j, w);
    if !Tracked(w.kind) {
      HelmBlock(s.db, j, w, ok, n);
    } else if n == 1 {
      FirstWrite(s.db, j, w, ok);
    } else if n > 1 {
      BlockEffect(s.db, j, w, ok, n);
      FollowsSnoc(s.db.trail[w.cluster], StatusAfter(w, ok));
    }
  }

  lemma TargetFollows(s: System, step: Step, c: ClusterId)
    requires Grounded(s) && FollowsAt(s.db, c) && Enabled(s, step) && !IsBoot(step) && Target(s, step) == Some(c)
    ensures FollowsAt(Next(s, step).db, c)
  {
    assert GroundedAt(s, c);
    if IsFront(step) {
      FrontIsPrefix(s, step);
      RequestFollows(s, FrontOf(step), FrontWrites(s, step), c);
    } else {
      match step
      case DoClose(j, ok) => BlockFollows(s, j, ok, |CloseWrites(s.db, j, s.workers[j], ok)|);
      case DoCut(j, ok, n) => BlockFollows(s, j, ok, n);
      case DoLose(j, n) => BlockFollows(s, j, true, n);
    }
  }

  // A boot appends Error to the trail of each cluster it reaches that is not in Error yet.
  lemma BootTrail(s: System, step: Step, c: ClusterId)
    requires GroundedAt(s, c) && Enabled(s, step) && IsBoot(step)
    ensures var t := Next(s, step);
            && (c in t.db.trail <==> c in s.db.trail)
            && (c in t.db.trail ==>
                  t.db.trail[c] == s.db.trail[c] + if c in Reached(s.db, step) && c in s.db.clusters
                                                      && s.db.clusters[c].status != Error then [Error] else [])
  {
    if step.DoCutBoot? {
      var done, j, n := step.done, step.j, step.n;
      var mid := RecoveredSome(s.db, done);
      assert RecoverWrites(mid, j) == RecoverWrites(s.db, j);
      RecoveredStoreAt(s.db, done, c);
      if s.db.deployments[j].cluster == c {
        assert RowAt(s.db.deployments, j, c);
        RecoverEffect(mid, j, n);
      } else {
        WritesElsewhere(mid, RecoverWrites(mid, j), n, c);
      }
    }
  }

  lemma BootFollowsIff(s: System, step: Step, c: ClusterId)
    requires GroundedAt(s, c) && FollowsAt(s.db, c) && Enabled(s, step) && IsBoot(step)
    ensures FollowsAt(Next(s, step).db, c) <==> !(c in Reached(s.db, step) && StrayAt(s.db, c))
  {
    BootTrail(s, step, c);
    if c in Reached(s.db, step) && c in s.db.clusters && s.db.clusters[c].status != Error {
      var trail := s.db.trail[c];
      if StrayAt(s.db, c) {
        assert !Edge((trail + [Error])[|trail| - 1], (trail + [Error])[|trail|]);
      } else {
        FollowsSnoc(trail, Error);
      }
    }
  }

  lemma StepFollowsIff(s: System, step: Step)
    requires Grounded(s) && Follows(s) && Enabled(s, step)
    ensures Follows(Next(s, step)) <==> !StrayBoot(s, step)
  {
    var t := Next(s, step);
    forall c: ClusterId ensures FollowsAt(t.db, c) <==> !(c in Reached(s.db, step) && StrayAt(s.db, c)) {
      assert GroundedAt(s, c) && FollowsAt(s.db, c);
      if IsBoot(step) {
        BootFollowsIff(s, step, c);
      } else if Target(s, step) == Some(c) {
        TargetFollows(s, step, c);
      } else {
        StepElsewhere(s, step, c);
      }
    }
  }

  lemma {:induction false} StatusesFollowFrom(s: System, run: seq<Step>)
    requires Grounded(s) && Follows(s) && Legal(s, run)
    ensures AlwaysFollows(s, run) <==> NoStrayBoot(s, run)
    decreases |run|
  {
    if run != [] {
      StepGrounds(s, run[0]);
      StepFollowsIff(s, run[0]);
      if !StrayBoot(s, run[0]) {
        StatusesFollowFrom(Next(s, run[0]), run[1..]);
      }
    }
  }

  /** In any legal run, crashes, reboots and lost writes included, every status change of every cluster is an edge of
      the table if and only if no boot, whole or cut, reaches a cluster that rests in a status with no edge to error. */
  lemma StatusesFollowTable(run: seq<Step>)
    requires Legal(EMPTY, run)
    ensures AlwaysFollows(EMPTY, run) <==> NoStrayBoot(EMPTY, run)
  {
    EmptyGrounded();
    StatusesFollowFrom(EMPTY, run);
  }

  /** What the trail records is what happened: a cluster's status is always the last one on its trail. */
  lemma TrailIsStatus(s: System, c: ClusterId)
    requires Reachable(s) && c in s.db.clusters
    ensures c in s.db.trail && s.db.trail[c] != [] && s.db.trail[c][|s.db.trail[c]| - 1] == s.db.clusters[c].status
  {
    ReachableGrounded(s);
    assert GroundedAt(s, c);
  }

  // What a boot reaches in a sound state is transient.
  lemma SoundIsNotStray(s: System, step: Step, c: ClusterId)
    requires SoundAt(s, c) && Enabled(s, step) && c in Reached(s.db, step)
    ensures !StrayAt(s.db, c)
  {
    if step.DoBoot? {
      OrphanedIff(s.db, c);
      var j :| RunningAt(s.db.deployments, j, c);
      assert RunningSound(s, j, c);
    } else {
      var j :| (j in step.done || j == step.j) && j in s.db.deployments && s.db.deployments[j].cluster == c;
      assert RunningAt(s.db.deployments, j, c) && RunningSound(s, j, c);
    }
  }

  lemma {:induction false} SoundHasNoStrayBoot(s: System, run: seq<Step>)
    requires Grounded(s) && Sound(s) && Legal(s, run) && Clean(s, run)
    ensures NoStrayBoot(s, run)
    decreases |run|
  {
    if run != [] {
      forall c: ClusterId ensures SoundAt(Next(s, run[0]), c) {
        assert SoundAt(s, c);
        StepSoundIff(s, run[0], c);
      }
      forall c: ClusterId | c in Reached(s.db, run[0]) ensures !StrayAt(s.db, c) {
        assert SoundAt(s, c);
        SoundIsNotStray(s, run[0], c);
      }
      StepGrounds(s, run[0]);
      SoundHasNoStrayBoot(Next(s, run[0]), run[1..]);
    }
  }

  /** A run without hazards has no such boot, so all its status changes follow the table. */
  lemma CleanRunFollows(run: seq<Step>)
    requires Legal(EMPTY, run) && Clean(EMPTY, run)
    ensures AlwaysFollows(EMPTY, run)
  {
    forall c: ClusterId ensures SoundAt(EMPTY, c) { EmptyIsSound(c); }
    EmptyGrounded();
    SoundHasNoStrayBoot(EMPTY, run);
    StatusesFollowTable(run);
  }

  // ---------- boot recovery ----------

  /** Recovery run twice does what recovery run once does, on any store whatever. */
  lemma RecoveryIsIdempotent(db: Store)
    ensures Recovered(Recovered(db)) == Recovered(db)
    ensures forall j :: !IsRunning(Recovered(db).deployments, j)
  {
    assert Orphaned(Recovered(db)) == {};
  }

  // Recovery brings c to rest: out of a transient status to Error, otherwise nowhere, and never with a latch.
  predicate SettlesAt(db: Store, c: ClusterId)
    requires c in db.clusters
  {
    var t := Recovered(db);
    && c in t.clusters && !t.clusters[c].pendingForget
    && t.clusters[c] == if IsTransient(db.clusters[c].status) then Cluster(Error, false) else db.clusters[c]
  }

  // c is interrupted and recovery can see it, or c is at rest.
  ghost predicate RecoverableAt(db: Store, c: ClusterId)
    requires c in db.clusters
  {
    if HasRunning(db.deployments, c)
    then IsTransient(db.clusters[c].status) || db.clusters[c] == Cluster(Error, false)
    else !IsTransient(db.clusters[c].status) && !db.clusters[c].pendingForget
  }

  /** On any store, recovery takes a cluster from a transient status to error and leaves any other alone, with no latch
      set, if and only if the cluster was interrupted with its running row in place or was at rest. */
  lemma RecoverySettlesIff(db: Store, c: ClusterId)
    requires c in db.clusters
    ensures SettlesAt(db, c) <==> RecoverableAt(db, c)
  {
    OrphanedIff(db, c);
  }

  /** A sound cluster is recoverable; by ExactSafetyAt that is every cluster none of whose jobs took a hazard. */
  lemma SoundIsRecoverable(s: System, c: ClusterId)
    requires SoundAt(s, c) && c in s.db.clusters
    ensures RecoverableAt(s.db, c) && SettlesAt(s.db, c)
  {
    RecoverySettlesIff(s.db, c);
    if HasRunning(s.db.deployments, c) {
      var j :| RunningAt(s.db.deployments, j, c);
      assert RunningSound(s, j, c);
    }
    assert StatusSound(s.db, c);
  }

  // ---------- recovery interrupted ----------

  // The jobs a cut recovery has left for the next one.
  function Left(db: Store, done: set<JobId>, j: JobId, n: nat): set<JobId> {
    RunningJobs(db) - done - if n >= 1 then {j} else {}
  }

  lemma CutLeaves(db: Store, done: set<JobId>, j: JobId, n: nat)
    requires done <= RunningJobs(db) && j in RunningJobs(db) && j !in done && n <= 3
    requires db.deployments[j].cluster in db.clusters && db.deployments[j].cluster in db.trail
    ensures var t, c := CutRecovery(db, done, j, n), db.deployments[j].cluster;
            var mid := RecoveredSome(db, done);
            && RunningJobs(t) == Left(db, done, j, n)
            && HasParts(t, RowsAfter(db.deployments, RunningJobs(db) - Left(db, done, j, n)), db.installs,
                        mid.clusters[c := Cluster(if n >= 2 then Error else mid.clusters[c].status,
                                                  mid.clusters[c].pendingForget && n < 3)],
                        if n >= 2 then Extended(mid.trail, c, mid.clusters[c].status, Error) else mid.trail)
            && t.audit == db.audit
  {
    var mid := RecoveredSome(db, done);
    assert RecoverWrites(mid, j) == RecoverWrites(db, j);
    RecoverEffect(mid, j, n);
    ApplyThree(mid, RecoverWrites(mid, j));
    var t := CutRecovery(db, done, j, n);
    assert t.deployments == RowsAfter(db.deployments, RunningJobs(db) - Left(db, done, j, n));
  }

  // A later orphan on the same cluster will see it settled.
  ghost predicate StillReached(db: Store, done: set<JobId>, j: JobId, n: nat)
    requires j in db.deployments
  {
    exists i :: i in Left(db, done, j, n) && db.deployments[i].cluster == db.deployments[j].cluster
  }

  lemma LeftHits(db: Store, t: Store, left: set<JobId>, c: ClusterId)
    requires RunningJobs(t) == left && left <= RunningJobs(db)
    requires forall i :: i in left ==> t.deployments[i].cluster == db.deployments[i].cluster
    ensures c in Orphaned(t) <==> exists i :: i in left && db.deployments[i].cluster == c
  {
    if i :| i in left && db.deployments[i].cluster == c {
      assert i in RunningJobs(t) && t.deployments[i].cluster == c;
      assert t.deployments[i].cluster in Orphaned(t);
    }
    if c in Orphaned(t) {
      var i :| i in t.deployments && IsRunning(t.deployments, i) && t.deployments[i].cluster == c;
      assert i in RunningJobs(t);
    }
  }

  lemma OrphanedHits(db: Store, c: ClusterId)
    ensures c in Orphaned(db) <==> exists i :: i in RunningJobs(db) && db.deployments[i].cluster == c
  {
    LeftHits(db, db, RunningJobs(db), c);
  }

  lemma HitByHits(db: Store, done: set<JobId>, c: ClusterId)
    requires done <= RunningJobs(db)
    ensures c in HitBy(db, done) <==> exists i :: i in done && db.deployments[i].cluster == c
  {}

  // Every orphan is done, still left, or the one recovery was cut in.
  lemma WhoHits(db: Store, done: set<JobId>, j: JobId, n: nat, d: ClusterId)
    requires done <= RunningJobs(db) && j in RunningJobs(db) && j !in done && n <= 3
    requires db.deployments[j].cluster in db.clusters && db.deployments[j].cluster in db.trail
    ensures var t, c := CutRecovery(db, done, j, n), db.deployments[j].cluster;
            && (d in Orphaned(db) <==> d in HitBy(db, done) || d in Orphaned(t) || d == c)
            && (n == 0 ==> c in Orphaned(t))
            && (n > 0 ==> (c in Orphaned(t) <==> StillReached(db, done, j, n)))
  {
    var t := CutRecovery(db, done, j, n);
    CutLeaves(db, done, j, n);
    LeftHits(db, t, Left(db, done, j, n), d);
    LeftHits(db, t, Left(db, done, j, n), db.deployments[j].cluster);
    OrphanedHits(db, d);
    HitByHits(db, done, d);
    assert RunningJobs(db) == done + Left(db, done, j, n) + {j};
  }

  // The two stores have the same cluster and the same history under d.
  predicate AgreeAt(a: Store, b: Store, d: ClusterId) {
    && (d in a.clusters <==> d in b.clusters) && (d in a.clusters ==> a.clusters[d] == b.clusters[d])
    && (d in a.trail <==> d in b.trail) && (d in a.trail ==> a.trail[d] == b.trail[d])
  }

  // Nothing of the cut shows after the next recovery.
  ghost predicate Seamless(db: Store, done: set<JobId>, j: JobId, n: nat)
    requires j in db.deployments
  {
    !HalfRecovered(db, done, j, n) || StillReached(db, done, j, n)
  }

  // Recovery as seen from one cluster: hit tells whether one of its rows is running.
  lemma RecoveredAt(db: Store, d: ClusterId, hit: bool)
    requires d in Orphaned(db) <==> hit
    ensures var t := Recovered(db);
            && (d in t.clusters <==> d in db.clusters) && (d in t.trail <==> d in db.trail)
            && (d in db.clusters ==> t.clusters[d] == if hit then Cluster(Error, false) else db.clusters[d])
            && (d in db.trail ==>
                  t.trail[d] == if hit && d in db.clusters && db.clusters[d].status != Error then db.trail[d] + [Error]
                                else db.trail[d])
  {}

  lemma ResumeElsewhere(db: Store, done: set<JobId>, j: JobId, n: nat, d: ClusterId)
    requires done <= RunningJobs(db) && j in RunningJobs(db) && j !in done && n <= 3
    requires db.deployments[j].cluster in db.clusters && db.clusters.Keys <= db.trail.Keys
    requires d != db.deployments[j].cluster
    ensures AgreeAt(Recovered(CutRecovery(db, done, j, n)), Recovered(db), d)
  {
    var t := CutRecovery(db, done, j, n);
    CutLeaves(db, done, j, n);
    WhoHits(db, done, j, n, d);
    RecoveredAt(t, d, d in Orphaned(t));
    RecoveredAt(db, d, d in Orphaned(db));
  }

  lemma ResumeHere(db: Store, done: set<JobId>, j: JobId, n: nat)
    requires done <= RunningJobs(db) && j in RunningJobs(db) && j !in done && n <= 3
    requires db.deployments[j].cluster in db.clusters && db.clusters.Keys <= db.trail.Keys
    ensures AgreeAt(Recovered(CutRecovery(db, done, j, n)), Recovered(db), db.deployments[j].cluster)
            <==> Seamless(db, done, j, n)
  {
    var t, c := CutRecovery(db, done, j, n), db.deployments[j].cluster;
    CutLeaves(db, done, j, n);
    WhoHits(db, done, j, n, c);
    RecoveredAt(t, c, c in Orphaned(t));
    RecoveredAt(db, c, true);
  }

  lemma AgreeEverywhere(a: Store, b: Store)
    requires forall d: ClusterId :: AgreeAt(a, b, d)
    requires a.deployments == b.deployments && a.installs == b.installs && a.audit == b.audit
    ensures a == b
  {
    forall d: ClusterId
      ensures (d in a.clusters <==> d in b.clusters) && (d in a.clusters ==> a.clusters[d] == b.clusters[d])
      ensures (d in a.trail <==> d in b.trail) && (d in a.trail ==> a.trail[d] == b.trail[d])
    {
      assert AgreeAt(a, b, d);
    }
    assert a.clusters == b.clusters && a.trail == b.trail;
  }

  lemma RecoveredRowsAgree(db: Store, done: set<JobId>, j: JobId, n: nat)
    requires done <= RunningJobs(db) && j in RunningJobs(db) && j !in done && n <= 3
    requires db.deployments[j].cluster in db.clusters && db.deployments[j].cluster in db.trail
    ensures var t := Recovered(CutRecovery(db, done, j, n));
            t.deployments == Recovered(db).deployments && t.installs == db.installs && t.audit == db.audit
  {
    CutLeaves(db, done, j, n);
  }

  /** On any store whose rows belong to its clusters: recovery that is cut short and then run again ends as if it had
      run once, if and only if it was not cut between the writes for one orphan whose cluster no later orphan
      reaches. */
  lemma RecoveryResumesIff(db: Store, done: set<JobId>, j: JobId, n: nat)
    requires done <= RunningJobs(db) && j in RunningJobs(db) && j !in done && n <= 3
    requires db.deployments[j].cluster in db.clusters && db.clusters.Keys <= db.trail.Keys
    ensures Recovered(CutRecovery(db, done, j, n)) == Recovered(db) <==> Seamless(db, done, j, n)
  {
    var t := Recovered(CutRecovery(db, done, j, n));
    if Seamless(db, done, j, n) {
      forall d: ClusterId ensures AgreeAt(t, Recovered(db), d) {
        if d != db.deployments[j].cluster { ResumeElsewhere(db, done, j, n, d); } else { ResumeHere(db, done, j, n); }
      }
      RecoveredRowsAgree(db, done, j, n);
      AgreeEverywhere(t, Recovered(db));
    } else {
      ResumeHere(db, done, j, n);
    }
  }
}
