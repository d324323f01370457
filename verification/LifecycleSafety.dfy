/**
  Safety of one step of the lifecycle protocol, cluster by cluster, and exactly when it holds.

  SoundAt is what an operator relies on for one cluster. A step keeps it if and only if it is no hazard of a job on
  that cluster: a success block that loses its row or status write to a cancelled context, or a terminal block, a front
  half or boot recovery that is stopped between writes where what it leaves is out of the next recovery's sight.
 */
module LifecycleSafety {
  import opened Common
  import opened StateMachine
  import opened Lifecycle
  import opened LifecycleLocks
  import opened LifecycleBlocks
  import opened LifecycleGround
  import opened LifecycleRequests

  // ---------- the property ----------

  predicate RunningAt(rows: Rows, j: JobId, c: ClusterId) { RowAt(rows, j, c) && rows[j].status == Running }

  ghost predicate HasRunning(rows: Rows, c: ClusterId) { exists j :: RunningAt(rows, j, c) }

  // A running row names the operation that holds c's status, and while the process is up its worker is at work.
  ghost predicate RunningSound(s: System, j: JobId, c: ClusterId) {
    RunningAt(s.db.deployments, j, c) ==>
      && Tracked(s.db.deployments[j].kind)
      && c in s.db.clusters && s.db.clusters[c].status == Transient(s.db.deployments[j].kind)
      && (s.up ==> BodyOn(s, j, c) && s.workers[j].kind == s.db.deployments[j].kind)
  }

  // A transient status has a running row behind it, and the cascade latch is only set under a destroy.
  ghost predicate StatusSound(db: Store, c: ClusterId) {
    c in db.clusters ==>
      && (IsTransient(db.clusters[c].status) ==> HasRunning(db.deployments, c))
      && (db.clusters[c].pendingForget ==> db.clusters[c].status == Destroying)
  }

  ghost predicate SoundAt(s: System, c: ClusterId) {
    && (forall j :: RunningSound(s, j, c))
    && (forall i, j :: RunningAt(s.db.deployments, i, c) && RunningAt(s.db.deployments, j, c) ==> i == j)
    && StatusSound(s.db, c)
  }

  // ---------- the exact condition ----------

  // The number of writes of a destroy's terminal block by which a set latch has been consumed.
  function LatchWrites(ok: bool): nat { if ok then 4 else 3 }

  // n writes into j's block its row has left Running, but its status, or the latch of a cascade, has not settled.
  predicate HalfSettled(s: System, j: JobId, ok: bool, n: nat) {
    && j in s.workers
    && (n == 1 || (&& 1 < n < LatchWrites(ok) && s.workers[j].kind.Destroy?
                   && Latched(s.db.clusters, s.workers[j].cluster)))
  }

  predicate Lost(s: System, j: JobId, ok: bool) {
    j in s.workers && Tracked(s.workers[j].kind) && ok && s.workers[j].cancelled
  }

  // n writes into a front half there is a row whose status is not written yet, or a latch whose destroy has not
  // begun.
  predicate HalfStarted(s: System, q: Step, n: nat) {
    match q
    case DoKickoff(k, c, _, fault) => Accepts(s, k, c, fault) && Tracked(k) && n == 1
    case DoDelete(c, cascade, _, fault) =>
      Cascades(s.db, c, cascade) && (n == 1 || (n == 2 && Accepts(s, Destroy, c, fault)))
    case _ => false
  }

  // n writes into orphan j, those in done behind it, its row is failed but its cluster not settled.
  predicate HalfRecovered(db: Store, done: set<JobId>, j: JobId, n: nat) {
    j in db.deployments
    && var c, cs := db.deployments[j].cluster, RecoveredSome(db, done).clusters;
       c in cs && ((n == 1 && cs[c] != Cluster(Error, false)) || (n == 2 && cs[c].pendingForget))
  }

  // Every disjunct is a test on the state the step is taken in.
  predicate Hazard(s: System, step: Step) {
    match step
    case DoClose(j, ok) => Lost(s, j, ok)
    case DoCut(j, ok, n) => j in s.workers && Tracked(s.workers[j].kind) && !Lost(s, j, ok) && HalfSettled(s, j, ok, n)
    case DoLose(j, n) => n == 0 || HalfSettled(s, j, true, n)
    case DoCutRequest(q, n) => HalfStarted(s, q, n)
    case DoLoseRequest(q, n) => HalfStarted(s, q, n)
    case DoCutBoot(done, j, n) => HalfRecovered(s.db, done, j, n)
    case _ => false
  }

  predicate HazardAt(s: System, step: Step, c: ClusterId) { Hazard(s, step) && Target(s, step) == Some(c) }

  // ---------- preservation at the target ----------

  // A cluster without running rows that is at rest, latch clear, is sound.
  lemma RestIsSound(s: System, c: ClusterId)
    requires !HasRunning(s.db.deployments, c)
    requires c in s.db.clusters ==> !IsTransient(s.db.clusters[c].status) && !s.db.clusters[c].pendingForget
    ensures SoundAt(s, c)
  {
    forall j ensures RunningSound(s, j, c) {}
  }

  // While the process is up, a free lock means no operation is under way.
  lemma FreeIsRest(s: System, c: ClusterId)
    requires LockInv(s) && SoundAt(s, c) && s.up && c !in s.locks
    ensures !HasRunning(s.db.deployments, c)
    ensures c in s.db.clusters ==> !IsTransient(s.db.clusters[c].status) && !s.db.clusters[c].pendingForget
  {
    NoBody(s, c);
    forall j ensures !RunningAt(s.db.deployments, j, c) { assert RunningSound(s, j, c); }
  }

  lemma RestHasNoRunning(s: System, c: ClusterId)
    requires SoundAt(s, c) && (c in s.db.clusters ==> !IsTransient(s.db.clusters[c].status))
    ensures !HasRunning(s.db.deployments, c)
    ensures !Latched(s.db.clusters, c)
  {
    forall j ensures !RunningAt(s.db.deployments, j, c) { assert RunningSound(s, j, c); }
  }

  // Rows, status and bodies of c as before.
  lemma SameIsSound(s: System, t: System, c: ClusterId)
    requires SoundAt(s, c) && SameRowsAt(s.db.deployments, t.db.deployments, c)
    requires c in s.db.clusters <==> c in t.db.clusters
    requires c in s.db.clusters ==>
               && t.db.clusters[c].status == s.db.clusters[c].status
               && (t.db.clusters[c].pendingForget ==> s.db.clusters[c].pendingForget)
    requires t.up ==> s.up && forall j :: BodyOn(s, j, c) ==> BodyOn(t, j, c) && t.workers[j].kind == s.workers[j].kind
    ensures SoundAt(t, c)
  {
    forall j ensures RunningAt(t.db.deployments, j, c) <==> RunningAt(s.db.deployments, j, c) {
      assert RowAt(s.db.deployments, j, c) <==> RowAt(t.db.deployments, j, c);
    }
    forall j ensures RunningSound(t, j, c) { assert RunningSound(s, j, c); }
    if HasRunning(s.db.deployments, c) {
      var j :| RunningAt(s.db.deployments, j, c);
      assert RunningAt(t.db.deployments, j, c);
    }
  }

  // ---------- front halves ----------

  // What a front half leaves of the process: nothing, the same workers, or one more on c.
  predicate FrontProcess(s: System, t: System, q: Step, n: nat, c: ClusterId)
    requires IsRequest(q)
  {
    || !t.up
    || t.workers == s.workers
    || (Launch(s, q).Some? && n >= LaunchWrites(q)
        && var (j, k, d) := Launch(s, q).value; d == c && t.workers == s.workers[j := Worker(k, c, Body, false)])
  }

  // A tracked kickoff on a cluster at rest, n writes in; latched tells whether a cascade set the latch before.
  lemma StartSoundIff(s: System, t: System, k: Kind, c: ClusterId, j: JobId, n: nat, latched: bool)
    requires c in s.db.clusters && !HasRunning(s.db.deployments, c) && Tracked(k) && (latched ==> k.Destroy?)
    requires !IsTransient(s.db.clusters[c].status)
    requires t.db.deployments == (if n >= 1 then s.db.deployments[j := Row(c, k, Running)] else s.db.deployments)
    requires c in t.db.clusters
    requires t.db.clusters[c] == Cluster(if n >= 2 then Transient(k) else s.db.clusters[c].status, latched)
    requires n >= 2 && t.up ==> BodyOn(t, j, c) && t.workers[j].kind == k
    ensures SoundAt(t, c) <==> n >= 2 || (n == 0 && !latched)
  {
    forall i ensures RunningAt(t.db.deployments, i, c) ==> i == j && n >= 1 {
      assert !RunningAt(s.db.deployments, i, c);
    }
    if n == 0 {
      assert !latched ==> SoundAt(t, c) by { if !latched { RestIsSound(t, c); } }
      assert latched ==> !StatusSound(t.db, c);
    } else {
      assert RunningAt(t.db.deployments, j, c);
      if n == 1 {
        assert !RunningSound(t, j, c);
      } else {
        forall i ensures RunningSound(t, i, c) {}
      }
    }
  }

  lemma KickoffSoundIff(s: System, t: System, q: Step, n: nat)
    requires q.DoKickoff? && Enabled(s, q) && LockInv(s) && StoreAt(s.db, q.c) && SoundAt(s, q.c) && s.up
    requires Accepts(s, q.kind, q.c, q.fault) && n <= |RequestWrites(s, q)|
    requires t.db == ApplyWrites(s.db, RequestWrites(s, q), n) && FrontProcess(s, t, q, n, q.c)
    requires n >= LaunchWrites(q) ==> !t.up || t.workers == LoseRequest(s, q, n).workers
    ensures SoundAt(t, q.c) <==> !HalfStarted(s, q, n)
  {
    var k, c, j := q.kind, q.c, q.j;
    FreeIsRest(s, c);
    StartIs(s.db, k, c, j, n);
    StartEffect(s.db, k, c, j, n);
    if Tracked(k) {
      StartSoundIff(s, t, k, c, j, n, false);
    } else {
      RestIsSound(t, c);
    }
  }

  lemma CascadeSoundIff(s: System, t: System, q: Step, n: nat)
    requires q.DoDelete? && Enabled(s, q) && LockInv(s) && StoreAt(s.db, q.c) && SoundAt(s, q.c) && s.up
    requires Cascades(s.db, q.c, q.cascade) && Accepts(s, Destroy, q.c, q.fault) && n <= |RequestWrites(s, q)|
    requires t.db == ApplyWrites(s.db, RequestWrites(s, q), n)
    requires n >= LaunchWrites(q) ==> !t.up || t.workers == LoseRequest(s, q, n).workers
    ensures SoundAt(t, q.c) <==> !HalfStarted(s, q, n)
  {
    var c, j := q.c, q.j;
    FreeIsRest(s, c);
    assert RequestWrites(s, q) == CascadeWrites(c, j);
    CascadeIs(s.db, c, j, n);
    CascadeEffect(s.db, c, j, n);
    StartSoundIff(s, t, Destroy, c, j, if n == 0 then 0 else n - 1, n > 0);
  }

  // A delete that starts nothing.
  lemma DeleteSoundIff(s: System, t: System, q: Step, n: nat)
    requires q.DoDelete? && Enabled(s, q) && LockInv(s) && StoreAt(s.db, q.c) && SoundAt(s, q.c) && s.up
    requires !(Cascades(s.db, q.c, q.cascade) && Accepts(s, Destroy, q.c, q.fault)) && n <= |RequestWrites(s, q)|
    requires t.db == ApplyWrites(s.db, RequestWrites(s, q), n) && (t.up ==> t.workers == s.workers)
    ensures SoundAt(t, q.c) <==> !HalfStarted(s, q, n)
  {
    var c := q.c;
    DeleteEffect(s, c, q.cascade, q.j, q.fault, n);
    if n > 0 && Cascades(s.db, c, q.cascade) {
      if n == 1 {
        assert !StatusSound(t.db, c);
      } else {
        SameIsSound(s, t, c);
      }
    } else if n > 0 && c in s.db.clusters && s.db.clusters[c].status in DIRECT_DELETABLE {
      RestIsSound(t, c);
    } else {
      SameIsSound(s, t, c);
    }
  }

  lemma InitializeSound(s: System, t: System, c: ClusterId, r: InitResult, n: nat)
    requires StoreAt(s.db, c) && SoundAt(s, c) && n <= |InitializeWrites(s.db, c, r)|
    requires t.db == ApplyWrites(s.db, InitializeWrites(s.db, c, r), n) && (t.up ==> s.up && t.workers == s.workers)
    ensures SoundAt(t, c)
  {
    InitializePrefix(s.db, c, r, n);
    if InitAccepted(s.db, c, r) && n > 0 {
      InitializeEffect(s.db, c, InitResting(r), n);
      RestHasNoRunning(s, c);
      RestIsSound(t, c);
    } else {
      SameIsSound(s, t, c);
    }
  }

  lemma CreateSound(s: System, t: System, c: ClusterId, n: nat)
    requires StoreAt(s.db, c) && SoundAt(s, c) && c !in s.db.trail && n <= 2
    requires t.db == ApplyWrites(s.db, RequestWrites(s, DoCreate(c)), n)
    ensures SoundAt(t, c)
  {
    CreateEffect(s, c, n);
    forall j ensures !RunningAt(t.db.deployments, j, c) { assert !RowAt(s.db.deployments, j, c); }
    RestIsSound(t, c);
  }

  // Whole, cut or abandoned: a front half keeps its cluster sound exactly when it is not stopped half started.
  lemma FrontSoundIff(s: System, step: Step, c: ClusterId)
    requires Grounded(s) && SoundAt(s, c) && IsFront(step) && Enabled(s, step) && Target(s, step) == Some(c)
    ensures SoundAt(Next(s, step), c) <==> !HalfStarted(s, FrontOf(step), FrontWrites(s, step))
  {
    assert GroundedAt(s, c);
    var t, q, n := Next(s, step), FrontOf(step), FrontWrites(s, step);
    FrontIsPrefix(s, step);
    match q
    case DoCreate(_) => CreateSound(s, t, c, n);
    case DoInitialize(_, r) => InitializeSound(s, t, c, r, n);
    case DoKickoff(k, _, j, fault) =>
      if Accepts(s, k, c, fault) { KickoffSoundIff(s, t, q, n); } else { SameIsSound(s, t, c); }
    case DoDelete(_, cascade, j, fault) =>
      if Cascades(s.db, c, cascade) && Accepts(s, Destroy, c, fault) {
        CascadeSoundIff(s, t, q, n);
      } else {
        DeleteSoundIff(s, t, q, n);
      }
  }

  // A whole front half is never half started.
  lemma WholeIsNotHalf(s: System, q: Step)
    requires IsRequest(q)
    ensures !HalfStarted(s, q, |RequestWrites(s, q)|)
  {}

  // ---------- terminal blocks ----------

  // A running row at c is the one of the only body there.
  lemma OnlyRunning(s: System, j: JobId, c: ClusterId)
    requires LockInv(s) && SoundAt(s, c) && s.up && BodyOn(s, j, c)
    ensures forall i :: RunningAt(s.db.deployments, i, c) ==> i == j && Tracked(s.workers[j].kind)
  {
    Holder(s, j, c);
    forall i | RunningAt(s.db.deployments, i, c) ensures i == j && Tracked(s.workers[j].kind) {
      assert RunningSound(s, i, c);
    }
  }

  // t is a state reached by n writes of j's block, after which j has no body left.
  predicate BlockStep(s: System, t: System, j: JobId, ok: bool, n: nat) {
    && j in s.workers && n <= |CloseWrites(s.db, j, s.workers[j], ok)|
    && t.db == ApplyWrites(s.db, CloseWrites(s.db, j, s.workers[j], ok), n)
    && !InPhase(t, j, Body)
  }

  lemma HelmBlockSound(s: System, t: System, j: JobId, c: ClusterId, ok: bool, n: nat)
    requires Grounded(s) && SoundAt(s, c) && s.up && BodyOn(s, j, c) && !Tracked(s.workers[j].kind)
    requires BlockStep(s, t, j, ok, n)
    ensures SoundAt(t, c)
  {
    assert RowMatches(s.db, j, s.workers[j]);
    HelmBlock(s.db, j, s.workers[j], ok, n);
    OnlyRunning(s, j, c);
    forall i ensures !RunningAt(t.db.deployments, i, c) { assert !RunningAt(s.db.deployments, i, c); }
    assert StatusSound(s.db, c);
    RestIsSound(t, c);
  }

  // Past its first write the block leaves no running row; whether it leaves c at rest depends on n.
  lemma BlockSoundIff(s: System, t: System, j: JobId, c: ClusterId, ok: bool, n: nat)
    requires Grounded(s) && SoundAt(s, c) && s.up && BodyOn(s, j, c) && Tracked(s.workers[j].kind)
    requires BlockStep(s, t, j, ok, n) && !Lost(s, j, ok) && n > 0
    ensures SoundAt(t, c) <==> !HalfSettled(s, j, ok, n)
  {
    var w := s.workers[j];
    assert GroundedAt(s, c) && Owns(s.db, j, w) && RowMatches(s.db, j, w);
    OnlyRunning(s, j, c);
    if n == 1 {
      FirstWrite(s.db, j, w, ok);
    } else {
      BlockEffect(s.db, j, w, ok, n);
    }
    forall i ensures !RunningAt(t.db.deployments, i, c) {
      assert i != j ==> !RunningAt(s.db.deployments, i, c);
    }
    if !HalfSettled(s, j, ok, n) {
      assert StatusSound(s.db, c);
      RestIsSound(t, c);
    } else {
      assert !StatusSound(t.db, c);
    }
  }

  // A worker that left its body without a write leaves its running row behind.
  lemma NoWriteBreaks(s: System, t: System, j: JobId, c: ClusterId)
    requires GroundedAt(s, c) && BodyOn(s, j, c) && Tracked(s.workers[j].kind)
    requires t.db == s.db && t.up && !InPhase(t, j, Body)
    ensures !SoundAt(t, c)
  {
    assert Owns(s.db, j, s.workers[j]);
    assert RunningAt(t.db.deployments, j, c) && !RunningSound(t, j, c);
  }

  lemma CloseSoundIff(s: System, step: Step, c: ClusterId)
    requires Grounded(s) && SoundAt(s, c) && Enabled(s, step) && Target(s, step) == Some(c)
    requires step.DoClose? || step.DoCut? || step.DoLose?
    ensures SoundAt(Next(s, step), c) <==> !Hazard(s, step)
  {
    assert GroundedAt(s, c);
    var t := Next(s, step);
    var j := step.j;
    var ok := if step.DoLose? then true else step.ok;
    var n := if step.DoClose? then |CloseWrites(s.db, j, s.workers[j], ok)| else step.n;
    if !Tracked(s.workers[j].kind) {
      HelmBlockSound(s, t, j, c, ok, n);
    } else if n == 0 {
      if step.DoCut? { SameIsSound(s, t, c); } else { NoWriteBreaks(s, t, j, c); }
    } else {
      BlockSoundIff(s, t, j, c, ok, n);
    }
  }

  lemma TargetSoundIff(s: System, step: Step, c: ClusterId)
    requires Grounded(s) && SoundAt(s, c) && Enabled(s, step) && !IsBoot(step) && Target(s, step) == Some(c)
    ensures SoundAt(Next(s, step), c) <==> !Hazard(s, step)
  {
    if IsFront(step) {
      FrontSoundIff(s, step, c);
      if IsRequest(step) { WholeIsNotHalf(s, step); }
    } else {
      CloseSoundIff(s, step, c);
    }
  }

  // ---------- preservation elsewhere and at boot ----------

  lemma ElsewhereSound(s: System, step: Step, c: ClusterId)
    requires Grounded(s) && SoundAt(s, c) && Enabled(s, step) && !IsBoot(step) && Target(s, step) != Some(c)
    ensures SoundAt(Next(s, step), c)
  {
    var t := Next(s, step);
    StepElsewhere(s, step, c);
    if t.up {
      forall j | BodyOn(s, j, c) ensures BodyOn(t, j, c) && t.workers[j].kind == s.workers[j].kind {
        BodiesElsewhere(s, step, c, j);
      }
    }
    SameIsSound(s, t, c);
  }

  lemma OrphanedIff(db: Store, c: ClusterId)
    ensures c in Orphaned(db) <==> HasRunning(db.deployments, c)
  {
    if HasRunning(db.deployments, c) {
      var j :| RunningAt(db.deployments, j, c);
      assert IsRunning(db.deployments, j) && db.deployments[j].cluster in Orphaned(db);
    }
    if c in Orphaned(db) {
      var j :| j in db.deployments && IsRunning(db.deployments, j) && db.deployments[j].cluster == c;
      assert RunningAt(db.deployments, j, c);
    }
  }

  // Recovery up to done settles a cluster of theirs and leaves any other alone.
  lemma RecoveredSomeSound(s: System, t: System, done: set<JobId>, c: ClusterId)
    requires SoundAt(s, c) && !s.up && !t.up && t.db == RecoveredSome(s.db, done) && done <= RunningJobs(s.db)
    ensures SoundAt(t, c)
  {
    if c in HitBy(s.db, done) {
      var i :| i in done && i in s.db.deployments && s.db.deployments[i].cluster == c;
      assert RunningAt(s.db.deployments, i, c);
      forall j ensures !RunningAt(t.db.deployments, j, c) {
        assert RunningAt(s.db.deployments, j, c) ==> j == i;
      }
      RestIsSound(t, c);
    } else {
      forall j | j in done && j in s.db.deployments ensures s.db.deployments[j].cluster != c {
        assert s.db.deployments[j].cluster in HitBy(s.db, done);
      }
      SameIsSound(s, t, c);
    }
  }

  lemma RecoverEffect(db: Store, j: JobId, n: nat)
    requires j in db.deployments && n <= 3 && db.deployments[j].cluster in db.clusters
    requires db.deployments[j].cluster in db.trail
    ensures var c := db.deployments[j].cluster;
            var cl := db.clusters[c];
            HasParts(ApplyWrites(db, RecoverWrites(db, j), n),
                     if n >= 1 then db.deployments[j := db.deployments[j].(status := Failed)] else db.deployments,
                     db.installs,
                     db.clusters[c := Cluster(if n >= 2 then Error else cl.status, cl.pendingForget && n < 3)],
                     if n >= 2 then Extended(db.trail, c, cl.status, Error) else db.trail)
  {
    var c := db.deployments[j].cluster;
    ApplyThree(db, RecoverWrites(db, j));
    StatusEffect(db.(deployments := FinishRow(db.deployments, j, Failed)), c, Error);
    assert db.clusters == db.clusters[c := db.clusters[c]];
  }

  // n writes into orphan j of cluster c.
  lemma RecoverOneSoundIff(s: System, t: System, j: JobId, c: ClusterId, n: nat)
    requires StoreAt(s.db, c) && SoundAt(s, c) && !s.up && !t.up && RunningAt(s.db.deployments, j, c) && n <= 3
    requires t.db == ApplyWrites(s.db, RecoverWrites(s.db, j), n)
    ensures SoundAt(t, c) <==> n == 0 || n == 3 || (n == 2 && !s.db.clusters[c].pendingForget)
  {
    assert RunningSound(s, j, c);
    RecoverEffect(s.db, j, n);
    if n == 0 {
      SameIsSound(s, t, c);
    } else {
      forall i ensures !RunningAt(t.db.deployments, i, c) {
        assert RunningAt(s.db.deployments, i, c) ==> i == j;
      }
      if n == 1 || (n == 2 && s.db.clusters[c].pendingForget) {
        assert !StatusSound(t.db, c);
      } else {
        RestIsSound(t, c);
      }
    }
  }

  // n writes into an orphan of another cluster.
  lemma RecoverOneElsewhere(s: System, t: System, j: JobId, c: ClusterId, n: nat)
    requires SoundAt(s, c) && !s.up && !t.up && j in s.db.deployments && s.db.deployments[j].cluster != c && n <= 3
    requires t.db == ApplyWrites(s.db, RecoverWrites(s.db, j), n)
    ensures SoundAt(t, c)
  {
    WritesElsewhere(s.db, RecoverWrites(s.db, j), n, c);
    SameIsSound(s, t, c);
  }

  lemma CutBootSoundIff(s: System, step: Step, c: ClusterId)
    requires Grounded(s) && SoundAt(s, c) && Enabled(s, step) && step.DoCutBoot?
    ensures SoundAt(Next(s, step), c) <==> !HazardAt(s, step, c)
  {
    var done, j, n := step.done, step.j, step.n;
    var mid := s.(db := RecoveredSome(s.db, done));
    assert GroundedAt(s, c);
    RecoveredSomeSound(s, mid, done, c);
    RecoveredStoreAt(s.db, done, c);
    assert RecoverWrites(mid.db, j) == RecoverWrites(s.db, j);
    if s.db.deployments[j].cluster == c {
      assert RunningAt(mid.db.deployments, j, c) && RunningSound(mid, j, c);
      RecoverOneSoundIff(mid, Next(s, step), j, c, n);
    } else {
      RecoverOneElsewhere(mid, Next(s, step), j, c, n);
    }
  }

  lemma BootSound(s: System, t: System, c: ClusterId)
    requires SoundAt(s, c) && t.db == Recovered(s.db)
    ensures SoundAt(t, c)
  {
    OrphanedIff(s.db, c);
    forall j ensures !RunningAt(t.db.deployments, j, c) {}
    assert StatusSound(s.db, c);
    RestIsSound(t, c);
  }

  /** One step keeps a cluster sound exactly when it is no hazard of a job on that cluster. */
  lemma StepSoundIff(s: System, step: Step, c: ClusterId)
    requires Grounded(s) && SoundAt(s, c) && Enabled(s, step)
    ensures SoundAt(Next(s, step), c) <==> !HazardAt(s, step, c)
  {
    if step.DoBoot? {
      BootSound(s, Next(s, step), c);
    } else if step.DoCutBoot? {
      CutBootSoundIff(s, step, c);
    } else if Target(s, step) == Some(c) {
      TargetSoundIff(s, step, c);
    } else {
      ElsewhereSound(s, step, c);
    }
  }
}
