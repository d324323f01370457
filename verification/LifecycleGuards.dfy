/**
  Which clusters a request may start on, told status by status: what a plain delete drops, what a cascading one
  destroys, what a kickoff and an initialization accept, and what no run ever writes.
 */
module LifecycleGuards {
  import opened Common
  import opened StateMachine
  import opened Lifecycle
  import opened LifecycleBlocks
  import opened LifecycleGround
  import opened LifecycleRequests
  import opened LifecycleTheorems

  // ---------- deletes ----------

  // Nothing runs on such a cluster and none of its machines is left to be lost.
  predicate MayBeDropped(st: Status) { st == Pending || st == Initialized || st == Destroyed || st == Error }

  // What a delete that drops c leaves: c and its rows gone, the rest as it was, one more row in the log.
  ghost predicate Dropped(a: Store, b: Store, c: ClusterId) {
    && b.clusters == a.clusters - {c} && b.trail == a.trail
    && OnlyOthersLeft(a.deployments, b.deployments, c) && OnlyOthersLeft(a.installs, b.installs, c)
    && b.audit == a.audit + [Entry(Delete, c, OSuccess, None)]
  }

  ghost predicate OnlyOthersLeft(a: Rows, b: Rows, c: ClusterId) {
    && (forall j :: j in b <==> j in a && a[j].cluster != c)
    && (forall j :: j in b ==> b[j] == a[j])
  }

  /** A plain delete drops a cluster that is pending, initialized, destroyed or in error, with all its rows, and nothing
      else; on any other, a ready or degraded one included, or on none, it writes a failure row and changes nothing. */
  lemma PlainDeleteIff(s: System, c: ClusterId, j: JobId, fault: bool)
    ensures var t := DeleteRequest(s, c, false, j, fault);
            && t == s.(db := t.db)
            && if c in s.db.clusters && MayBeDropped(s.db.clusters[c].status) then Dropped(s.db, t.db, c)
               else t.db == Log(s.db, Entry(Delete, c, OFailure, None))
  {}

  // The accepted form: a destroy is pending, and two rows say it has begun.
  lemma CascadeBegins(s: System, c: ClusterId, j: JobId, fault: bool)
    requires StoreAt(s.db, c) && s.up && Cascades(s.db, c, true) && Accepts(s, Destroy, c, fault)
    ensures var t := DeleteRequest(s, c, true, j, fault);
            && DestroyPending(t, c, j, true)
            && t.db.audit == s.db.audit + [Entry(Op(Destroy), c, OStarted, Some(j)),
                                           Entry(Delete, c, OStarted, Some(j))]
  {
    StartEffect(SetLatch(s.db, c, true), Destroy, c, j, 3);
  }

  /** A cascading delete of a ready or degraded cluster whose lock is free starts a destroy with the latch set; refused,
      it clears the latch and writes a failure row; on any other cluster it is a plain delete. */
  lemma CascadeStartsIff(s: System, c: ClusterId, j: JobId, fault: bool)
    requires Grounded(s) && s.up && c in s.db.clusters && j !in s.issued
    ensures var t, cl := DeleteRequest(s, c, true, j, fault), s.db.clusters[c];
            if cl.status != Ready && cl.status != Degraded then t == DeleteRequest(s, c, false, j, fault)
            else if c in s.locks || fault
            then t == s.(db := Log(s.db.(clusters := s.db.clusters[c := cl.(pendingForget := false)]),
                                   Entry(Delete, c, OFailure, None)))
            else && DestroyPending(t, c, j, true)
                 && t.db.audit == s.db.audit + [Entry(Op(Destroy), c, OStarted, Some(j)),
                                                Entry(Delete, c, OStarted, Some(j))]
  {
    assert GroundedAt(s, c);
    if Cascades(s.db, c, true) && Accepts(s, Destroy, c, fault) { CascadeBegins(s, c, j, fault); }
  }

  // The last status c had is one of those.
  predicate EndedAtRest(db: Store, c: ClusterId) {
    c in db.trail && db.trail[c] != [] && MayBeDropped(db.trail[c][|db.trail[c]| - 1])
  }

  // The terminal block of a destroy of c that succeeds with the latch set.
  predicate ForgettingBlock(s: System, step: Step, c: ClusterId) {
    && (step.DoClose? || step.DoCut? || step.DoLose?) && step.j in s.workers
    && s.workers[step.j].kind == Destroy && s.workers[step.j].cluster == c && Latched(s.db.clusters, c)
    && (!step.DoLose? ==> step.ok)
  }

  predicate DeleteOf(step: Step, c: ClusterId) { IsFront(step) && FrontOf(step).DoDelete? && FrontOf(step).c == c }

  lemma BlockForgets(s: System, j: JobId, c: ClusterId, ok: bool, n: nat)
    requires Grounded(s) && InPhase(s, j, Body) && n <= |CloseWrites(s.db, j, s.workers[j], ok)|
    requires c == s.workers[j].cluster && c in s.db.clusters
    ensures var t := ApplyWrites(s.db, CloseWrites(s.db, j, s.workers[j], ok), n);
            c !in t.clusters ==>
              ok && s.workers[j].kind == Destroy && Latched(s.db.clusters, c) && EndedAtRest(t, c)
  {
    var w := s.workers[j];
    assert GroundedAt(s, c) && BodyOn(s, j, c) && Owns(s.db, j, w) && RowMatches(s.db, j, w);
    if !Tracked(w.kind) {
      HelmBlock(s.db, j, w, ok, n);
    } else if n == 1 {
      FirstWrite(s.db, j, w, ok);
    } else if n > 1 {
      BlockEffect(s.db, j, w, ok, n);
    }
  }

  lemma RequestForgets(s: System, q: Step, n: nat, c: ClusterId)
    requires StoreAt(s.db, c) && IsRequest(q) && Enabled(s, q) && Target(s, q) == Some(c) && c in s.db.clusters
    requires n <= |RequestWrites(s, q)| && c !in ApplyWrites(s.db, RequestWrites(s, q), n).clusters
    ensures q.DoDelete? && EndedAtRest(ApplyWrites(s.db, RequestWrites(s, q), n), c)
  {
    match q
    case DoInitialize(_, r) =>
      InitializePrefix(s.db, c, r, n);
      if InitAccepted(s.db, c, r) && n > 0 { InitializeEffect(s.db, c, InitResting(r), n); }
    case DoKickoff(k, _, j, fault) =>
      if Accepts(s, k, c, fault) {
        StartIs(s.db, k, c, j, n);
        StartEffect(s.db, k, c, j, n);
      }
    case DoDelete(_, cascade, j, fault) =>
      if Cascades(s.db, c, cascade) && Accepts(s, Destroy, c, fault) {
        assert RequestWrites(s, q) == CascadeWrites(c, j);
        CascadeIs(s.db, c, j, n);
        CascadeEffect(s.db, c, j, n);
      } else {
        DeleteEffect(s, c, cascade, j, fault, n);
      }
  }

  lemma FrontForgets(s: System, step: Step, c: ClusterId)
    requires Grounded(s) && IsFront(step) && Enabled(s, step) && Target(s, step) == Some(c) && c in s.db.clusters
    requires c !in Next(s, step).db.clusters
    ensures DeleteOf(step, c) && EndedAtRest(Next(s, step).db, c)
  {
    assert GroundedAt(s, c);
    FrontIsPrefix(s, step);
    RequestForgets(s, FrontOf(step), FrontWrites(s, step), c);
  }

  lemma BootForgetsNothing(s: System, step: Step, c: ClusterId)
    requires Enabled(s, step) && IsBoot(step) && c in s.db.clusters
    ensures c in Next(s, step).db.clusters
  {
    if step.DoCutBoot? {
      ApplyThree(RecoveredSome(s.db, step.done), RecoverWrites(s.db, step.j));
    }
  }

  lemma CloseForgets(s: System, step: Step, c: ClusterId)
    requires Grounded(s) && Enabled(s, step) && (step.DoClose? || step.DoCut? || step.DoLose?)
    requires Target(s, step) == Some(c) && c in s.db.clusters && c !in Next(s, step).db.clusters
    ensures ForgettingBlock(s, step, c) && EndedAtRest(Next(s, step).db, c)
  {
    match step
    case DoClose(j, ok) => BlockForgets(s, j, c, ok, |CloseWrites(s.db, j, s.workers[j], ok)|);
    case DoCut(j, ok, n) => BlockForgets(s, j, c, ok, n);
    case DoLose(j, n) => BlockForgets(s, j, c, true, n);
  }

  /** In every legal run, crashes and lost requests included, a step that removes a cluster is a delete of it, or the
      success block of a destroy of it with the latch set; and the last status the cluster ever had is pending,
      initialized, destroyed or error. No live or busy cluster is ever forgotten. */
  lemma OnlyRestingIsForgotten(s: System, step: Step, c: ClusterId)
    requires Reachable(s) && Enabled(s, step) && c in s.db.clusters && c !in Next(s, step).db.clusters
    ensures DeleteOf(step, c) || ForgettingBlock(s, step, c)
    ensures EndedAtRest(Next(s, step).db, c)
  {
    ReachableGrounded(s);
    if IsBoot(step) {
      BootForgetsNothing(s, step, c);
    } else if Target(s, step) != Some(c) {
      StepElsewhere(s, step, c);
    } else if IsFront(step) {
      FrontForgets(s, step, c);
    } else {
      CloseForgets(s, step, c);
    }
  }

  // ---------- kickoffs and initialization ----------

  /** A kickoff goes ahead exactly on a cluster whose lock is free and that is, for a deploy, initialized, degraded,
      destroyed or in error, for a destroy ready, degraded or in error, for an upgrade ready, or left in the status of
      the operation itself; helm operations ask for the lock only. */
  lemma KickoffAcceptsIff(s: System, k: Kind, c: ClusterId)
    requires c in s.db.clusters && c !in s.locks
    ensures var st := s.db.clusters[c].status;
            Accepts(s, k, c, false) <==>
              match k
              case Deploy => st in {Initialized, Degraded, Destroyed, Error, Deploying}
              case Destroy => st in {Ready, Degraded, Error, Destroying}
              case Upgrade => st in {Ready, Upgrading}
              case _ => true
  {}

  /** A cluster begins pending, with no rows and no latch, under a history of its own. */
  lemma CreateMeans(s: System, c: ClusterId)
    requires Grounded(s) && s.up && c !in s.db.trail
    ensures var t := CreateCluster(s.db, c);
            && c !in s.db.clusters && t.clusters == s.db.clusters[c := Cluster(Pending, false)]
            && t.trail == s.db.trail[c := [Pending]]
            && t.deployments == s.db.deployments && t.installs == s.db.installs
            && (forall j :: !RowAt(t.deployments, j, c) && !RowAt(t.installs, j, c))
            && t.audit == s.db.audit + [Entry(Create, c, OSuccess, None)]
  {
    assert GroundedAt(s, c);
  }

  // What an initialization that passed its checks leaves: the cluster initialized, or in error if it broke, by way of
  // initializing, and a row that says which.
  ghost predicate LeftInitialized(a: Store, b: Store, c: ClusterId, broken: bool)
    requires c in a.clusters && c in a.trail
  {
    var cl, rest := a.clusters[c], if broken then Error else Initialized;
    && b.clusters == a.clusters[c := cl.(status := rest)]
    && b.trail == a.trail[c := a.trail[c] + (if cl.status == Initializing then [] else [Initializing]) + [rest]]
    && b.deployments == a.deployments && b.installs == a.installs
    && b.audit == a.audit + [Entry(Init, c, if broken then OFailure else OSuccess, None)]
  }

  lemma AcceptedInitialize(db: Store, c: ClusterId, r: InitResult)
    requires c in db.clusters && c in db.trail && CanTransition(db.clusters[c].status, Initializing) && !r.InitRejected?
    ensures LeftInitialized(db, Initialize(db, c, r), c, r.InitBroken?)
  {
    StatusEffect(db, c, Initializing);
    StatusEffect(SetStatus(db, c, Initializing), c, if r.InitDone? then Initialized else Error);
    assert db.trail[c] + [] == db.trail[c];
  }

  /** An initialization goes ahead on a cluster that is pending, initialized, destroyed, in error or left initializing;
      on any other it writes a failure row and changes nothing, and a request turned down by its checks changes nothing
      and is logged or not as the check says. */
  lemma InitializeMeans(s: System, c: ClusterId, r: InitResult)
    requires Grounded(s)
    ensures var t := Initialize(s.db, c, r);
            if c !in s.db.clusters then t == s.db
            else if s.db.clusters[c].status !in {Pending, Initialized, Destroyed, Error, Initializing}
            then t == Log(s.db, Entry(Init, c, OFailure, None))
            else if r.InitRejected? then t == if r.logged then Log(s.db, Entry(Init, c, OFailure, None)) else s.db
            else c in s.db.trail && LeftInitialized(s.db, t, c, r.InitBroken?)
  {
    assert GroundedAt(s, c);
    if c in s.db.clusters && CanTransition(s.db.clusters[c].status, Initializing) && !r.InitRejected? {
      AcceptedInitialize(s.db, c, r);
    }
  }

  // ---------- what is never written ----------

  ghost predicate NeverDegraded(db: Store) { forall c :: c in db.trail ==> Degraded !in db.trail[c] }

  lemma {:induction false} WritesNeverDegrade(db: Store, ws: seq<Write>, n: nat)
    requires n <= |ws| && NeverDegraded(db)
    requires forall i {:trigger ws[i]} :: 0 <= i < n ==> ws[i].StatusWrite? ==> ws[i].clusterStatus != Degraded
    ensures NeverDegraded(ApplyWrites(db, ws, n))
  {
    if n > 0 {
      WritesNeverDegrade(db, ws, n - 1);
      WriteNeverDegrades(ApplyWrites(db, ws, n - 1), ws[n - 1]);
    }
  }

  lemma WriteNeverDegrades(db: Store, w: Write)
    requires NeverDegraded(db) && (w.StatusWrite? ==> w.clusterStatus != Degraded)
    ensures NeverDegraded(ApplyWrite(db, w))
  {}

  lemma RecoveryNeverDegrades(db: Store, done: set<JobId>)
    requires NeverDegraded(db)
    ensures NeverDegraded(RecoveredSome(db, done))
  {}

  lemma RequestNeverDegrades(s: System, q: Step)
    requires IsRequest(q)
    ensures forall i {:trigger RequestWrites(s, q)[i]} :: 0 <= i < |RequestWrites(s, q)| ==>
              RequestWrites(s, q)[i].StatusWrite? ==> RequestWrites(s, q)[i].clusterStatus != Degraded
  {}

  lemma FrontNeverDegrades(s: System, step: Step)
    requires Enabled(s, step) && IsFront(step) && NeverDegraded(s.db)
    ensures NeverDegraded(Next(s, step).db)
  {
    FrontIsPrefix(s, step);
    RequestNeverDegrades(s, FrontOf(step));
    WritesNeverDegrade(s.db, RequestWrites(s, FrontOf(step)), FrontWrites(s, step));
  }

  lemma BlockNeverDegrades(db: Store, j: JobId, w: Worker, ok: bool, n: nat)
    requires NeverDegraded(db) && n <= |CloseWrites(db, j, w, ok)|
    ensures NeverDegraded(ApplyWrites(db, CloseWrites(db, j, w, ok), n))
  {
    WritesNeverDegrade(db, CloseWrites(db, j, w, ok), n);
  }

  lemma BootNeverDegrades(s: System, step: Step)
    requires Enabled(s, step) && IsBoot(step) && NeverDegraded(s.db)
    ensures NeverDegraded(Next(s, step).db)
  {
    if step.DoBoot? {
      RecoverAll(s.db);
      RecoveryNeverDegrades(s.db, RunningJobs(s.db));
    } else {
      RecoveryNeverDegrades(s.db, step.done);
      WritesNeverDegrade(RecoveredSome(s.db, step.done), RecoverWrites(s.db, step.j), step.n);
    }
  }

  lemma StepNeverDegrades(s: System, step: Step)
    requires Enabled(s, step) && NeverDegraded(s.db)
    ensures NeverDegraded(Next(s, step).db)
  {
    if IsFront(step) {
      FrontNeverDegrades(s, step);
    } else if IsBoot(step) {
      BootNeverDegrades(s, step);
    } else {
      match step
      case DoClose(j, ok) => BlockNeverDegrades(s.db, j, s.workers[j], ok, |CloseWrites(s.db, j, s.workers[j], ok)|);
      case DoCut(j, ok, n) => BlockNeverDegrades(s.db, j, s.workers[j], ok, n);
      case DoLose(j, n) => BlockNeverDegrades(s.db, j, s.workers[j], true, n);
      case _ =>
    }
  }

  /** No legal run ever puts a cluster into degraded, a status the table has and handlers test for. */
  lemma {:induction false} NothingDegrades(s: System, run: seq<Step>)
    requires Legal(s, run) && NeverDegraded(s.db)
    ensures NeverDegraded(After(s, run).db)
    decreases |run|
  {
    if run != [] {
      StepNeverDegrades(s, run[0]);
      NothingDegrades(Next(s, run[0]), run[1..]);
    }
  }

  /** What a history that follows the table says of busy clusters: a deploy starts from initialized, degraded, destroyed
      or error and leads to ready or error; a destroy from ready, degraded or error to destroyed or error; an upgrade
      from ready to ready or error. */
  lemma BusyIsBracketed(trail: seq<Status>, i: nat)
    requires FollowsTable(trail) && 0 < i < |trail|
    ensures trail[i] == Deploying ==> trail[i - 1] in {Initialized, Degraded, Destroyed, Error}
    ensures trail[i] == Destroying ==> trail[i - 1] in {Ready, Degraded, Error}
    ensures trail[i] == Upgrading ==> trail[i - 1] == Ready
    ensures trail[i] == Initializing ==> trail[i - 1] in {Pending, Initialized, Destroyed, Error}
    ensures trail[i - 1] == Deploying || trail[i - 1] == Upgrading ==> trail[i] in {Ready, Error}
    ensures trail[i - 1] == Destroying ==> trail[i] in {Destroyed, Error}
    ensures trail[i - 1] == Initializing ==> trail[i] in {Initialized, Error}
    ensures trail[i] != Pending
  {}
}
