/**
  What every legal run keeps, crashes, lost writes and late cancels included, one cluster at a time.

  A step touches at most one cluster, its target; only recovery at boot, whole or cut, visits several. Whatever holds
  of the rows, the status and the workers of one cluster therefore needs a proof for the steps aimed at it only.
 */
module LifecycleGround {
  import opened Common
  import opened Lifecycle
  import opened LifecycleLocks
  import opened LifecycleRequests

  predicate RowAt(rows: Rows, j: JobId, c: ClusterId) { j in rows && rows[j].cluster == c }

  // Job j is a worker of cluster c that is still in its body.
  predicate BodyOn(s: System, j: JobId, c: ClusterId) { InPhase(s, j, Body) && s.workers[j].cluster == c }

  // ---------- the invariant ----------

  ghost predicate StoreAt(db: Store, c: ClusterId) {
    && (forall j :: RowAt(db.deployments, j, c) ==> Tracked(db.deployments[j].kind) && c in db.clusters)
    && (forall j :: RowAt(db.installs, j, c) ==> !Tracked(db.installs[j].kind) && c in db.clusters)
    && (c in db.clusters ==>
          c in db.trail && db.trail[c] != [] && db.trail[c][|db.trail[c]| - 1] == db.clusters[c].status)
  }

  // A worker in its body owns a running row, and a tracked one its cluster's status.
  predicate Owns(db: Store, j: JobId, w: Worker) {
    if Tracked(w.kind) then
      && j in db.deployments && db.deployments[j] == Row(w.cluster, w.kind, Running)
      && w.cluster in db.clusters && db.clusters[w.cluster].status == Transient(w.kind)
    else j in db.installs ==> db.installs[j] == Row(w.cluster, w.kind, Running)
  }

  ghost predicate BodiesAt(s: System, c: ClusterId) {
    forall j :: BodyOn(s, j, c) ==> Owns(s.db, j, s.workers[j])
  }

  // A worker's row, while there is one, is of its own kind and cluster.
  predicate RowMatches(db: Store, j: JobId, w: Worker) {
    && (j in db.deployments ==> Tracked(w.kind) && db.deployments[j].cluster == w.cluster)
    && (j in db.installs ==> !Tracked(w.kind) && db.installs[j].cluster == w.cluster)
  }

  // Ids are never handed out twice.
  ghost predicate IdsInv(s: System) {
    && s.db.deployments.Keys <= s.issued && s.db.installs.Keys <= s.issued
    && (forall j {:trigger s.workers[j]} :: j in s.workers ==> RowMatches(s.db, j, s.workers[j]))
  }

  ghost predicate GroundedAt(s: System, c: ClusterId) { StoreAt(s.db, c) && BodiesAt(s, c) }

  ghost predicate Grounded(s: System) {
    LockInv(s) && IdsInv(s) && forall c :: GroundedAt(s, c)
  }

  // ---------- steps aimed elsewhere ----------

  // The cluster a step is aimed at; of a cut recovery, the cluster of the orphan it was cut in.
  function Target(s: System, step: Step): Option<ClusterId> {
    match step
    case DoCreate(c) => Some(c)
    case DoInitialize(c, _) => Some(c)
    case DoKickoff(_, c, _, _) => Some(c)
    case DoDelete(c, _, _, _) => Some(c)
    case DoClose(j, _) => if j in s.workers then Some(s.workers[j].cluster) else None
    case DoCut(j, _, _) => if j in s.workers then Some(s.workers[j].cluster) else None
    case DoLose(j, _) => if j in s.workers then Some(s.workers[j].cluster) else None
    case DoCutRequest(q, _) => Target(s, q)
    case DoLoseRequest(q, _) => Target(s, q)
    case DoCutBoot(_, j, _) => if j in s.db.deployments then Some(s.db.deployments[j].cluster) else None
    case _ => None
  }

  // A front half: how many of its writes are made.
  predicate IsFront(step: Step) { IsRequest(step) || step.DoCutRequest? || step.DoLoseRequest? }

  function FrontOf(step: Step): Step
    requires IsFront(step)
  {
    if IsRequest(step) then step else step.request
  }

  function FrontWrites(s: System, step: Step): nat
    requires IsFront(step) && Enabled(s, step)
  {
    if IsRequest(step) then |RequestWrites(s, step)| else step.n
  }

  // Whole, cut or abandoned, a front half leaves a prefix of its writes.
  lemma FrontIsPrefix(s: System, step: Step)
    requires IsFront(step) && Enabled(s, step)
    ensures var q, n := FrontOf(step), FrontWrites(s, step);
            && IsRequest(q) && Enabled(s, q) && n <= |RequestWrites(s, q)| && Target(s, step) == Target(s, q)
            && Next(s, step).db == ApplyWrites(s.db, RequestWrites(s, q), n)
            && (if step.DoCutRequest? then !Next(s, step).up && Next(s, step).workers == map[]
                else && Next(s, step).up
                     && Next(s, step).workers == LoseRequest(s, q, n).workers
                     && Next(s, step).issued <= LoseRequest(s, q, n).issued)
  {
    if IsRequest(step) { RequestIsWrites(s, step); }
  }

  ghost predicate SameRowsAt(a: Rows, b: Rows, c: ClusterId) {
    forall j {:trigger RowAt(a, j, c)} {:trigger RowAt(b, j, c)} ::
      (RowAt(a, j, c) <==> RowAt(b, j, c)) && (RowAt(a, j, c) ==> b[j] == a[j])
  }

  // b agrees with a on all that concerns cluster c.
  ghost predicate SameStoreAt(a: Store, b: Store, c: ClusterId) {
    && (c in a.clusters <==> c in b.clusters) && (c in a.clusters ==> b.clusters[c] == a.clusters[c])
    && (c in a.trail <==> c in b.trail) && (c in a.trail ==> b.trail[c] == a.trail[c])
    && SameRowsAt(a.deployments, b.deployments, c) && SameRowsAt(a.installs, b.installs, c)
  }

  predicate WriteElsewhere(db: Store, w: Write, c: ClusterId) {
    match w
    case FinishWrite(j, _) => !RowAt(db.deployments, j, c) && !RowAt(db.installs, j, c)
    case StatusWrite(d, _) => d != c
    case UnlatchWrite(d) => d != c
    case LatchWrite(d) => d != c
    case ForgetWrite(d) => d != c
    case CreateWrite(d) => d != c
    case StartWrite(j, row) => row.cluster != c && !RowAt(db.deployments, j, c) && !RowAt(db.installs, j, c)
    case FailWrite(j) => !RowAt(db.deployments, j, c)
    case AuditWrite(_) => true
  }

  lemma {:induction false} WritesElsewhere(db: Store, ws: seq<Write>, n: nat, c: ClusterId)
    requires n <= |ws| && forall i :: 0 <= i < n ==> WriteElsewhere(db, ws[i], c)
    ensures SameStoreAt(db, ApplyWrites(db, ws, n), c)
  {
    if n > 0 {
      WritesElsewhere(db, ws, n - 1, c);
      assert WriteElsewhere(ApplyWrites(db, ws, n - 1), ws[n - 1], c) by { assert WriteElsewhere(db, ws[n - 1], c); }
    }
  }

  // A prefix of a terminal block stays on its worker's cluster.
  lemma BlockElsewhere(db: Store, j: JobId, w: Worker, ok: bool, n: nat, c: ClusterId)
    requires RowMatches(db, j, w) && w.cluster != c && n <= |CloseWrites(db, j, w, ok)|
    ensures SameStoreAt(db, ApplyWrites(db, CloseWrites(db, j, w, ok), n), c)
  {
    WritesElsewhere(db, CloseWrites(db, j, w, ok), n, c);
  }

  lemma RequestElsewhere(s: System, q: Step, n: nat, c: ClusterId)
    requires IdsInv(s) && IsRequest(q) && Enabled(s, q) && n <= |RequestWrites(s, q)| && Target(s, q) != Some(c)
    ensures SameStoreAt(s.db, ApplyWrites(s.db, RequestWrites(s, q), n), c)
  {
    WritesElsewhere(s.db, RequestWrites(s, q), n, c);
  }

  /** No step but recovery changes anything in the store about a cluster it is not aimed at. */
  lemma StepElsewhere(s: System, step: Step, c: ClusterId)
    requires IdsInv(s) && Enabled(s, step) && !IsBoot(step) && Target(s, step) != Some(c)
    ensures SameStoreAt(s.db, Next(s, step).db, c)
  {
    if IsFront(step) {
      FrontIsPrefix(s, step);
      RequestElsewhere(s, FrontOf(step), FrontWrites(s, step), c);
    } else {
      match step
      case DoClose(j, ok) => BlockElsewhere(s.db, j, s.workers[j], ok, |CloseWrites(s.db, j, s.workers[j], ok)|, c);
      case DoCut(j, ok, n) => BlockElsewhere(s.db, j, s.workers[j], ok, n, c);
      case DoLose(j, n) => BlockElsewhere(s.db, j, s.workers[j], true, n, c);
      case _ =>
    }
  }

  // Bodies on c are the same before and after, as far as the process lives on.
  lemma BodiesElsewhere(s: System, step: Step, c: ClusterId, j: JobId)
    requires LockInv(s) && Enabled(s, step) && Target(s, step) != Some(c)
    ensures BodyOn(Next(s, step), j, c) ==> BodyOn(s, j, c) && Next(s, step).workers[j].kind == s.workers[j].kind
    ensures BodyOn(s, j, c) && Next(s, step).up ==>
              BodyOn(Next(s, step), j, c) && Next(s, step).workers[j].kind == s.workers[j].kind
  {
    if IsFront(step) {
      FrontIsPrefix(s, step);
      LaunchTarget(s, FrontOf(step));
    }
  }

  // The worker a request starts is on its target.
  lemma LaunchTarget(s: System, q: Step)
    requires IsRequest(q) && Enabled(s, q)
    ensures var l := Launch(s, q);
            l.Some? ==> Target(s, q) == Some(l.value.2) && l.value.2 in s.db.clusters && l.value.2 !in s.locks
                        && l.value.0 !in s.issued && Drawn(q) == {l.value.0}
  {}

  lemma SameStoreCarries(s: System, t: System, c: ClusterId)
    requires StoreAt(s.db, c) && SameStoreAt(s.db, t.db, c)
    ensures StoreAt(t.db, c)
  {}

  lemma ElsewhereGrounds(s: System, step: Step, c: ClusterId)
    requires Grounded(s) && Enabled(s, step) && !IsBoot(step) && Target(s, step) != Some(c)
    requires IdsInv(Next(s, step))
    ensures GroundedAt(Next(s, step), c)
  {
    var t := Next(s, step);
    assert GroundedAt(s, c);
    StepElsewhere(s, step, c);
    SameStoreCarries(s, t, c);
    forall j | BodyOn(t, j, c) ensures Owns(t.db, j, t.workers[j]) {
      BodiesElsewhere(s, step, c, j);
      assert Owns(s.db, j, s.workers[j]) && RowMatches(t.db, j, t.workers[j]);
      assert RowAt(s.db.deployments, j, c) <==> RowAt(t.db.deployments, j, c);
      assert RowAt(s.db.installs, j, c) <==> RowAt(t.db.installs, j, c);
    }
  }

  // ---------- steps aimed at the cluster ----------

  lemma Holder(s: System, j: JobId, c: ClusterId)
    requires LockInv(s) && BodyOn(s, j, c)
    ensures c in s.locks && forall i :: BodyOn(s, i, c) ==> i == j
  {
    assert Holds(s, j);
    forall i | BodyOn(s, i, c) ensures i == j { assert Holds(s, i); }
  }

  lemma NoBody(s: System, c: ClusterId)
    requires LockInv(s) && c !in s.locks
    ensures forall i :: !BodyOn(s, i, c)
  {
    forall i ensures !BodyOn(s, i, c) { assert Holds(s, i) <== BodyOn(s, i, c); }
  }

  // A new row belongs to a cluster that is there, and no cluster is both given a row and forgotten.
  predicate SafeWrites(db: Store, ws: seq<Write>) {
    && (forall i {:trigger ws[i]} :: 0 <= i < |ws| && ws[i].StartWrite? ==> ws[i].row.cluster in db.clusters)
    && ((forall i {:trigger ws[i]} :: 0 <= i < |ws| ==> !ws[i].ForgetWrite?)
        || (forall i {:trigger ws[i]} :: 0 <= i < |ws| ==> !ws[i].StartWrite?))
  }

  lemma {:induction false} WritesKeepStoreAt(db: Store, ws: seq<Write>, n: nat, c: ClusterId)
    requires StoreAt(db, c) && n <= |ws| && SafeWrites(db, ws)
    ensures StoreAt(ApplyWrites(db, ws, n), c)
    ensures (forall i {:trigger ws[i]} :: 0 <= i < |ws| ==> !ws[i].ForgetWrite?) ==>
              db.clusters.Keys <= ApplyWrites(db, ws, n).clusters.Keys
  {
    if n > 0 {
      WritesKeepStoreAt(db, ws, n - 1, c);
      WriteKeepsStoreAt(ApplyWrites(db, ws, n - 1), ws[n - 1], c);
    }
  }

  lemma WriteKeepsStoreAt(db: Store, w: Write, c: ClusterId)
    requires StoreAt(db, c) && (w.StartWrite? ==> w.row.cluster in db.clusters)
    ensures StoreAt(ApplyWrite(db, w), c)
  {
    var t := ApplyWrite(db, w);
    forall j | RowAt(t.deployments, j, c) ensures Tracked(t.deployments[j].kind) && c in t.clusters {
      assert RowAt(db.deployments, j, c) || (w.StartWrite? && w.started == j);
    }
    forall j | RowAt(t.installs, j, c) ensures !Tracked(t.installs[j].kind) && c in t.clusters {
      assert RowAt(db.installs, j, c) || (w.StartWrite? && w.started == j);
    }
  }

  // ---------- front halves aimed at the cluster ----------

  // On a cluster with a body, a request can do no more than drop or relabel what no tracked body needs.
  lemma RequestSparesBody(s: System, q: Step, n: nat, c: ClusterId, i: JobId)
    requires LockInv(s) && IdsInv(s) && GroundedAt(s, c) && BodyOn(s, i, c)
    requires IsRequest(q) && Enabled(s, q) && Target(s, q) == Some(c) && n <= |RequestWrites(s, q)|
    ensures Launch(s, q).None?
    ensures Owns(ApplyWrites(s.db, RequestWrites(s, q), n), i, s.workers[i])
  {
    Holder(s, i, c);
    assert Owns(s.db, i, s.workers[i]) && RowMatches(s.db, i, s.workers[i]);
    match q
    case DoCreate(_) => CreateEffect(s, c, n);
    case DoInitialize(_, r) =>
      InitializePrefix(s.db, c, r, n);
      if InitAccepted(s.db, c, r) && n > 0 { InitializeEffect(s.db, c, InitResting(r), n); }
    case DoKickoff(k, _, j, fault) =>
    case DoDelete(_, cascade, j, fault) => DeleteEffect(s, c, cascade, j, fault, n);
  }

  lemma RequestIsSafe(s: System, q: Step)
    requires IsRequest(q)
    ensures SafeWrites(s.db, RequestWrites(s, q))
  {}

  // A launched worker's row and status are written.
  lemma LaunchOwns(s: System, q: Step, n: nat)
    requires IsRequest(q) && Enabled(s, q) && n <= |RequestWrites(s, q)| && IdsInv(s)
    requires Launch(s, q).Some? && n >= LaunchWrites(q) && StoreAt(s.db, Launch(s, q).value.2)
    ensures var (j, k, c) := Launch(s, q).value;
            Owns(ApplyWrites(s.db, RequestWrites(s, q), n), j, Worker(k, c, Body, false))
  {
    match q
    case DoKickoff(k, c, j, _) =>
      StartIs(s.db, k, c, j, n);
      StartEffect(s.db, k, c, j, n);
    case DoDelete(c, cascade, j, fault) =>
      assert RequestWrites(s, q) == CascadeWrites(c, j);
      CascadeIs(s.db, c, j, n);
      CascadeEffect(s.db, c, j, n);
  }

  lemma FrontGrounds(s: System, step: Step, c: ClusterId)
    requires Grounded(s) && IsFront(step) && Enabled(s, step) && Target(s, step) == Some(c)
    ensures GroundedAt(Next(s, step), c)
  {
    var t, q, n := Next(s, step), FrontOf(step), FrontWrites(s, step);
    assert GroundedAt(s, c);
    FrontIsPrefix(s, step);
    RequestIsSafe(s, q);
    WritesKeepStoreAt(s.db, RequestWrites(s, q), n, c);
    LaunchTarget(s, q);
    forall i | BodyOn(t, i, c) ensures Owns(t.db, i, t.workers[i]) {
      if BodyOn(s, i, c) {
        RequestSparesBody(s, q, n, c, i);
      } else {
        LaunchOwns(s, q, n);
      }
    }
  }

  // A terminal block, whole or cut, was the cluster's only body.
  lemma BlockGrounds(s: System, j: JobId, ok: bool, n: nat, t: System)
    requires LockInv(s) && InPhase(s, j, Body) && GroundedAt(s, s.workers[j].cluster)
    requires n <= |CloseWrites(s.db, j, s.workers[j], ok)|
    requires t.db == ApplyWrites(s.db, CloseWrites(s.db, j, s.workers[j], ok), n)
    requires forall i :: BodyOn(t, i, s.workers[j].cluster) ==> i != j && BodyOn(s, i, s.workers[j].cluster)
    ensures GroundedAt(t, s.workers[j].cluster)
  {
    Holder(s, j, s.workers[j].cluster);
    WritesKeepStoreAt(s.db, CloseWrites(s.db, j, s.workers[j], ok), n, s.workers[j].cluster);
  }

  lemma TargetGrounds(s: System, step: Step, c: ClusterId)
    requires Grounded(s) && Enabled(s, step) && !IsBoot(step) && Target(s, step) == Some(c)
    ensures GroundedAt(Next(s, step), c)
  {
    assert GroundedAt(s, c);
    if IsFront(step) {
      FrontGrounds(s, step, c);
    } else {
      match step
      case DoClose(j, ok) => BlockGrounds(s, j, ok, |CloseWrites(s.db, j, s.workers[j], ok)|, Next(s, step));
      case DoCut(j, ok, n) => BlockGrounds(s, j, ok, n, Next(s, step));
      case DoLose(j, n) => BlockGrounds(s, j, true, n, Next(s, step));
    }
  }

  // ---------- recovery ----------

  // Recovery, whole or up to done, fails rows and moves statuses to Error.
  lemma RecoveredStoreAt(db: Store, done: set<JobId>, c: ClusterId)
    requires StoreAt(db, c)
    ensures StoreAt(RecoveredSome(db, done), c)
  {
    var t := RecoveredSome(db, done);
    forall j | RowAt(t.deployments, j, c) ensures Tracked(t.deployments[j].kind) && c in t.clusters {
      assert RowAt(db.deployments, j, c);
    }
    forall j | RowAt(t.installs, j, c) ensures !Tracked(t.installs[j].kind) && c in t.clusters {
      assert RowAt(db.installs, j, c);
    }
  }

  lemma RecoverNone(db: Store)
    ensures RecoveredSome(db, {}) == db
  {
    var t := RecoveredSome(db, {});
    assert t.deployments == db.deployments && t.clusters == db.clusters && t.trail == db.trail;
  }

  lemma RecoverAll(db: Store)
    ensures RecoveredSome(db, RunningJobs(db)) == Recovered(db)
  {
    var a := RecoveredSome(db, RunningJobs(db));
    assert HitBy(db, RunningJobs(db)) == Orphaned(db);
    assert a.deployments == Recovered(db).deployments;
  }

  lemma BootGrounds(s: System, step: Step, c: ClusterId)
    requires LockInv(s) && GroundedAt(s, c) && Enabled(s, step) && IsBoot(step)
    ensures GroundedAt(Next(s, step), c)
  {
    match step
    case DoBoot =>
      RecoverAll(s.db);
      RecoveredStoreAt(s.db, RunningJobs(s.db), c);
    case DoCutBoot(done, j, n) =>
      RecoveredStoreAt(s.db, done, c);
      WritesKeepStoreAt(RecoveredSome(s.db, done), RecoverWrites(s.db, j), n, c);
  }

  // ---------- ids ----------

  // b has no row a has not, and no row changes kind or cluster.
  ghost predicate SameShape(a: Rows, b: Rows) {
    forall j {:trigger b[j]} :: j in b ==> j in a && b[j].cluster == a[j].cluster && b[j].kind == a[j].kind
  }

  lemma {:induction false} WritesKeepShape(db: Store, ws: seq<Write>, n: nat)
    requires n <= |ws| && forall i {:trigger ws[i]} :: 0 <= i < n ==> !ws[i].StartWrite?
    ensures var t := ApplyWrites(db, ws, n);
            SameShape(db.deployments, t.deployments) && SameShape(db.installs, t.installs)
  {
    if n > 0 {
      WritesKeepShape(db, ws, n - 1);
    }
  }

  lemma IdsCarry(s: System, t: System)
    requires IdsInv(s) && s.issued <= t.issued
    requires SameShape(s.db.deployments, t.db.deployments) && SameShape(s.db.installs, t.db.installs)
    requires forall j {:trigger t.workers[j]} :: j in t.workers ==>
               j in s.workers && t.workers[j].kind == s.workers[j].kind && t.workers[j].cluster == s.workers[j].cluster
    ensures IdsInv(t)
  {
    forall j | j in t.workers ensures RowMatches(t.db, j, t.workers[j]) {
      assert RowMatches(s.db, j, s.workers[j]);
    }
  }

  // The one row a front half adds, once its write is made.
  lemma LaunchRows(s: System, q: Step, n: nat)
    requires IsRequest(q) && Enabled(s, q) && n <= |RequestWrites(s, q)|
    requires Launch(s, q).Some? && StoreAt(s.db, Launch(s, q).value.2)
    ensures var (j, k, c) := Launch(s, q).value;
            var t := ApplyWrites(s.db, RequestWrites(s, q), n);
            var added := n >= if q.DoDelete? then 2 else 1;
            && t.deployments == (if Tracked(k) && added then s.db.deployments[j := Row(c, k, Running)]
                                 else s.db.deployments)
            && t.installs == (if !Tracked(k) && added then s.db.installs[j := Row(c, k, Running)] else s.db.installs)
  {
    match q
    case DoKickoff(k, c, j, _) =>
      StartIs(s.db, k, c, j, n);
      StartEffect(s.db, k, c, j, n);
    case DoDelete(c, cascade, j, fault) =>
      assert RequestWrites(s, q) == CascadeWrites(c, j);
      CascadeIs(s.db, c, j, n);
      CascadeEffect(s.db, c, j, n);
  }

  lemma NoLaunchNoRow(s: System, q: Step)
    requires IsRequest(q) && Launch(s, q).None?
    ensures forall i {:trigger RequestWrites(s, q)[i]} :: 0 <= i < |RequestWrites(s, q)| ==>
              !RequestWrites(s, q)[i].StartWrite?
  {}

  lemma QuietIds(s: System, t: System, q: Step, n: nat)
    requires IdsInv(s) && IsRequest(q) && Launch(s, q).None? && n <= |RequestWrites(s, q)|
    requires t.db == ApplyWrites(s.db, RequestWrites(s, q), n) && s.issued <= t.issued
    requires t.workers == s.workers || t.workers == map[]
    ensures IdsInv(t)
  {
    NoLaunchNoRow(s, q);
    WritesKeepShape(s.db, RequestWrites(s, q), n);
    IdsCarry(s, t);
  }

  lemma FrontIds(s: System, step: Step)
    requires Grounded(s) && IsFront(step) && Enabled(s, step)
    ensures IdsInv(Next(s, step))
  {
    var t, q, n := Next(s, step), FrontOf(step), FrontWrites(s, step);
    FrontIsPrefix(s, step);
    LaunchTarget(s, q);
    if Launch(s, q).None? {
      QuietIds(s, t, q, n);
    } else {
      assert GroundedAt(s, Launch(s, q).value.2);
      LaunchRows(s, q, n);
      LaunchIds(s, t, q);
    }
  }

  lemma LaunchIds(s: System, t: System, q: Step)
    requires IdsInv(s) && s.workers.Keys <= s.issued && IsRequest(q) && Launch(s, q).Some?
    requires var (j, k, c) := Launch(s, q).value;
             && j !in s.issued && t.issued == s.issued + {j}
             && (t.workers == map[] || t.workers == s.workers || t.workers == s.workers[j := Worker(k, c, Body, false)])
             && (t.db.deployments == s.db.deployments
                 || (Tracked(k) && t.db.deployments == s.db.deployments[j := Row(c, k, Running)]))
             && (t.db.installs == s.db.installs
                 || (!Tracked(k) && t.db.installs == s.db.installs[j := Row(c, k, Running)]))
    ensures IdsInv(t)
  {
    forall i | i in t.workers ensures RowMatches(t.db, i, t.workers[i]) {
      if i in s.workers { assert RowMatches(s.db, i, s.workers[i]); }
    }
  }

  lemma BlockIds(s: System, t: System, j: JobId, ok: bool, n: nat)
    requires IdsInv(s) && j in s.workers && n <= |CloseWrites(s.db, j, s.workers[j], ok)| && t.issued == s.issued
    requires t.db == ApplyWrites(s.db, CloseWrites(s.db, j, s.workers[j], ok), n)
    requires forall i {:trigger t.workers[i]} :: i in t.workers ==>
               i in s.workers && t.workers[i].kind == s.workers[i].kind && t.workers[i].cluster == s.workers[i].cluster
    ensures IdsInv(t)
  {
    WritesKeepShape(s.db, CloseWrites(s.db, j, s.workers[j], ok), n);
    IdsCarry(s, t);
  }

  lemma BootIds(s: System, step: Step)
    requires IdsInv(s) && LockInv(s) && Enabled(s, step) && IsBoot(step)
    ensures IdsInv(Next(s, step))
  {
    if step.DoCutBoot? {
      WritesKeepShape(RecoveredSome(s.db, step.done), RecoverWrites(s.db, step.j), step.n);
    }
    IdsCarry(s, Next(s, step));
  }

  lemma StepIds(s: System, step: Step)
    requires Grounded(s) && Enabled(s, step)
    ensures IdsInv(Next(s, step))
  {
    var t := Next(s, step);
    if IsFront(step) {
      FrontIds(s, step);
    } else if IsBoot(step) {
      BootIds(s, step);
    } else {
      match step
      case DoClose(j, ok) => BlockIds(s, t, j, ok, |CloseWrites(s.db, j, s.workers[j], ok)|);
      case DoCut(j, ok, n) => BlockIds(s, t, j, ok, n);
      case DoLose(j, n) => BlockIds(s, t, j, true, n);
      case _ => IdsCarry(s, t);
    }
  }

  // ---------- every legal run ----------

  lemma StepGrounds(s: System, step: Step)
    requires Grounded(s) && Enabled(s, step)
    ensures Grounded(Next(s, step))
  {
    StepKeepsLocks(s, step);
    StepIds(s, step);
    forall c: ClusterId ensures GroundedAt(Next(s, step), c) {
      assert GroundedAt(s, c);
      if IsBoot(step) {
        BootGrounds(s, step, c);
      } else if Target(s, step) == Some(c) {
        TargetGrounds(s, step, c);
      } else {
        ElsewhereGrounds(s, step, c);
      }
    }
  }

  lemma EmptyGrounded()
    ensures Grounded(EMPTY)
  {
    forall c: ClusterId ensures GroundedAt(EMPTY, c) {}
  }

  lemma {:induction false} RunGrounds(s: System, run: seq<Step>)
    requires Grounded(s) && Legal(s, run)
    ensures Grounded(After(s, run))
    decreases |run|
  {
    if run != [] {
      StepGrounds(s, run[0]);
      RunGrounds(Next(s, run[0]), run[1..]);
    }
  }

  // A state some legal run leads to, whatever went wrong on the way.
  ghost predicate Reachable(s: System) { exists run :: Legal(EMPTY, run) && s == After(EMPTY, run) }

  lemma ReachableGrounded(s: System)
    requires Reachable(s)
    ensures Grounded(s)
  {
    EmptyGrounded();
    var run :| Legal(EMPTY, run) && s == After(EMPTY, run);
    RunGrounds(EMPTY, run);
  }
}
