/**
  The cluster lifecycle protocol as a transition system over many clusters.

  One step is a whole HTTP front half, one cancel signal, one terminal block of a worker, its deferred unlock or
  deregister, a crash, or orphan recovery at boot. None of the blocks is taken for granted: a crash may cut a front
  half, a terminal block or the recovery itself after any number of its store writes; a client may go away, or a
  cancel land, in the middle of a front half or a success block, whose remaining writes are then lost.
 */
module Lifecycle {
  import opened Common
  import opened StateMachine

  type ClusterId = nat  // random hex ids are opaque tokens here
  type JobId = nat      // deployment ids and install ids share one space

  datatype Kind = Deploy | Destroy | Upgrade | HelmInstall | HelmUpgrade | HelmUninstall | Bundle

  // Operations of the deployments executor: they own a deployments row and the cluster status.
  predicate Tracked(k: Kind) { k.Deploy? || k.Destroy? || k.Upgrade? }

  // The status a tracked operation holds while its body runs.
  function Transient(k: Kind): Status
    requires Tracked(k)
  {
    match k case Deploy => Deploying case Destroy => Destroying case Upgrade => Upgrading
  }

  // The status a tracked operation leaves on success.
  function Landed(k: Kind): Status
    requires Tracked(k)
  {
    if k.Destroy? then Destroyed else Ready
  }

  predicate IsTransient(st: Status) { st.Deploying? || st.Destroying? || st.Upgrading? }

  datatype RowStatus = Running | Succeeded | Failed | Cancelled

  datatype Cluster = Cluster(status: Status, pendingForget: bool)

  // A deployments or apps_installs row.
  datatype Row = Row(cluster: ClusterId, kind: Kind, status: RowStatus)

  datatype Action = Op(kind: Kind) | Delete | Init | Create

  datatype Outcome = OStarted | OSucceeded | OFailed | OCancelled | OSuccess | OFailure

  // job: the job an audit row is about, None for rows no job is behind.
  datatype Entry = Entry(action: Action, target: ClusterId, outcome: Outcome, job: Option<JobId>)

  // Body: running commands. Closed: terminal block done, lock still held. Unlocked: only deregister left.
  datatype Phase = Body | Closed | Unlocked

  datatype Worker = Worker(kind: Kind, cluster: ClusterId, phase: Phase, cancelled: bool)

  // The sqlite store. trail keeps every status a cluster ever had, also after its row is gone.
  datatype Store = Store(
    clusters: map<ClusterId, Cluster>,
    deployments: map<JobId, Row>,
    installs: map<JobId, Row>,
    audit: seq<Entry>,
    trail: map<ClusterId, seq<Status>>)

  // The store and what lives in the process: per-cluster locks, cancel map, goroutines. issued: every
  // job id ever handed out.
  datatype System = System(
    db: Store,
    up: bool,
    locks: set<ClusterId>,
    cancelMap: set<JobId>,
    workers: map<JobId, Worker>,
    issued: set<JobId>)

  const EMPTY := System(Store(map[], map[], map[], [], map[]), true, {}, {}, map[], {})

  // ---------- store writes ----------

  function SetStatus(db: Store, c: ClusterId, st: Status): Store {
    if c in db.clusters && db.clusters[c].status != st then
      db.(clusters := db.clusters[c := db.clusters[c].(status := st)],
          trail := db.trail[c := (if c in db.trail then db.trail[c] else []) + [st]])
    else db
  }

  function SetLatch(db: Store, c: ClusterId, latch: bool): Store {
    if c in db.clusters then db.(clusters := db.clusters[c := db.clusters[c].(pendingForget := latch)]) else db
  }

  function FinishRow(rows: map<JobId, Row>, j: JobId, st: RowStatus): map<JobId, Row> {
    if j in rows then rows[j := rows[j].(status := st)] else rows
  }

  // The rows left when ON DELETE CASCADE removes those of cluster c.
  function RowsWithout(rows: map<JobId, Row>, c: ClusterId): map<JobId, Row> {
    map j | j in rows && rows[j].cluster != c :: rows[j]
  }

  function DropCluster(db: Store, c: ClusterId): Store {
    db.(clusters := db.clusters - {c},
        deployments := RowsWithout(db.deployments, c),
        installs := RowsWithout(db.installs, c))
  }

  function Log(db: Store, e: Entry): Store { db.(audit := db.audit + [e]) }

  // ---------- front halves ----------

  // The guards of a kickoff; fault stands for a missing profile, a log file or row that cannot be created.
  predicate Accepts(s: System, k: Kind, c: ClusterId, fault: bool) {
    && c in s.db.clusters
    && (Tracked(k) ==> CanTransition(s.db.clusters[c].status, Transient(k)))
    && c !in s.locks
    && !fault
  }

  // The store writes of an accepted kickoff.
  function StartedRows(db: Store, k: Kind, c: ClusterId, j: JobId): Store {
    var row := Row(c, k, Running);
    var db1 := if Tracked(k) then SetStatus(db.(deployments := db.deployments[j := row]), c, Transient(k))
               else db.(installs := db.installs[j := row]);
    Log(db1, Entry(Op(k), c, OStarted, Some(j)))
  }

  // The state after an accepted kickoff.
  function Started(s: System, k: Kind, c: ClusterId, j: JobId): System {
    System(StartedRows(s.db, k, c, j), s.up, s.locks + {c}, s.cancelMap + {j},
           s.workers[j := Worker(k, c, Body, false)], s.issued + {j})
  }

  function Kickoff(s: System, k: Kind, c: ClusterId, j: JobId, fault: bool): System {
    if Accepts(s, k, c, fault) then Started(s, k, c, j) else s
  }

  function CreateCluster(db: Store, c: ClusterId): Store {
    Log(db.(clusters := db.clusters[c := Cluster(Pending, false)], trail := db.trail[c := [Pending]]),
        Entry(Create, c, OSuccess, None))
  }

  datatype InitResult = InitRejected(logged: bool) | InitDone | InitBroken

  function Initialize(db: Store, c: ClusterId, r: InitResult): Store {
    if c !in db.clusters then db
    else if !CanTransition(db.clusters[c].status, Initializing) then Log(db, Entry(Init, c, OFailure, None))
    else match r
      case InitRejected(logged) => if logged then Log(db, Entry(Init, c, OFailure, None)) else db
      case InitDone =>
        Log(SetStatus(SetStatus(db, c, Initializing), c, Initialized), Entry(Init, c, OSuccess, None))
      case InitBroken =>
        Log(SetStatus(SetStatus(db, c, Initializing), c, Error), Entry(Init, c, OFailure, None))
  }

  // DELETE takes the cascade branch: the latch is set and a destroy is kicked off.
  predicate Cascades(db: Store, c: ClusterId, cascade: bool) {
    c in db.clusters && cascade && db.clusters[c].status in CASCADE_DELETABLE
  }

  // What DELETE writes outside the cascade branch.
  function DirectDelete(db: Store, c: ClusterId): Store {
    if c in db.clusters && db.clusters[c].status in DIRECT_DELETABLE then
      Log(DropCluster(db, c), Entry(Delete, c, OSuccess, None))
    else
      Log(db, Entry(Delete, c, OFailure, None))
  }

  // DELETE /api/clusters/{id}, with or without cascade=destroy.
  function DeleteRequest(s: System, c: ClusterId, cascade: bool, j: JobId, fault: bool): System {
    if Cascades(s.db, c, cascade) then
      var latched := s.(db := SetLatch(s.db, c, true));
      if Accepts(latched, Destroy, c, fault) then
        var t := Started(latched, Destroy, c, j);
        t.(db := Log(t.db, Entry(Delete, c, OStarted, Some(j))))
      else
        s.(db := Log(SetLatch(latched.db, c, false), Entry(Delete, c, OFailure, None)))
    else
      s.(db := DirectDelete(s.db, c))
  }

  function CancelJob(s: System, j: JobId): System {
    if j in s.cancelMap && j in s.workers then s.(workers := s.workers[j := s.workers[j].(cancelled := true)])
    else s
  }

  // ---------- terminal blocks ----------

  function FinishStatus(cancelled: bool, naturalFailure: bool): (RowStatus, Outcome) {
    if cancelled then (Cancelled, OCancelled)
    else if naturalFailure then (Failed, OFailed)
    else (Succeeded, OSucceeded)
  }

  datatype Write =
    | FinishWrite(job: JobId, status: RowStatus)
    | StatusWrite(cluster: ClusterId, clusterStatus: Status)
    | UnlatchWrite(unlatched: ClusterId)
    | LatchWrite(latched: ClusterId)
    | CreateWrite(created: ClusterId)
    | StartWrite(started: JobId, row: Row)
    | FailWrite(failed: JobId)  // a deployments row only
    | ForgetWrite(forgotten: ClusterId)
    | AuditWrite(entry: Entry)

  function ApplyWrite(db: Store, w: Write): Store {
    match w
    case FinishWrite(j, st) =>
      db.(deployments := FinishRow(db.deployments, j, st), installs := FinishRow(db.installs, j, st))
    case StatusWrite(c, st) => SetStatus(db, c, st)
    case UnlatchWrite(c) => SetLatch(db, c, false)
    case LatchWrite(c) => SetLatch(db, c, true)
    case CreateWrite(c) => db.(clusters := db.clusters[c := Cluster(Pending, false)], trail := db.trail[c := [Pending]])
    case StartWrite(j, row) =>
      if Tracked(row.kind) then db.(deployments := db.deployments[j := row])
      else db.(installs := db.installs[j := row])
    case FailWrite(j) => db.(deployments := FinishRow(db.deployments, j, Failed))
    case ForgetWrite(c) => DropCluster(db, c)
    case AuditWrite(e) => Log(db, e)
  }

  // The store after the first n of the writes ws.
  function ApplyWrites(db: Store, ws: seq<Write>, n: nat): Store
    requires n <= |ws|
  {
    if n == 0 then db else ApplyWrite(ApplyWrites(db, ws, n - 1), ws[n - 1])
  }

  predicate Latched(cs: map<ClusterId, Cluster>, c: ClusterId) { c in cs && cs[c].pendingForget }

  // The store writes of the terminal block of job j run by worker w, in order. ok: the body's verdict.
  // Success writes of a tracked operation use the run context, so a cancelled one loses them all; every
  // other write uses a background context.
  function CloseWrites(db: Store, j: JobId, w: Worker, ok: bool): seq<Write> {
    var c := w.cluster;
    var (status, outcome) := FinishStatus(w.cancelled, !ok);
    var verdict := AuditWrite(Entry(Op(w.kind), c, outcome, Some(j)));
    var cascade := w.kind.Destroy? && Latched(db.clusters, c);
    if !Tracked(w.kind) then [FinishWrite(j, status), verdict]
    else if ok && w.cancelled then []
    else if ok then
      [FinishWrite(j, Succeeded), StatusWrite(c, Landed(w.kind)), verdict]
      + if cascade then [ForgetWrite(c), AuditWrite(Entry(Delete, c, OSuccess, Some(j)))] else []
    else
      [FinishWrite(j, status), StatusWrite(c, Error)]
      + (if w.kind.Destroy? then [UnlatchWrite(c)] else [])
      + [verdict]
      + if cascade then [AuditWrite(Entry(Delete, c, OFailure, Some(j)))] else []
  }

  // The whole terminal block.
  function CloseJob(s: System, j: JobId, ok: bool): System
    requires j in s.workers
  {
    var ws := CloseWrites(s.db, j, s.workers[j], ok);
    s.(db := ApplyWrites(s.db, ws, |ws|), workers := s.workers[j := s.workers[j].(phase := Closed)])
  }

  // A crash after the first n writes of the terminal block.
  function CutJob(s: System, j: JobId, ok: bool, n: nat): System
    requires j in s.workers && n <= |CloseWrites(s.db, j, s.workers[j], ok)|
  {
    Dead(ApplyWrites(s.db, CloseWrites(s.db, j, s.workers[j], ok), n), s.issued)
  }

  // A cancel lands after the first n writes of a tracked success block. The later writes use the cancelled
  // context and are lost, and so is the read of the latch; the worker goes on to unlock.
  function LoseJob(s: System, j: JobId, n: nat): System
    requires j in s.workers && n <= |CloseWrites(s.db, j, s.workers[j], true)|
  {
    s.(db := ApplyWrites(s.db, CloseWrites(s.db, j, s.workers[j], true), n),
       workers := s.workers[j := s.workers[j].(phase := Closed, cancelled := true)])
  }

  function UnlockJob(s: System, j: JobId): System
    requires j in s.workers
  {
    s.(locks := s.locks - {s.workers[j].cluster}, workers := s.workers[j := s.workers[j].(phase := Unlocked)])
  }

  function DeregisterJob(s: System, j: JobId): System {
    s.(cancelMap := s.cancelMap - {j}, workers := s.workers - {j})
  }

  // ---------- front halves, write by write ----------

  predicate IsRequest(step: Step) { step.DoCreate? || step.DoInitialize? || step.DoKickoff? || step.DoDelete? }

  // The store writes of an accepted kickoff: row, status, audit.
  function StartWrites(k: Kind, c: ClusterId, j: JobId): seq<Write> {
    [StartWrite(j, Row(c, k, Running))]
    + (if Tracked(k) then [StatusWrite(c, Transient(k))] else [])
    + [AuditWrite(Entry(Op(k), c, OStarted, Some(j)))]
  }

  function InitializeWrites(db: Store, c: ClusterId, r: InitResult): seq<Write> {
    var failed := AuditWrite(Entry(Init, c, OFailure, None));
    if c !in db.clusters then []
    else if !CanTransition(db.clusters[c].status, Initializing) then [failed]
    else match r
      case InitRejected(logged) => if logged then [failed] else []
      case InitDone =>
        [StatusWrite(c, Initializing), StatusWrite(c, Initialized), AuditWrite(Entry(Init, c, OSuccess, None))]
      case InitBroken => [StatusWrite(c, Initializing), StatusWrite(c, Error), failed]
  }

  function DeleteWrites(s: System, c: ClusterId, cascade: bool, j: JobId, fault: bool): seq<Write> {
    var failed := AuditWrite(Entry(Delete, c, OFailure, None));
    if Cascades(s.db, c, cascade) then
      if Accepts(s, Destroy, c, fault) then
        [LatchWrite(c)] + StartWrites(Destroy, c, j) + [AuditWrite(Entry(Delete, c, OStarted, Some(j)))]
      else [LatchWrite(c), UnlatchWrite(c), failed]
    else if c in s.db.clusters && s.db.clusters[c].status in DIRECT_DELETABLE then
      [ForgetWrite(c), AuditWrite(Entry(Delete, c, OSuccess, None))]
    else [failed]
  }

  // The store writes of a front half, in order.
  function RequestWrites(s: System, q: Step): seq<Write>
    requires IsRequest(q)
  {
    match q
    case DoCreate(c) => [CreateWrite(c), AuditWrite(Entry(Create, c, OSuccess, None))]
    case DoInitialize(c, r) => InitializeWrites(s.db, c, r)
    case DoKickoff(k, c, j, fault) => if Accepts(s, k, c, fault) then StartWrites(k, c, j) else []
    case DoDelete(c, cascade, j, fault) => DeleteWrites(s, c, cascade, j, fault)
  }

  // The worker a front half starts: the id, kind and cluster of a kickoff that is accepted.
  function Launch(s: System, q: Step): Option<(JobId, Kind, ClusterId)>
    requires IsRequest(q)
  {
    match q
    case DoKickoff(k, c, j, fault) => if Accepts(s, k, c, fault) then Some((j, k, c)) else None
    case DoDelete(c, cascade, j, fault) =>
      if Cascades(s.db, c, cascade) && Accepts(s, Destroy, c, fault) then Some((j, Destroy, c)) else None
    case _ => None
  }

  // How many writes must succeed for the worker to be started; the audit writes after them may fail.
  function LaunchWrites(q: Step): nat
    requires IsRequest(q)
  {
    if q.DoDelete? then 3 else if q.DoKickoff? && !Tracked(q.kind) then 1 else 2
  }

  function Drawn(q: Step): set<JobId> { if q.DoKickoff? then {q.j} else if q.DoDelete? then {q.j} else {} }

  // The request's context is cancelled after the first n writes: the later ones fail. A kickoff whose row or status
  // write fails is given up, its lock free again; one that gets past them starts its worker.
  function LoseRequest(s: System, q: Step, n: nat): System
    requires IsRequest(q) && n <= |RequestWrites(s, q)|
  {
    var t := s.(db := ApplyWrites(s.db, RequestWrites(s, q), n), issued := s.issued + Drawn(q));
    var l := Launch(s, q);
    if l.None? || n < LaunchWrites(q) then t
    else
      var (j, k, c) := l.value;
      t.(locks := s.locks + {c}, cancelMap := s.cancelMap + {j}, workers := s.workers[j := Worker(k, c, Body, false)])
  }

  // A crash after the first n writes of a front half.
  function CutRequest(s: System, q: Step, n: nat): System
    requires IsRequest(q) && n <= |RequestWrites(s, q)|
  {
    Dead(ApplyWrites(s.db, RequestWrites(s, q), n), s.issued + Drawn(q))
  }

  // ---------- crash and boot ----------

  // The process is gone; only the store survives.
  function Dead(db: Store, issued: set<JobId>): System {
    System(db, false, {}, {}, map[], issued)
  }

  predicate IsRunning(rows: map<JobId, Row>, j: JobId) { j in rows && rows[j].status == Running }

  // The clusters of the rows a dead process left running.
  function Orphaned(db: Store): set<ClusterId> {
    set j | j in db.deployments && IsRunning(db.deployments, j) :: db.deployments[j].cluster
  }

  // What orphan recovery leaves in the store.
  function Recovered(db: Store): Store {
    var hit := Orphaned(db);
    db.(deployments := map j | j in db.deployments ::
                         if IsRunning(db.deployments, j) then db.deployments[j].(status := Failed)
                         else db.deployments[j],
        clusters := map c | c in db.clusters :: if c in hit then Cluster(Error, false) else db.clusters[c],
        trail := map c | c in db.trail ::
                   if c in hit && c in db.clusters && db.clusters[c].status != Error
                   then db.trail[c] + [Error] else db.trail[c])
  }

  function RunningJobs(db: Store): set<JobId> { set j | j in db.deployments && IsRunning(db.deployments, j) }

  function HitBy(db: Store, done: set<JobId>): set<ClusterId> {
    set j | j in done && j in db.deployments :: db.deployments[j].cluster
  }

  function RowsAfter(rows: map<JobId, Row>, done: set<JobId>): map<JobId, Row> {
    map j | j in rows :: if j in done then rows[j].(status := Failed) else rows[j]
  }

  function ClustersAfter(cs: map<ClusterId, Cluster>, hit: set<ClusterId>): map<ClusterId, Cluster> {
    map c | c in cs :: if c in hit then Cluster(Error, false) else cs[c]
  }

  function TrailAfter(cs: map<ClusterId, Cluster>, trail: map<ClusterId, seq<Status>>, hit: set<ClusterId>)
    : map<ClusterId, seq<Status>>
  {
    map c | c in trail :: if c in hit && c in cs && cs[c].status != Error then trail[c] + [Error] else trail[c]
  }

  // The store after the orphans in done have been handled.
  function RecoveredSome(db: Store, done: set<JobId>): Store {
    var hit := HitBy(db, done);
    db.(deployments := RowsAfter(db.deployments, done),
        clusters := ClustersAfter(db.clusters, hit),
        trail := TrailAfter(db.clusters, db.trail, hit))
  }

  // What recovery writes for one orphan: finish its row, flip its cluster, clear the latch.
  function RecoverWrites(db: Store, j: JobId): seq<Write>
    requires j in db.deployments
  {
    var c := db.deployments[j].cluster;
    [FailWrite(j), StatusWrite(c, Error), UnlatchWrite(c)]
  }

  // Recovery stopped n writes into orphan j, those in done behind it.
  function CutRecovery(db: Store, done: set<JobId>, j: JobId, n: nat): Store
    requires j in db.deployments && n <= 3
  {
    ApplyWrites(RecoveredSome(db, done), RecoverWrites(db, j), n)
  }

  // ---------- steps and runs ----------

  datatype Step =
    | DoCreate(c: ClusterId)
    | DoInitialize(c: ClusterId, result: InitResult)
    | DoKickoff(kind: Kind, c: ClusterId, j: JobId, fault: bool)
    | DoDelete(c: ClusterId, cascade: bool, j: JobId, fault: bool)
    | DoCancel(j: JobId)
    | DoClose(j: JobId, ok: bool)
    | DoLose(j: JobId, n: nat)           // a cancel after n writes of j's success block
    | DoUnlock(j: JobId)
    | DoDeregister(j: JobId)
    | DoCrash
    | DoCut(j: JobId, ok: bool, n: nat)  // crash after n writes of j's terminal block
    | DoBoot
    | DoCutRequest(request: Step, n: nat)   // crash after n writes of a front half
    | DoLoseRequest(request: Step, n: nat)  // the client goes away after n writes of a front half
    | DoCutBoot(done: set<JobId>, j: JobId, n: nat)  // crash inside recovery, n writes into orphan j

  // Steps of boot recovery.
  predicate IsBoot(step: Step) { step.DoBoot? || step.DoCutBoot? }

  predicate InPhase(s: System, j: JobId, p: Phase) { j in s.workers && s.workers[j].phase == p }

  predicate Enabled(s: System, step: Step) {
    if step.DoBoot? then !s.up
    else if step.DoCutBoot? then
      && !s.up && step.done <= RunningJobs(s.db) && step.j in RunningJobs(s.db) && step.j !in step.done && step.n <= 3
    else s.up && match step
      case DoCreate(c) => c !in s.db.trail
      case DoKickoff(_, _, j, _) => j !in s.issued
      case DoDelete(_, _, j, _) => j !in s.issued
      case DoClose(j, _) => InPhase(s, j, Body)
      case DoLose(j, n) =>
        && InPhase(s, j, Body) && j in s.cancelMap && Tracked(s.workers[j].kind) && !s.workers[j].cancelled
        && n <= |CloseWrites(s.db, j, s.workers[j], true)|
      case DoUnlock(j) => InPhase(s, j, Closed)
      case DoDeregister(j) => InPhase(s, j, Unlocked)
      case DoCut(j, ok, n) => InPhase(s, j, Body) && n <= |CloseWrites(s.db, j, s.workers[j], ok)|
      case DoCutRequest(q, n) => IsRequest(q) && Enabled(s, q) && n <= |RequestWrites(s, q)|
      case DoLoseRequest(q, n) => IsRequest(q) && Enabled(s, q) && n <= |RequestWrites(s, q)|
      case _ => true
  }

  function Next(s: System, step: Step): System
    requires Enabled(s, step)
  {
    match step
    case DoCreate(c) => s.(db := CreateCluster(s.db, c))
    case DoInitialize(c, r) => s.(db := Initialize(s.db, c, r))
    case DoKickoff(k, c, j, fault) => Kickoff(s, k, c, j, fault)
    case DoDelete(c, cascade, j, fault) => DeleteRequest(s, c, cascade, j, fault)
    case DoCancel(j) => CancelJob(s, j)
    case DoClose(j, ok) => CloseJob(s, j, ok)
    case DoLose(j, n) => LoseJob(s, j, n)
    case DoUnlock(j) => UnlockJob(s, j)
    case DoDeregister(j) => DeregisterJob(s, j)
    case DoCrash => Dead(s.db, s.issued)
    case DoCut(j, ok, n) => CutJob(s, j, ok, n)
    case DoBoot => s.(db := Recovered(s.db), up := true)
    case DoCutRequest(q, n) => CutRequest(s, q, n)
    case DoLoseRequest(q, n) => LoseRequest(s, q, n)
    case DoCutBoot(done, j, n) => Dead(CutRecovery(s.db, done, j, n), s.issued)
  }

  ghost predicate Legal(s: System, run: seq<Step>)
    decreases |run|
  {
    run == [] || (Enabled(s, run[0]) && Legal(Next(s, run[0]), run[1..]))
  }

  ghost function After(s: System, run: seq<Step>): System
    requires Legal(s, run)
    decreases |run|
  {
    if run == [] then s else After(Next(s, run[0]), run[1..])
  }
}
