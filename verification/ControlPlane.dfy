/**
  The api process as the source writes it: fields updated in place, write by write, each method proved
  against the transition system of Lifecycle.
 */
module ControlPlane {
  import opened Common
  import opened StateMachine
  import opened Lifecycle
  import opened LifecycleRequests
  import LifecycleGround

  // One orphan: finish its row, flip its cluster, clear the latch.
  function RecoverOne(db: Store, j: JobId): Store
    requires j in db.deployments
  {
    var c := db.deployments[j].cluster;
    SetLatch(SetStatus(db.(deployments := FinishRow(db.deployments, j, Failed)), c, Error), c, false)
  }

  lemma HitNext(db: Store, done: set<JobId>, j: JobId)
    requires j in db.deployments
    ensures HitBy(db, done + {j}) == HitBy(db, done) + {db.deployments[j].cluster}
  {
    forall c | c in HitBy(db, done) + {db.deployments[j].cluster} ensures c in HitBy(db, done + {j}) {
      if c in HitBy(db, done) {
        var i :| i in done && i in db.deployments && db.deployments[i].cluster == c;
        assert i in done + {j};
      }
    }
  }

  lemma RecoverNext(db: Store, done: set<JobId>, j: JobId)
    requires db.clusters.Keys <= db.trail.Keys && j in db.deployments
    ensures RecoverOne(RecoveredSome(db, done), j) == RecoveredSome(db, done + {j})
  {
    HitNext(db, done, j);
    var mid := RecoveredSome(db, done);
    var c := db.deployments[j].cluster;
    assert mid.deployments[j].cluster == c;
    assert FinishRow(mid.deployments, j, Failed) == RowsAfter(db.deployments, done + {j});
    RecoverCluster(db, done, done + {j}, c);
  }

  lemma ClustersNext(cs: map<ClusterId, Cluster>, hit: set<ClusterId>, c: ClusterId)
    requires c in cs
    ensures ClustersAfter(cs, hit + {c}) == ClustersAfter(cs, hit)[c := Cluster(Error, false)]
  {}

  lemma TrailNext(cs: map<ClusterId, Cluster>, trail: map<ClusterId, seq<Status>>, hit: set<ClusterId>, c: ClusterId)
    requires c in trail
    ensures var t := TrailAfter(cs, trail, hit);
            TrailAfter(cs, trail, hit + {c})
            == if c !in hit && c in cs && cs[c].status != Error then t[c := t[c] + [Error]] else t
  {}

  // The status and latch writes of one orphan on cluster c.
  lemma RecoverCluster(db: Store, done: set<JobId>, done': set<JobId>, c: ClusterId)
    requires db.clusters.Keys <= db.trail.Keys && HitBy(db, done') == HitBy(db, done) + {c}
    ensures var mid := RecoveredSome(db, done).(deployments := RowsAfter(db.deployments, done'));
            SetLatch(SetStatus(mid, c, Error), c, false) == RecoveredSome(db, done')
  {
    var hit := HitBy(db, done);
    if c in db.clusters {
      ClustersNext(db.clusters, hit, c);
      TrailNext(db.clusters, db.trail, hit, c);
    } else {
      assert ClustersAfter(db.clusters, hit + {c}) == ClustersAfter(db.clusters, hit);
      assert TrailAfter(db.clusters, db.trail, hit + {c}) == TrailAfter(db.clusters, db.trail, hit);
    }
  }

  // b holds exactly the rows of a that are not of cluster c, as they were.
  ghost predicate OnlyRowsLeft(a: map<JobId, Row>, b: map<JobId, Row>, c: ClusterId) {
    && (forall j :: j in b <==> j in a && a[j].cluster != c)
    && (forall j :: j in b ==> b[j] == a[j])
  }

  // That fixes what is left.
  lemma OnlyRowsLeftIsWithout(a: map<JobId, Row>, b: map<JobId, Row>, c: ClusterId)
    requires OnlyRowsLeft(a, b, c)
    ensures b == RowsWithout(a, c)
  {}

  // lands: how many store writes of a request come before its context is cancelled, None if it never is.
  predicate InTime(lands: Option<nat>, k: nat) { lands.Some? ==> k < lands.value }

  // How many of at most most writes are made.
  function Made(lands: Option<nat>, most: nat): nat { if lands.Some? && lands.value < most then lands.value else most }

  // Whether the run context is still good for the success block's store call number k.
  predicate Alive(w: Worker, lands: Option<nat>, k: nat) { !w.cancelled && (lands.None? || k < lands.value) }

  // The status an accepted initialization leaves.
  function Passed(before: Status, r: InitResult, lands: Option<nat>): Status {
    if !InTime(lands, 0) then before else if InTime(lands, 1) then InitResting(r) else Initializing
  }

  // An accepted cascade is the kickoff on the latched cluster, and then its own audit row.
  lemma CascadeGoesOn(s: System, c: ClusterId, cascade: bool, j: JobId, fault: bool, made: nat)
    requires Cascades(s.db, c, cascade) && Accepts(s, Destroy, c, fault) && made <= 3
    ensures var q, kick := DoDelete(c, cascade, j, fault), DoKickoff(Destroy, c, j, fault);
            var l := s.(db := SetLatch(s.db, c, true));
            && |RequestWrites(s, q)| == 5 && |RequestWrites(l, kick)| == 3
            && LoseRequest(s, q, 1 + made) == LoseRequest(l, kick, made)
            && LoseRequest(s, q, 5)
               == LoseRequest(s, q, 4).(db := Log(LoseRequest(s, q, 4).db, Entry(Delete, c, OStarted, Some(j))))
            && LoseRequest(s, q, 5) == DeleteRequest(s, c, cascade, j, fault)
  {
    var l := SetLatch(s.db, c, true);
    assert RequestWrites(s, DoDelete(c, cascade, j, fault)) == CascadeWrites(c, j);
    CascadeIs(s.db, c, j, 1 + made);
    CascadeIs(s.db, c, j, 4);
    CascadeIs(s.db, c, j, 5);
    StartIs(l, Destroy, c, j, made);
    StartIs(l, Destroy, c, j, 3);
  }

  // An accepted kickoff, stopped after n writes or whole.
  lemma KickoffIs(s: System, k: Kind, c: ClusterId, j: JobId, fault: bool, n: nat)
    requires Accepts(s, k, c, fault) && n <= if Tracked(k) then 3 else 2
    ensures |StartWrites(k, c, j)| == if Tracked(k) then 3 else 2
    ensures var t := s.(db := ApplyWrites(s.db, StartWrites(k, c, j), n), issued := s.issued + {j});
            LoseRequest(s, DoKickoff(k, c, j, fault), n)
            == if n < LaunchWrites(DoKickoff(k, c, j, fault)) then t
               else t.(locks := s.locks + {c}, cancelMap := s.cancelMap + {j},
                       workers := s.workers[j := Worker(k, c, Body, false)])
    ensures LoseRequest(s, DoKickoff(k, c, j, fault), |StartWrites(k, c, j)|) == Kickoff(s, k, c, j, fault)
  {
    StartIs(s.db, k, c, j, |StartWrites(k, c, j)|);
  }

  // What DELETE writes once the kickoff has answered: the roll-back and its row, or the row of the destroy begun.
  function Answered(db: Store, c: ClusterId, j: JobId, ok: bool, made: nat, lands: Option<nat>): Store {
    if ok then if InTime(lands, 1 + made) then Log(db, Entry(Delete, c, OStarted, Some(j))) else db
    else
      var d1 := if InTime(lands, 1 + made) then SetLatch(db, c, false) else db;
      if InTime(lands, 2 + made) then Log(d1, Entry(Delete, c, OFailure, None)) else d1
  }

  function OneLess(lands: Option<nat>): Option<nat>
    requires InTime(lands, 0)
  {
    if lands.None? then None else Some(lands.value - 1)
  }

  lemma AcceptedCascadeIsRequest(s: System, c: ClusterId, cascade: bool, j: JobId, fault: bool, lands: Option<nat>,
                                 made: nat)
    requires Cascades(s.db, c, cascade) && InTime(lands, 0) && Accepts(s, Destroy, c, fault)
    requires made == Made(OneLess(lands), 3)
    ensures var q := DoDelete(c, cascade, j, fault);
            && |RequestWrites(s, q)| == 5
            && var t := LoseRequest(s, q, 1 + made);
               t.(db := Answered(t.db, c, j, made >= 2, made, lands)) == LoseRequest(s, q, Made(lands, 5))
  {
    CascadeGoesOn(s, c, cascade, j, fault, made);
    if made < 3 {
      assert lands == Some(1 + made);
    } else {
      assert Made(lands, 5) == if InTime(lands, 4) then 5 else 4;
    }
  }

  lemma RefusedCascadeIsRequest(s: System, c: ClusterId, cascade: bool, j: JobId, fault: bool, lands: Option<nat>)
    requires Cascades(s.db, c, cascade) && InTime(lands, 0) && !Accepts(s, Destroy, c, fault)
    ensures var ws := DeleteWrites(s, c, cascade, j, fault);
            && |ws| == 3
            && Answered(SetLatch(s.db, c, true), c, j, false, 0, lands) == ApplyWrites(s.db, ws, Made(lands, 3))
  {
    ApplyThree(s.db, DeleteWrites(s, c, cascade, j, fault));
  }

  // Latch, kickoff and answer are the request, as far as its context lasts.
  lemma CascadeIsRequest(s: System, c: ClusterId, cascade: bool, j: JobId, fault: bool, lands: Option<nat>, made: nat)
    requires Cascades(s.db, c, cascade) && InTime(lands, 0)
    requires made == if Accepts(s, Destroy, c, fault) then Made(OneLess(lands), 3) else 0
    ensures var q, kick := DoDelete(c, cascade, j, fault), DoKickoff(Destroy, c, j, fault);
            var l := s.(db := SetLatch(s.db, c, true));
            && made <= |RequestWrites(l, kick)|
            && var t := LoseRequest(l, kick, made);
               t.(db := Answered(t.db, c, j, made >= 2, made, lands))
               == LoseRequest(s, q, Made(lands, |RequestWrites(s, q)|))
  {
    if Accepts(s, Destroy, c, fault) {
      CascadeGoesOn(s, c, cascade, j, fault, made);
      AcceptedCascadeIsRequest(s, c, cascade, j, fault, lands, made);
    } else {
      RefusedCascadeIsRequest(s, c, cascade, j, fault, lands);
    }
  }

  // An accepted initialization, n writes in.
  lemma InitAcceptedIs(db: Store, c: ClusterId, r: InitResult, n: nat)
    requires InitAccepted(db, c, r) && n <= 3
    ensures |InitializeWrites(db, c, r)| == 3
    ensures ApplyWrites(db, InitializeWrites(db, c, r), n)
            == if n < 3 then InitializedBy(db, c, InitResting(r), n)
               else Log(InitializedBy(db, c, InitResting(r), 2),
                        Entry(Init, c, if r.InitBroken? then OFailure else OSuccess, None))
  {
    ApplyThree(db, InitializeWrites(db, c, r));
  }

  lemma InitializedClusters(db: Store, c: ClusterId, x: Status, n: nat)
    requires c in db.clusters && n <= 2
    ensures InitializedBy(db, c, x, n).clusters
            == db.clusters[c := db.clusters[c].(status := if n == 0 then db.clusters[c].status
                                                          else if n == 1 then Initializing else x)]
  {
    assert db.clusters == db.clusters[c := db.clusters[c]];
  }

  class Process {
    var clusters: map<ClusterId, Cluster>
    var deployments: map<JobId, Row>
    var installs: map<JobId, Row>
    var auditLog: seq<Entry>
    ghost var trail: map<ClusterId, seq<Status>>
    var up: bool
    var held: set<ClusterId>  // what Held() is to the shared ClusterMutex
    var cancelMap: set<JobId>
    var workers: map<JobId, Worker>
    ghost var issued: set<JobId>

    ghost function Db(): Store
      reads this
    {
      Store(clusters, deployments, installs, auditLog, trail)
    }

    ghost function View(): System
      reads this
    {
      System(Db(), up, held, cancelMap, workers, issued)
    }

    // ---------- store ----------

    method UpdateClusterStatus(c: ClusterId, st: Status)
      modifies this`clusters, this`trail
      ensures View() == old(View()).(db := SetStatus(old(Db()), c, st))
    {
      if c in clusters && clusters[c].status != st {
        trail := trail[c := (if c in trail then trail[c] else []) + [st]];
        clusters := clusters[c := clusters[c].(status := st)];
      }
    }

    method SetPendingForget(c: ClusterId, latch: bool)
      modifies this`clusters
      ensures View() == old(View()).(db := SetLatch(old(Db()), c, latch))
    {
      if c in clusters {
        clusters := clusters[c := clusters[c].(pendingForget := latch)];
      }
    }

    method FinishDeployment(j: JobId, st: RowStatus)
      modifies this
      ensures View() == old(View()).(db := old(Db()).(deployments := FinishRow(old(deployments), j, st)))
    {
      if j in deployments {
        deployments := deployments[j := deployments[j].(status := st)];
      }
    }

    method FinishInstall(j: JobId, st: RowStatus)
      modifies this
      ensures View() == old(View()).(db := old(Db()).(installs := FinishRow(old(installs), j, st)))
    {
      if j in installs {
        installs := installs[j := installs[j].(status := st)];
      }
    }

    // ON DELETE CASCADE: c's rows go with it, no other row and no other cluster does; the log stays.
    method DeleteClusterRow(c: ClusterId)
      modifies this
      ensures c !in clusters && forall d :: d != c ==>
                && (d in clusters <==> d in old(clusters)) && (d in clusters ==> clusters[d] == old(clusters)[d])
      ensures OnlyRowsLeft(old(deployments), deployments, c) && OnlyRowsLeft(old(installs), installs, c)
      ensures View() == old(View()).(db := old(Db()).(clusters := clusters, deployments := deployments,
                                                      installs := installs))
    {
      clusters := clusters - {c};
      deployments := RowsWithout(deployments, c);
      installs := RowsWithout(installs, c);
    }

    // DeleteClusterRow in the protocol's terms.
    method DropRow(c: ClusterId)
      modifies this
      ensures View() == old(View()).(db := DropCluster(old(Db()), c))
    {
      DeleteClusterRow(c);
      assert clusters == old(clusters) - {c};
      OnlyRowsLeftIsWithout(old(deployments), deployments, c);
      OnlyRowsLeftIsWithout(old(installs), installs, c);
    }

    method WriteAudit(e: Entry)
      modifies this`auditLog
      ensures View() == old(View()).(db := Log(old(Db()), e))
    {
      auditLog := auditLog + [e];
    }

    // ---------- front halves ----------

    // The cancel entry and the goroutine.
    method Register(k: Kind, c: ClusterId, j: JobId)
      modifies this`cancelMap, this`workers
      ensures cancelMap == old(cancelMap) + {j} && workers == old(workers)[j := Worker(k, c, Body, false)]
    {
      cancelMap := cancelMap + {j};
      workers := workers[j := Worker(k, c, Body, false)];
    }

    // The row and the status, both of which must succeed, and the audit row.
    method WriteStart(k: Kind, c: ClusterId, j: JobId, lands: Option<nat>) returns (ok: bool)
      requires Tracked(k)
      modifies this`clusters, this`trail, this`deployments, this`auditLog
      ensures Db() == StartedBy(old(Db()), k, c, j, Made(lands, 3))
      ensures ok == (Made(lands, 3) >= 2)
    {
      if InTime(lands, 0) {
        deployments := deployments[j := Row(c, k, Running)];
      }
      if !InTime(lands, 1) {
        return false;
      }
      UpdateClusterStatus(c, Transient(k));
      if InTime(lands, 2) {
        WriteAudit(Entry(Op(k), c, OStarted, Some(j)));
      }
      return true;
    }

    // The rest of a kickoff that holds the lock and has its log file.
    method StartOrUnlock(k: Kind, c: ClusterId, j: JobId, lands: Option<nat>) returns (ok: bool)
      requires Tracked(k) && |StartWrites(k, c, j)| == 3
      modifies this
      ensures ok == (Made(lands, 3) >= 2)
      ensures var t := old(View()).(db := ApplyWrites(old(Db()), StartWrites(k, c, j), Made(lands, 3)),
                                    issued := old(issued) + {j});
              View() == if ok then t.(cancelMap := old(cancelMap) + {j},
                                      workers := old(workers)[j := Worker(k, c, Body, false)])
                        else t.(locks := old(held) - {c})
    {
      issued := issued + {j};
      ok := WriteStart(k, c, j, lands);
      StartIs(old(Db()), k, c, j, Made(lands, 3));
      if ok {
        Register(k, c, j);
      } else {
        held := held - {c};
      }
    }

    // Deploy, Destroy and Upgrade: api/internal/deployments. made: the store writes that went through.
    method Launch(k: Kind, c: ClusterId, j: JobId, noProfile: bool, noLogFile: bool, lands: Option<nat>)
      returns (ok: bool, made: nat)
      requires Tracked(k)
      modifies this
      ensures lands.None? ==> View() == Kickoff(old(View()), k, c, j, noProfile || noLogFile)
      ensures made == if Accepts(old(View()), k, c, noProfile || noLogFile) then Made(lands, 3) else 0
      ensures ok == (made >= 2) && old(issued) <= issued <= old(issued) + {j}
      ensures made <= |RequestWrites(old(View()), DoKickoff(k, c, j, noProfile || noLogFile))|
      ensures View() == LoseRequest(old(View()), DoKickoff(k, c, j, noProfile || noLogFile), made).(issued := issued)
    {
      if c !in clusters || !CanTransition(clusters[c].status, Transient(k)) || noProfile {
        return false, 0;
      }
      if c in held {
        return false, 0;
      }
      held := held + {c};
      if noLogFile {
        held := held - {c};
        assert held == old(held);
        return false, 0;
      }
      KickoffIs(old(View()), k, c, j, noProfile || noLogFile, Made(lands, 3));
      ok := StartOrUnlock(k, c, j, lands);
      made := Made(lands, 3);
      assert ok || held == old(held);
    }

    method StartHelm(k: Kind, c: ClusterId, j: JobId, lands: Option<nat>) returns (ok: bool)
      requires !Tracked(k)
      modifies this
      ensures |StartWrites(k, c, j)| == 2 && Db() == ApplyWrites(old(Db()), StartWrites(k, c, j), Made(lands, 2))
      ensures ok == InTime(lands, 0)
      ensures View() == if !ok then old(View()).(db := Db())
                        else old(View()).(db := Db(), cancelMap := old(cancelMap) + {j},
                                          workers := old(workers)[j := Worker(k, c, Body, false)])
    {
      ApplyThree(Db(), StartWrites(k, c, j));
      if !InTime(lands, 0) {
        return false;
      }
      installs := installs[j := Row(c, k, Running)];
      if InTime(lands, 1) {
        WriteAudit(Entry(Op(k), c, OStarted, Some(j)));
      }
      Register(k, c, j);
      return true;
    }

    // Install, Upgrade, Uninstall and InstallBundle: api/internal/apps.
    method LaunchHelm(k: Kind, c: ClusterId, j: JobId, systemRelease: bool, force: bool, noLogFile: bool,
                      lands: Option<nat>)
      returns (ok: bool)
      requires !Tracked(k)
      modifies this
      ensures lands.None? ==>
                View() == Kickoff(old(View()), k, c, j, (k.HelmUninstall? && systemRelease && !force) || noLogFile)
      ensures var fault := (k.HelmUninstall? && systemRelease && !force) || noLogFile;
              var made := if Accepts(old(View()), k, c, fault) then Made(lands, 2) else 0;
              && ok == (made >= 1) && old(issued) <= issued <= old(issued) + {j}
              && made <= |RequestWrites(old(View()), DoKickoff(k, c, j, fault))|
              && View() == LoseRequest(old(View()), DoKickoff(k, c, j, fault), made).(issued := issued)
    {
      if k.HelmUninstall? && systemRelease && !force {
        return false;
      }
      if c in held {
        return false;
      }
      held := held + {c};
      if noLogFile || c !in clusters {
        held := held - {c};
        assert held == old(held);
        return false;
      }
      StartIs(Db(), k, c, j, 2);
      KickoffIs(old(View()), k, c, j, (k.HelmUninstall? && systemRelease && !force) || noLogFile, Made(lands, 2));
      issued := issued + {j};
      ok := StartHelm(k, c, j, lands);
      if !ok {
        held := held - {c};
        assert held == old(held);
      }
    }

    method Answer(c: ClusterId, j: JobId, ok: bool, made: nat, lands: Option<nat>)
      modifies this`clusters, this`auditLog
      ensures Db() == Answered(old(Db()), c, j, ok, made, lands)
    {
      if ok {
        if InTime(lands, 1 + made) {
          WriteAudit(Entry(Delete, c, OStarted, Some(j)));
        }
      } else {
        if InTime(lands, 1 + made) {
          SetPendingForget(c, false);
        }
        if InTime(lands, 2 + made) {
          WriteAudit(Entry(Delete, c, OFailure, None));
        }
      }
    }

    // The cascade branch: latch, kickoff, and the roll-back of the latch if there was none.
    method CascadeDelete(c: ClusterId, cascade: bool, j: JobId, noProfile: bool, noLogFile: bool, lands: Option<nat>)
      requires Cascades(Db(), c, cascade)
      modifies this
      ensures lands.None? ==> View() == DeleteRequest(old(View()), c, cascade, j, noProfile || noLogFile)
      ensures var q := DoDelete(c, cascade, j, noProfile || noLogFile);
              && old(issued) <= issued <= old(issued) + {j}
              && View() == LoseRequest(old(View()), q, Made(lands, |RequestWrites(old(View()), q)|)).(issued := issued)
    {
      if !InTime(lands, 0) {
        return;
      }
      CascadeIsRequest(View(), c, cascade, j, noProfile || noLogFile, lands,
                       if Accepts(View(), Destroy, c, noProfile || noLogFile) then Made(OneLess(lands), 3) else 0);
      SetPendingForget(c, true);
      var ok, made := Launch(Destroy, c, j, noProfile, noLogFile, OneLess(lands));
      Answer(c, j, ok, made, lands);
    }

    // Handler.Delete: api/internal/clusters/handlers.go.
    method DeleteCluster(c: ClusterId, cascade: bool, j: JobId, noProfile: bool, noLogFile: bool, lands: Option<nat>)
      modifies this
      ensures lands.None? ==> View() == DeleteRequest(old(View()), c, cascade, j, noProfile || noLogFile)
      ensures var q := DoDelete(c, cascade, j, noProfile || noLogFile);
              && old(issued) <= issued <= old(issued) + {j}
              && View() == LoseRequest(old(View()), q, Made(lands, |RequestWrites(old(View()), q)|)).(issued := issued)
    {
      ghost var ws := DeleteWrites(View(), c, cascade, j, noProfile || noLogFile);
      ApplyThree(Db(), ws);
      if c in clusters && cascade && clusters[c].status in CASCADE_DELETABLE {
        CascadeDelete(c, cascade, j, noProfile, noLogFile, lands);
      } else if c !in clusters || clusters[c].status !in DIRECT_DELETABLE {
        if InTime(lands, 0) {
          WriteAudit(Entry(Delete, c, OFailure, None));
        }
      } else if InTime(lands, 0) {
        DropRow(c);
        if InTime(lands, 1) {
          WriteAudit(Entry(Delete, c, OSuccess, None));
        }
      }
    }

    // Past the checks: through Initializing to where it comes to rest.
    method PassThrough(c: ClusterId, r: InitResult, lands: Option<nat>)
      requires InitAccepted(Db(), c, r)
      modifies this`clusters, this`trail, this`auditLog
      ensures var ws := InitializeWrites(old(Db()), c, r);
              |ws| == 3 && Db() == ApplyWrites(old(Db()), ws, Made(lands, 3))
      ensures clusters.Keys == old(clusters).Keys
      ensures forall d :: d in clusters && d != c ==> clusters[d] == old(clusters)[d]
      ensures clusters[c] == old(clusters)[c].(status := Passed(old(clusters)[c].status, r, lands))
    {
      ghost var before := Db();
      var x := InitResting(r);
      if InTime(lands, 0) {
        UpdateClusterStatus(c, Initializing);
      }
      assert Db() == InitializedBy(before, c, x, Made(lands, 1));
      if InTime(lands, 1) {
        UpdateClusterStatus(c, x);
      }
      assert Db() == InitializedBy(before, c, x, Made(lands, 2));
      InitializedClusters(before, c, x, Made(lands, 2));
      if InTime(lands, 2) {
        WriteAudit(Entry(Init, c, if r.InitBroken? then OFailure else OSuccess, None));
      }
      InitAcceptedIs(before, c, r, Made(lands, 3));
    }

    // The status path of Initializer.Handle: api/internal/clusters/initialize.go.
    method InitializeCluster(c: ClusterId, r: InitResult, lands: Option<nat>)
      modifies this`clusters, this`trail, this`auditLog
      ensures var ws := InitializeWrites(old(Db()), c, r);
              Db() == ApplyWrites(old(Db()), ws, Made(lands, |ws|))
      ensures clusters.Keys == old(clusters).Keys
      ensures forall d :: d in clusters && d != c ==> clusters[d] == old(clusters)[d]
      ensures c in clusters ==>
                clusters[c] == old(clusters)[c].(status :=
                  if InitAccepted(old(Db()), c, r) then Passed(old(clusters)[c].status, r, lands)
                  else old(clusters)[c].status)
    {
      if c in clusters {
        ApplyThree(Db(), InitializeWrites(Db(), c, r));
        if !CanTransition(clusters[c].status, Initializing) || (r.InitRejected? && r.logged) {
          if InTime(lands, 0) {
            WriteAudit(Entry(Init, c, OFailure, None));
          }
        } else if !r.InitRejected? {
          PassThrough(c, r, lands);
        }
      }
    }

    // One flag of one job at most; nothing is written until the worker ends.
    method Cancel(j: JobId) returns (ok: bool)
      modifies this`workers
      ensures ok == (j in old(cancelMap))
      ensures View() == CancelJob(old(View()), j)
      ensures workers.Keys == old(workers).Keys && forall i :: i in workers && i != j ==> workers[i] == old(workers)[i]
      ensures j in workers ==>
                && workers[j].cancelled == (ok || old(workers)[j].cancelled)
                && workers[j].kind == old(workers)[j].kind && workers[j].cluster == old(workers)[j].cluster
                && workers[j].phase == old(workers)[j].phase
    {
      ok := j in cancelMap;
      if ok && j in workers {
        workers := workers[j := workers[j].(cancelled := true)];
      }
    }

    // ---------- terminal blocks ----------

    // The row, the status and the verdict.
    method SettleSuccess(j: JobId, w: Worker, lands: Option<nat>)
      requires j in workers && w == workers[j] && Tracked(w.kind) && j !in installs
      modifies this
      ensures var ws := CloseWrites(old(Db()), j, w.(cancelled := false), true);
              var n := if w.cancelled then 0 else if lands.Some? && lands.value < 3 then lands.value else 3;
              View() == old(View()).(db := ApplyWrites(old(Db()), ws, n))
      ensures Latched(clusters, w.cluster) == Latched(old(clusters), w.cluster)
    {
      ghost var ws := CloseWrites(Db(), j, w.(cancelled := false), true);
      ghost var before := Db();
      if Alive(w, lands, 0) {
        FinishDeployment(j, Succeeded);
        assert Db() == ApplyWrites(before, ws, 1);
      }
      if Alive(w, lands, 1) {
        UpdateClusterStatus(w.cluster, Landed(w.kind));
        assert Db() == ApplyWrites(before, ws, 2);
      }
      if Alive(w, lands, 2) {
        WriteAudit(Entry(Op(w.kind), w.cluster, OSucceeded, Some(j)));
        assert Db() == ApplyWrites(before, ws, 3);
      }
    }

    // The success tail of run, runDestroy and runUpgrade. Its store calls carry the run context: lands is how many
    // of them come before a cancel lands in their midst, None if none does.
    method Succeed(j: JobId, lands: Option<nat>)
      requires j in workers && Tracked(workers[j].kind) && j !in installs
      requires lands.Some? ==> !workers[j].cancelled && lands.value <= |CloseWrites(Db(), j, workers[j], true)|
      modifies this
      ensures View() == if lands.Some? then LoseJob(old(View()), j, lands.value) else CloseJob(old(View()), j, true)
    {
      var w := workers[j];
      var c := w.cluster;
      ghost var ws := CloseWrites(Db(), j, w, true);
      ghost var before := Db();
      SettleSuccess(j, w, lands);
      if Alive(w, lands, 3) && w.kind.Destroy? && c in clusters && clusters[c].pendingForget {
        assert Latched(before.clusters, c) && Db() == ApplyWrites(before, ws, 3);
        DropRow(c);
        assert Db() == ApplyWrites(before, ws, 4);
        if Alive(w, lands, 4) {
          WriteAudit(Entry(Delete, c, OSuccess, Some(j)));
        }
      }
      workers := workers[j := w.(phase := Closed, cancelled := w.cancelled || lands.Some?)];
    }

    // The fail closures of run, runDestroy and runUpgrade. Their store calls use a background context.
    method Fail(j: JobId)
      requires j in workers && Tracked(workers[j].kind) && j !in installs
      modifies this
      ensures View() == CloseJob(old(View()), j, false)
    {
      var w := workers[j];
      var c := w.cluster;
      ghost var ws := CloseWrites(Db(), j, w, false);
      ghost var before := Db();
      var (status, outcome) := FinishStatus(w.cancelled, true);
      FinishDeployment(j, status);
      assert Db() == ApplyWrites(before, ws, 1);
      UpdateClusterStatus(c, Error);
      assert Db() == ApplyWrites(before, ws, 2);
      var hadLatch := false;
      if w.kind.Destroy? {
        hadLatch := c in clusters && clusters[c].pendingForget;
        SetPendingForget(c, false);
        assert Db() == ApplyWrites(before, ws, 3);
      }
      WriteAudit(Entry(Op(w.kind), c, outcome, Some(j)));
      assert Db() == ApplyWrites(before, ws, if w.kind.Destroy? then 4 else 3);
      if hadLatch {
        WriteAudit(Entry(Delete, c, OFailure, Some(j)));
      }
      assert Db() == ApplyWrites(before, ws, |ws|);
      workers := workers[j := w.(phase := Closed)];
    }

    // The finish closures of the apps executor.
    method FinishHelm(j: JobId, ok: bool)
      requires j in workers && !Tracked(workers[j].kind) && j !in deployments
      modifies this
      ensures View() == CloseJob(old(View()), j, ok)
    {
      var w := workers[j];
      ghost var ws := CloseWrites(Db(), j, w, ok);
      ghost var before := Db();
      var (status, outcome) := FinishStatus(w.cancelled, !ok);
      FinishInstall(j, status);
      assert Db() == ApplyWrites(before, ws, 1);
      WriteAudit(Entry(Op(w.kind), w.cluster, outcome, Some(j)));
      assert Db() == ApplyWrites(before, ws, 2);
      workers := workers[j := w.(phase := Closed)];
    }

    method Unlock(j: JobId)
      requires j in workers
      modifies this
      ensures View() == UnlockJob(old(View()), j)
    {
      held := held - {workers[j].cluster};
      workers := workers[j := workers[j].(phase := Unlocked)];
    }

    method Deregister(j: JobId)
      modifies this
      ensures View() == DeregisterJob(old(View()), j)
    {
      cancelMap := cancelMap - {j};
      workers := workers - {j};
    }

    // ---------- boot ----------

    // RecoverOrphanedDeployments visits the running rows one by one; any order gives the same store.
    method RecoverOrphanedDeployments()
      requires clusters.Keys <= trail.Keys
      modifies this
      ensures View() == old(View()).(db := Recovered(old(Db())))
    {
      ghost var before := Db();
      var todo := set j | j in deployments && deployments[j].status == Running;
      ghost var done: set<JobId> := {};
      LifecycleGround.RecoverNone(before);
      assert todo == RunningJobs(before);
      while todo != {}
        invariant done + todo == RunningJobs(before) && done !! todo
        invariant View() == old(View()).(db := RecoveredSome(before, done))
        decreases todo
      {
        var j :| j in todo;
        var c := deployments[j].cluster;
        RecoverNext(before, done, j);
        ApplyThree(Db(), RecoverWrites(before, j));
        FinishDeployment(j, Failed);
        assert Db() == CutRecovery(before, done, j, 1);
        UpdateClusterStatus(c, Error);
        assert Db() == CutRecovery(before, done, j, 2);
        SetPendingForget(c, false);
        assert Db() == CutRecovery(before, done, j, 3);
        done := done + {j};
        todo := todo - {j};
      }
      assert done == RunningJobs(before);
      LifecycleGround.RecoverAll(before);
    }
  }
}
