/**
  Front halves write by write: the list of a request's store writes is what the request does, and what its first n
  writes make of rows, statuses, latches and status history.
 */
module LifecycleRequests {
  import opened Common
  import opened StateMachine
  import opened Lifecycle

  type Rows = map<JobId, Row>

  // The parts of the store other than the audit log.
  predicate HasParts(t: Store, deployments: Rows, installs: Rows, clusters: map<ClusterId, Cluster>,
                     trail: map<ClusterId, seq<Status>>)
  {
    t.deployments == deployments && t.installs == installs && t.clusters == clusters && t.trail == trail
  }

  lemma {:induction false} ApplyConcat(db: Store, a: seq<Write>, b: seq<Write>, n: nat)
    requires |a| <= n <= |a| + |b|
    ensures ApplyWrites(db, a + b, n) == ApplyWrites(ApplyWrites(db, a, |a|), b, n - |a|)
    decreases n
  {
    if n == |a| {
      ApplyPrefix(db, a, b, n);
    } else {
      ApplyConcat(db, a, b, n - 1);
    }
  }

  lemma {:induction false} ApplyPrefix(db: Store, a: seq<Write>, b: seq<Write>, n: nat)
    requires n <= |a|
    ensures ApplyWrites(db, a + b, n) == ApplyWrites(db, a, n)
  {
    if n > 0 {
      ApplyPrefix(db, a, b, n - 1);
    }
  }

  lemma ApplyThree(db: Store, ws: seq<Write>)
    ensures |ws| >= 1 ==> ApplyWrites(db, ws, 1) == ApplyWrite(db, ws[0])
    ensures |ws| >= 2 ==> ApplyWrites(db, ws, 2) == ApplyWrite(ApplyWrite(db, ws[0]), ws[1])
    ensures |ws| >= 3 ==> ApplyWrites(db, ws, 3) == ApplyWrite(ApplyWrite(ApplyWrite(db, ws[0]), ws[1]), ws[2])
  {
    if |ws| >= 1 { assert ApplyWrites(db, ws, 1) == ApplyWrite(ApplyWrites(db, ws, 0), ws[0]); }
    if |ws| >= 2 { assert ApplyWrites(db, ws, 2) == ApplyWrite(ApplyWrites(db, ws, 1), ws[1]); }
    if |ws| >= 3 { assert ApplyWrites(db, ws, 3) == ApplyWrite(ApplyWrites(db, ws, 2), ws[2]); }
  }

  // ---------- the store a request is n writes into ----------

  function WithRow(db: Store, k: Kind, c: ClusterId, j: JobId): Store {
    ApplyWrite(db, StartWrite(j, Row(c, k, Running)))
  }

  // n writes into an accepted kickoff.
  function StartedBy(db: Store, k: Kind, c: ClusterId, j: JobId, n: nat): Store {
    var e := Entry(Op(k), c, OStarted, Some(j));
    if n == 0 then db
    else if Tracked(k) then
      if n == 1 then WithRow(db, k, c, j)
      else
        var d2 := SetStatus(WithRow(db, k, c, j), c, Transient(k));
        if n == 2 then d2 else Log(d2, e)
    else if n == 1 then WithRow(db, k, c, j) else Log(WithRow(db, k, c, j), e)
  }

  lemma StartIs(db: Store, k: Kind, c: ClusterId, j: JobId, n: nat)
    requires n <= |StartWrites(k, c, j)|
    ensures |StartWrites(k, c, j)| == if Tracked(k) then 3 else 2
    ensures ApplyWrites(db, StartWrites(k, c, j), n) == StartedBy(db, k, c, j, n)
  {
    ApplyThree(db, StartWrites(k, c, j));
  }

  // n writes into an accepted cascade.
  function CascadedBy(db: Store, c: ClusterId, j: JobId, n: nat): Store {
    var l := SetLatch(db, c, true);
    if n == 0 then db
    else if n <= 4 then StartedBy(l, Destroy, c, j, n - 1)
    else Log(StartedBy(l, Destroy, c, j, 3), Entry(Delete, c, OStarted, Some(j)))
  }

  function CascadeWrites(c: ClusterId, j: JobId): seq<Write> {
    [LatchWrite(c)] + StartWrites(Destroy, c, j) + [AuditWrite(Entry(Delete, c, OStarted, Some(j)))]
  }

  lemma CascadeIs(db: Store, c: ClusterId, j: JobId, n: nat)
    requires n <= |CascadeWrites(c, j)|
    ensures |CascadeWrites(c, j)| == 5
    ensures ApplyWrites(db, CascadeWrites(c, j), n) == CascadedBy(db, c, j, n)
  {
    var l := SetLatch(db, c, true);
    var start, last := StartWrites(Destroy, c, j), [AuditWrite(Entry(Delete, c, OStarted, Some(j)))];
    StartIs(l, Destroy, c, j, 3);
    if n > 0 {
      assert CascadeWrites(c, j) == [LatchWrite(c)] + (start + last);
      ApplyConcat(db, [LatchWrite(c)], start + last, n);
      ApplyThree(db, [LatchWrite(c)]);
      if n <= 4 {
        ApplyPrefix(l, start, last, n - 1);
        StartIs(l, Destroy, c, j, n - 1);
      } else {
        ApplyConcat(l, start, last, 4);
        ApplyThree(StartedBy(l, Destroy, c, j, 3), last);
      }
    }
  }

  // ---------- a request is its writes ----------

  lemma InitializeIs(db: Store, c: ClusterId, r: InitResult)
    ensures Initialize(db, c, r) == ApplyWrites(db, InitializeWrites(db, c, r), |InitializeWrites(db, c, r)|)
  {
    ApplyThree(db, InitializeWrites(db, c, r));
  }

  lemma DeleteIs(s: System, c: ClusterId, cascade: bool, j: JobId, fault: bool)
    ensures var ws := DeleteWrites(s, c, cascade, j, fault);
            DeleteRequest(s, c, cascade, j, fault).db == ApplyWrites(s.db, ws, |ws|)
  {
    var ws := DeleteWrites(s, c, cascade, j, fault);
    if Cascades(s.db, c, cascade) && Accepts(s, Destroy, c, fault) {
      assert ws == CascadeWrites(c, j);
      CascadeIs(s.db, c, j, 5);
    } else {
      ApplyThree(s.db, ws);
    }
  }

  /** A front half does what its writes do one after the other, and starts the worker it is said to start. */
  lemma RequestIsWrites(s: System, q: Step)
    requires IsRequest(q) && Enabled(s, q)
    ensures var n := |RequestWrites(s, q)|;
            Next(s, q) == LoseRequest(s, q, n).(issued := Next(s, q).issued)
    ensures Next(s, q).issued <= LoseRequest(s, q, |RequestWrites(s, q)|).issued
  {
    match q
    case DoCreate(c) => ApplyThree(s.db, RequestWrites(s, q));
    case DoInitialize(c, r) => InitializeIs(s.db, c, r);
    case DoKickoff(k, c, j, fault) =>
      if Accepts(s, k, c, fault) { StartIs(s.db, k, c, j, |StartWrites(k, c, j)|); }
    case DoDelete(c, cascade, j, fault) => DeleteIs(s, c, cascade, j, fault);
  }

  // ---------- what the first n writes make of the store ----------

  lemma StatusEffect(db: Store, c: ClusterId, st: Status)
    requires c in db.clusters && c in db.trail
    ensures SetStatus(db, c, st) ==
            if db.clusters[c].status == st then db
            else db.(clusters := db.clusters[c := db.clusters[c].(status := st)],
                     trail := db.trail[c := db.trail[c] + [st]])
  {}

  // The trail of a cluster on which status st is written.
  function Extended(trail: map<ClusterId, seq<Status>>, c: ClusterId, from: Status, st: Status)
    : map<ClusterId, seq<Status>>
    requires c in trail
  {
    if from == st then trail else trail[c := trail[c] + [st]]
  }

  lemma StartEffect(db: Store, k: Kind, c: ClusterId, j: JobId, n: nat)
    requires c in db.clusters && c in db.trail
    ensures var cl, row, moved := db.clusters[c], Row(c, k, Running), Tracked(k) && n >= 2;
            HasParts(StartedBy(db, k, c, j, n),
                     if Tracked(k) && n >= 1 then db.deployments[j := row] else db.deployments,
                     if !Tracked(k) && n >= 1 then db.installs[j := row] else db.installs,
                     if moved then db.clusters[c := cl.(status := Transient(k))] else db.clusters,
                     if moved then Extended(db.trail, c, cl.status, Transient(k)) else db.trail)
  {
    if Tracked(k) {
      StatusEffect(WithRow(db, k, c, j), c, Transient(k));
      assert db.clusters == db.clusters[c := db.clusters[c]];
    }
  }

  lemma CascadeEffect(db: Store, c: ClusterId, j: JobId, n: nat)
    requires c in db.clusters && c in db.trail && n <= 5
    ensures var cl := db.clusters[c];
            HasParts(CascadedBy(db, c, j, n),
                     if n >= 2 then db.deployments[j := Row(c, Destroy, Running)] else db.deployments,
                     db.installs,
                     if n == 0 then db.clusters
                     else db.clusters[c := Cluster(if n >= 3 then Destroying else cl.status, true)],
                     if n >= 3 then Extended(db.trail, c, cl.status, Destroying) else db.trail)
  {
    if n > 0 {
      StartEffect(SetLatch(db, c, true), Destroy, c, j, if n <= 4 then n - 1 else 3);
    }
  }

  predicate InitAccepted(db: Store, c: ClusterId, r: InitResult) {
    c in db.clusters && CanTransition(db.clusters[c].status, Initializing) && !r.InitRejected?
  }

  // An accepted initialization passes through Initializing and comes to rest one edge further.
  function InitializedBy(db: Store, c: ClusterId, x: Status, n: nat): Store {
    if n == 0 then db
    else if n == 1 then SetStatus(db, c, Initializing)
    else SetStatus(SetStatus(db, c, Initializing), c, x)
  }

  function InitResting(r: InitResult): Status { if r.InitDone? then Initialized else Error }

  lemma InitializePrefix(db: Store, c: ClusterId, r: InitResult, n: nat)
    requires n <= |InitializeWrites(db, c, r)|
    ensures var t := ApplyWrites(db, InitializeWrites(db, c, r), n);
            t == (if InitAccepted(db, c, r) then InitializedBy(db, c, InitResting(r), n) else db).(audit := t.audit)
  {
    ApplyThree(db, InitializeWrites(db, c, r));
  }

  lemma InitializeEffect(db: Store, c: ClusterId, x: Status, n: nat)
    requires c in db.clusters && c in db.trail && x != Initializing && n > 0
    ensures var cl := db.clusters[c];
            var passed := Extended(db.trail, c, cl.status, Initializing);
            HasParts(InitializedBy(db, c, x, n), db.deployments, db.installs,
                     db.clusters[c := cl.(status := if n >= 2 then x else Initializing)],
                     if n >= 2 then passed[c := passed[c] + [x]] else passed)
  {
    StatusEffect(db, c, Initializing);
    StatusEffect(SetStatus(db, c, Initializing), c, x);
    assert db.clusters == db.clusters[c := db.clusters[c]];
  }

  lemma CreateEffect(s: System, c: ClusterId, n: nat)
    requires n <= 2
    ensures var t := ApplyWrites(s.db, RequestWrites(s, DoCreate(c)), n);
            if n == 0 then t == s.db
            else HasParts(t, s.db.deployments, s.db.installs, s.db.clusters[c := Cluster(Pending, false)],
                          s.db.trail[c := [Pending]])
  {
    ApplyThree(s.db, RequestWrites(s, DoCreate(c)));
  }

  // A delete that cascades but finds its kickoff refused, or that does not cascade.
  lemma DeleteEffect(s: System, c: ClusterId, cascade: bool, j: JobId, fault: bool, n: nat)
    requires n <= |DeleteWrites(s, c, cascade, j, fault)|
    requires !(Cascades(s.db, c, cascade) && Accepts(s, Destroy, c, fault))
    ensures var t := ApplyWrites(s.db, DeleteWrites(s, c, cascade, j, fault), n);
            if n == 0 then t == s.db
            else if Cascades(s.db, c, cascade) then
              HasParts(t, s.db.deployments, s.db.installs,
                       s.db.clusters[c := s.db.clusters[c].(pendingForget := n == 1)], s.db.trail)
            else if c in s.db.clusters && s.db.clusters[c].status in DIRECT_DELETABLE then
              HasParts(t, RowsWithout(s.db.deployments, c), RowsWithout(s.db.installs, c), s.db.clusters - {c},
                       s.db.trail)
            else HasParts(t, s.db.deployments, s.db.installs, s.db.clusters, s.db.trail)
  {
    ApplyThree(s.db, DeleteWrites(s, c, cascade, j, fault));
  }
}
