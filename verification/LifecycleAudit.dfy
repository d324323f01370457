/**
  The balance of the audit log: for each cluster and operation, started rows equal terminal ones plus workers still
  in their body; cascade cluster_delete rows pair the same way, the set latch standing for the open pair. A step
  unbalances the log exactly when a row goes missing under it: a success block loses its verdict to a cancelled
  context, a request whose client went away leaves a worker or a latch without its row, or a DELETE takes effect on a
  cluster whose latch an earlier loss left set.
 */
module LifecycleAudit {
  import opened Common
  import opened StateMachine
  import opened Lifecycle
  import opened LifecycleBlocks
  import opened LifecycleGround
  import opened LifecycleRequests
  import opened LifecycleSafety

  // Whether e opens or closes a job's pair of rows for action a on cluster c.
  predicate Marks(e: Entry, a: Action, c: ClusterId, opening: bool) {
    e.action == a && e.target == c && e.job.Some? && (e.outcome == OStarted) == opening
  }

  function Tally(log: seq<Entry>, a: Action, c: ClusterId, opening: bool): nat {
    if log == [] then 0
    else Tally(log[..|log| - 1], a, c, opening) + if Marks(log[|log| - 1], a, c, opening) then 1 else 0
  }

  lemma TallySnoc(log: seq<Entry>, e: Entry, a: Action, c: ClusterId, opening: bool)
    ensures Tally(log + [e], a, c, opening) == Tally(log, a, c, opening) + if Marks(e, a, c, opening) then 1 else 0
  {
    assert (log + [e])[..|log|] == log;
  }

  // The jobs of kind k on cluster c that are still in their body.
  function Live(workers: map<JobId, Worker>, k: Kind, c: ClusterId): set<JobId> {
    set j | j in workers && workers[j].phase.Body? && workers[j].kind == k && workers[j].cluster == c
  }

  ghost predicate OpBalanced(s: System, k: Kind, c: ClusterId) {
    Tally(s.db.audit, Op(k), c, true) == Tally(s.db.audit, Op(k), c, false) + |Live(s.workers, k, c)|
  }

  ghost predicate DeleteBalanced(s: System, c: ClusterId) {
    Tally(s.db.audit, Delete, c, true)
      == Tally(s.db.audit, Delete, c, false) + if Latched(s.db.clusters, c) then 1 else 0
  }

  ghost predicate Balanced(s: System) {
    && (forall k, c :: OpBalanced(s, k, c))
    && (forall c :: DeleteBalanced(s, c))
  }

  // n writes into a front half an audit row is missing for what has happened, or a latch changes without its row.
  predicate Unpaired(s: System, q: Step, n: nat)
    requires IsRequest(q)
  {
    match q
    case DoKickoff(k, c, _, fault) => Accepts(s, k, c, fault) && n == LaunchWrites(q)
    case DoDelete(c, cascade, _, fault) =>
      if Cascades(s.db, c, cascade) then
        if Accepts(s, Destroy, c, fault) then n == 3 || n in if Latched(s.db.clusters, c) then {5} else {1, 2, 4}
        else if Latched(s.db.clusters, c) then n >= 2 else n == 1
      else Latched(s.db.clusters, c) && s.db.clusters[c].status in DIRECT_DELETABLE && n >= 1
    case _ => false
  }

  // The step loses an audit row or orphans one; a test on the state it is taken in.
  predicate Unbalances(s: System, step: Step)
    requires Enabled(s, step)
  {
    if IsFront(step) then Unpaired(s, FrontOf(step), FrontWrites(s, step))
    else match step
      case DoClose(j, ok) => Lost(s, j, ok)
      case DoLose(_, n) => n < 3 || n == 4
      case _ => false
  }

  // The process dies.
  predicate Crashes(step: Step) { step.DoCrash? || step.DoCut? || step.DoCutRequest? || step.DoCutBoot? }

  // a and b agree on every cluster's latch.
  ghost predicate SameLatches(a: Store, b: Store) {
    forall c :: Latched(a.clusters, c) == Latched(b.clusters, c)
  }

  // a and b have the same jobs in their bodies.
  ghost predicate SameBodies(a: map<JobId, Worker>, b: map<JobId, Worker>) {
    forall k, c :: Live(a, k, c) == Live(b, k, c)
  }

  // ---------- what each step does to the log, the live jobs and the latch ----------

  lemma SameLog(s: System, t: System)
    requires Balanced(s) && t.db.audit == s.db.audit
    requires SameBodies(s.workers, t.workers)
    requires SameLatches(s.db, t.db)
    ensures Balanced(t)
  {
    forall k, c ensures OpBalanced(t, k, c) { assert OpBalanced(s, k, c); }
    forall c ensures DeleteBalanced(t, c) { assert DeleteBalanced(s, c); }
  }

  lemma LiveStart(ws: map<JobId, Worker>, j: JobId, k: Kind, c: ClusterId, k': Kind, c': ClusterId)
    requires j !in ws
    ensures |Live(ws[j := Worker(k, c, Body, false)], k', c')|
            == |Live(ws, k', c')| + if k' == k && c' == c then 1 else 0
  {
    var mine := if k' == k && c' == c then {j} else {};
    assert Live(ws[j := Worker(k, c, Body, false)], k', c') == Live(ws, k', c') + mine;
  }

  lemma LiveClose(ws: map<JobId, Worker>, j: JobId, k': Kind, c': ClusterId)
    requires j in ws && ws[j].phase.Body?
    ensures |Live(ws, k', c')|
            == |Live(ws[j := ws[j].(phase := Closed)], k', c')|
               + if k' == ws[j].kind && c' == ws[j].cluster then 1 else 0
  {
    var before := Live(ws, k', c');
    var after := Live(ws[j := ws[j].(phase := Closed)], k', c');
    assert after == before - {j};
    assert j in before <==> k' == ws[j].kind && c' == ws[j].cluster;
  }

  // An operation's row leaves the cluster_delete pairs alone.
  lemma OpRowKeepsDeletes(s: System, t: System, e: Entry)
    requires (forall c :: DeleteBalanced(s, c)) && t.db.audit == s.db.audit + [e] && e.action.Op?
    requires SameLatches(s.db, t.db)
    ensures forall c :: DeleteBalanced(t, c)
  {
    forall c ensures DeleteBalanced(t, c) {
      assert DeleteBalanced(s, c);
      TallySnoc(s.db.audit, e, Delete, c, true);
      TallySnoc(s.db.audit, e, Delete, c, false);
    }
  }

  // A started row and its worker.
  lemma StartBalances(s: System, t: System, k: Kind, c: ClusterId, j: JobId)
    requires Balanced(s) && j !in s.workers
    requires t.db.audit == s.db.audit + [Entry(Op(k), c, OStarted, Some(j))]
    requires t.workers == s.workers[j := Worker(k, c, Body, false)]
    requires SameLatches(s.db, t.db)
    ensures Balanced(t)
  {
    var e := Entry(Op(k), c, OStarted, Some(j));
    OpRowKeepsDeletes(s, t, e);
    forall k', c' ensures OpBalanced(t, k', c') {
      assert OpBalanced(s, k', c');
      TallySnoc(s.db.audit, e, Op(k'), c', true);
      TallySnoc(s.db.audit, e, Op(k'), c', false);
      LiveStart(s.workers, j, k, c, k', c');
    }
  }

  // A verdict row and the end of its worker's body.
  lemma VerdictBalances(s: System, t: System, j: JobId, outcome: Outcome)
    requires Balanced(s) && InPhase(s, j, Body) && outcome != OStarted
    requires t.db.audit == s.db.audit + [Entry(Op(s.workers[j].kind), s.workers[j].cluster, outcome, Some(j))]
    requires SameBodies(s.workers[j := s.workers[j].(phase := Closed)], t.workers)
    requires SameLatches(s.db, t.db)
    ensures Balanced(t)
  {
    var e := Entry(Op(s.workers[j].kind), s.workers[j].cluster, outcome, Some(j));
    OpRowKeepsDeletes(s, t, e);
    forall k', c' ensures OpBalanced(t, k', c') {
      assert OpBalanced(s, k', c');
      TallySnoc(s.db.audit, e, Op(k'), c', true);
      TallySnoc(s.db.audit, e, Op(k'), c', false);
      LiveClose(s.workers, j, k', c');
    }
  }

  // A cluster_delete row of a job, and the latch it opens or closes.
  lemma DeleteRowBalances(s: System, t: System, c: ClusterId, j: JobId, outcome: Outcome)
    requires Balanced(s) && t.workers == s.workers
    requires t.db.audit == s.db.audit + [Entry(Delete, c, outcome, Some(j))]
    requires Latched(t.db.clusters, c) == (outcome == OStarted)
    requires Latched(s.db.clusters, c) != Latched(t.db.clusters, c)
    requires forall d :: d != c ==> Latched(t.db.clusters, d) == Latched(s.db.clusters, d)
    ensures Balanced(t)
  {
    var e := Entry(Delete, c, outcome, Some(j));
    forall k', c' ensures OpBalanced(t, k', c') {
      assert OpBalanced(s, k', c');
      TallySnoc(s.db.audit, e, Op(k'), c', true);
      TallySnoc(s.db.audit, e, Op(k'), c', false);
    }
    forall c' ensures DeleteBalanced(t, c') {
      assert DeleteBalanced(s, c');
      TallySnoc(s.db.audit, e, Delete, c', true);
      TallySnoc(s.db.audit, e, Delete, c', false);
    }
  }

  // ---------- balance, step by step ----------

  // A write that logs nothing about a job.
  predicate Quiet(w: Write) { w.AuditWrite? ==> w.entry.job == None }

  lemma QuietWrite(db: Store, w: Write, a: Action, c: ClusterId, opening: bool)
    requires Quiet(w)
    ensures Tally(ApplyWrite(db, w).audit, a, c, opening) == Tally(db.audit, a, c, opening)
  {
    if w.AuditWrite? { TallySnoc(db.audit, w.entry, a, c, opening); }
  }

  lemma {:induction false} QuietTally(db: Store, ws: seq<Write>, n: nat, a: Action, c: ClusterId, opening: bool)
    requires n <= |ws| && forall i :: 0 <= i < n ==> Quiet(ws[i])
    ensures Tally(ApplyWrites(db, ws, n).audit, a, c, opening) == Tally(db.audit, a, c, opening)
  {
    if n > 0 {
      QuietTally(db, ws, n - 1, a, c, opening);
      QuietWrite(ApplyWrites(db, ws, n - 1), ws[n - 1], a, c, opening);
    }
  }

  // With bodies and tallies as they were, the latches decide.
  lemma QuietBalancesIff(s: System, t: System)
    requires Balanced(s) && SameBodies(s.workers, t.workers)
    requires forall a, c, opening :: Tally(t.db.audit, a, c, opening) == Tally(s.db.audit, a, c, opening)
    ensures Balanced(t) <==> SameLatches(s.db, t.db)
  {
    forall k, c ensures OpBalanced(t, k, c) { assert OpBalanced(s, k, c); }
    forall c ensures DeleteBalanced(t, c) <==> Latched(s.db.clusters, c) == Latched(t.db.clusters, c) {
      assert DeleteBalanced(s, c);
    }
    if Balanced(t) {
      forall c ensures Latched(s.db.clusters, c) == Latched(t.db.clusters, c) { assert DeleteBalanced(t, c); }
    }
  }

  lemma StatusKeepsLatches(db: Store, c: ClusterId, st: Status)
    ensures SameLatches(db, SetStatus(db, c, st))
  {}

  lemma InitializeLatches(db: Store, c: ClusterId, r: InitResult, n: nat)
    requires n <= |InitializeWrites(db, c, r)|
    ensures SameLatches(db, ApplyWrites(db, InitializeWrites(db, c, r), n))
  {
    InitializePrefix(db, c, r, n);
    StatusKeepsLatches(db, c, Initializing);
    StatusKeepsLatches(SetStatus(db, c, Initializing), c, InitResting(r));
  }

  // A front half that starts no worker: the latches it leaves.
  lemma QuietLatches(s: System, q: Step, n: nat)
    requires Grounded(s) && IsRequest(q) && Enabled(s, q) && Launch(s, q).None? && n <= |RequestWrites(s, q)|
    ensures SameLatches(s.db, ApplyWrites(s.db, RequestWrites(s, q), n)) <==> !Unpaired(s, q, n)
  {
    var t := ApplyWrites(s.db, RequestWrites(s, q), n);
    match q
    case DoCreate(c) =>
      assert GroundedAt(s, c);
      CreateEffect(s, c, n);
    case DoInitialize(c, r) => InitializeLatches(s.db, c, r, n);
    case DoKickoff(_, _, _, _) =>
    case DoDelete(c, cascade, j, fault) =>
      DeleteEffect(s, c, cascade, j, fault, n);
      if Unpaired(s, q, n) { assert Latched(s.db.clusters, c) != Latched(t.clusters, c); }
  }

  lemma QuietFront(s: System, t: System, q: Step, n: nat)
    requires Grounded(s) && Balanced(s) && IsRequest(q) && Enabled(s, q) && Launch(s, q).None?
    requires n <= |RequestWrites(s, q)| && t.db == ApplyWrites(s.db, RequestWrites(s, q), n) && t.workers == s.workers
    ensures Balanced(t) <==> !Unpaired(s, q, n)
  {
    QuietLatches(s, q, n);
    forall a, c, opening ensures Tally(t.db.audit, a, c, opening) == Tally(s.db.audit, a, c, opening) {
      QuietTally(s.db, RequestWrites(s, q), n, a, c, opening);
    }
    QuietBalancesIff(s, t);
  }

  // A worker without its started row.
  lemma NoStartUnbalances(s: System, t: System, k: Kind, c: ClusterId, j: JobId)
    requires OpBalanced(s, k, c) && j !in s.workers && t.db.audit == s.db.audit
    requires t.workers == s.workers[j := Worker(k, c, Body, false)]
    ensures !Balanced(t)
  {
    LiveStart(s.workers, j, k, c, k, c);
    assert !OpBalanced(t, k, c);
  }

  // A latch that changes without a row.
  lemma LatchAloneUnbalances(s: System, t: System, c: ClusterId)
    requires DeleteBalanced(s, c) && t.db.audit == s.db.audit
    requires Latched(s.db.clusters, c) != Latched(t.db.clusters, c)
    ensures !Balanced(t)
  {
    assert !DeleteBalanced(t, c);
  }

  lemma StartedAudit(db: Store, k: Kind, c: ClusterId, j: JobId, n: nat)
    requires n <= |StartWrites(k, c, j)|
    ensures var t := StartedBy(db, k, c, j, n);
            && t.audit == db.audit + (if n == |StartWrites(k, c, j)| then [Entry(Op(k), c, OStarted, Some(j))] else [])
            && SameLatches(db, t)
  {
    StatusKeepsLatches(WithRow(db, k, c, j), c, if Tracked(k) then Transient(k) else Error);
  }

  // A kickoff that is accepted, n writes in.
  lemma KickoffBalancesIff(s: System, t: System, q: Step, n: nat)
    requires Balanced(s) && q.DoKickoff? && Enabled(s, q) && Accepts(s, q.kind, q.c, q.fault) && q.j !in s.workers
    requires n <= |RequestWrites(s, q)| && t.db == ApplyWrites(s.db, RequestWrites(s, q), n)
    requires t.workers == LoseRequest(s, q, n).workers
    ensures Balanced(t) <==> !Unpaired(s, q, n)
  {
    var k, c, j := q.kind, q.c, q.j;
    StartIs(s.db, k, c, j, n);
    StartedAudit(s.db, k, c, j, n);
    if n < LaunchWrites(q) {
      SameLog(s, t);
    } else if n == LaunchWrites(q) {
      NoStartUnbalances(s, t, k, c, j);
    } else {
      StartBalances(s, t, k, c, j);
    }
  }

  lemma CascadedAudit(db: Store, c: ClusterId, j: JobId, n: nat)
    requires c in db.clusters && n <= 5
    ensures var t := CascadedBy(db, c, j, n);
            && t.audit == db.audit + (if n >= 4 then [Entry(Op(Destroy), c, OStarted, Some(j))] else [])
                          + (if n == 5 then [Entry(Delete, c, OStarted, Some(j))] else [])
            && (n > 0 ==> Latched(t.clusters, c))
            && (forall d :: d != c ==> Latched(t.clusters, d) == Latched(db.clusters, d))
  {
    if n > 0 {
      var l := SetLatch(db, c, true);
      StartedAudit(l, Destroy, c, j, if n <= 4 then n - 1 else 3);
      assert Latched(l.clusters, c);
    }
  }

  // A second pair is opened under the one latch.
  lemma SecondPairUnbalances(s: System, t: System, c: ClusterId, j: JobId)
    requires DeleteBalanced(s, c) && Latched(s.db.clusters, c) && Latched(t.db.clusters, c)
    requires t.db.audit == s.db.audit + [Entry(Delete, c, OStarted, Some(j))]
    ensures !Balanced(t)
  {
    TallySnoc(s.db.audit, Entry(Delete, c, OStarted, Some(j)), Delete, c, true);
    TallySnoc(s.db.audit, Entry(Delete, c, OStarted, Some(j)), Delete, c, false);
    assert !DeleteBalanced(t, c);
  }

  // A cascade that is accepted, n writes in.
  lemma CascadeBalancesIff(s: System, t: System, q: Step, n: nat)
    requires Balanced(s) && q.DoDelete? && Enabled(s, q) && q.j !in s.workers
    requires Cascades(s.db, q.c, q.cascade) && Accepts(s, Destroy, q.c, q.fault)
    requires n <= |RequestWrites(s, q)| && t.db == ApplyWrites(s.db, RequestWrites(s, q), n)
    requires t.workers == LoseRequest(s, q, n).workers
    ensures Balanced(t) <==> !Unpaired(s, q, n)
  {
    var c, j := q.c, q.j;
    assert RequestWrites(s, q) == CascadeWrites(c, j);
    CascadeIs(s.db, c, j, n);
    CascadedAudit(s.db, c, j, n);
    assert DeleteBalanced(s, c) && OpBalanced(s, Destroy, c);
    if n <= 2 {
      if n > 0 && !Latched(s.db.clusters, c) { LatchAloneUnbalances(s, t, c); } else { SameLog(s, t); }
    } else if n == 3 {
      NoStartUnbalances(s, t, Destroy, c, j);
    } else {
      var mid := s.(db := Log(s.db, Entry(Op(Destroy), c, OStarted, Some(j))), workers := t.workers);
      StartBalances(s, mid, Destroy, c, j);
      assert DeleteBalanced(mid, c);
      CascadeTail(mid, t, c, j, n == 5);
    }
  }

  // The worker and its started row are there; what is left is the latch and its own row.
  lemma CascadeTail(mid: System, t: System, c: ClusterId, j: JobId, logged: bool)
    requires Balanced(mid) && t.workers == mid.workers && Latched(t.db.clusters, c)
    requires forall d :: d != c ==> Latched(t.db.clusters, d) == Latched(mid.db.clusters, d)
    requires t.db.audit == mid.db.audit + if logged then [Entry(Delete, c, OStarted, Some(j))] else []
    ensures Balanced(t) <==> logged != Latched(mid.db.clusters, c)
  {
    assert DeleteBalanced(mid, c);
    if logged {
      if Latched(mid.db.clusters, c) {
        SecondPairUnbalances(mid, t, c, j);
      } else {
        DeleteRowBalances(mid, t, c, j, OStarted);
      }
    } else if Latched(mid.db.clusters, c) {
      SameLog(mid, t);
    } else {
      LatchAloneUnbalances(mid, t, c);
    }
  }

  // A front half, whole or abandoned.
  lemma FrontBalancesIff(s: System, step: Step)
    requires Grounded(s) && Balanced(s) && IsFront(step) && !step.DoCutRequest? && Enabled(s, step)
    ensures Balanced(Next(s, step)) <==> !Unbalances(s, step)
  {
    var q, n := FrontOf(step), FrontWrites(s, step);
    FrontIsPrefix(s, step);
    if Launch(s, q).None? {
      QuietFront(s, Next(s, step), q, n);
    } else if q.DoKickoff? {
      KickoffBalancesIff(s, Next(s, step), q, n);
    } else {
      CascadeBalancesIff(s, Next(s, step), q, n);
    }
  }

  lemma ControlBalances(s: System, j: JobId)
    requires Balanced(s)
    ensures Balanced(CancelJob(s, j))
    ensures InPhase(s, j, Closed) ==> Balanced(UnlockJob(s, j))
    ensures InPhase(s, j, Unlocked) ==> Balanced(DeregisterJob(s, j))
  {
    SameLog(s, CancelJob(s, j));
    if InPhase(s, j, Closed) { SameLog(s, UnlockJob(s, j)); }
    if InPhase(s, j, Unlocked) { SameLog(s, DeregisterJob(s, j)); }
  }

  predicate CascadeBlock(db: Store, w: Worker) { w.kind.Destroy? && Latched(db.clusters, w.cluster) }

  // The audit rows and the latch a terminal block leaves.
  lemma BlockAudit(db: Store, j: JobId, w: Worker, ok: bool)
    requires !(Tracked(w.kind) && ok && w.cancelled)
    ensures var ws := CloseWrites(db, j, w, ok);
            var t := ApplyWrites(db, ws, |ws|);
            && t.audit == db.audit + [Entry(Op(w.kind), w.cluster, FinishStatus(w.cancelled, !ok).1, Some(j))]
                          + (if CascadeBlock(db, w)
                             then [Entry(Delete, w.cluster, if ok then OSuccess else OFailure, Some(j))] else [])
            && (forall d :: d != w.cluster ==> Latched(t.clusters, d) == Latched(db.clusters, d))
            && Latched(t.clusters, w.cluster) == (Latched(db.clusters, w.cluster) && !w.kind.Destroy?)
  {
    if Tracked(w.kind) {
      BlockIs(db, j, w, ok, |CloseWrites(db, j, w, ok)|);
    } else {
      var ws := CloseWrites(db, j, w, ok);
      assert ApplyWrites(db, ws, 1) == ApplyWrite(db, ws[0]) && |ws| == 2;
    }
  }

  lemma CloseBalances(s: System, j: JobId, ok: bool)
    requires Balanced(s) && InPhase(s, j, Body) && !Lost(s, j, ok)
    ensures Balanced(CloseJob(s, j, ok))
  {
    var w := s.workers[j];
    var t := CloseJob(s, j, ok);
    var outcome := FinishStatus(w.cancelled, !ok).1;
    BlockAudit(s.db, j, w, ok);
    var mid := t.(db := Log(s.db, Entry(Op(w.kind), w.cluster, outcome, Some(j))));
    VerdictBalances(s, mid, j, outcome);
    if CascadeBlock(s.db, w) {
      DeleteRowBalances(mid, t, w.cluster, j, if ok then OSuccess else OFailure);
    } else {
      SameLog(mid, t);
    }
  }

  // A body ends without a verdict.
  lemma NoVerdictUnbalances(s: System, t: System, j: JobId)
    requires Balanced(s) && InPhase(s, j, Body) && t.db.audit == s.db.audit
    requires SameBodies(s.workers[j := s.workers[j].(phase := Closed)], t.workers)
    ensures !Balanced(t)
  {
    var w := s.workers[j];
    assert OpBalanced(s, w.kind, w.cluster);
    LiveClose(s.workers, j, w.kind, w.cluster);
    assert !OpBalanced(t, w.kind, w.cluster);
  }

  // The audit rows and the latch the first n writes of a success block leave.
  lemma LoseAudit(db: Store, j: JobId, w: Worker, n: nat)
    requires Tracked(w.kind) && !w.cancelled && n <= |CloseWrites(db, j, w, true)|
    ensures var t := ApplyWrites(db, CloseWrites(db, j, w, true), n);
            && t.audit == db.audit + (if n >= 3 then [Entry(Op(w.kind), w.cluster, OSucceeded, Some(j))] else [])
                          + (if n >= 5 then [Entry(Delete, w.cluster, OSuccess, Some(j))] else [])
            && (forall d :: d != w.cluster ==> Latched(t.clusters, d) == Latched(db.clusters, d))
            && Latched(t.clusters, w.cluster) == (Latched(db.clusters, w.cluster) && n < 4)
    ensures n >= 4 ==> Latched(db.clusters, w.cluster)
  {
    if n >= 2 {
      BlockIs(db, j, w, true, n);
    } else if n == 1 {
      var ws := CloseWrites(db, j, w, true);
      assert ApplyWrites(db, ws, 1) == ApplyWrite(db, ws[0]);
    }
  }

  lemma LoseBalancesIff(s: System, j: JobId, n: nat)
    requires Balanced(s) && Enabled(s, DoLose(j, n))
    ensures Balanced(LoseJob(s, j, n)) <==> n == 3 || n == 5
  {
    var w, c := s.workers[j], s.workers[j].cluster;
    var t := LoseJob(s, j, n);
    LoseAudit(s.db, j, w, n);
    assert SameBodies(s.workers[j := w.(phase := Closed)], t.workers);
    if n < 3 {
      assert t.db.audit == s.db.audit;
      NoVerdictUnbalances(s, t, j);
    } else {
      var mid := t.(db := Log(s.db, Entry(Op(w.kind), c, OSucceeded, Some(j))));
      VerdictBalances(s, mid, j, OSucceeded);
      if n == 3 {
        SameLog(mid, t);
      } else if n == 4 {
        assert DeleteBalanced(mid, c) && t.db.audit == mid.db.audit;
        assert !DeleteBalanced(t, c);
      } else {
        DeleteRowBalances(mid, t, c, j, OSuccess);
      }
    }
  }

  lemma CloseBalancesIff(s: System, j: JobId, ok: bool)
    requires Balanced(s) && InPhase(s, j, Body)
    ensures Balanced(CloseJob(s, j, ok)) <==> !Lost(s, j, ok)
  {
    if Lost(s, j, ok) {
      assert CloseJob(s, j, ok).db == s.db;
      NoVerdictUnbalances(s, CloseJob(s, j, ok), j);
    } else {
      CloseBalances(s, j, ok);
    }
  }

  /** A crash-free step keeps the log balanced exactly when it neither loses an audit row nor orphans one. */
  lemma StepBalancesIff(s: System, step: Step)
    requires Grounded(s) && Balanced(s) && s.up && Enabled(s, step) && !Crashes(step)
    ensures Next(s, step).up
    ensures Balanced(Next(s, step)) <==> !Unbalances(s, step)
  {
    if IsFront(step) {
      FrontIsPrefix(s, step);
      FrontBalancesIff(s, step);
    } else {
      match step
      case DoCancel(j) => ControlBalances(s, j);
      case DoClose(j, ok) => CloseBalancesIff(s, j, ok);
      case DoLose(j, n) =>
        LoseAudit(s.db, j, s.workers[j], n);
        LoseBalancesIff(s, j, n);
      case DoUnlock(j) => ControlBalances(s, j);
      case DoDeregister(j) => ControlBalances(s, j);
    }
  }
}
