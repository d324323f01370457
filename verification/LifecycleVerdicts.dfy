/**
  Conservation in crash-free runs: the audit log balances, and every deployment or install row is either running under
  a worker in its body or has the matching verdict in the log, in every state exactly when no step leaks.
 */
module LifecycleVerdicts {
  import opened Common
  import opened Lifecycle
  import opened LifecycleAudit
  import opened LifecycleBlocks
  import opened LifecycleGround
  import opened LifecycleRequests
  import opened LifecycleRows
  import opened LifecycleSafety

  // A row still Running has a worker in its body; any other has the matching verdict in the audit log.
  predicate RowAccounted(s: System, j: JobId, row: Row) {
    if row.status == Running
    then InPhase(s, j, Body) && s.workers[j].kind == row.kind && s.workers[j].cluster == row.cluster
    else Entry(Op(row.kind), row.cluster, VerdictOf(row.status), Some(j)) in s.db.audit
  }

  ghost predicate RowsAccounted(s: System, rows: Rows) {
    forall j {:trigger rows[j]} :: j in rows ==> RowAccounted(s, j, rows[j])
  }

  function VerdictOf(st: RowStatus): Outcome {
    match st case Running => OStarted case Succeeded => OSucceeded case Failed => OFailed case Cancelled => OCancelled
  }

  ghost predicate Accounted(s: System) {
    RowsAccounted(s, s.db.deployments) && RowsAccounted(s, s.db.installs)
  }

  predicate CrashFree(run: seq<Step>) {
    forall i {:trigger run[i]} :: 0 <= i < |run| ==> !Crashes(run[i])
  }

  // The abandoned request has written its row, and its worker will not start.
  predicate RowAlone(s: System, q: Step, n: nat)
    requires IsRequest(q)
  {
    Launch(s, q).Some? && (if q.DoDelete? then 2 else 1) <= n < LaunchWrites(q)
  }

  // The step leaves a row, a worker or a latch without its counterpart; a test on the state it is taken in.
  predicate Leaks(s: System, step: Step)
    requires Enabled(s, step)
  {
    Unbalances(s, step) || (step.DoLoseRequest? && RowAlone(s, step.request, step.n))
  }

  ghost predicate AlwaysConserves(s: System, run: seq<Step>)
    requires Legal(s, run)
    decreases |run|
  {
    Balanced(s) && Accounted(s) && (run == [] || AlwaysConserves(Next(s, run[0]), run[1..]))
  }

  ghost predicate Leakless(s: System, run: seq<Step>)
    requires Legal(s, run)
    decreases |run|
  {
    run == [] || (!Leaks(s, run[0]) && Leakless(Next(s, run[0]), run[1..]))
  }

  // ---------- rows against verdicts ----------

  predicate BodyStays(s: System, t: System, j: JobId) {
    InPhase(s, j, Body) ==>
      InPhase(t, j, Body) && t.workers[j].kind == s.workers[j].kind && t.workers[j].cluster == s.workers[j].cluster
  }

  // Rows carry over, those of the jobs in but excepted.
  lemma AccountedBut(s: System, t: System, a: Rows, b: Rows, but: set<JobId>)
    requires RowsAccounted(s, a) && s.db.audit <= t.db.audit
    requires forall i {:trigger b[i]} :: i in b && i !in but ==> i in a && b[i] == a[i]
    requires forall i :: i !in but ==> BodyStays(s, t, i)
    requires forall i {:trigger b[i]} :: i in b && i in but ==> RowAccounted(t, i, b[i])
    ensures RowsAccounted(t, b)
  {
    forall i | i in b && i !in but ensures RowAccounted(t, i, b[i]) {
      assert RowAccounted(s, i, a[i]);
      assert BodyStays(s, t, i);
    }
  }

  lemma QuietAccounts(s: System, t: System)
    requires Accounted(s) && s.db.audit <= t.db.audit && (forall i :: BodyStays(s, t, i))
    requires forall i {:trigger t.db.deployments[i]} :: i in t.db.deployments ==>
               i in s.db.deployments && t.db.deployments[i] == s.db.deployments[i]
    requires forall i {:trigger t.db.installs[i]} :: i in t.db.installs ==>
               i in s.db.installs && t.db.installs[i] == s.db.installs[i]
    ensures Accounted(t)
  {
    AccountedBut(s, t, s.db.deployments, t.db.deployments, {});
    AccountedBut(s, t, s.db.installs, t.db.installs, {});
  }

  // A worker and its running row.
  lemma StartAccounts(s: System, t: System, k: Kind, c: ClusterId, j: JobId)
    requires Accounted(s) && j !in s.workers && s.db.audit <= t.db.audit
    requires t.workers == s.workers[j := Worker(k, c, Body, false)]
    requires j !in s.db.deployments && j !in s.db.installs
    requires t.db.deployments == if Tracked(k) then s.db.deployments[j := Row(c, k, Running)] else s.db.deployments
    requires t.db.installs == if !Tracked(k) then s.db.installs[j := Row(c, k, Running)] else s.db.installs
    ensures Accounted(t)
  {
    AccountedBut(s, t, s.db.deployments, t.db.deployments, {j});
    AccountedBut(s, t, s.db.installs, t.db.installs, {j});
  }

  lemma {:induction false} AuditGrows(db: Store, ws: seq<Write>, n: nat)
    requires n <= |ws|
    ensures db.audit <= ApplyWrites(db, ws, n).audit
  {
    if n > 0 {
      AuditGrows(db, ws, n - 1);
    }
  }

  // A front half that starts no worker leaves rows alone or drops them.
  lemma QuietRows(s: System, q: Step, n: nat, i: JobId)
    requires IsRequest(q) && Enabled(s, q) && Launch(s, q).None? && n <= |RequestWrites(s, q)|
    ensures var t := ApplyWrites(s.db, RequestWrites(s, q), n);
            && (i in t.deployments ==> (i in s.db.deployments && t.deployments[i] == s.db.deployments[i]))
            && (i in t.installs ==> (i in s.db.installs && t.installs[i] == s.db.installs[i]))
  {
    WritesAside(s.db, RequestWrites(s, q), n, i);
  }

  lemma FrontAccountsIff(s: System, step: Step)
    requires Grounded(s) && Accounted(s) && IsFront(step) && !step.DoCutRequest? && Enabled(s, step)
    ensures Accounted(Next(s, step)) <==> !RowAlone(s, FrontOf(step), FrontWrites(s, step))
  {
    var t, q, n := Next(s, step), FrontOf(step), FrontWrites(s, step);
    FrontIsPrefix(s, step);
    AuditGrows(s.db, RequestWrites(s, q), n);
    if Launch(s, q).None? {
      forall i { QuietRows(s, q, n, i); }
      QuietAccounts(s, t);
    } else {
      var (j, k, c) := Launch(s, q).value;
      LaunchTarget(s, q);
      assert GroundedAt(s, c);
      LaunchRows(s, q, n);
      if n >= LaunchWrites(q) {
        StartAccounts(s, t, k, c, j);
      } else if RowAlone(s, q, n) {
        assert j in t.db.deployments && !RowAccounted(t, j, t.db.deployments[j]);
      } else {
        QuietAccounts(s, t);
      }
    }
  }

  // Past the row write of j's block, its verdict logged.
  lemma BlockAccounts(s: System, t: System, j: JobId, ok: bool, n: nat)
    requires Grounded(s) && Accounted(s) && InPhase(s, j, Body) && !Lost(s, j, ok)
    requires BlockStep(s, t, j, ok, n) && n >= 2
    requires s.db.audit <= t.db.audit && forall i :: i != j ==> BodyStays(s, t, i)
    requires var w := s.workers[j];
             Entry(Op(w.kind), w.cluster, FinishStatus(w.cancelled, !ok).1, Some(j)) in t.db.audit
    ensures Accounted(t)
  {
    var w := s.workers[j];
    assert GroundedAt(s, w.cluster) && BodyOn(s, j, w.cluster) && Owns(s.db, j, w) && RowMatches(s.db, j, w);
    if Tracked(w.kind) {
      BlockEffect(s.db, j, w, ok, n);
    } else {
      HelmBlock(s.db, j, w, ok, n);
    }
    AccountedBut(s, t, s.db.deployments, t.db.deployments, {j});
    AccountedBut(s, t, s.db.installs, t.db.installs, {j});
  }

  lemma CloseAccounts(s: System, j: JobId, ok: bool)
    requires Grounded(s) && Accounted(s) && InPhase(s, j, Body) && !Lost(s, j, ok)
    ensures Accounted(CloseJob(s, j, ok))
  {
    var w, t := s.workers[j], CloseJob(s, j, ok);
    BlockAudit(s.db, j, w, ok);
    assert Entry(Op(w.kind), w.cluster, FinishStatus(w.cancelled, !ok).1, Some(j)) == t.db.audit[|s.db.audit|];
    BlockAccounts(s, t, j, ok, |CloseWrites(s.db, j, w, ok)|);
  }

  lemma LoseAccounts(s: System, j: JobId, n: nat)
    requires Grounded(s) && Accounted(s) && Enabled(s, DoLose(j, n)) && n >= 3
    ensures Accounted(LoseJob(s, j, n))
  {
    var w, t := s.workers[j], LoseJob(s, j, n);
    LoseAudit(s.db, j, w, n);
    assert Entry(Op(w.kind), w.cluster, OSucceeded, Some(j)) == t.db.audit[|s.db.audit|];
    BlockAccounts(s, t, j, true, n);
  }

  lemma ControlAccounts(s: System, j: JobId)
    requires Accounted(s)
    ensures Accounted(CancelJob(s, j))
    ensures InPhase(s, j, Closed) ==> Accounted(UnlockJob(s, j))
    ensures InPhase(s, j, Unlocked) ==> Accounted(DeregisterJob(s, j))
  {
    QuietAccounts(s, CancelJob(s, j));
    if InPhase(s, j, Closed) { QuietAccounts(s, UnlockJob(s, j)); }
    if InPhase(s, j, Unlocked) { QuietAccounts(s, DeregisterJob(s, j)); }
  }

  lemma StepAccounts(s: System, step: Step)
    requires Grounded(s) && Accounted(s) && s.up && Enabled(s, step) && !IsFront(step)
    requires !Crashes(step) && !Unbalances(s, step)
    ensures Accounted(Next(s, step))
  {
    match step
    case DoCancel(j) => ControlAccounts(s, j);
    case DoClose(j, ok) => CloseAccounts(s, j, ok);
    case DoLose(j, n) => LoseAccounts(s, j, n);
    case DoUnlock(j) => ControlAccounts(s, j);
    case DoDeregister(j) => ControlAccounts(s, j);
  }

  // A whole front half that starts a worker has written all it takes.
  lemma WholeIsNotAlone(s: System, q: Step)
    requires IsRequest(q)
    ensures !RowAlone(s, q, |RequestWrites(s, q)|)
  {}

  /** A crash-free step keeps the log balanced and every row accounted for exactly when it does not leak. */
  lemma StepConservesIff(s: System, step: Step)
    requires Grounded(s) && Balanced(s) && Accounted(s) && s.up && Enabled(s, step) && !Crashes(step)
    ensures Next(s, step).up
    ensures Balanced(Next(s, step)) && Accounted(Next(s, step)) <==> !Leaks(s, step)
  {
    StepBalancesIff(s, step);
    if IsFront(step) {
      FrontAccountsIff(s, step);
      if IsRequest(step) { WholeIsNotAlone(s, step); }
    } else if !Unbalances(s, step) {
      StepAccounts(s, step);
    }
  }

  // ---------- the run theorem ----------

  lemma {:induction false} ExactConservationFrom(s: System, run: seq<Step>)
    requires Grounded(s) && s.up && Balanced(s) && Accounted(s) && Legal(s, run) && CrashFree(run)
    ensures AlwaysConserves(s, run) <==> Leakless(s, run)
    decreases |run|
  {
    if run != [] {
      StepConservesIff(s, run[0]);
      if !Leaks(s, run[0]) {
        StepGrounds(s, run[0]);
        ExactConservationFrom(Next(s, run[0]), run[1..]);
      }
    }
  }

  /**
    In a crash-free run every state conserves audit rows, cascade pairs and row verdicts if and only if no success
    block loses a verdict to a cancelled context, no abandoned request leaves a row, a worker or a latch without its
    counterpart, and no delete takes effect under a latch left over from such a loss.
   */
  lemma ExactConservation(run: seq<Step>)
    requires Legal(EMPTY, run) && CrashFree(run)
    ensures AlwaysConserves(EMPTY, run) <==> Leakless(EMPTY, run)
  {
    EmptyGrounded();
    assert Balanced(EMPTY) by {
      forall k, c ensures OpBalanced(EMPTY, k, c) { assert Live(map[], k, c) == {}; }
    }
    ExactConservationFrom(EMPTY, run);
  }

  // ---------- what a verdict is ----------

  // The row of job j, if there is one, has status st.
  predicate RowIs(db: Store, j: JobId, st: RowStatus) {
    && (j in db.deployments ==> db.deployments[j].status == st)
    && (j in db.installs ==> db.installs[j].status == st)
  }

  // A terminal block recorded that job j of kind k on c ended in status st with the outcome.
  predicate Recorded(s: System, t: System, j: JobId, st: RowStatus, outcome: Outcome) {
    && j in s.workers && |t.db.audit| > |s.db.audit| && s.db.audit <= t.db.audit
    && t.db.audit[|s.db.audit|] == Entry(Op(s.workers[j].kind), s.workers[j].cluster, outcome, Some(j))
    && RowIs(t.db, j, st)
  }

  lemma RowAfterBlock(s: System, j: JobId, ok: bool)
    requires Grounded(s) && InPhase(s, j, Body) && !Lost(s, j, ok)
    ensures RowIs(CloseJob(s, j, ok).db, j, FinishStatus(s.workers[j].cancelled, !ok).0)
  {
    var w := s.workers[j];
    assert GroundedAt(s, w.cluster) && BodyOn(s, j, w.cluster) && Owns(s.db, j, w) && RowMatches(s.db, j, w);
    var n := |CloseWrites(s.db, j, w, ok)|;
    if Tracked(w.kind) {
      BlockEffect(s.db, j, w, ok, n);
    } else {
      HelmBlock(s.db, j, w, ok, n);
    }
  }

  /** What a terminal block that writes records, in the row and as the next row of the log: of an uncancelled body that
      failed, failed; of one that succeeded, succeeded; of a cancelled body, cancelled. A tracked success block under a
      cancelled context is the one that writes nothing. */
  lemma VerdictIsRecorded(s: System, j: JobId, ok: bool)
    requires Reachable(s) && InPhase(s, j, Body)
    ensures var w, t := s.workers[j], CloseJob(s, j, ok);
            if w.cancelled && ok && (w.kind.Deploy? || w.kind.Destroy? || w.kind.Upgrade?) then t.db == s.db
            else if w.cancelled then Recorded(s, t, j, Cancelled, OCancelled)
            else if ok then Recorded(s, t, j, Succeeded, OSucceeded)
            else Recorded(s, t, j, Failed, OFailed)
  {
    ReachableGrounded(s);
    if !Lost(s, j, ok) {
      BlockAudit(s.db, j, s.workers[j], ok);
      RowAfterBlock(s, j, ok);
    }
  }
}
