/** The life of one deployment or install row, over every legal run: it leaves Running at most once, and is Cancelled
    only by a cancel. */
module LifecycleRows {
  import opened Lifecycle
  import opened LifecycleGround
  import opened LifecycleRequests

  // How job j's row may look after a step: gone, unchanged, or moved on from Running; never back from the dead.
  predicate RowStays(a: Rows, b: Rows, j: JobId) {
    j in b ==> (j in a && (a[j].status != Running ==> b[j] == a[j]))
  }

  predicate HasStatus(rows: Rows, j: JobId, st: RowStatus) { j in rows && rows[j].status == st }

  // Neither of job j's possible rows has status st.
  predicate Lacks(db: Store, j: JobId, st: RowStatus) {
    !HasStatus(db.deployments, j, st) && !HasStatus(db.installs, j, st)
  }

  // Nothing about job j says cancelled.
  predicate Uncancelled(s: System, j: JobId) {
    && (InPhase(s, j, Body) ==> !s.workers[j].cancelled)
    && Lacks(s.db, j, Cancelled)
  }

  // A write that leaves what rows job j has alone.
  predicate Aside(w: Write, j: JobId) {
    match w
    case FinishWrite(i, _) => i != j
    case StartWrite(i, _) => i != j
    case FailWrite(i) => i != j
    case _ => true
  }

  lemma {:induction false} WritesAside(db: Store, ws: seq<Write>, n: nat, j: JobId)
    requires n <= |ws| && forall i :: 0 <= i < n ==> Aside(ws[i], j)
    ensures var t := ApplyWrites(db, ws, n);
            && (j in t.deployments ==> (j in db.deployments && t.deployments[j] == db.deployments[j]))
            && (j in t.installs ==> (j in db.installs && t.installs[j] == db.installs[j]))
  {
    if n > 0 {
      WritesAside(db, ws, n - 1, j);
      assert Aside(ws[n - 1], j);
    }
  }

  lemma WriteLacks(db: Store, w: Write, j: JobId, st: RowStatus)
    requires Lacks(db, j, st) && (Aside(w, j) || (w.FinishWrite? && w.status != st))
    ensures Lacks(ApplyWrite(db, w), j, st)
  {}

  lemma {:induction false} WritesLack(db: Store, ws: seq<Write>, n: nat, j: JobId, st: RowStatus)
    requires n <= |ws|
    requires forall i :: 0 <= i < n ==> Aside(ws[i], j) || (ws[i].FinishWrite? && ws[i].status != st)
    requires Lacks(db, j, st)
    ensures Lacks(ApplyWrites(db, ws, n), j, st)
  {
    if n > 0 {
      WritesLack(db, ws, n - 1, j, st);
      WriteLacks(ApplyWrites(db, ws, n - 1), ws[n - 1], j, st);
    }
  }

  // A prefix of job i's terminal block, seen from job j's rows.
  lemma BlockOnRow(s: System, i: JobId, ok: bool, n: nat, j: JobId)
    requires Grounded(s) && InPhase(s, i, Body) && n <= |CloseWrites(s.db, i, s.workers[i], ok)|
    ensures var t := ApplyWrites(s.db, CloseWrites(s.db, i, s.workers[i], ok), n);
            RowStays(s.db.deployments, t.deployments, j) && RowStays(s.db.installs, t.installs, j)
  {
    var w := s.workers[i];
    var ws := CloseWrites(s.db, i, w, ok);
    if i != j {
      WritesAside(s.db, ws, n, j);
    } else {
      assert GroundedAt(s, w.cluster) && BodyOn(s, i, w.cluster) && Owns(s.db, i, w) && RowMatches(s.db, i, w);
      WritesKeepShape(s.db, ws, n);
    }
  }

  // A block never writes Cancelled without the cancel, nor Succeeded with it.
  lemma BlockLacks(db: Store, i: JobId, w: Worker, ok: bool, n: nat, j: JobId, st: RowStatus)
    requires n <= |CloseWrites(db, i, w, ok)| && Lacks(db, j, st)
    requires i == j ==> if w.cancelled then st == Succeeded else st == Cancelled
    ensures Lacks(ApplyWrites(db, CloseWrites(db, i, w, ok), n), j, st)
  {
    WritesLack(db, CloseWrites(db, i, w, ok), n, j, st);
  }

  // Job j's row is unchanged, gone, or, for a job not yet known, a new Running one; known tells j apart.
  predicate RowEffect(a: Rows, b: Rows, j: JobId, known: bool) {
    && (known ==> RowStays(a, b, j))
    && (HasStatus(b, j, Cancelled) ==> HasStatus(a, j, Cancelled))
    && (HasStatus(b, j, Succeeded) ==> HasStatus(a, j, Succeeded))
  }

  // A write of a front half: of row j it can do no more than add it as Running, and that only while j is not known.
  predicate MildWrite(w: Write, j: JobId, known: bool) {
    match w
    case FinishWrite(_, _) => false
    case StartWrite(i, row) => row.status == Running && (known ==> i != j)
    case FailWrite(_) => false
    case _ => true
  }

  lemma {:induction false} MildWrites(db: Store, ws: seq<Write>, n: nat, j: JobId, known: bool)
    requires n <= |ws| && forall i :: 0 <= i < n ==> MildWrite(ws[i], j, known)
    ensures var t := ApplyWrites(db, ws, n);
            && RowEffect(db.deployments, t.deployments, j, known) && RowEffect(db.installs, t.installs, j, known)
            && (Lacks(db, j, Failed) ==> Lacks(t, j, Failed))
  {
    if n > 0 {
      MildWrites(db, ws, n - 1, j, known);
      assert MildWrite(ws[n - 1], j, known);
    }
  }

  lemma RequestIsMild(s: System, q: Step, j: JobId)
    requires IsRequest(q) && Enabled(s, q)
    ensures forall i :: 0 <= i < |RequestWrites(s, q)| ==> MildWrite(RequestWrites(s, q)[i], j, j in s.issued)
  {}

  // A prefix of a front half adds at most one fresh Running row and otherwise drops rows.
  lemma FrontOnRow(s: System, step: Step, j: JobId)
    requires Enabled(s, step) && IsFront(step)
    ensures var t := Next(s, step);
            && RowEffect(s.db.deployments, t.db.deployments, j, j in s.issued)
            && RowEffect(s.db.installs, t.db.installs, j, j in s.issued)
            && (Lacks(s.db, j, Failed) ==> Lacks(t.db, j, Failed))
  {
    FrontIsPrefix(s, step);
    RequestIsMild(s, FrontOf(step), j);
    MildWrites(s.db, RequestWrites(s, FrontOf(step)), FrontWrites(s, step), j, j in s.issued);
  }

  // Recovery, whole or cut, fails Running rows.
  lemma BootOnRow(s: System, step: Step, j: JobId, known: bool)
    requires Enabled(s, step) && IsBoot(step)
    ensures var t := Next(s, step);
            && RowEffect(s.db.deployments, t.db.deployments, j, known)
            && RowEffect(s.db.installs, t.db.installs, j, known)
  {
    if step.DoCutBoot? {
      var mid := RecoveredSome(s.db, step.done);
      assert forall i :: i in step.done ==> IsRunning(s.db.deployments, i);
      CutRows(s.db, mid, step.j, step.n);
    }
  }

  lemma CutRows(db: Store, mid: Store, i: JobId, n: nat)
    requires i in db.deployments && n <= 3
    ensures var t := ApplyWrites(mid, RecoverWrites(db, i), n);
            && t.deployments == (if n == 0 then mid.deployments else FinishRow(mid.deployments, i, Failed))
            && t.installs == mid.installs
  {
    ApplyThree(mid, RecoverWrites(db, i));
  }

  // Steps outside terminal blocks add fresh Running rows, drop rows, or recover Running ones.
  lemma RequestOnRow(s: System, step: Step, j: JobId)
    requires Enabled(s, step) && !step.DoClose? && !step.DoCut? && !step.DoLose?
    ensures var t := Next(s, step);
            && (j in s.issued ==> j in t.issued)
            && RowEffect(s.db.deployments, t.db.deployments, j, j in s.issued)
            && RowEffect(s.db.installs, t.db.installs, j, j in s.issued)
  {
    if IsFront(step) {
      FrontOnRow(s, step, j);
    } else if IsBoot(step) {
      BootOnRow(s, step, j, j in s.issued);
    }
  }

  lemma StepOnRow(s: System, step: Step, j: JobId)
    requires Grounded(s) && Enabled(s, step) && j in s.issued
    ensures var t := Next(s, step);
            && j in t.issued
            && RowStays(s.db.deployments, t.db.deployments, j) && RowStays(s.db.installs, t.db.installs, j)
  {
    match step
    case DoClose(i, ok) => BlockOnRow(s, i, ok, |CloseWrites(s.db, i, s.workers[i], ok)|, j);
    case DoCut(i, ok, n) => BlockOnRow(s, i, ok, n, j);
    case DoLose(i, n) => BlockOnRow(s, i, true, n, j);
    case _ => RequestOnRow(s, step, j);
  }

  lemma StepKeepsFlag(s: System, step: Step, j: JobId)
    requires Enabled(s, step) && step != DoCancel(j) && (InPhase(s, j, Body) ==> !s.workers[j].cancelled)
    ensures InPhase(Next(s, step), j, Body) ==> !Next(s, step).workers[j].cancelled
  {}

  lemma StepStaysUncancelled(s: System, step: Step, j: JobId)
    requires Enabled(s, step) && Uncancelled(s, j) && step != DoCancel(j)
    ensures Uncancelled(Next(s, step), j)
  {
    StepKeepsFlag(s, step, j);
    match step
    case DoClose(i, ok) =>
      BlockLacks(s.db, i, s.workers[i], ok, |CloseWrites(s.db, i, s.workers[i], ok)|, j, Cancelled);
    case DoCut(i, ok, n) => BlockLacks(s.db, i, s.workers[i], ok, n, j, Cancelled);
    case DoLose(i, n) => BlockLacks(s.db, i, s.workers[i], true, n, j, Cancelled);
    case _ => RequestOnRow(s, step, j);
  }

  /** In any legal run, a row that has left Running keeps its status for ever, until it is dropped, and an id whose row
      was dropped never has a row again. */
  lemma FinishedRowIsFinal(s: System, run: seq<Step>, j: JobId)
    requires Reachable(s) && Legal(s, run) && j in s.issued
    requires j in s.db.deployments ==> s.db.deployments[j].status != Running
    requires j in s.db.installs ==> s.db.installs[j].status != Running
    ensures var t := After(s, run);
            && (j in t.db.deployments ==> j in s.db.deployments && t.db.deployments[j] == s.db.deployments[j])
            && (j in t.db.installs ==> j in s.db.installs && t.db.installs[j] == s.db.installs[j])
  {
    ReachableGrounded(s);
    RowsStay(s, run, j);
  }

  lemma {:induction false} RowsStay(s: System, run: seq<Step>, j: JobId)
    requires Grounded(s) && Legal(s, run) && j in s.issued
    requires j in s.db.deployments ==> s.db.deployments[j].status != Running
    requires j in s.db.installs ==> s.db.installs[j].status != Running
    ensures var t := After(s, run);
            && (j in t.db.deployments ==> j in s.db.deployments && t.db.deployments[j] == s.db.deployments[j])
            && (j in t.db.installs ==> j in s.db.installs && t.db.installs[j] == s.db.installs[j])
    decreases |run|
  {
    if run != [] {
      StepOnRow(s, run[0], j);
      StepGrounds(s, run[0]);
      RowsStay(Next(s, run[0]), run[1..], j);
    }
  }

  /** In any legal run, a row ends Cancelled only if the run cancelled that very job. */
  lemma {:induction false} CancelledNeedsCancel(s: System, run: seq<Step>, j: JobId)
    requires Legal(s, run) && Uncancelled(s, j)
    requires !Lacks(After(s, run).db, j, Cancelled)
    ensures DoCancel(j) in run
    decreases |run|
  {
    if run != [] && run[0] != DoCancel(j) {
      StepStaysUncancelled(s, run[0], j);
      CancelledNeedsCancel(Next(s, run[0]), run[1..], j);
    }
  }

  // Job j can no longer succeed: it has not, and if it is still at work it has been cancelled.
  predicate Doomed(s: System, j: JobId) {
    j in s.issued && (InPhase(s, j, Body) ==> s.workers[j].cancelled) && Lacks(s.db, j, Succeeded)
  }

  lemma StepKeepsDoom(s: System, step: Step, j: JobId)
    requires Enabled(s, step) && j in s.issued && (InPhase(s, j, Body) ==> s.workers[j].cancelled)
    ensures var t := Next(s, step); j in t.issued && (InPhase(t, j, Body) ==> t.workers[j].cancelled)
  {}

  lemma StepStaysDoomed(s: System, step: Step, j: JobId)
    requires Enabled(s, step) && Doomed(s, j)
    ensures Doomed(Next(s, step), j)
  {
    StepKeepsDoom(s, step, j);
    match step
    case DoClose(i, ok) =>
      BlockLacks(s.db, i, s.workers[i], ok, |CloseWrites(s.db, i, s.workers[i], ok)|, j, Succeeded);
    case DoCut(i, ok, n) => BlockLacks(s.db, i, s.workers[i], ok, n, j, Succeeded);
    case DoLose(i, n) => BlockLacks(s.db, i, s.workers[i], true, n, j, Succeeded);
    case _ => RequestOnRow(s, step, j);
  }

  lemma {:induction false} DoomLasts(s: System, run: seq<Step>, j: JobId)
    requires Legal(s, run) && Doomed(s, j)
    ensures Doomed(After(s, run), j)
    decreases |run|
  {
    if run != [] {
      StepStaysDoomed(s, run[0], j);
      DoomLasts(Next(s, run[0]), run[1..], j);
    }
  }

  /** A cancel that reaches a job in its body is final: whatever the verdict and whatever happens next, no row of that
      job is ever marked succeeded. */
  lemma CancelIsFinal(s: System, run: seq<Step>, j: JobId)
    requires Reachable(s) && s.up && InPhase(s, j, Body)
    requires Legal(CancelJob(s, j), run)
    ensures Lacks(After(CancelJob(s, j), run).db, j, Succeeded)
  {
    ReachableGrounded(s);
    var c := s.workers[j].cluster;
    assert GroundedAt(s, c) && BodyOn(s, j, c) && Owns(s.db, j, s.workers[j]) && RowMatches(s.db, j, s.workers[j]);
    DoomLasts(CancelJob(s, j), run, j);
  }

  // ---------- what a row needs to end as it does ----------

  // The step ends j's body with the given verdict, having written its row.
  predicate EndsBody(step: Step, j: JobId, verdict: bool) {
    match step
    case DoClose(i, ok) => i == j && ok == verdict
    case DoCut(i, ok, n) => i == j && ok == verdict && n > 0
    case DoLose(i, n) => i == j && verdict && n > 0
    case _ => false
  }

  // Without such an end, j's terminal block, however far it gets, writes no such status.
  lemma BlockNeedsVerdict(db: Store, i: JobId, w: Worker, ok: bool, n: nat, j: JobId, st: RowStatus)
    requires n <= |CloseWrites(db, i, w, ok)| && Lacks(db, j, st) && (st == Succeeded || st == Failed)
    requires i == j && n > 0 ==> ok != (st == Succeeded)
    ensures Lacks(ApplyWrites(db, CloseWrites(db, i, w, ok), n), j, st)
  {
    if n > 0 { WritesLack(db, CloseWrites(db, i, w, ok), n, j, st); }
  }

  lemma StepNeedsVerdict(s: System, step: Step, j: JobId, st: RowStatus)
    requires Enabled(s, step) && Lacks(s.db, j, st) && (st == Succeeded || st == Failed)
    requires !EndsBody(step, j, st == Succeeded) && (st == Failed ==> !IsBoot(step))
    ensures Lacks(Next(s, step).db, j, st)
  {
    match step
    case DoClose(i, ok) =>
      if |CloseWrites(s.db, i, s.workers[i], ok)| > 0 {
        BlockNeedsVerdict(s.db, i, s.workers[i], ok, |CloseWrites(s.db, i, s.workers[i], ok)|, j, st);
      }
    case DoCut(i, ok, n) => BlockNeedsVerdict(s.db, i, s.workers[i], ok, n, j, st);
    case DoLose(i, n) => BlockNeedsVerdict(s.db, i, s.workers[i], true, n, j, st);
    case _ => if IsFront(step) { FrontOnRow(s, step, j); } else { RequestOnRow(s, step, j); }
  }

  /** In any legal run, a row ends Succeeded only if a step of the run ended that very job's body with a good
      verdict. */
  lemma {:induction false} SucceededNeedsSuccess(s: System, run: seq<Step>, j: JobId)
    requires Legal(s, run) && Lacks(s.db, j, Succeeded) && !Lacks(After(s, run).db, j, Succeeded)
    ensures exists i :: 0 <= i < |run| && EndsBody(run[i], j, true)
    decreases |run|
  {
    if run != [] && !EndsBody(run[0], j, true) {
      StepNeedsVerdict(s, run[0], j, Succeeded);
      SucceededNeedsSuccess(Next(s, run[0]), run[1..], j);
      var i :| 0 <= i < |run[1..]| && EndsBody(run[1..][i], j, true);
      assert run[i + 1] == run[1..][i];
    }
  }

  /** And Failed only if a step ended its body with a bad one, or a boot, whole or cut, came along. */
  lemma {:induction false} FailedNeedsFailure(s: System, run: seq<Step>, j: JobId)
    requires Legal(s, run) && Lacks(s.db, j, Failed) && !Lacks(After(s, run).db, j, Failed)
    ensures exists i :: 0 <= i < |run| && (EndsBody(run[i], j, false) || IsBoot(run[i]))
    decreases |run|
  {
    if run != [] && !EndsBody(run[0], j, false) && !IsBoot(run[0]) {
      StepNeedsVerdict(s, run[0], j, Failed);
      FailedNeedsFailure(Next(s, run[0]), run[1..], j);
      var i :| 0 <= i < |run[1..]| && (EndsBody(run[1..][i], j, false) || IsBoot(run[1..][i]));
      assert run[i + 1] == run[1..][i];
    }
  }
}
