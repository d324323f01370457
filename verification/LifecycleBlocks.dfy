/** What the first n writes of a worker's terminal block make of the store. */
module LifecycleBlocks {
  import opened Common
  import opened StateMachine
  import opened Lifecycle
  import opened LifecycleGround
  import opened LifecycleRequests

  // The row and status writes every tracked block starts with.
  function Settled(db: Store, j: JobId, w: Worker, ok: bool): Store
    requires Tracked(w.kind)
  {
    SetStatus(ApplyWrite(db, FinishWrite(j, FinishStatus(w.cancelled, !ok).0)), w.cluster,
              if ok then Landed(w.kind) else Error)
  }

  // The store n writes into a tracked block, from the settled store d2 on.
  function Tail(d2: Store, j: JobId, w: Worker, ok: bool, n: nat): Store {
    var c := w.cluster;
    var verdict := Entry(Op(w.kind), c, FinishStatus(w.cancelled, !ok).1, Some(j));
    if n <= 2 then d2
    else if ok then
      var d3 := Log(d2, verdict);
      if n == 3 then d3 else
      var d4 := DropCluster(d3, c);
      if n == 4 then d4 else Log(d4, Entry(Delete, c, OSuccess, Some(j)))
    else if !w.kind.Destroy? then Log(d2, verdict)
    else
      var d3 := SetLatch(d2, c, false);
      if n == 3 then d3 else
      var d4 := Log(d3, verdict);
      if n == 4 then d4 else Log(d4, Entry(Delete, c, OFailure, Some(j)))
  }

  lemma {:induction false} BlockIs(db: Store, j: JobId, w: Worker, ok: bool, n: nat)
    requires Tracked(w.kind) && !(ok && w.cancelled) && 2 <= n <= |CloseWrites(db, j, w, ok)|
    ensures ApplyWrites(db, CloseWrites(db, j, w, ok), n) == Tail(Settled(db, j, w, ok), j, w, ok, n)
  {
    var ws := CloseWrites(db, j, w, ok);
    if n == 2 {
      assert ApplyWrites(db, ws, 1) == ApplyWrite(db, ws[0]);
    } else {
      BlockIs(db, j, w, ok, n - 1);
    }
  }

  function Finished(rows: Rows, j: JobId, w: Worker, ok: bool): Rows {
    FinishRow(rows, j, FinishStatus(w.cancelled, !ok).0)
  }

  // n writes into the block the cluster is gone.
  predicate Forgets(db: Store, w: Worker, ok: bool, n: nat) {
    ok && w.kind.Destroy? && Latched(db.clusters, w.cluster) && n >= 4
  }

  function StatusAfter(w: Worker, ok: bool): Status
    requires Tracked(w.kind)
  {
    if ok then Landed(w.kind) else Error
  }

  // j's row is finished and the rest of the block is yet to come.
  lemma FirstWrite(db: Store, j: JobId, w: Worker, ok: bool)
    requires Tracked(w.kind) && Owns(db, j, w) && RowMatches(db, j, w) && !(ok && w.cancelled)
    ensures ApplyWrites(db, CloseWrites(db, j, w, ok), 1) == db.(deployments := Finished(db.deployments, j, w, ok))
  {
    var ws := CloseWrites(db, j, w, ok);
    assert ApplyWrites(db, ws, 1) == ApplyWrite(db, ws[0]);
  }

  lemma SettledEffect(db: Store, j: JobId, w: Worker, ok: bool)
    requires Tracked(w.kind) && Owns(db, j, w) && RowMatches(db, j, w) && !(ok && w.cancelled) && w.cluster in db.trail
    ensures var c, x := w.cluster, StatusAfter(w, ok);
            Settled(db, j, w, ok) == db.(deployments := Finished(db.deployments, j, w, ok),
                                         clusters := db.clusters[c := db.clusters[c].(status := x)],
                                         trail := db.trail[c := db.trail[c] + [x]])
  {}

  /** What the first n > 1 writes of a tracked terminal block make of rows, status, latch and trail. */
  lemma BlockEffect(db: Store, j: JobId, w: Worker, ok: bool, n: nat)
    requires Tracked(w.kind) && Owns(db, j, w) && RowMatches(db, j, w) && !(ok && w.cancelled) && w.cluster in db.trail
    requires 2 <= n <= |CloseWrites(db, j, w, ok)|
    ensures var c, x := w.cluster, StatusAfter(w, ok);
            var t := ApplyWrites(db, CloseWrites(db, j, w, ok), n);
            var rows := Finished(db.deployments, j, w, ok);
            && t.trail == db.trail[c := db.trail[c] + [x]]
            && (if Forgets(db, w, ok, n)
                then && t.deployments == RowsWithout(rows, c) && t.installs == RowsWithout(db.installs, c)
                     && t.clusters == db.clusters - {c}
                else && t.deployments == rows && t.installs == db.installs
                     && t.clusters == db.clusters[c := Cluster(x, db.clusters[c].pendingForget
                                                                  && (ok || !w.kind.Destroy? || n < 3))])
  {
    BlockIs(db, j, w, ok, n);
    SettledEffect(db, j, w, ok);
  }

  // A helm block leaves deployments and clusters alone.
  lemma {:induction false} HelmBlock(db: Store, j: JobId, w: Worker, ok: bool, n: nat)
    requires !Tracked(w.kind) && n <= 2 && RowMatches(db, j, w)
    ensures |CloseWrites(db, j, w, ok)| == 2
    ensures var t := ApplyWrites(db, CloseWrites(db, j, w, ok), n);
            && t.deployments == db.deployments && t.clusters == db.clusters && t.trail == db.trail
            && t.installs == if n == 0 then db.installs else Finished(db.installs, j, w, ok)
  {
    if n > 0 {
      HelmBlock(db, j, w, ok, n - 1);
    }
  }
}
