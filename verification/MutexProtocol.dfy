/**
  Every operation that takes the per-cluster mutex, interleaved at the grain of single lock operations.

  An operation locks the outer mutex, looks its cluster's mutex up (creating it on first use), leaves the
  outer mutex, tries the inner one, runs a front half that may fail at several points, spawns a worker body,
  and on every exit path goes through Unlock's three steps in turn.
 */
module MutexProtocol {
  import opened Common
  import Lifecycle

  type ClusterId = Lifecycle.ClusterId
  type Kind = Lifecycle.Kind
  type ThreadId = nat
  type LockRef = nat

  // The points between TryLock and the worker's start at which a kickoff can fail: log file, row and, for
  // the deployments executor, cluster status.
  function FallibleSteps(k: Kind): nat {
    if Lifecycle.Tracked(k) then 3 else 2
  }

  datatype Pc =
    | Start                   // guards before TryLock
    | Enter | Lookup | Leave  // TryLock, under the outer mutex
    | Try                     // the inner TryLock
    | Front(left: nat)        // lock held, left fallible steps to go
    | Body                    // the worker goroutine
    | UEnter | ULookup | ULeave | Release  // Unlock
    | Done

  // acquired and released count this thread's successful TryLocks and its Unlocks of the inner mutex.
  datatype Thread = Thread(kind: Kind, cluster: ClusterId, pc: Pc, lock: Option<LockRef>, acquired: nat, released: nat)

  datatype State = State(
    outer: Option<ThreadId>,
    per: map<ClusterId, LockRef>,
    locked: set<LockRef>,
    nextRef: LockRef,
    threads: map<ThreadId, Thread>,
    fatal: bool)  // set when a free inner mutex is unlocked

  const EMPTY := State(None, map[], {}, 0, map[], false)

  datatype Step = Spawn(t: ThreadId, kind: Kind, cluster: ClusterId) | Move(t: ThreadId, ok: bool)

  predicate Enabled(s: State, step: Step) {
    match step
    case Spawn(t, _, _) => t !in s.threads
    case Move(t, _) =>
      && t in s.threads
      && !s.threads[t].pc.Done?
      && (s.threads[t].pc.Enter? || s.threads[t].pc.UEnter? ==> s.outer == None)
  }

  function At(s: State, t: ThreadId, pc: Pc): State
    requires t in s.threads
  {
    s.(threads := s.threads[t := s.threads[t].(pc := pc)])
  }

  // ok resolves what the environment decides: whether a guard or a fallible step passes.
  function Next(s: State, step: Step): State
    requires Enabled(s, step)
  {
    match step
    case Spawn(t, k, c) => s.(threads := s.threads[t := Thread(k, c, Start, None, 0, 0)])
    case Move(t, ok) =>
      var th := s.threads[t];
      match th.pc
      case Start => At(s, t, if ok then Enter else Done)
      case Enter => At(s, t, Lookup).(outer := Some(t))
      case Lookup =>
        if th.cluster in s.per then
          s.(threads := s.threads[t := th.(pc := Leave, lock := Some(s.per[th.cluster]))])
        else
          s.(threads := s.threads[t := th.(pc := Leave, lock := Some(s.nextRef))],
             per := s.per[th.cluster := s.nextRef], nextRef := s.nextRef + 1)
      case Leave => At(s, t, Try).(outer := None)
      case Try =>
        if th.lock.None? || th.lock.value in s.locked then At(s, t, Done)
        else s.(threads := s.threads[t := th.(pc := Front(FallibleSteps(th.kind)), acquired := th.acquired + 1)],
                locked := s.locked + {th.lock.value})
      case Front(left) => At(s, t, if left == 0 then Body else if ok then Front(left - 1) else UEnter)
      case Body => At(s, t, UEnter)
      case UEnter => At(s, t, ULookup).(outer := Some(t))
      case ULookup =>
        s.(threads := s.threads[t := th.(pc := ULeave,
             lock := if th.cluster in s.per then Some(s.per[th.cluster]) else None)])
      case ULeave => At(s, t, Release).(outer := None)
      case Release =>
        if th.lock.None? then At(s, t, Done)
        else s.(threads := s.threads[t := th.(pc := Done, released := th.released + 1)],
                locked := s.locked - {th.lock.value},
                fatal := s.fatal || th.lock.value !in s.locked)
      case Done => s
  }

  ghost predicate Legal(s: State, run: seq<Step>)
    decreases |run|
  {
    run == [] || (Enabled(s, run[0]) && Legal(Next(s, run[0]), run[1..]))
  }

  ghost function After(s: State, run: seq<Step>): State
    requires Legal(s, run)
    decreases |run|
  {
    if run == [] then s else After(Next(s, run[0]), run[1..])
  }

  // Between a successful TryLock and the matching Unlock.
  predicate Critical(th: Thread) {
    th.pc.Front? || th.pc.Body? || th.pc.UEnter? || th.pc.ULookup? || th.pc.ULeave? || th.pc.Release?
  }

  predicate UnderOuter(th: Thread) { th.pc.Lookup? || th.pc.Leave? || th.pc.ULookup? || th.pc.ULeave? }

  predicate InCritical(s: State, t: ThreadId) { t in s.threads && Critical(s.threads[t]) }

  predicate HoldsRef(s: State, t: ThreadId, r: LockRef) {
    InCritical(s, t) && s.threads[t].cluster in s.per && s.per[s.threads[t].cluster] == r
  }

  ghost predicate HasHolder(s: State, r: LockRef) { exists t :: HoldsRef(s, t, r) }

  ghost predicate PerInv(s: State) {
    && (forall c :: c in s.per ==> s.per[c] < s.nextRef)
    && (forall c, d :: c in s.per && d in s.per && s.per[c] == s.per[d] ==> c == d)
  }

  // What one thread knows of the shared state.
  predicate ThreadInv(s: State, t: ThreadId, th: Thread) {
    && (UnderOuter(th) <==> s.outer == Some(t))
    && (th.pc.Leave? || th.pc.Try? || th.pc.ULeave? || th.pc.Release? ==>
          th.cluster in s.per && th.lock == Some(s.per[th.cluster]))
    && (Critical(th) ==> th.cluster in s.per && s.per[th.cluster] in s.locked)
    && (if Critical(th) then th.acquired == 1 && th.released == 0 else th.acquired == th.released <= 1)
    && (!Critical(th) && !th.pc.Done? ==> th.acquired == 0)
  }

  ghost predicate Exclusive(s: State) {
    forall t, u {:trigger InCritical(s, t), InCritical(s, u)} ::
      InCritical(s, t) && InCritical(s, u) && s.threads[t].cluster == s.threads[u].cluster ==> t == u
  }

  ghost predicate Covered(s: State) { forall r :: r in s.locked ==> HasHolder(s, r) }

  ghost predicate ThreadsInv(s: State) {
    && (s.outer.Some? ==> s.outer.value in s.threads)
    && (forall t {:trigger s.threads[t]} :: t in s.threads ==> ThreadInv(s, t, s.threads[t]))
  }

  ghost predicate Inv(s: State) {
    PerInv(s) && !s.fatal && ThreadsInv(s) && Exclusive(s) && Covered(s)
  }

  // s' differs from s in thread t only, which stays on its cluster; known mutexes stay where they are.
  ghost predicate OnlyMoves(s: State, s': State, t: ThreadId) {
    && t in s'.threads && s'.threads == s.threads[t := s'.threads[t]]
    && (t in s.threads ==> s'.threads[t].cluster == s.threads[t].cluster)
    && (forall c :: c in s.per ==> c in s'.per && s'.per[c] == s.per[c])
  }

  lemma OthersKeepInv(s: State, s': State, t: ThreadId)
    requires ThreadsInv(s) && OnlyMoves(s, s', t) && ThreadInv(s', t, s'.threads[t])
    requires s'.outer == s.outer || (s.outer == None && s'.outer == Some(t)) || (s.outer == Some(t) && s'.outer == None)
    requires forall u :: u != t && InCritical(s, u) && s.threads[u].cluster in s.per ==>
               s.per[s.threads[u].cluster] in s.locked ==> s.per[s.threads[u].cluster] in s'.locked
    ensures ThreadsInv(s')
  {
    forall u | u in s'.threads ensures ThreadInv(s', u, s'.threads[u]) {
      if u != t {
        assert ThreadInv(s, u, s.threads[u]);
        assert InCritical(s, u) <==> Critical(s.threads[u]);
      }
    }
  }

  lemma MoveKeepsExclusive(s: State, s': State, t: ThreadId)
    requires Exclusive(s) && OnlyMoves(s, s', t)
    requires InCritical(s', t) && !InCritical(s, t) ==>
               forall u :: InCritical(s, u) ==> s.threads[u].cluster != s'.threads[t].cluster
    ensures Exclusive(s')
  {
    assert forall u :: u != t ==> (InCritical(s', u) <==> InCritical(s, u));
  }

  lemma MoveKeepsCovered(s: State, s': State, t: ThreadId)
    requires Covered(s) && OnlyMoves(s, s', t)
    requires InCritical(s, t) && !InCritical(s', t) ==> forall r :: HoldsRef(s, t, r) ==> r !in s'.locked
    requires forall r :: r in s'.locked && r !in s.locked ==> HoldsRef(s', t, r)
    ensures Covered(s')
  {
    forall r | r in s'.locked ensures HasHolder(s', r) {
      if r in s.locked {
        assert HasHolder(s, r);
        var u :| HoldsRef(s, u, r);
        assert HoldsRef(s', u, r);
      } else {
        assert HoldsRef(s', t, r);
      }
    }
  }

  // A move that leaves the inner mutexes alone and t as critical as it was.
  lemma QuietMove(s: State, s': State, t: ThreadId)
    requires Inv(s) && t in s.threads && OnlyMoves(s, s', t)
    requires s'.locked == s.locked && s'.fatal == s.fatal && PerInv(s')
    requires Critical(s'.threads[t]) == Critical(s.threads[t]) && ThreadInv(s', t, s'.threads[t])
    requires s'.outer == s.outer || (s.outer == None && s'.outer == Some(t)) || (s.outer == Some(t) && s'.outer == None)
    ensures Inv(s')
  {
    OthersKeepInv(s, s', t);
    MoveKeepsExclusive(s, s', t);
    MoveKeepsCovered(s, s', t);
  }

  lemma LookupMove(s: State, t: ThreadId, ok: bool)
    requires Inv(s) && t in s.threads && s.threads[t].pc.Lookup?
    ensures Inv(Next(s, Move(t, ok)))
  {
    assert ThreadInv(s, t, s.threads[t]);
    QuietMove(s, Next(s, Move(t, ok)), t);
  }

  lemma TryMove(s: State, t: ThreadId, ok: bool)
    requires Inv(s) && t in s.threads && s.threads[t].pc.Try?
    ensures Inv(Next(s, Move(t, ok)))
  {
    var s' := Next(s, Move(t, ok));
    var th := s.threads[t];
    assert ThreadInv(s, t, th);
    if th.lock.value in s.locked {
      QuietMove(s, s', t);
    } else {
      forall u | InCritical(s, u) ensures s.threads[u].cluster != th.cluster {
        assert ThreadInv(s, u, s.threads[u]);
      }
      OthersKeepInv(s, s', t);
      MoveKeepsExclusive(s, s', t);
      MoveKeepsCovered(s, s', t);
    }
  }

  lemma ReleaseMove(s: State, t: ThreadId, ok: bool)
    requires Inv(s) && t in s.threads && s.threads[t].pc.Release?
    ensures Inv(Next(s, Move(t, ok)))
  {
    var s' := Next(s, Move(t, ok));
    var th := s.threads[t];
    assert ThreadInv(s, t, th) && InCritical(s, t);
    OthersKeepInv(s, s', t);
    MoveKeepsExclusive(s, s', t);
    MoveKeepsCovered(s, s', t);
  }

  lemma SpawnMove(s: State, t: ThreadId, k: Kind, c: ClusterId)
    requires Inv(s) && t !in s.threads
    ensures Inv(Next(s, Spawn(t, k, c)))
  {
    var s' := Next(s, Spawn(t, k, c));
    OthersKeepInv(s, s', t);
    MoveKeepsExclusive(s, s', t);
    MoveKeepsCovered(s, s', t);
  }

  // The remaining moves touch no inner mutex.
  lemma ControlThread(s: State, t: ThreadId, ok: bool)
    requires Enabled(s, Move(t, ok)) && ThreadInv(s, t, s.threads[t])
    requires var pc := s.threads[t].pc; !pc.Lookup? && !pc.Try? && !pc.Release?
    ensures var s' := Next(s, Move(t, ok));
            && t in s'.threads && s'.threads == s.threads[t := s'.threads[t]]
            && s'.threads[t].cluster == s.threads[t].cluster
            && s'.per == s.per && s'.nextRef == s.nextRef && s'.locked == s.locked && s'.fatal == s.fatal
            && Critical(s'.threads[t]) == Critical(s.threads[t])
            && ThreadInv(s', t, s'.threads[t])
            && (|| s'.outer == s.outer
                || (s.outer == None && s'.outer == Some(t))
                || (s.outer == Some(t) && s'.outer == None))
  {}

  lemma ControlMove(s: State, t: ThreadId, ok: bool)
    requires Inv(s) && Enabled(s, Move(t, ok))
    requires var pc := s.threads[t].pc; !pc.Lookup? && !pc.Try? && !pc.Release?
    ensures Inv(Next(s, Move(t, ok)))
  {
    assert ThreadInv(s, t, s.threads[t]);
    ControlThread(s, t, ok);
    var s' := Next(s, Move(t, ok));
    assert PerInv(s') by { assert s'.per == s.per && s'.nextRef == s.nextRef; }
    QuietMove(s, s', t);
  }

  lemma StepKeeps(s: State, step: Step)
    requires Inv(s) && Enabled(s, step)
    ensures Inv(Next(s, step))
  {
    match step
    case Spawn(t, k, c) => SpawnMove(s, t, k, c);
    case Move(t, ok) =>
      match s.threads[t].pc
      case Lookup => LookupMove(s, t, ok);
      case Try => TryMove(s, t, ok);
      case Release => ReleaseMove(s, t, ok);
      case _ => ControlMove(s, t, ok);
  }

  lemma {:induction false} RunKeeps(s: State, run: seq<Step>)
    requires Inv(s) && Legal(s, run)
    ensures Inv(After(s, run))
    decreases |run|
  {
    if run != [] {
      StepKeeps(s, run[0]);
      RunKeeps(Next(s, run[0]), run[1..]);
    }
  }

  // ---------- what the interleavings guarantee ----------

  /** At most one thread per cluster is between its TryLock and its Unlock, however the steps interleave. */
  lemma MutualExclusion(run: seq<Step>, t: ThreadId, u: ThreadId)
    requires Legal(EMPTY, run)
    requires InCritical(After(EMPTY, run), t) && InCritical(After(EMPTY, run), u)
    requires After(EMPTY, run).threads[t].cluster == After(EMPTY, run).threads[u].cluster
    ensures t == u
  {
    RunKeeps(EMPTY, run);
  }

  /**
    On every exit path a thread has unlocked as often as it locked, at most once; while it is critical it has
    locked once and not unlocked; and no Unlock ever hit a free mutex.
   */
  lemma LocksMatchUnlocks(run: seq<Step>, t: ThreadId)
    requires Legal(EMPTY, run) && t in After(EMPTY, run).threads
    ensures var s := After(EMPTY, run); var th := s.threads[t];
            && !s.fatal
            && (th.pc.Done? ==> th.acquired == th.released <= 1)
            && (Critical(th) ==> th.acquired == 1 && th.released == 0)
  {
    RunKeeps(EMPTY, run);
    assert ThreadInv(After(EMPTY, run), t, After(EMPTY, run).threads[t]);
  }

  /** A TryLock succeeds exactly if nobody is critical on the cluster: the lock is neither shared nor refused without
      cause, and a refused thread is done. */
  lemma TryLockWinsIff(run: seq<Step>, t: ThreadId, ok: bool)
    requires Legal(EMPTY, run) && t in After(EMPTY, run).threads && After(EMPTY, run).threads[t].pc.Try?
    ensures var s := After(EMPTY, run); var s' := Next(s, Move(t, ok));
            && (InCritical(s', t) <==>
                  !exists u :: InCritical(s, u) && s.threads[u].cluster == s.threads[t].cluster)
            && (!InCritical(s', t) ==> s'.threads[t].pc == Done)
  {
    RunKeeps(EMPTY, run);
    var s := After(EMPTY, run);
    var th := s.threads[t];
    assert ThreadInv(s, t, th);
    if th.lock.value in s.locked {
      var u :| HoldsRef(s, u, th.lock.value);
      assert InCritical(s, u) && s.threads[u].cluster == th.cluster;
    } else {
      forall u | InCritical(s, u) ensures s.threads[u].cluster != th.cluster {
        assert ThreadInv(s, u, s.threads[u]);
      }
    }
  }

  // The clusters whose inner mutex is taken: the lock set of the lifecycle protocol.
  function HeldClusters(s: State): set<ClusterId> {
    set c | c in s.per && s.per[c] in s.locked
  }

  /** A cluster counts as held exactly while some thread is critical on it: no lock outlives its thread. */
  lemma HeldMeansCritical(run: seq<Step>, c: ClusterId)
    requires Legal(EMPTY, run)
    ensures var s := After(EMPTY, run);
            c in HeldClusters(s) <==> exists t :: InCritical(s, t) && s.threads[t].cluster == c
  {
    RunKeeps(EMPTY, run);
    var s := After(EMPTY, run);
    if c in HeldClusters(s) {
      var t :| HoldsRef(s, t, s.per[c]);
      assert InCritical(s, t) && s.threads[t].cluster == c;
    }
    if t :| InCritical(s, t) && s.threads[t].cluster == c {
      assert ThreadInv(s, t, s.threads[t]);
    }
  }
}
