# Verification model of the Bandolier control plane

Bandolier's API creates, deploys, upgrades and destroys clusters through long-running workers, installs charts on
them, and streams worker output to the browser. The guarantees an operator relies on are spread over many functions:
HTTP front halves, worker goroutines with their terminal blocks, a shared per-cluster mutex, a cancel map, boot
recovery, an event hub, and loops over charts and releases. This project models those parts in Dafny and proves what
they keep over whole runs.

- `StateMachine`, `Lifecycle`: the status table and the lifecycle protocol as a transition system over many clusters.
- `LifecycleLocks`, `LifecycleGround`: what every legal run keeps, whatever goes wrong in it.
- `LifecycleRequests`, `LifecycleBlocks`: what a front half, and what a terminal block, has written when it is stopped
  after any number of writes.
- `LifecycleSafety`, `LifecycleExactness`: what a cluster's operator relies on, and exactly which runs keep it for that
  cluster, and for all of them.
- `LifecycleTrails`, `LifecycleTheorems`, `LifecycleGuards`, `LifecycleRows`, `LifecycleAudit`, `LifecycleVerdicts`,
  `LifecycleHazards`: the status table and boot recovery, how an operation ends, which clusters a request may touch, the
  life of a row, the balance of the audit log, rows against their verdicts, and concrete runs that show what goes wrong
  otherwise.
- `ControlPlane`, `ClusterMutex`, `MutexProtocol`: the executors and the mutex as they update their fields in place,
  proved against the transition system, and the mutex under arbitrary interleavings of single lock operations.
- `Events`, `Hub`, `Streams`, `LogSocket`, `StepList`: event streams from the worker through the hub to the browser.
- `Hostname`, `Bundle`: the hostname recogniser and template, and bundle install with reverse-order rollback.
- `Sorting`, `Catalog`, `Search`: stable sorting, the merged catalog with filter and pages, search grouping.
- `Ndjson`, `Itoa`: the chunked event splitter and the fixed-buffer integer renderer.
- `Common`: an option type.

## How the lifecycle is modelled

One step is an HTTP front half, one cancel signal, one terminal block, its deferred unlock or deregister, a crash, or
boot recovery. No step is taken for whole: a crash may cut a front half, a terminal block, or recovery at any point of
any orphan, after any number of store writes, and recovery then starts over at the next boot. A client may go away in
the middle of a front half, whose later writes, the roll-back of the latch included, then fail because they share the
request context. A cancel may land in the body, between a worker's last command and its terminal block, or between any
two writes of a success block; the failure blocks and all helm blocks write under a background context and take no
notice. Front halves and terminal blocks do not interleave with each other write by write ("Left out" says what that
hides). Mutual exclusion makes no such assumption: `MutexProtocol` interleaves single lock operations.

Every step but boot recovery touches one cluster, so the invariants and the main results are stated per cluster. Some
hold in every legal run (`LifecycleGround.Grounded` and what follows from it: locks, deletes against live work, the life
of a row). The rest have an exact condition, each a test on the state in which a step is taken:

- `LifecycleExactness.ExactSafetyAt`: a cluster stays sound if and only if no step is a hazard of a job on it. The
  hazards (`LifecycleSafety.Hazard`) are:
  - a tracked success block that loses its row or status write to a cancelled run context
    (`api/internal/deployments/executor.go` 321-328 and 488-494, `api/internal/deployments/upgrade.go` 145-153);
  - a tracked terminal block stopped, by a crash or a late cancel, after the row has left `running` and before the
    status, or the latch of a cascade, is settled;
  - a front half stopped, by a crash or because its client went away, between a deployment's row and its status, or
    between the latch of a cascade and the status of its destroy (`api/internal/deployments/executor.go` 105-119,
    `api/internal/clusters/handlers.go` 449-460);
  - boot recovery stopped, by a crash, after it has failed an orphan's row and before the cluster's status, or a latch
    that was set, is settled (`api/internal/deployments/executor.go` 64-78), unless an earlier orphan of the same
    cluster has settled it already.
- `LifecycleTheorems.OperationFate`: a deploy, destroy or upgrade ends as its verdict, and for a destroy the latch at
  its kickoff, say if and only if it takes no hazard itself.
- `LifecycleTrails.StatusesFollowTable`: every status change is an edge of the table if and only if no boot, whole or
  cut, writes the status of a cluster that rests where the table has no edge to `error`.
- `LifecycleTrails.RecoveryResumesIff`: recovery that was cut short and runs again ends as if it had run once, if and
  only if it was not cut in the window above, or a later orphan of the same cluster is still to come.
- `LifecycleVerdicts.ExactConservation`: audit rows and job rows balance in a crash-free run if and only if no success
  block loses a verdict, no abandoned request leaves a row, a worker or a latch without its counterpart, and no delete
  takes effect under a latch such a loss left set.

`LifecycleHazards` gives runs that end in damage: a crash inside a success block, a cancel inside one without any
crash, a crash inside recovery, a cascading delete whose client goes away, and a lost block followed by a redeploy and a
reboot. It also gives legal runs from the empty store to the states these start from.

Where the code and its comments disagree the code is followed:

- The comment at `api/internal/deployments/executor.go` 507-510 says that a restarted executor still sees the cascade
  latch; boot recovery (58-80) clears it and marks the deployment failed, so a destroy that was interrupted never
  forgets the cluster.
- `CanTransition` also accepts a status that stays as it is, so an upgrade may be kicked off over a lost one.
- The comment at `ui/src/components/StepList.tsx` 6-8 says that the destroy executor reports a step's end by status; it
  reports an exit code like the others (`api/internal/deployments/executor.go` 395).
- `itoa` does not render the least 64-bit integer: negation wraps and the loop writes no digit.
- Bundle hostnames are checked before placeholders are substituted, so a hostname with a placeholder is refused and
  substitution never changes an accepted one.

## Model

| member | source | states |
|---|---|---|
| LifecycleExactness.ExactSafetyAt | api/internal/deployments/executor.go:58-519 | in every state of a legal run with crashes at any write, lost requests, late cancels and reboots, a cluster has at most one running deployment row, it belongs to the live or crashed worker, the status is that operation's transient status, and the latch is only set under a destroy, if and only if no step is a hazard of a job on that cluster, whatever happens to others |
| LifecycleExactness.ExactSafety | api/internal/deployments/executor.go:58-519 | the same for all clusters at once: every state is sound if and only if no step is a hazard |
| LifecycleSafety.StepSoundIff | api/internal/deployments/executor.go:58-519 | step by step in any reachable state: a step, cut front halves and cut recoveries included, keeps a sound cluster sound exactly when it is no hazard there, so each hazard breaks the promise in the very next state |
| LifecycleSafety.BlockSoundIff | api/internal/deployments/executor.go:486-516 | a terminal block stopped after any number n > 0 of writes, by a crash, a cancel or its end, leaves the cluster sound exactly when n is outside the window between the row write and the status and latch writes |
| LifecycleSafety.FrontSoundIff | api/internal/deployments/executor.go:105-136 | a front half, whole, cut by a crash or abandoned by its client after any number of writes, keeps its cluster sound exactly when it is not stopped between a row and its status or between a latch and its destroy |
| LifecycleSafety.CutBootSoundIff | api/internal/deployments/executor.go:58-80 | recovery cut by a crash at any write of any orphan keeps a cluster sound exactly when it does not stop there with the row failed and the status or a set latch unsettled |
| LifecycleRequests.RequestIsWrites | api/internal/clusters/handlers.go:408-523 | a front half does exactly what its store writes do one after the other and starts the worker it is said to start, so the cut and abandoned forms are prefixes of the real one |
| LifecycleBlocks.BlockEffect | api/internal/deployments/executor.go:397-438 | what the first n writes make of rows, status, latch and status history, forgetting included |
| LifecycleGround.StepGrounds | api/internal/deployments/executor.go:97-141 | every legal step, hazards included, keeps it that a worker in its body owns a running row of its kind and cluster and, if it is a deploy, destroy or upgrade, the cluster's transient status |
| LifecycleGround.StepElsewhere | api/internal/store/clusters.go:75-121 | no step but recovery changes a row, status, latch or history of a cluster it is not aimed at |
| LifecycleTrails.StatusesFollowTable | api/internal/clusters/statemachine.go:20-50 | over all legal runs, every status change of every cluster is an edge of the allowed table if and only if no boot, whole or cut, writes the status of a cluster that rests in a status with no edge to error |
| LifecycleTrails.CleanRunFollows | api/internal/clusters/statemachine.go:20-50 | in particular every status change follows the table in a run without hazards |
| LifecycleTrails.TrailIsStatus | api/internal/store/clusters.go:75-92 | the recorded history is the real one: it always ends in the stored status |
| LifecycleTrails.RecoveryIsIdempotent | api/internal/deployments/executor.go:58-80 | recovery leaves no running row and running it again changes nothing, on any store |
| LifecycleTrails.RecoveryResumesIff | api/internal/deployments/executor.go:58-80 | recovery cut at any write of any orphan and then run again ends as if it had run once, if and only if it was not cut between the writes for an orphan whose cluster was not settled yet and is reached by no later orphan |
| LifecycleTrails.RecoverySettlesIff | api/internal/deployments/executor.go:58-80 | on any store, recovery takes a cluster from a transient status to error, leaves any other as it is and leaves no latch, if and only if the cluster was interrupted with its running row in place or was at rest |
| LifecycleTrails.SoundIsRecoverable | api/internal/deployments/executor.go:58-80 | that condition holds of every sound cluster, hence of every cluster none of whose jobs took a hazard |
| LifecycleTheorems.DeleteSparesLiveWork | api/internal/clusters/handlers.go:408-523 | after any legal run, a delete, cascading or not, changes nothing but the audit log while a deploy, destroy or upgrade body runs on the cluster |
| LifecycleGuards.OnlyRestingIsForgotten | api/internal/clusters/handlers.go:374-382 | in every legal run a step that removes a cluster is a delete of it or the latched success block of a destroy of it, and the last status the cluster ever had is pending, initialized, destroyed or error: no live or busy cluster is ever forgotten |
| LifecycleGuards.PlainDeleteIff | api/internal/clusters/handlers.go:498-520 | a delete without cascade drops a pending, initialized, destroyed or failed cluster with exactly its own rows and logs a success; on any other, ready and degraded included, or on none, it only logs a failure |
| LifecycleGuards.CascadeStartsIff | api/internal/clusters/handlers.go:438-491 | a cascading delete starts a destroy with the latch set exactly on a ready or degraded cluster whose lock is free and whose kickoff has no fault; refused there it clears the latch and logs a failure; on any other cluster it is a plain delete |
| LifecycleGuards.KickoffAcceptsIff | api/internal/clusters/statemachine.go:20-50 | status by status, the clusters a deploy, destroy or upgrade may start on |
| LifecycleGuards.CreateMeans | api/internal/clusters/handlers.go:200-264 | a cluster begins pending, without latch or rows and with a history of its own, and its creation is logged |
| LifecycleGuards.InitializeMeans | api/internal/clusters/initialize.go:73-440 | an initialization goes ahead on a pending, initialized, destroyed, failed or initializing cluster and leaves it initialized or, if it breaks, in error, with the history and the audit row to match; otherwise nothing but the audit log changes |
| LifecycleGuards.NothingDegrades | api/internal/clusters/statemachine.go:20-50 | no legal run ever puts a cluster into degraded |
| LifecycleGuards.BusyIsBracketed | api/internal/clusters/statemachine.go:20-50 | in a history that follows the table a deploying, destroying, upgrading or initializing status has the statuses named before and after it, and pending never comes back |
| LifecycleTheorems.OperationFate | api/internal/deployments/executor.go:143-519 | a deploy, destroy or upgrade kicked off after any legal run stays pending and then ends, if and only if no hazard befalls it: on success ready (destroyed, or forgotten under the latch, for a destroy) with a succeeded row, on failure error with a failed row, on a cancel error with a cancelled row, by a boot that gets to its row error with a failed row and no latch |
| LifecycleTheorems.DestroyFate | api/internal/deployments/executor.go:334-519 | a destroy kicked off after any legal run stays pending and then ends as the latch at kickoff says (success forgets the cluster exactly when it was set and else leaves it destroyed; failure, cancel or a boot that gets to its row, however often recovery is cut short, leaves error with the latch clear) if and only if no hazard befalls that destroy, whatever other clusters do |
| LifecycleTheorems.CascadeEnds | api/internal/clusters/handlers.go:438-491 | an accepted cascade after any legal run: success drops the row and every child row, failure, cancel or a boot that gets to its row leaves error with the latch clear, if and only if no hazard befalls the destroy itself, a crash inside recovery at its row included |
| LifecycleTheorems.AbandonedDestroyFate | api/internal/deployments/executor.go:334-384 | the same for a destroy, plain or cascading, whose client goes away at any point from which its worker still starts |
| LifecycleTheorems.PlainDestroyKeepsRow | api/internal/deployments/executor.go:511-516 | after any legal run, a destroy without cascade keeps the row as it should if and only if no latch was set at its kickoff and no hazard befalls it |
| LifecycleTheorems.CleanPastHasNoLatch | api/internal/clusters/handlers.go:438-491 | a cluster that accepts a kickoff has no latch set unless a hazard befell that very cluster before |
| LifecycleTheorems.RunKeepsLocks | api/internal/deployments/executor.go:139-141 | in every legal run each held lock has exactly one worker that holds it, so no lock is leaked or shared |
| LifecycleLocks.StepKeepsLocks | api/internal/deployments/cancel.go:20-50 | every step keeps the pairing of locks, cancel-map entries and workers |
| LifecycleHazards.StaleLatchForgets | api/internal/deployments/executor.go:488-516 | a cascading destroy whose success block a crash cuts leaves a latch that lets a later plain destroy drop the row |
| LifecycleHazards.LateCancelForgets | api/internal/deployments/executor.go:488-516 | so does a cancel that lands inside that block, without any crash |
| LifecycleHazards.RecoveryCutForgets | api/internal/deployments/executor.go:63-79 | so does a crash one or two writes into recovery of a cascading destroy: the next boot no longer sees it, and a later plain destroy drops the row |
| LifecycleHazards.AbandonedCascadeForgets | api/internal/clusters/handlers.go:449-475 | so does a cascading delete whose client goes away once the latch is set: kickoff and roll-back both fail |
| LifecycleHazards.CascadeIsReached | api/internal/clusters/handlers.go:438-491 | create, initialize, deploy and a cascading delete are a legal run from the empty store to a sound cluster with a cascading destroy pending, where the lemmas above start |
| LifecycleHazards.CancelledDeployIsReached | api/internal/deployments/cancel.go:43-50 | create, initialize, deploy and a cancel are a legal run to a cancelled deploy still in its body |
| LifecycleHazards.LostWriteBreaksTable | api/internal/deployments/executor.go:321-329 | a deploy cancelled after its last command, deployed again and followed by a reboot, takes a ready cluster to error, which the table forbids |
| LifecycleRows.FinishedRowIsFinal | api/internal/store/deployments.go:70-76 | in every legal run, a deployment or install row that has left running keeps its status for ever, and an id is never used for a second row |
| LifecycleRows.CancelledNeedsCancel | api/internal/apps/executor.go:122-130 | in every legal run, a row ends cancelled only if the run cancelled that very job |
| LifecycleRows.CancelIsFinal | api/internal/deployments/cancel.go:43-50 | in every legal run, once a cancel has reached a job in its body no row of that job is ever marked succeeded |
| LifecycleRows.SucceededNeedsSuccess | api/internal/deployments/executor.go:525-533 | in every legal run, a row ends succeeded only if a step of the run ended that very job's body with a good verdict |
| LifecycleRows.FailedNeedsFailure | api/internal/deployments/executor.go:525-533 | in every legal run, a row ends failed only if a step ended that job's body with a bad verdict or a boot came along |
| LifecycleVerdicts.VerdictIsRecorded | api/internal/apps/executor.go:122-130 | after any legal run, the block of an uncancelled body that failed leaves its row failed and logs failed next, of one that succeeded succeeded, of a cancelled one cancelled; only a tracked success block under a cancelled context writes nothing |
| LifecycleVerdicts.ExactConservation | api/internal/deployments/executor.go:151-168 | in every state of a crash-free run, for each cluster and action started audit rows equal terminal rows plus live workers, cascade delete rows pair with the latch, each running row has its worker, and each row that left running has the matching verdict in the log, if and only if no success block loses a verdict to a cancelled context, no abandoned request leaves a row, a worker or a latch without its counterpart, and no delete takes effect under a latch left by such a loss |
| LifecycleVerdicts.StepConservesIff | api/internal/deployments/executor.go:105-136 | step by step in any reachable balanced state: a crash-free step keeps audit pairs and row verdicts exactly when it does not leak |
| LifecycleAudit.StepBalancesIff | api/internal/deployments/executor.go:486-516 | a single crash-free step unbalances the log exactly when an audit row is missing for what it did or a latch moves without its row |
| LifecycleAudit.BlockAudit | api/internal/deployments/executor.go:397-438 | a terminal block that writes to its end adds exactly one verdict row for its operation, and one for the cascade if the latch was set |
| ControlPlane.Process.Launch | api/internal/deployments/executor.go:85-136 | deploy, destroy and upgrade kickoffs change the state as the protocol's kickoff does, not at all when refused, and as its abandoned kickoff does when the request context ends after any number of store writes: the lock is free again unless the worker starts |
| ControlPlane.Process.LaunchHelm | api/internal/apps/executor.go:151-248 | helm and bundle kickoffs likewise, with the system-release guard and the missing-cluster path that unlocks again |
| ControlPlane.Process.DeleteCluster | api/internal/clusters/handlers.go:408-523 | the delete handler's step-by-step latch, kickoff and roll-back of the latch amount to one protocol step, or to its abandoned form with the roll-back lost when the request context ends in between; which clusters it drops or destroys is LifecycleGuards.PlainDeleteIff and LifecycleGuards.CascadeStartsIff |
| ControlPlane.Process.InitializeCluster | api/internal/clusters/initialize.go:73-440 | the one cluster ends initialized or in error if its status and the request pass the checks, stays initializing if the request context ends in between, and keeps its status otherwise; its latch, all rows and every other cluster stay as they were |
| ControlPlane.Process.Cancel | api/internal/deployments/cancel.go:43-50 | it is accepted exactly for a registered job and then sets that job's flag; no other job, no phase and nothing in the store changes (what the flag then decides is LifecycleRows.CancelIsFinal) |
| ControlPlane.Process.Succeed | api/internal/deployments/executor.go:488-516 | the success writes in their order, the latch read back before forgetting, with a cancel before the block or between any two of its store calls losing all later ones |
| ControlPlane.Process.Fail | api/internal/deployments/executor.go:397-438 | the failure writes in their order, the latch read before it is cleared; what row, status and verdict they are is LifecycleVerdicts.VerdictIsRecorded and LifecycleTheorems.OperationFate |
| ControlPlane.Process.FinishHelm | api/internal/apps/executor.go:289-320 | the helm terminal block, which uses a background context and cannot lose its writes; what it records is LifecycleVerdicts.VerdictIsRecorded |
| ControlPlane.Process.RecoverOrphanedDeployments | api/internal/deployments/executor.go:58-80 | the recovery loop over rows in any order computes the recovered store, through the stores a cut recovery leaves |
| ControlPlane.Process.DeleteClusterRow | api/internal/store/clusters.go:111-121 | afterwards no deployment or install row of the cluster is left and every other row and cluster is as it was; the audit log stays |
| ClusterMutex.ClusterMutex.TryLock | api/internal/deployments/mutex.go:14-23 | succeeds exactly when the cluster's mutex is free, and afterwards it is held, no other cluster's changed |
| ClusterMutex.ClusterMutex.Unlock | api/internal/deployments/mutex.go:25-32 | frees exactly that cluster's mutex |
| MutexProtocol.MutualExclusion | api/internal/deployments/mutex.go:14-32 | under any interleaving of single lock operations of all seven kinds of kickoff, at most one thread per cluster is between its lock and its unlock |
| MutexProtocol.LocksMatchUnlocks | api/internal/deployments/executor.go:97-141 | on every exit path each successful lock is matched by exactly one unlock, and no unlock ever meets a free mutex |
| MutexProtocol.HeldMeansCritical | api/internal/apps/bundle.go:33-61 | a cluster's mutex is taken exactly while some thread is critical on it |
| MutexProtocol.TryLockWinsIff | api/internal/deployments/mutex.go:14-23 | under any interleaving a try succeeds exactly if no thread is critical on the cluster, and a refused thread is done |
| Hub.Hub.Publish | api/internal/deployments/stream.go:52-72 | appends with eviction at 5000 and offers the event to each subscriber of that stream in any order, skipping full buffers |
| Hub.Hub.Subscribe | api/internal/deployments/stream.go:77-90 | registers a fresh channel and returns the history at that very moment |
| Hub.Hub.Unsubscribe | api/internal/deployments/stream.go:86-94 | removes and closes the channel, which it needs open |
| Hub.StepRefines | api/internal/deployments/stream.go:52-95 | every hub step is a step of a model that keeps each stream's full log |
| Hub.HistoryIsSuffix | api/internal/deployments/stream.go:57-64 | in any run the history is the last min(n, 5000) of the n published events, in order |
| Hub.NoSendOnClosed | api/internal/deployments/stream.go:66-71 | no subscriber of a stream ever has a closed channel, so no send panics |
| Hub.StreamsAreIndependent | api/internal/deployments/stream.go:52-72 | publishing on one stream changes no other stream's history, subscribers or buffers |
| Hub.DropsOnlyWhenFull | api/internal/deployments/stream.go:66-71 | an event is withheld from a subscriber exactly by a publish on its stream while it is subscribed and its buffer is full |
| Hub.BuffersAreBounded | api/internal/deployments/stream.go:66-71 | in any run no subscriber's buffer holds more than its capacity |
| Hub.SubscriberView | api/internal/deployments/stream.go:77-90 | snapshot plus read plus buffered events are an ordered, duplicate-free view of the log from the join on, without a gap at the join, each later position either sent or dropped and never both |
| Streams.TraceEndsOnce | api/internal/deployments/executor.go:143-330 | a deploy, destroy or upgrade stream holds exactly one completion, as its last event |
| Streams.TraceNests | api/internal/deployments/executor.go:440-518 | its step starts and ends pair up, one step open at a time, whichever stage fails |
| Streams.TraceVerdict | api/internal/deployments/upgrade.go:82-154 | it reports success exactly when no fatal stage failed |
| Streams.WorkerStreamsAreWhole | api/internal/deployments/executor.go:386-518 | both hold of the actual stage scripts of deploy, destroy and upgrade, whatever each stage prints and wherever it fails |
| Streams.HelmEndsOnce | api/internal/apps/executor.go:289-379 | the stage scripts of install, upgrade, uninstall and bundle, stopped anywhere, also publish exactly one completion, last |
| Streams.HelmVerdict | api/internal/apps/executor.go:122-130 | such a worker reports cancelled exactly under a cancelled context and otherwise success exactly when nothing it attempted failed |
| LogSocket.Logs | api/internal/deployments/handlers.go:131-178 | sends snapshot then live events up to and including the first completion or up to the first failing write, and says how it ended |
| LogSocket.EndingMeans | api/internal/deployments/handlers.go:131-178 | what was sent stops at the first completion, before the write that failed, or at the end of everything, and the exit says which of the three it was |
| LogSocket.LateSubscriberIsDone | api/internal/deployments/handlers.go:144-160 | after the worker finished, for any stream length, the snapshot ends in the completion and the socket ends during replay having sent all of it |
| LogSocket.FinishedWorkerReplays | api/internal/deployments/handlers.go:144-160 | composed with the workers: after any deploy, destroy or upgrade a late socket writes everything retained and closes normally |
| LogSocket.FinishedHelmReplays | api/internal/deployments/handlers.go:144-160 | the same after any helm install, upgrade, uninstall or bundle, whose log socket is served by the same handler |
| LogSocket.KeepingUpDeliversAll | api/internal/deployments/handlers.go:162-177 | a subscriber whose buffer never fills receives the retained past and every later event, and then ends normally |
| StepList.Reduce | ui/src/components/StepList.tsx:5-20 | one entry per step, in order of first occurrence, holding the state its last event gave it; which state that is once the worker has finished is StepList.FinishedStepsShown |
| StepList.SuffixKeepsState | ui/src/components/StepList.tsx:5-20 | a step that still occurs in the retained suffix of any stream is shown as the full stream would show it |
| StepList.ShownRunningIsOpen | ui/src/components/StepList.tsx:5-20 | replaying the retained history of a deploy, destroy or upgrade, a step shown running is the one that is open, and none is once the stream is complete |
| StepList.FinishedStepsShown | ui/src/components/StepList.tsx:5-20 | replaying the retained history of any finished deploy, destroy or upgrade, a step is shown exactly if it still occurs there, only if its stage was reached, and then as done if and only if the stage succeeded and as failed otherwise |
| StepList.FinishedHelmShown | ui/src/components/StepList.tsx:5-20 | after any helm operation or bundle its one step is shown, as done if nothing it attempted failed and as failed otherwise |
| Bundle.RunBundleInstall | api/internal/apps/bundle.go:86-264 | final releases, helm calls, progress and per-chart outcomes for any skip pattern, duplicate names and any failure, the outcomes and calls also told from the choices and faults alone (Bundle.OutcomesAreClassified) |
| Bundle.OutcomesAreClassified | api/internal/apps/bundle.go:206-263 | each entry carries its choice's chart, version and release; on success every wanted chart succeeded; otherwise exactly the first one whose values file, name or install was bad is failed, every wanted one before it is rolled back and has its own uninstall, every wanted one after it is not attempted and has no call, skipped ones are skipped |
| Bundle.InstallsUseTheHostname | api/internal/apps/bundle.go:224-236 | the install call of a wanted choice carries the hostname the operator chose, if the handler accepts it |
| Bundle.AnnouncementMeans | api/internal/apps/bundle.go:180-196 | each wanted chart that is reached is announced under its own chart and name, with its number and the total |
| Bundle.RollbackAnnounced | api/internal/apps/bundle.go:243-252 | nothing is announced after the chart that fails but a roll-back with that chart and the number of charts to undo, exactly if helm was called for it and there are any |
| Bundle.CountInstallable | api/internal/apps/bundle.go:270-278 | the announced total is the number of charts not skipped |
| Bundle.RollbackInstalled | api/internal/apps/bundle.go:294-306 | one uninstall per installed chart, last first, going on past failures |
| Bundle.MarkRolledBack | api/internal/apps/bundle.go:310-320 | re-marks exactly the succeeded entries whose release name was installed |
| Bundle.SuccessAddsExactly | api/internal/apps/bundle.go:166-263 | success leaves what was there and adds exactly the wanted releases, in order, under distinct names that were free, uninstalling nothing |
| Bundle.FailureRestoresExactly | api/internal/apps/bundle.go:243-258 | failure restores exactly the initial releases if and only if the failing install left nothing behind, as an atomic one always does, and no uninstall failed |
| Bundle.RollbackMirrorsInstalls | api/internal/apps/bundle.go:294-306 | the uninstalls are the successful installs in reverse, each release once |
| Bundle.ProgressCounts | api/internal/apps/bundle.go:151-196 | progress indices are 1, 2, ... without gap, never past the total, which success reaches |
| Hostname.HostnameMeans | api/internal/validate/validate.go:16-23 | the expression with the length test accepts exactly the strings of at most 253 characters whose dot-separated labels are non-empty, over a-z, 0-9 and hyphen, without a hyphen at either end (section 2.1 of RFC 1123, lower case, no 63-octet bound) |
| Hostname.LabelsRoundTrip | api/internal/validate/validate.go:16-23 | the labels are the string cut at all of its dots |
| Hostname.SubstituteIsIdentity | api/internal/apps/bundle.go:283-290 | placeholder substitution changes no accepted hostname |
| Hostname.SubstituteFills | api/internal/apps/bundle.go:283-290 | in a template with both placeholders the release and the domain take their places and the text around them is kept |
| Hostname.TemplatesAreRefused | api/internal/apps/handlers.go:439-442 | a choice whose hostname still has a placeholder is refused |
| Catalog.MergeCurated | api/internal/apps/catalog.go:400-430 | the loops and the stable sort compute the merged catalog |
| Catalog.MergedMeans | api/internal/apps/catalog.go:400-430 | the result is sorted curated first, then by source, then by name, equals in arrival order, and holds all curated entries and exactly the repository entries whose chart is not a non-empty curated chart, as often as they occur |
| Catalog.MergedOrder | api/internal/apps/catalog.go:416-430 | spelled out for any two entries: nothing curated after what is not, repositories by ascending name, the entries of one source by ascending name |
| Catalog.Aggregate | api/internal/apps/catalog.go:271-340 | the loop appends each successful search in completion order; the result holds what Catalog.AggregateMeans says |
| Catalog.AggregateMeans | api/internal/apps/catalog.go:314-325 | every entry a successful search found is in the catalog with only its source changed, to the repository's name, as often as it was found, unless a curated entry claims its chart; every curated entry is there; failed searches add nothing |
| Catalog.Confluence | api/internal/apps/catalog.go:289-337 | with one search per repository, every completion order gives the same catalog |
| Catalog.FilterCatalog | api/internal/apps/catalog.go:356-386 | the total, and the page as so many entries of the filtered list from the offset on, for any limit and offset, negative offsets clamped, no limit when not positive |
| Catalog.MatchingCounts | api/internal/apps/catalog.go:371-376 | filtering keeps exactly the selected entries |
| Catalog.MatchingKeepsOrder | api/internal/apps/catalog.go:371-376 | the filtered list is the catalog at exactly the positions that pass the search box and the source, in order |
| Catalog.PagesTile | api/internal/apps/catalog.go:377-386 | for every positive limit, consecutive pages concatenate to the unpaged list |
| Search.ParseSearch | api/internal/apps/helm.go:178-215 | rows are partitioned by full chart name into exactly one entry each, sorted by short name, for any map iteration order |
| Search.RowsOfMeans | api/internal/apps/helm.go:178-200 | the versions gathered for a chart are those of exactly the rows that bear its full name, in their order, and its description is the first row's |
| Search.GroupedMeans | api/internal/apps/helm.go:186-213 | an entry is named by what follows the last slash of its chart, has no source yet, keeps the first min(3, n) of its n versions in descending string order, and its latest version is their maximum |
| Search.DescendingUnique | api/internal/apps/helm.go:204-204 | every descending arrangement of the versions is the same, so an unstable sort suffices |
| Search.ShortMeans | api/internal/apps/helm.go:188-191 | the short name is what follows the last slash |
| Sorting.SortedUnique | api/internal/apps/catalog.go:416-428 | a sorted arrangement is determined by the order inside each group of equals |
| Sorting.StrOrder | api/internal/apps/catalog.go:426-428 | string comparison is a strict total order |
| Sorting.StrLessMeans | api/internal/apps/catalog.go:426-428 | one string comes before another exactly if it is a proper prefix of it or smaller where they first differ |
| Ndjson.EventTeeWriter.Write | api/internal/ansible/runner.go:77-92 | emits the events of the lines completed so far and retains the rest |
| Ndjson.IndexByte | api/internal/ansible/runner.go:94-101 | the first position of the byte, or -1 |
| Ndjson.LinesRoundTrip | api/internal/ansible/runner.go:77-92 | lines and tail are the stream cut at every newline, nothing lost |
| Ndjson.ChunkInvariance | api/internal/ansible/runner.go:77-92 | any split of the stream into writes ends in the state of one write of the whole |
| Ndjson.StreamMeans | api/internal/ansible/runner.go:77-92 | the events are those of the complete lines in order and the retained buffer is the newline-free tail |
| Ndjson.EmitMeans | api/internal/ansible/runner.go:77-92 | the events emitted are, in the order of the lines, what exactly those lines decode to that decode to an event with a name |
| Itoa.Itoa | api/internal/httpserver/server.go:162-182 | the result reads back as the input if and only if it is not the least 64-bit integer, without leading zero, and the write index never leaves the 20-byte buffer |

## Left out

- Terraform, ansible-runner, helm, kubectl, nsupdate and ssh: each command is a verdict (and, for helm, an effect on the release map) that the environment chooses.
- Vault, certificates, DNS providers, Proxmox preflight and secret writes: remote calls with thin logic; a failing one is a failed stage.
- SQL text, migrations, JSON bodies and HTTP responses: the store is maps of rows with cascade on delete, and its writes succeed unless their context is cancelled or the process dies.
- Bundle progress inside streams: `Bundle.Shown` gives the progress events, which are part of a stage's output in `Streams.HelmTrace`.
- A single store write that fails while its context lives on (a full disk, a busy database), and the roll-back of a latch after it: such a failure inside recovery, a block or a kickoff can leave what a cut there leaves.
- Failures inside ForgetCluster: dropping the row and its audit row count as done once reached.
- The `degraded` status: in the table, but no modelled operation writes it.
- Front halves and terminal blocks interleaved write by write with each other: the source serialises them by the per-cluster lock only from the kickoff on. Two cascading deletes that both pass the status guard can interleave so that the roll-back of the refused one clears the latch of the other, whose destroy then keeps the row; a delete or initialize may also fall between two writes of a terminal block. Only the mutex is modelled operation by operation.
- Crash recovery of install rows: the program has none, so an install row of a crashed helm worker stays running.
- ControlPlane.Process: `held` stands for the mutex's set of taken clusters, which `ClusterMutex` computes from its locks.
- Event payload data, timestamps and the Go memory model: the hub's methods run one at a time under its mutex.
- Delivery of the completion to a subscriber whose buffer is full, which the program does not promise.
- Worker bodies statement by statement: a body is its script of stages, in the order of the code, each with the output and verdict the environment chooses.
- Streams.TraceNests: says nothing of helm and bundle streams, which may end a step they never started.
- LogSocket.Logs: the 24-hour context and a closed channel are one input that says how waiting ends.
- Bundle.FailureRestoresExactly: the outcome `rolled_back` says that an uninstall was tried, not that it succeeded, as in the program.
- Catalog.FilterCatalog: the search box's lower-case substring test is a parameter.
- The one-minute catalog cache, and helm's own repository files.
- Semantic version order: the program compares versions as strings.
- Search.ParseSearch: entries with equal short names may come in any order, as from the program's unstable sort.
- Ndjson.EventTeeWriter.Write: JSON decoding of one line is a parameter.
- Authentication, sessions, tokens, telemetry, the reconnecting socket hook and the other React components.
