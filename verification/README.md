# XTrinode, modelled and proved in Dafny

XTrinode is a Kubernetes operator that runs Trino clusters: it suspends and resumes them, wakes them, deletes them
after a drain, renders their catalogs and guards their namespaces. This project models its hard parts and proves what
they promise. `dafny verify dfyconfig.toml` checks all of it.

## How the model is built

**Lifecycle.** `ApiServer.Api` is the outside world as the operator meets it. It keeps every version of one runtime ever
stored. A read may return any of them. Before every call other writers may write anything that `Rely` permits. An
update commits only on the latest version, may fail, and may commit although the reply is lost. External calls (gateway,
KEDA, HPA, Deployments, node pools, Trino) succeed, report absence or fail at will. The read-modify-write closures of
the controllers are the values of `Trace.Edit` and `Trace.StatusEdit`. Each controller method (`Commands`, `Suspend`,
`Resume`, `Pipeline`, `AutoSuspend`, `Finalizer`, `Operator`) follows the control flow of its source, including ignored
status-write failures and the object that is reloaded halfway through a resume.

A ghost log records the run. The server writes into it all that it shows, answers or stores: objects fetched, query
lists, pod lists, call outcomes, releases of owner references, commits. The operator may add only its decisions
(`Trace.Decision`): a drain judged complete or not, pods settled, a pool left, a wake window chosen, tested or expired, a
resume marked, a runtime judged idle. A decision carries no evidence of its own. `Trace.Allowed` checks it against what
the log has shown before, with the drain window and the owner of the first entry, and every clock reading in the log is
the server's clock at that entry. Which calls, edits and phases a pass may use follows from the object it read: deleted,
to be suspended, or to run (`Trace.OpFits`, `Trace.ScaleFits`, `Trace.PhaseFits`). `Trace.Safe` says that every entry was
allowed.

`Operator.Run` proves that every run, with any number of passes and any interleaving, leaves a safe log, and only stored
versions that keep the wake rule. `Guarantees` says what a safe log means, by induction over the log: drain before
finalizer removal, no clean-up over running queries, the time fallback, released node pools, the ordered ladders before
phases Suspended and Ready, phases, replicas and autoscalers that follow the spec, wake floors and idle decisions.

A safe log says that nothing wrong happens. That the right thing happens is in the contracts of the methods. The server
counts setbacks (`Trace.Setback`): requests it refused, calls that failed or did not find what had to be there, unusable
answers, failed releases. `Api.Smooth` says that none came in between, and every step promises to succeed then. So a pass
without a setback ends where the object it read is to go, up to what may rightly hold it back: running queries, pods in
grace, a pool that cannot be released, an idle runtime (`Operator.Reconcile`). Two more records of the pass back this:
what was last done to each Deployment and to the autoscalers (`Trace.Fleet`), and the steps of the pipeline done so far.

Times are in nanoseconds. A stored time loses its fraction of a second.

**Other cores.** `Scheduling` and `Diagnostics` (per-node capacity and blocker categories), `Guardrails` (namespace
quota), `Catalog`, `CatalogText` and `CatalogSecrets` (rendering, reading back, environment variables), `Digest`
(hash input), `RetryTransport` (HTTP retries), `UpdatePolicy` (admission over whole histories), `OwnerRefs`, `Activity`
(signs of life in query lists). `Strings`, `Numbers`, `Sorting`, `Sums` and `Options` hold what they share.

## What the lifecycle proofs rely on

- Only the operator writes the drain annotations. Other writers never store a wake window with a suspended phase, never
  date activity before the object's creation, and store whole seconds, as the API server does.
- The clock does not run backwards between two readings of one operator, and never lies before the object's creation.
- `GetInvariants` of the suspended phase is: KEDA off, no coordinator, no workers.

## Findings

- **Owner references and stale reads.** `removeXTrinodeOwnerReference` reports success on the list it read. If that read
  was stale, and the stale list had no reference to remove, nothing is written and a reference can stay behind.
  `OwnerRefs.StaleReadLeavesReference` shows it for every owner; `OwnerRefs.ReleasedIff` states exactly when the stored
  list is free of references, and `Guarantees.PoolIsReleased` carries that to every run that leaves a pool behind.
- **Activity can move back.** The status merge of `updateStatus` never lowers the stored activity time. The writer in
  `autosuspend.go` overwrites it without comparing. It lowers the stored time exactly when there is one and the whole
  second sent lies below it (`AutoSuspend.ActivityLoweredIff`). A stale object and one finished query are enough
  (`AutoSuspend.RunFromStaleObject`, `AutoSuspend.StaleObjectWitness`).
- **A wake override can outlive its resume.** The merge patch after a resume removes only the override keys the operator
  had in memory, and its failure is only logged. When the resume succeeds, the stored object still has an override
  exactly when the patch was committed and another writer had added a key that memory lacked, or it was not committed
  and the version it met has an override (`Resume.ConsumeWakeAnnotations`, carried through `Resume.ReconcileResume`).
  Both happen: `Resume.AddedOverrideStays`, and without any other writer `Resume.FailedPatchResumesAgain`. A pass that
  reads such an object resumes it again.
- **Catalog names that carry the prefix twice.** The controller strips the catalog prefix twice, the pod side once. The
  variables of file and pods agree exactly when the name does not carry the prefix twice or there are no Secrets
  (`CatalogSecrets.VariablesAgreeIff`).
- **Variable names are not injective.** A dot and a dash in the same place collide (`CatalogSecrets.DotAndDashCollide`).
- **Zero bytes in digests.** Two keys and one key with zero bytes in its value hash alike (`Digest.ZeroBytesCollide`).
- **Documentation of `ConfigMapListDigest`.** Its comment promises an empty digest when all ConfigMaps are nil. The code
  hashes the empty text for a non-empty list of nils. The model follows the code (`Digest.AbsentConfigMapsAreHashed`).
- **Surge overflow.** Coordinator and worker pods are counted in 32 bits and multiplied in 64. A share covers every
  rolling update that the surge setting permits, with limits counted as the quota rounds them, exactly when no product wraps and no
  count does of pods that have a limit (`Guardrails.ShareCoversRoundedIff`; `Guardrails.ShareCoversPeakIff` for limits in whole units).
  A surge of 2147483647 makes the coordinator's share negative even without workers
  (`Guardrails.CoordinatorOverflow`). Limits below one unit can hide a wrap behind the rounding
  (`Guardrails.RoundingCanHideWrap`).
- **Missing provider block.** With equal disk size and spot settings the update comparison agrees with the machine shape
  exactly when the provider's block is on both sides or on neither (`UpdatePolicy.ShapeChangedIff`). A block on one side
  only goes unnoticed; create-time validation rules the case out (`UpdatePolicy.MissingBlockHidesShape`).

## Model

| member | source | states |
|---|---|---|
| Operator.Run | xtrinode/controllers/xtrinode_controller.go:86-226 | every run of passes, stale reads, failures and other writers leaves a safe log that begins with the configured window and owner, and no stored version ever has phase Suspending or Suspended together with a wake window |
| Guarantees.FinalizerRemovalIsEarned | xtrinode/controllers/xtrinode_finalizer.go:48-154 | the finalizer goes only after, in the same pass and in order, the drain was judged over on the query check and start that this pass saw, no worker pod it listed was in grace at its clock reading, the route was removed, the pool of the object in hand was left as its policy asks and guardrails were recomputed, with no later query check, route publication, scale-up or KEDA request in that pass; the start it judged by was stored by an earlier write that followed a successful route drain |
| Guarantees.ActiveQueriesBlockCleanup | xtrinode/controllers/xtrinode_finalizer.go:97-135 | in a pass whose last query check found running queries there is no clean-up call (route, ScaledObject, Trino resources, pool, guardrails), no release of a pool resource and no finalizer removal, not even an attempt, however long the drain has lasted |
| Guarantees.CleanupFollowsCheck | xtrinode/controllers/xtrinode_finalizer.go:97-154 | every clean-up act has a query check before it in its pass, and the last one did not find running queries |
| Guarantees.FallbackWaitsForWindow | xtrinode/controllers/xtrinode_finalizer.go:156-199 | a drain is judged complete only after a query check in its pass that found no running query; if that check failed, the configured window less one second has passed between the clock reading at which the start was stored, after a route drain, and the one of the judgement |
| Guarantees.JudgedByRecordedStart | xtrinode/controllers/xtrinode_finalizer.go:62-101 | every drain judgement uses the start on the object its pass read, stored by an earlier write that followed a route drain in its own pass |
| Guarantees.PoolIsReleased | xtrinode/controllers/xtrinode_finalizer.go:262-314 | leaving a pool that has to be kept means that, since the object was last fetched, both its resources were released from this runtime, and each stored list is free of references to it exactly when its release did not read a stale list |
| Guarantees.ReleasedWhenReadInTime | xtrinode/controllers/nodepool_helpers.go:704-746 | after a reported release the stored list is free of references exactly when the resource was gone, the read showed a reference, or the latest list had none |
| Guarantees.SuspendedIsEarned | xtrinode/controllers/xtrinode_suspend.go:55-135 | a status write that turns another stored phase into Suspended, in a pass that read another phase, comes only after route, a query check that found nothing running, KEDA off (if used), HPA gone, coordinator at zero, workers at zero and no listed worker pod in grace at the clock reading, at increasing places of that pass, with no scale-up, KEDA request or unsafe query check since the first |
| Guarantees.SuspendLadder | xtrinode/controllers/xtrinode_suspend.go:211-265 | the exact order of the rungs, with and without KEDA |
| Guarantees.PhaseFollowsSpec | xtrinode/controllers/xtrinode_controller.go:167-218 | a status sent with another phase than the pass read has Suspending or Suspended only if the spec that pass read is suspended, and Resuming, Reconciling or Ready only if it is not; no status is written for a deleted object |
| Guarantees.StoredPhaseFollowsSpec | xtrinode/controllers/xtrinode_controller.go:167-218 | the same for what is stored: no write turns the stored phase into one that contradicts the spec its pass read |
| Guarantees.ScaleFollowsSpec | xtrinode/controllers/xtrinode_resume.go:207-344 | a pass over a suspended spec asks for no replicas of either Deployment; one over a running spec for one coordinator and, for the workers, the floor of the native HPA or, without KEDA, the count the overrides and the spec ask for; with KEDA alone it never scales the workers |
| Guarantees.AutoscalersFollowSpec | xtrinode/controllers/xtrinode_suspend.go:211-282 | KEDA is disabled and the HPA deleted only in passes over a suspended spec, KEDA is asked for workers only in passes over one that is not |
| Guarantees.CleanupNeedsDeletion | xtrinode/controllers/xtrinode_controller.go:117-133 | draining, judging a drain, clean-up calls and finalizer removal happen only in a pass that read a deleted object |
| Guarantees.ReadyIsEarned | xtrinode/controllers/xtrinode_controller.go:195-218 | a status with phase Ready, in a pass that read another phase or has begun its pipeline, is written only after, in order and in that pass, guardrails, the pool found ready (if the object in hand has one), the Trino resources, KEDA asked for its floor (if it uses KEDA), the runtime found ready and the route published |
| Guarantees.StatusWritesKeepPromises | xtrinode/controllers/xtrinode_status.go:22-59 | no status write combines a suspended phase with a wake window, and only the explicit activity writer can lower activity |
| Trace.MergeKeepsActivity | xtrinode/controllers/xtrinode_status.go:22-44 | the merged status is the captured one except for a later stored activity time; activity never moves back even though storing cuts fractions |
| Guarantees.FloorNeedsOpenWindow | xtrinode/controllers/xtrinode_gateway_keda.go:59-71 | KEDA is asked for a worker floor only if it is the floor of a wake window that this pass read, fetched or opened, still open at a clock reading of this pass taken after that |
| Guarantees.AutoSuspendIsEarned | xtrinode/internal/autosuspend/autosuspend.go:109-173 | a suspend request follows, in its pass and in order, an answer about the queries, a test that found the wake window of the object last fetched closed, and an idle decision: the threshold of that object has passed since the latest of the activity in memory, the newest time over all queries and fields of that answer, and the answer itself if queries ran; the object was read again after the answer, and unless that failed it is the one last fetched and the threshold has passed since its own activity too |
| Guarantees.ActivityOrigin | xtrinode/controllers/xtrinode_resume.go:121-126 | the activity in memory is that of the object the pass read, or the clock reading of a resume in the pass |
| Commands.WinnerOutranksAll | xtrinode/controllers/commands.go:158-192 | the winner is the one request that outranks all others: manual beats automatic, newer manual wins, ties go to suspend; it exists exactly when something was requested |
| Commands.DetectAnnotationCommands | xtrinode/controllers/commands.go:121-155 | the commands found are those whose request annotation reads true, with their times and overrides; which annotation each time comes from is fixed by `Commands.IntakeByAnnotations` |
| Commands.ResolveCommandPrecedence | xtrinode/controllers/commands.go:158-192 | the pointers and the refiltered list that are left hold exactly the winner |
| Commands.DecideIntake | xtrinode/controllers/commands.go:42-118 | nothing, a rejected resume, or the change of the winner over all detected commands |
| Commands.IntakeMeaning | xtrinode/controllers/commands.go:42-118 | nothing is done exactly without a request, and a plan is that of the command that outranks all others |
| Commands.IntakeByAnnotations | xtrinode/controllers/commands.go:120-192 | over the annotations alone: nothing without a request; resume leads exactly if asked for and either suspend is not or its own time annotation, in seconds, is later than that of suspend; it is then rejected exactly when an override cannot be read; suspend wins exactly if asked for and resume does not lead; automatic suspension only without both |
| Commands.UnreadableTimes | xtrinode/controllers/commands.go:120-155 | an unreadable or missing time loses to every readable one after the first second of year 1, and two of them go to suspend |
| Commands.MutationEffect | xtrinode/controllers/commands.go:195-230 | request and time annotations of detected commands go, wake overrides go unless resume won, everything else survives, and the runtime is not suspended exactly when resume won |
| Commands.OnlyNewRequestsRemain | xtrinode/controllers/commands.go:195-230 | after the change exactly the requests that were not there at the read remain |
| Commands.IntakeLoopEnds | xtrinode/controllers/commands.go:42-118 | the next detection finds nothing exactly when no request appeared in between |
| Operator.ProcessCommands | xtrinode/controllers/commands.go:42-118 | under any interleaving a processed winner means exactly one write, of the change for the requests read, on top of the version it was computed from; exhausted conflicts write nothing; without a setback the winner is processed |
| Operator.PersistCommands | xtrinode/controllers/commands.go:281-295 | the stored version is the change applied to the version directly before it, whatever others wrote meanwhile |
| Operator.NextPassFindsNothing | xtrinode/controllers/commands.go:42-118 | without new requests the pass that reads the result takes in nothing, so the requeue loop ends |
| Operator.EnsureFinalizer | xtrinode/controllers/xtrinode_finalizer.go:24-46 | the pass proceeds, having written nothing, exactly when the object it read carries the finalizer; otherwise a reported addition made one write that added the finalizer and changed nothing else, and without a setback it is reported |
| Operator.ReconcileRemovedNodePool | xtrinode/controllers/xtrinode_nodepool_reconcile.go:93-141 | the pass proceeds only if a pool that left the spec was released from the runtime, and does without a setback if that pool can be released; the status is written with phase, wake and activity as read |
| Operator.Reconcile | xtrinode/controllers/xtrinode_controller.go:86-226 | one pass from any version read. Live: success means phase Suspended stored and the fleet down for a suspended spec, phase Ready stored and the whole pipeline done otherwise; without a setback the pass adds a missing finalizer, else stores the change asked for, else goes all the way, unless queries, pods in grace, the pool or idleness hold it. Deleted: nothing is logged without a finalizer, a drain is tried first without a start, a check and a judgement come first with one; without a setback the start is stored, and a complete drain ends in the removal of the finalizer |
| Operator.ReconcileLive | xtrinode/controllers/xtrinode_controller.go:134-218 | the live half of that |
| Operator.Drive | xtrinode/controllers/xtrinode_controller.go:167-218 | a suspended spec goes down and any other up: success stores Suspended over a fleet that is down, or Ready after the whole pipeline |
| ApiServer.Api.OnConflictWithRefresh | xtrinode/internal/retry/retry.go:156-228 | success committed the closure's result once, directly on the version it was applied to; exhausted attempts committed nothing and met exactly as many conflicts as there are attempts; without a setback it succeeds |
| ApiServer.Api.AttemptEdit | xtrinode/internal/retry/retry.go:170-207 | one attempt commits at most once, and asks for another only if nothing was committed |
| ApiServer.Api.UpdateStatusWithRetry | xtrinode/controllers/xtrinode_helpers.go:578-606 | success stored the closure's status once on the version it replaced and changed no other field |
| ApiServer.Api.Update | xtrinode/internal/retry/retry.go:156-228 | optimistic concurrency: a commit lands directly on the version the update was sent from, a conflict commits nothing, a failure may hide a commit |
| ApiServer.Api.UpdateStatus | xtrinode/controllers/xtrinode_helpers.go:578-606 | the same for the status subresource, which changes the status alone |
| ApiServer.Api.RefreshAndSetActivity | xtrinode/internal/autosuspend/autosuspend.go:85-106 | success stored the time once on the version fetched for it, whatever activity that had; however it ends, the object handed back is the one fetched last, carrying the time |
| ApiServer.Api.PatchDropKeys | xtrinode/controllers/xtrinode_resume.go:107-113 | a merge patch meets whatever is stored; what is stored then is that version without the named keys if the patch was committed, and unchanged if not; a reported success was committed, a failure may hide a commit |
| Suspend.UpdateStatus | xtrinode/controllers/xtrinode_status.go:22-44 | a successful call never lowers the stored activity time and otherwise commits exactly the captured status on top of the version before |
| Suspend.ScaleDeployments | xtrinode/controllers/xtrinode_scale.go:30-44 | success means each Deployment is absent or was given its count, coordinator first; without a setback it succeeds |
| Suspend.ScaleReplicas | xtrinode/controllers/xtrinode_scale.go:47-86 | success means the Deployment was absent or set to exactly this count; no other was touched; without a setback it succeeds |
| Suspend.EnsureSuspendedInvariants | xtrinode/controllers/xtrinode_suspend.go:211-265 | success means KEDA off (if used), HPA gone and both Deployments absent or at zero, in this order; without a setback it succeeds |
| Suspend.CallOrAbsent | xtrinode/controllers/xtrinode_suspend.go:267-282 | success means the HPA (or ScaledObject) was removed or absent |
| Suspend.WaitForPodTermination | xtrinode/internal/gracefulshutdown/shutdown.go:149-180 | settled exactly when the listing succeeded and no listed worker pod is inside its grace period at the last clock reading |
| Suspend.ReconcileSuspendedNodePool | xtrinode/controllers/xtrinode_suspend.go:137-169 | provisioning while suspended leaves phase, wake window and activity alone, and without a setback continues |
| Suspend.ScaleDownGracefully | xtrinode/controllers/xtrinode_suspend.go:78-106 | success means the whole suspend ladder was climbed in this pass and the fleet is down; without a setback queries were checked, pods were listed if none ran, and if none was in grace it succeeds |
| Suspend.BeginSuspend | xtrinode/controllers/xtrinode_suspend.go:55-76 | the wake window is dropped from memory and the phase is Suspending, whether or not the write succeeded |
| Suspend.FinishSuspend | xtrinode/controllers/xtrinode_suspend.go:108-135 | success means Suspended without a wake window was stored and the route published again |
| Suspend.KeepSuspended | xtrinode/controllers/xtrinode_suspend.go:28-53 | success means the drift was repaired: KEDA off, HPA gone and both Deployments absent or at zero in this pass, the route published after that, and phase Suspended stored; without a setback it succeeds |
| Suspend.ReconcileSuspend | xtrinode/controllers/xtrinode_suspend.go:25-135 | a pass that reports success has stored phase Suspended over a fleet that is down; without a setback only running queries and pods in grace keep it from that |
| Resume.ParseWakeParams | xtrinode/controllers/xtrinode_resume.go:173-205 | a readable non-negative override wins, then the spec, then the default |
| Resume.AcceptedOverridesAreUsed | xtrinode/controllers/xtrinode_resume.go:156-205 | overrides of an accepted resume command survive the intake and are the values the resume takes |
| Resume.SetWakeWindow | xtrinode/controllers/xtrinode_resume.go:33-50 | the window is replaced or cleared, never left over from an earlier wake |
| Resume.BeginResume | xtrinode/controllers/xtrinode_resume.go:51-62 | the object leaves the suspended phases before any wake window can be stored with them |
| Resume.ConsumeWakeAnnotations | xtrinode/controllers/xtrinode_resume.go:96-119 | after the reload the wake window and activity of this pass are back; the stored object has a wake override exactly when the patch was committed over a key added behind memory, or was not committed and met one; the object in memory has one exactly when the reply of the patch brought an added key |
| Resume.AddedOverrideStays | xtrinode/controllers/xtrinode_resume.go:107-113 | a lifetime override added next to a worker override in memory survives a committed patch |
| Resume.FailedPatchResumesAgain | xtrinode/controllers/xtrinode_resume.go:110-113 | a patch that is not committed leaves the override stored, none in memory, and the stored object asks for another resume |
| Resume.RunResumeTransition | xtrinode/controllers/xtrinode_resume.go:25-154 | a completed transition left the coordinator absent or scaled to one, and the workers to KEDA untouched, seeded for a native HPA, or absent or scaled to the count asked for; it set activity to the clock, holds only a window with the positive floor asked for, and leaves overrides, stored and in memory, exactly as the fate of the patch says; without a setback it completes |
| Resume.ReconcileResume | xtrinode/controllers/xtrinode_resume.go:25-154 | success after a transition has the fleet started as above and overrides, stored and in memory, exactly as the fate of the patch says; a transition is run exactly for a phase or an override that asks for one, and without it the object is unchanged and had no override; either way the coordinator and an HPA floor are then kept up; without a setback it succeeds |
| Resume.ScaleForResume | xtrinode/controllers/xtrinode_resume.go:207-256 | coordinator absent or at one; workers untouched with KEDA, seeded with a native HPA, otherwise absent or at the count asked for |
| Resume.EnsureNativeHpaWorkerFloor | xtrinode/controllers/xtrinode_resume.go:309-344 | a positive HPA floor means the workers are absent, were already above zero, or were set to the floor; any other floor touches nothing |
| Resume.EnsureResumedInvariants | xtrinode/controllers/xtrinode_resume.go:258-307 | the coordinator is absent, was found at one replica or was set to one; the workers of a native HPA are seeded unless the coordinator is absent, any others left alone; without a setback it succeeds |
| Resume.FinishResume | xtrinode/controllers/xtrinode_resume.go:96-126 | the overrides are taken off and only then is the runtime marked active |
| Pipeline.NewReconciliationPipeline | xtrinode/controllers/xtrinode_reconciliation_steps.go:43-71 | wake expiry runs before KEDA, the auto-suspend check last, the pool before the Trino resources exactly when one is configured, and each step lifts the ready ladder from where the one before left it |
| Pipeline.ReconcileWakeTtl | xtrinode/controllers/xtrinode_wake_autosuspend.go:18-47 | a window is kept exactly if it was open at the clock reading of this call; nothing else changes |
| Pipeline.ReconcileKeda | xtrinode/controllers/xtrinode_gateway_keda.go:25-89 | success with KEDA in use means its last call asked for exactly the floor of the wake window at the clock reading of the request: none if the window had expired; without KEDA nothing happens |
| Pipeline.EnsureScaledObject | xtrinode/controllers/xtrinode_gateway_keda.go:59-71 | the floor asked for is that of the window at the clock reading, zero if it is closed |
| Pipeline.KedaStep | xtrinode/controllers/xtrinode_reconciliation_steps.go:282-305 | without KEDA the one call made removes a ScaledObject left behind, and its failure is ignored; with KEDA it continues only after the floor was asked for |
| Pipeline.WaitForRuntimeReady | xtrinode/controllers/xtrinode_reconciliation_steps.go:343-367 | continues exactly through a readiness check that succeeded |
| Pipeline.ExecuteStep | xtrinode/controllers/xtrinode_reconciliation_steps.go:140-406 | a step that continues lifted the ready ladder by its own rung, the expiry step dropped exactly a closed window, and every step continues without a setback |
| Pipeline.ExecuteAutoSuspend | xtrinode/controllers/xtrinode_reconciliation_steps.go:420-450 | an answer about the queries is asked for exactly if automatic suspension is configured; the pipeline stops here exactly for a runtime judged idle, and other failures of the check do not stop it |
| Pipeline.Execute | xtrinode/controllers/xtrinode_reconciliation_steps.go:73-138 | continuing to the end means every rung below the route was climbed, in order, and the idle check was made if configured; without a setback it stops only for an idle runtime |
| Pipeline.TransitionToReady | xtrinode/controllers/runtime_readiness.go:26-77 | success means phase Ready was stored, with the wake window in memory; without a setback it succeeds |
| Pipeline.ReconcileRunning | xtrinode/controllers/xtrinode_controller.go:174-218 | a pass over a running runtime that succeeds has done the whole pipeline, published the route and stored phase Ready; without a setback only an idle runtime keeps it from that |
| Activity.LatestQueryTimestamp | xtrinode/internal/autosuspend/autosuspend.go:376-402 | the newest readable time among a query's own fields and those of its statistics |
| Activity.QueryActivity | xtrinode/internal/autosuspend/autosuspend.go:293-307 | no active query exactly when all states are terminal; the time is the newest over all queries and fields |
| AutoSuspend.UpdateLastActivityAt | xtrinode/internal/autosuspend/autosuspend.go:85-106 | success stored the given time, cut down to the present if it lies in the future, on the version fetched for it; after a failure the object in memory is the one fetched last, already carrying that time, or the old one if none was fetched |
| AutoSuspend.ActivityLoweredIff | xtrinode/internal/autosuspend/autosuspend.go:85-106 | sending a time lowers the stored activity exactly when that exists and lies above the whole second sent |
| AutoSuspend.RunFromStaleObject | xtrinode/internal/autosuspend/autosuspend.go:178-246 | a run from an object older than one finished query lowers the activity of the version it lands on exactly when another writer had stored a time later than that query's second |
| AutoSuspend.StaleObjectWitness | xtrinode/internal/autosuspend/autosuspend.go:221-246 | such objects exist within what other writers may do |
| AutoSuspend.UpdateLastActivityIfQueriesActive | xtrinode/internal/autosuspend/autosuspend.go:178-246 | after success no sign of life in the answer is lost from the activity in memory; a time is sent exactly if queries run or the newest query time is later than the activity known, a past one unchanged, in the one write made |
| AutoSuspend.UpdateLastActivityFromQueries | xtrinode/internal/autosuspend/autosuspend.go:221-246 | the same from the query list alone |
| AutoSuspend.CheckAutoSuspend | xtrinode/internal/autosuspend/autosuspend.go:30-77 | true exactly if configured, not suspended, no open wake window, and idle for the threshold, each at its own clock reading |
| AutoSuspend.WakeWindowClosed | xtrinode/internal/autosuspend/autosuspend.go:41-50 | closed exactly when no window is open at the clock reading of the test |
| AutoSuspend.IdleLongEnough | xtrinode/internal/autosuspend/autosuspend.go:52-74 | true exactly when the threshold has passed since activity or creation |
| AutoSuspend.ObserveActivity | xtrinode/internal/autosuspend/autosuspend.go:109-131 | no sign of life is lost: not that of the answer, if the object read again is stale, and not the activity of that object, if it is later |
| AutoSuspend.RereadObject | xtrinode/internal/autosuspend/autosuspend.go:114-130 | the object read again keeps the later of its own activity and the observed one; a failed read leaves the object as it is |
| AutoSuspend.AutoSuspendIfNeeded | xtrinode/internal/autosuspend/autosuspend.go:109-173 | a request is the last write and follows an idle decision of this pass; without a setback it is sent exactly if the object read again asks for suspension, its window is closed and the threshold has passed, each at its own clock reading, since the latest of its own activity, the activity known and all signs of life in the answer |
| Finalizer.DrainElapsed | xtrinode/controllers/xtrinode_finalizer.go:156-176 | the elapsed time reaches the window exactly when the window has passed, with an unreadable start counting as passed |
| Finalizer.QueryAwareDrainComplete | xtrinode/controllers/xtrinode_finalizer.go:156-199 | each of the four results exactly when the check made here and the configured window demand it; complete exactly by idle queries or by time fallback; anything else leaves the removal ladder empty |
| Finalizer.StartDrain | xtrinode/controllers/xtrinode_finalizer.go:62-95 | the first thing it does is to drain the route; a reported start means that succeeded and one write then stored the present as the start; without a setback the start is stored |
| Finalizer.StoreDrainCompletion | xtrinode/controllers/xtrinode_finalizer.go:201-222 | success means a stored version carries a completion time, written now or earlier; without a setback it succeeds |
| Finalizer.RetainNodePool | xtrinode/controllers/nodepool_adapter.go:256-288 | success means both resources were released from this very runtime since the object was fetched |
| Finalizer.ReleaseResource | xtrinode/controllers/nodepool_helpers.go:704-739 | success means the release of this resource from this runtime is logged as successful, the other one untouched |
| Finalizer.CleanupNodePool | xtrinode/controllers/xtrinode_finalizer.go:262-314 | success means the pool of the object in hand was left as its policy asks: scaled and released, released, or its deletion tried; a failure leaves the ladder where it was; without a setback a releasable pool is left |
| Finalizer.CleanupResources | xtrinode/controllers/xtrinode_finalizer.go:241-319 | the route is removed first, then ScaledObject (with KEDA) and Trino resources are deleted, whatever their outcome; success needs both the route removed and the pool settled, and comes without a setback if the pool can be released |
| Finalizer.DeleteWorkload | xtrinode/controllers/xtrinode_finalizer.go:250-260 | exactly the ScaledObject, if KEDA is used, and then the Trino resources are deleted; their failure changes nothing |
| Finalizer.SettlePool | xtrinode/controllers/xtrinode_finalizer.go:262-314 | success means the outcome the policy of the object in hand asks for |
| Finalizer.FinishDeletion | xtrinode/controllers/xtrinode_finalizer.go:103-154 | the deletion reports gone only if its last write took the finalizer off, storing a version without it; without a setback it lists the pods, and if none is in grace and the pool can be released, the finalizer goes |
| Finalizer.LetGo | xtrinode/controllers/xtrinode_finalizer.go:139-147 | the finalizer is taken off only after guardrails were recomputed, and without a setback it is |
| Finalizer.Finalize | xtrinode/controllers/xtrinode_finalizer.go:48-154 | without the finalizer nothing happens; without a drain start a drain of the route comes first, and without a setback the start is stored; with one a query check and a judgement come first, a judgement that the drain is over leads, without a setback, to the removal unless pods in grace or the pool prevent it; gone means the last write took the finalizer off |
| Shutdown.CoordinatorHasReadyRuntime | xtrinode/internal/gracefulshutdown/shutdown.go:116-145 | ready exactly if the Deployment has ready replicas or a listed coordinator pod is ready |
| Shutdown.CheckQueriesBeforeScaleDown | xtrinode/internal/gracefulshutdown/shutdown.go:37-114 | the verdict is idle, active or unknown exactly as the observation demands |
| Shutdown.CountActive | xtrinode/internal/gracefulshutdown/shutdown.go:61-114 | zero exactly when every query state is terminal |
| Shutdown.OnlyEndsAreTerminal | xtrinode/internal/trino/querystate/querystate.go:17-25 | of the states Trino gives a query only finished and failed are terminal, and both spellings of cancelled |
| OwnerRefs.FilterInPlace | xtrinode/controllers/nodepool_helpers.go:704-739 | the kept prefix of the array is the old list without the runtime's references |
| OwnerRefs.OwnReferenceMatches | xtrinode/controllers/nodepool_helpers.go:139-148 | the reference the operator writes for a runtime matches that runtime, and another exactly if it has its name and no different identifier |
| OwnerRefs.WithoutKeepsOthers | xtrinode/controllers/nodepool_helpers.go:704-746 | every other reference survives with its multiplicity, every own one goes |
| OwnerRefs.RemoveOwnerReference | xtrinode/controllers/nodepool_helpers.go:704-739 | the call does what `Release` says to the stored versions; success means the list last seen has no matching reference |
| OwnerRefs.ReleasedIff | xtrinode/controllers/nodepool_helpers.go:704-746 | after a success the stored list is free of matching references exactly when the read showed one or the latest version had none |
| OwnerRefs.StaleReadLeavesReference | xtrinode/controllers/nodepool_helpers.go:704-739 | a stale read can report success while a reference is stored |
| Scheduling.PodSchedulingRequests | xtrinode/controllers/runtime_scheduling_diagnostics.go:332-344 | per resource, the larger of container sum and init peak, plus overhead |
| Scheduling.RequestIsPeakOfPod | xtrinode/controllers/runtime_scheduling_diagnostics.go:332-369 | with non-negative requests this is max(sum, max) plus overhead, attained and never exceeded |
| Scheduling.AddRequests | xtrinode/controllers/runtime_scheduling_diagnostics.go:346-356 | pointwise sum |
| Scheduling.SubtractRequests | xtrinode/controllers/runtime_scheduling_diagnostics.go:371-381 | pointwise difference |
| Scheduling.KeepLarger | xtrinode/controllers/runtime_scheduling_diagnostics.go:358-369 | pointwise maximum over the larger list's own entries |
| Scheduling.RequirementLaws | xtrinode/controllers/runtime_scheduling_diagnostics.go:258-288 | In and NotIn, Exists and DoesNotExist are complements, a value is In exactly if listed, In and Gt need the label, an unknown operator never matches |
| Scheduling.OrderedLabels | xtrinode/controllers/runtime_scheduling_diagnostics.go:258-288 | Gt and Lt compare any two 64-bit numbers written in decimal as numbers |
| Scheduling.TolerationLaws | xtrinode/controllers/runtime_scheduling_diagnostics.go:297-314 | a toleration made for a taint tolerates it, the bare Exists toleration tolerates everything, dropping effect, key or value only widens, and a different key, effect or value never tolerates |
| Scheduling.DaemonSetPodsByNode | xtrinode/controllers/runtime_scheduling_diagnostics.go:132-151 | the index holds a key for a node exactly when a live pod there contributes it |
| Scheduling.IndexAgreesWithScan | xtrinode/controllers/runtime_scheduling_diagnostics.go:132-163 | for names without a slash the index answers as a plain scan over pods would |
| Scheduling.BuildNodeState | xtrinode/controllers/runtime_scheduling_diagnostics.go:88-128 | free resources are allocatable less live pods less missing DaemonSet pods; slots are the same count cut at zero |
| Scheduling.BuildSchedulingNodeStates | xtrinode/controllers/runtime_scheduling_diagnostics.go:88-128 | one such state for each ready node, in order |
| Diagnostics.UnblockedIffAdmitted | xtrinode/controllers/runtime_scheduling_diagnostics.go:165-205 | no blocker exactly when some ready node passes placement, taints and capacity |
| Diagnostics.RequestsFit | xtrinode/controllers/runtime_scheduling_diagnostics.go:383-398 | fits exactly with a free slot and enough of every requested resource |
| Diagnostics.Diagnose | xtrinode/controllers/runtime_scheduling_diagnostics.go:165-205 | the three filters give the category of the first one that leaves no node |
| Diagnostics.AddPodSchedulingDiagnostics | xtrinode/controllers/runtime_scheduling_diagnostics.go:165-205 | a pending pod adds one line in its category, or none, and nothing is lost |
| Diagnostics.BlockerSet.Add | xtrinode/controllers/runtime_scheduling_diagnostics.go:470-483 | a line goes to the overall list and to exactly one category |
| Diagnostics.LandingConserves | xtrinode/controllers/runtime_scheduling_diagnostics.go:103-163 | when a missing DaemonSet pod lands where it should run, no node's free resources or slots change, saturated counters included |
| Diagnostics.AddedPodNeverUnblocks | xtrinode/controllers/runtime_scheduling_diagnostics.go:165-205 | adding a live pod outside DaemonSets never unblocks a blocked pod |
| Guardrails.CalculateLimits | xtrinode/controllers/namespace_guardrails.go:180-212 | the quota is the sum of all counted shares, the defaults are the maxima, and one unresolvable runtime fails the whole |
| Guardrails.ListNamespaceRuntimes | xtrinode/controllers/namespace_guardrails.go:271-292 | live runtimes of the listing, and the current one if it is live and not listed live |
| Guardrails.ShapeQuotaLimits | xtrinode/controllers/namespace_guardrails.go:214-232 | one runtime's share in CPU and memory, with 32-bit pod counts and 64-bit products; that the count is the largest legal one is `Guardrails.SurgeIsLargestLegal` |
| Guardrails.PercentSurgeIsLeast | xtrinode/controllers/namespace_guardrails.go:234-262 | the surge of p percent of n replicas is the least number whose hundredfold is at least p times n, unless it is capped |
| Guardrails.SurgeIsLargestLegal | xtrinode/controllers/namespace_guardrails.go:234-262 | the surge counted is one the setting permits, and unless it is capped no permitted one is larger |
| Guardrails.PeakMonotone | xtrinode/controllers/namespace_guardrails.go:234-262 | fewer replicas never peak higher, for integer and rounded-up percentage surge |
| Guardrails.QuotaOrderFree | xtrinode/controllers/namespace_guardrails.go:180-212 | the quota does not depend on the order of the listing |
| Guardrails.DeletionDropsShare | xtrinode/controllers/namespace_guardrails.go:271-292 | a runtime going into deletion lowers the quota by exactly its share, in its own pass and in any other |
| Guardrails.ShareCoversRoundedIff | xtrinode/controllers/namespace_guardrails.go:214-262 | a share covers every legal roll, limits rounded up, exactly when no pod count and no product wraps; a legal roll has up to the quota count of replicas and any extra pods the surge setting permits |
| Guardrails.ShareCoversPeakIff | xtrinode/controllers/namespace_guardrails.go:214-262 | the same for the limits themselves when they are in whole units |
| Guardrails.ShareIsRoundedPeakIff | xtrinode/controllers/namespace_guardrails.go:214-250 | a share never exceeds the rounded peak, and equals it exactly when nothing wraps |
| Guardrails.ShareCoversPeak | xtrinode/controllers/namespace_guardrails.go:214-262 | a share in which nothing wraps covers every legal roll, for limits of any precision |
| Guardrails.QuotaCoversSimultaneousPeaks | xtrinode/controllers/namespace_guardrails.go:180-262 | the quota that `CalculateLimits` returns covers all counted runtimes in any legal rolls at once, in CPU and memory, when no share wraps |
| Guardrails.SharesCoverSimultaneousPeaks | xtrinode/controllers/namespace_guardrails.go:180-262 | the same for the sum of the shares of any runtimes |
| Guardrails.CoordinatorOverflow | xtrinode/controllers/namespace_guardrails.go:214-262 | without workers and with the largest 32-bit surge the coordinator count wraps and the share is negative |
| Guardrails.RoundingCanHideWrap | xtrinode/controllers/namespace_guardrails.go:214-232 | with limits far below one unit a share can cover the peak although the worker count wraps |
| Catalog.GeneratedKeysAreReserved | xtrinode/controllers/connector_registry.go:104-126 | every key a connector generates is one that validation reserves |
| Catalog.GeneratedKeysArePlain | xtrinode/api/v1/xtrinodecatalog_webhook.go:441-586 | generated keys consist of lower-case letters, digits, dots and dashes |
| Catalog.JdbcFields | xtrinode/controllers/connector_registry.go:104-115 | URL always, user only if given, each with the value of the field |
| Catalog.BigQueryFields | xtrinode/controllers/connector_registry.go:141-152 | project always, parent project and credentials file only if given |
| Catalog.ElasticsearchFields | xtrinode/controllers/connector_registry.go:281-292 | host always, port in decimal only if positive, schema only if given |
| Catalog.OpenSearchFields | xtrinode/controllers/connector_registry.go:545-556 | the same for OpenSearch |
| Catalog.RedisFields | xtrinode/controllers/connector_registry.go:619-627 | nodes always, database index in decimal only if positive |
| Catalog.HiveFields | xtrinode/controllers/connector_registry.go:349-366 | metastore always, S3 endpoint only if given |
| Numbers.WrittenIsReadBack | xtrinode/controllers/runtime_scheduling_diagnostics.go:269-283 | a number written in decimal is read back as itself exactly within 64 bits, and refused otherwise |
| CatalogText.EnsurePropertiesMap | xtrinode/controllers/xtrinodecatalog_controller.go:258-268 | the copy holds the user's properties, whatever order they are taken in |
| CatalogText.ApplyPropertySecretRefs | xtrinode/controllers/connector_registry.go:117-126 | each trimmed, non-blank reference name gets its placeholder over what was there |
| CatalogText.ResolveConnector | xtrinode/controllers/connector_registry.go:74-98 | user properties under connector fields under Secret references |
| CatalogText.BuildPropertiesString | xtrinode/controllers/xtrinodecatalog_controller.go:272-289 | the text is one function of name and map, independent of map order |
| CatalogText.GenerateProperties | xtrinode/controllers/xtrinodecatalog_controller.go:239-254 | a text exactly for an accepted catalog |
| CatalogText.ConfigPropertyValuesFromText | xtrinode/api/v1/xtrinode_webhook.go:1522-1530 | the values of all lines that name the key, in order |
| CatalogText.LineReadsAsItsKey | xtrinode/api/v1/xtrinode_webhook.go:1532-1545 | a written line reads as its own key and trimmed value, and as no other key |
| CatalogText.UserPropertyReadsBack | xtrinode/controllers/xtrinodecatalog_controller.go:239-289 | an accepted, unshadowed user property reads back as exactly one value, equal to the original exactly when that is trimmed |
| CatalogText.UserPropertyIsKept | xtrinode/api/v1/xtrinodecatalog_webhook.go:441-586 | validation keeps connectors from overwriting a user property |
| CatalogSecrets.GenericPropertySecretReferences | xtrinode/internal/catalog/secrets.go:227-254 | one reference for each non-blank name, in name order, with its Secret |
| CatalogSecrets.ExtractSecretReferences | xtrinode/internal/catalog/secrets.go:80-225 | generic references, then those of the connector's own fields |
| CatalogSecrets.TypedPlaceholders | xtrinode/controllers/connector_registry.go:104-115 | a connector writes placeholders for exactly the properties whose Secrets are extracted |
| CatalogSecrets.CatalogPlaceholders | xtrinode/controllers/connector_registry.go:74-126 | the property map holds a placeholder for exactly the Secret-backed properties |
| CatalogSecrets.VariablesAgreeIff | xtrinode/controllers/xtrinodecatalog_controller.go:293-300 | file and pods name the same variables exactly when there are no Secrets or the name does not carry the prefix twice |
| CatalogSecrets.PlaceholderGetsItsOwnSecret | xtrinode/internal/catalog/secrets.go:80-266 | without collisions each placeholder's variable is given once, from that property's own Secret |
| CatalogSecrets.SharedVariable | xtrinode/internal/catalog/secrets.go:259-266 | two properties share a variable exactly when they agree up to case, dots and dashes |
| CatalogSecrets.DotAndDashCollide | xtrinode/internal/catalog/secrets.go:259-266 | a dot and a dash in the same place collide |
| Digest.Buffer.AddString | xtrinode/internal/digest/digest.go:23-28 | key and value are appended, each ended by a zero byte |
| Digest.DataDigest | xtrinode/internal/digest/digest.go:56-71 | the hashed bytes are one function of the data map, whatever the iteration order |
| Digest.EqualInputsEqualData | xtrinode/internal/digest/digest.go:56-107 | without zero bytes, equal inputs exactly for equal data |
| Digest.ZeroBytesCollide | xtrinode/internal/digest/digest.go:23-46 | with zero bytes in a value a one-key map collides with a two-key map |
| Digest.ListDigest | xtrinode/internal/digest/digest.go:75-88 | the hashed bytes are the names and digests of the ConfigMaps that are there |
| Digest.EqualListInputs | xtrinode/internal/digest/digest.go:75-88 | equal list inputs exactly for equal sequences of names and digests |
| Digest.AbsentConfigMapsAreHashed | xtrinode/internal/digest/digest.go:73-88 | a non-empty list of absent ConfigMaps is hashed as the empty text |
| RetryTransport.RoundTrip | xtrinode/internal/httpclient/retry_transport.go:83-195 | a method that is not retried is sent once, as it came; one that is retried is sent MaxRetries + 1 times, each time offering all bytes the consumable body first held and their number, unless an outcome is final or a delay is interrupted, and not at all if its body cannot be read; the last response is returned unless interrupted; every timeout is cancelled or owned by the returned body, every other response closed, the body closed |
| RetryTransport.SendRepeatedly | xtrinode/internal/httpclient/retry_transport.go:105-195 | fewer than MaxRetries + 1 sends only after a final outcome or an interrupted delay, and never none; an interruption returns nothing, anything else returns the last outcome's response |
| RetryTransport.SendClone | xtrinode/internal/httpclient/retry_transport.go:108-117 | each attempt gets a fresh reader over the buffered bytes, so reading it takes nothing from the next |
| RetryTransport.Attempt | xtrinode/internal/httpclient/retry_transport.go:107-163 | one send of all the bytes leaves nothing open unless its response is returned |
| RetryTransport.Finish | xtrinode/internal/httpclient/retry_transport.go:45-54 | after the caller closes what was returned, all timeouts are cancelled and all responses closed |
| RetryTransport.Wire.Close | xtrinode/internal/httpclient/retry_transport.go:50-54 | closing a wrapped body also cancels its timeout |
| RetryTransport.RetriedMethods | xtrinode/internal/httpclient/retry_transport.go:198-205 | the retried methods are the idempotent ones of section 9.2.2 of RFC 9110 without TRACE |
| RetryTransport.RetriedStatuses | xtrinode/internal/httpclient/retry_transport.go:244-257 | below 500 only 408 and 429 are retried, from 500 on exactly 500, 502, 503 and 504 |
| UpdatePolicy.ValidateUpdate | xtrinode/api/v1/xtrinode_webhook.go:503-565 | accepted exactly when valid and either nothing needs break-glass or the annotation is set |
| UpdatePolicy.UpdateContext.CheckSizeChange | xtrinode/api/v1/xtrinode_update_checks.go:8-21 | a reason is recorded exactly for a lower size order |
| UpdatePolicy.SizesAscend | xtrinode/internal/config/config.go:408-416 | the sizes are ordered as listed, and every other name comes before all of them |
| UpdatePolicy.UpdateContext.CheckNodePoolChanges | xtrinode/api/v1/xtrinode_update_checks.go:40-109 | the recorded reasons are exactly presence, identity, shape and a policy that becomes Delete |
| UpdatePolicy.UpdateContext.CheckRoutingChanges | xtrinode/api/v1/xtrinode_update_checks.go:112-146 | the recorded reasons are exactly presence and identity |
| UpdatePolicy.BreakGlassIffNotKept | xtrinode/api/v1/xtrinode_validation_diff.go:107-236 | between valid objects break-glass is needed exactly when size order falls, pool or route change, or a kept pool becomes deletable |
| UpdatePolicy.ShapeChangedIff | xtrinode/api/v1/xtrinode_validation_diff.go:163-206 | for one provider the comparison agrees with the shape exactly when disk size or spot differ, or the provider's block is on both sides or on neither |
| UpdatePolicy.HistoryKeeps | xtrinode/api/v1/xtrinode_webhook.go:503-565 | along every accepted history without break-glass, from any point to any later one, size order does not fall, pool and route stay, and a policy other than Delete never becomes Delete |
| UpdatePolicy.MissingBlockHidesShape | xtrinode/api/v1/xtrinode_validation_diff.go:163-206 | for every provider, a block missing on one side only hides the change from presence, identity and shape checks although the pool is not kept, and one of the two objects is not valid |

## Left out

- The Kubernetes client, watches, events, metrics, logging and server-side apply: only versioned reads, writes and call outcomes are kept.
- Timestamps, durations and integers as text: `Model.Text` classifies a text by what the parsers make of it.
- Condition contents, observed shape and other status fields that no property depends on: kept as one map with arbitrary contents.
- JSON and metrics parsing of Trino replies, and upper-casing and trimming of query states: the model starts from states and optional times.
- Requeue intervals and backoff delays, including the floating-point delay of the retry transport: the model says whether something is retried, not when.
- Node-pool builders, Helm values, KEDA and HPA objects: their calls succeed, report absence or fail.
- Warning texts, and the update checks that only warn: they never decide acceptance.
- The validators of runtime and catalog on which the proved properties do not depend: one boolean that may be false.
- URL rewriting for Druid, DuckDB and Snowflake, and the formatted null probability of Faker: given as values.
- The limit of five diagnosed pods and the wording of diagnostics: the model states category and number of lines.
- SHA-256 and its truncation: claims are about the hashed bytes.
- Case mapping beyond ASCII letters: object names and keys of the API are ASCII.
- Retryable errors of the transport are told apart by a flag instead of by their message.
- Deletion of guardrail objects when the last runtime goes: only the computed limits are modelled.
- Catalog discovery, the first step of the pipeline: it never stops a pass, and no later property depends on it.
- Best-effort scaling of node-pool minimums on suspend and resume: its failure is only logged.
- What applying the Trino resources and checking readiness do inside: each is one call that succeeds or not.
- KEDA and a native HPA at once: the admission webhook rules it out (xtrinode/api/v1/xtrinode_webhook.go:839-845), the model lets the HPA floor decide.
- Values of connector fields other than those in the rows above: only their keys and Secret placeholders are stated.
- Guarantees.SuspendedIsEarned: says the Deployments were set to zero or absent when visited, not that nobody scaled them up afterwards.
- Guarantees.FinalizerRemovalIsEarned: for policy Delete only the attempt to delete the pool is claimed, because the code tolerates its failure.
- Guarantees.AutoSuspendIsEarned: the wake window and threshold are those of the object last fetched, which may be stale, as in the code.
- Operator.Reconcile: does not promise that a pass makes progress through setbacks, because the code gives up and is run again.
- Finalizer.RetainNodePool: promises that both releases reported success; what that means for the stored lists is `Guarantees.PoolIsReleased`.
- Resume.ReconcileResume: does not promise that no wake override is left, because the code does not; it states exactly when one is, stored and in memory.
- Catalog.GeneratedKeysAreReserved: connector fields are combined as values, not by writing into a map key by key.
- Guardrails.ShareCoversRoundedIff: reads percentages exactly instead of through floating point, and sums of quantities do not overflow.
