# A Dafny model of k8s-drain-surge

k8s-drain-surge keeps single-replica Deployments and Argo Rollouts available while a node drains
(drain-surge) or while a PodDisruptionBudget blocks a restart (restart-surge). Two state machines
share one workload, eight annotations on it and possibly one HPA; everything durable is
`spec.replicas`, those annotations and the HPA's `minReplicas`. This project models both machines,
the merge patch they write with and the loops around them, and proves what holds over whole runs in
which writes get lost, reads are old, replicas are reset from outside and the controller crashes.

`dafny verify dfyconfig.toml` verifies everything.

## Layers

- `Base`, `Decimal`, `Annotations`: Go's integers, decimal text, the owned keys and their decoding.
- `MergePatch`: RFC 7396 merge patch on JSON documents and the controller's patch document.
- `Surge`, `Inputs`, `RestartDetect`: the decoded workload `Obj`, the `World` of one workload and its
  HPA, writes, and the fates a write can meet: fine, landed but reported as failed, or lost. A crash
  is the loss of all remaining writes.
- `DrainMachine`, `RestartMachine`: for each handler the `Plan` (writes in order, then a result) that
  follows from the object it read and everything else it read. Clock, pods, budgets and HPAs are inputs.
- `Client`, `Reconcilers`: the handlers as imperative code on an in-memory workload and an API server
  that holds a JSON document. Each is proved to carry out its plan. The in-memory copy and the
  server's document are independent, so this covers stale copies.
- `Joint`: the combined transition system. Atomic runs execute one plan at a time on the current
  state. Stale runs let any single write of a plan decided on any earlier state land, with each HPA
  read from any earlier state as well.
- `Outcomes`, `RestartOutcomes`: what one reconcile, abort or scan stores and returns in every state and
  under all fates of its writes, on the fields and without the machines' own predicates.
- `Pacing`: what reconciles ask for keeps an operation going until it ends.
- `NoLeak`, `HpaBaseline`, `Ownership`, `Lifetime`, `Cycle`, `RestartProperties`: the theorems about
  one workload. `Witnesses`: runs that reach the states where documented behaviour fails.
- `EndToEnd`: the handlers of `Reconcilers`, called on copies of any age, extend the runs of `Joint`.
- `Scaler`, `Coverage`: searches over pods, budgets and HPAs, and what they mean for a start.
- `Store`: all workloads and all HPAs of a cluster. A job on one workload reads the HPAs as they are,
  finds its own by first match and writes to whichever HPA it names, so jobs can meet on an HPA.
- `Order`, `SharedHpa`: when the traversal order of a loop over workloads matters.
- `ClusterRuns`: runs of the whole cluster, and their projections to runs of one workload.
- `Aborts`, `Cluster`: node aborts and orphan scans over many workloads; the controller's entry points.

## Where code and documentation differ

The model follows the code. Each difference has a lemma that says exactly when the documented
behaviour holds, and a run or an input at which it does not.

- `internal/controller/state.go:31-34` calls the two operations mutually exclusive. They are in a run
  exactly if no drain reconcile finds a restart-surge on record, passes its checks and lands its first
  write (`Ownership.ExclusiveRuns`); a restart-surge in draining or done, back at one replica, is no
  obstacle (`Witnesses.OperationsMeet`). Both become surged exactly if such a drain starts while the
  restart-surge is surged (`Ownership.OverlapFreeRuns`), which takes one replica and, with an HPA, a
  minimum below 2. Without an HPA that means an external reset of replicas
  (`Ownership.MutualExclusion`, `Witnesses.ResetLetsThemOverlap`); with one, a lost surge patch or a
  restore whose save was lost bring it about as well (`Witnesses.LostPatchLetsThemOverlap`,
  `Witnesses.LostSaveLetsThemOverlap`).
- `internal/controller/rollout_controller.go:101-105` says a restart-surge preserves the keys a drain
  relies on. It erases them exactly when it is aborted, as overdue or by the orphan scan
  (`Ownership.BookkeepingSurvives`, `Ownership.BookkeepingOverDrain`, `Lifetime.RestartAbortEndsDrain`,
  `Lifetime.RestartAbortStrandsReady`); runs without any failure or outside change reach both
  (`Witnesses.OperationsMeet`, `Witnesses.ReadyIsStranded`, `Witnesses.ScanErases`).
- The same lines say that after a yield the drain re-applies the surge. Without an HPA it does exactly
  if it has not come to `ready` yet (`Ownership.DrainResurges`, `Witnesses.YieldStrandsReady`).
- The project's `README.md` says external resets mid-surge are re-applied. Without an HPA, in both
  machines, that ends with `ready` (`Ownership.ReappliesBeforeReady`, `Ownership.RestartReappliesBeforeReady`,
  `Witnesses.ReadyStaysReset`, `Witnesses.RestartReadyStaysReset`).
- The project's `README.md` says a workload without the opt-in annotation is never touched. That holds
  exactly of workloads without an operation on record (`Ownership.UntouchedWithoutOptIn`,
  `Ownership.WrittenWithoutOptIn`, `Witnesses.OptedOutGoesOn`).
- The project's `README.md` says operation time is bounded. A very large timeout wraps around and may
  abort at once, and a done restart-surge waits for a drain (`Lifetime.TimeoutIsOneComparison`,
  `Lifetime.AbortsAtOnce`, `Witnesses.HugeTimeoutAborts`, `Lifetime.LateRestartTick`,
  `Witnesses.DoneIsParked`).
- An abort whose HPA restore fails still clears the record
  (`HpaBaseline.AbortConservesUnlessSwallowed`, `Witnesses.RestoreIsSwallowed`).
- `workloadKey` omits the kind, so a node abort can miss a Rollout that the orphan scan finds
  (`Aborts.ScanEqualsNodeAborts`, `Aborts.ShadowedIsMissed`).
- `internal/controller/node_controller.go:97-113` reconciles the collected workloads in the random order
  of a Go map, as if they were independent. They are exactly if no HPA is on record at, or found for,
  two of them (`SharedHpa.OrderFreeIffDisjoint`, `SharedHpa.OrderMatters`). That is so in every run in which no
  HPA is pointed at another workload (`ClusterRuns.OrderNeverMatters`).

## Model

| member | source | states |
|---|---|---|
| NoLeak.NoLeakedSurge | internal/controller/node_controller.go:115-411 | Without an HPA, from one replica and no owned annotations, every run of both machines, yields, aborts, both orphan scans and external resets to 1, with every write decided on any earlier state, keeps replicas in {1, 2}; a second replica has original-replicas 1 on record and an owner in scaled-up or ready; with no state on record replicas is 1 |
| NoLeak.NoLeakedSurgeAtomically | internal/controller/rollout_controller.go:71-434 | The same of every run whose handlers read the current state one at a time and whose writes may fail or be cut off by a crash |
| Joint.AtomicRunsAreStale | internal/controller/workload.go:45-63 | Every state of an atomic run, with any failures and crashes, is the end of a stale run from the same start, so what holds of all stale runs holds of all atomic ones |
| NoLeak.StaysSound | internal/controller/workload.go:45-63 | The inductive form over the whole history: a write is a function of the snapshot alone, so one decided on any sound earlier state makes a sound state |
| NoLeak.PlanKeepsSound | internal/controller/rollout_controller.go:71-434 | Every write that either machine, either abort or either orphan scan decides on a sound workload makes a sound workload |
| HpaBaseline.BaselineConserved | internal/controller/node_controller.go:207-241 | With handlers one at a time, a crash or failed write anywhere and no swallowed restore, minReplicas stands at the baseline (what it was, unset counting as 1) or, from below, at 2; then the HPA name and the baseline are on record and a machine is in scaled-up or ready; whatever is on record is that name and that baseline |
| HpaBaseline.PlanKeeps | internal/controller/node_controller.go:328-347 | Every prefix of the writes of every handler keeps the baseline, so a crash between any two of them does |
| HpaBaseline.ExecuteKeeps | internal/controller/rollout_controller.go:341-357 | Whatever mix of landed, unheard and lost writes a handler meets, the baseline is kept as long as no lost restore is followed by a landed write |
| HpaBaseline.AbortConservesUnlessSwallowed | internal/controller/node_controller.go:394-407 | Both aborts clear the record even if the restore failed: an abort conserves the baseline if and only if the HPA is not surged, or the restore lands, or the clearing write does not |
| HpaBaseline.BaselineNeverPoisoned | internal/controller/scaler.go:144-157 | With workload and HPA reads independently and arbitrarily old, hpa-original-min-replicas only ever holds the pre-surge minReplicas, or 1 where that was unset, every restore writes exactly it, and every surge goes to 2 from below |
| HpaBaseline.StaysUnpoisoned | internal/controller/rollout_controller.go:201-223 | The inductive form over the whole history of a stale run |
| Ownership.RefinesSurgeMachine | internal/controller/state.go:13-20 | Both state annotations follow one abstract machine (stay, one step on, or back to idle) in every run, and pending and unknown states are never written |
| Ownership.SavedMoves | internal/controller/node_controller.go:147-175 | What any saved write can do to either operation: who may start it and under which conditions (opted in, one replica, stable, PDB found), who may advance it and on what evidence, and that drain node and both start times stay put |
| Ownership.DrainIsOwned | internal/controller/node_controller.go:151-156 | While drain-state is set, drain-node and drain-start never change, the state only moves forward, and only the recorded node's reconcile moves it |
| Ownership.DrainEndsClean | internal/controller/node_controller.go:376-411 | A drain that ends leaves none of the eight owned annotations |
| Ownership.ScaleDownIsJustified | internal/controller/node_controller.go:301-347 | A drain enters draining only when its node has no live matching pod, after a reconcile of the same operation that saw a Ready, not terminating pod on another node |
| Ownership.RestartScaleDownIsJustified | internal/controller/rollout_controller.go:288-360 | A restart-surge enters draining only once Argo is through, after a reconcile of the same operation that counted two Ready pods |
| Ownership.UntouchedWithoutOptIn | internal/controller/node_controller.go:458-460 | While no reconcile reads the opt-in annotation as true, the controller changes nothing about a workload without owned annotations |
| Ownership.WrittenWithoutOptIn | internal/controller/node_controller.go:147-156 | A workload can be written without the opt-in annotation if and only if an operation is on record |
| Ownership.ReappliesBeforeReady | internal/controller/node_controller.go:284-299 | After an external reset the drain re-applies original plus one if and only if it is in pending or scaled-up |
| Ownership.RestartReappliesBeforeReady | internal/controller/rollout_controller.go:242-361 | A restart-surge re-applies original plus one after an external reset if and only if it is in pending or scaled-up and no drain is in progress |
| Ownership.MutualExclusion | internal/controller/state.go:31-36 | Without an HPA and outside replica changes, the two operations never hold a surge at once, even when every write was decided on an arbitrarily old state: drain-state and restart-surge-state are never both in scaled-up or ready |
| Ownership.MutualExclusionAtomically | internal/controller/rollout_controller.go:106-112 | The same of runs whose handlers read the current state, with any failures and crashes |
| Ownership.ExclusiveRuns | internal/controller/state.go:31-34 | A run, with any failures, HPAs and outside changes, never has both operations on record if and only if no drain reconcile in it finds a restart-surge and no drain on record, passes shouldProcess, the budget and the HPA check, and lands its first write |
| Ownership.BothOpenStep | internal/controller/node_controller.go:177-252 | The same of one event from any well-formed state |
| Ownership.BothOpenBegins | internal/controller/node_controller.go:147-165 | The same of one write: it puts both operations on record if and only if it is a drain reconcile's, on a workload that has a restart-surge and no drain on record |
| Ownership.OverlapBegins | internal/controller/node_controller.go:462-465 | A write makes both operations surged if and only if it starts a drain while a restart-surge is surged |
| Ownership.OverlapFreeRuns | internal/controller/node_controller.go:177-252 | A run, with any failures, HPAs and outside changes, never has both operations surged if and only if no drain reconcile in it finds a surged restart-surge and no drain on record, passes its checks (one replica, an HPA minimum below 2) and lands its first write |
| Witnesses.ResetLetsThemOverlap | internal/controller/rollout_controller.go:278-285 | For every grace period that is a positive time.Duration, a run with one external reset in which both operations end up in scaled-up |
| Witnesses.LostPatchLetsThemOverlap | internal/controller/rollout_controller.go:214-227 | The same without a reset: the HPA patch of a restart-surge is lost, and a successful drain reconcile starts beside it |
| Witnesses.LostSaveLetsThemOverlap | internal/controller/rollout_controller.go:341-357 | The same when the restore of the HPA lands and the save that should follow is lost |
| Witnesses.ScanErases | internal/controller/rollout_controller.go:463-479 | A run of five successful handlers with nothing overdue: the restart-surge orphan scan erases the original of a drain in scaled-up and takes its replica |
| Witnesses.YieldStrandsReady | internal/controller/rollout_controller.go:414-434 | A run in which a timely restart-surge yields to a drain in ready, which stays at one replica with the old pod live |
| Witnesses.ReadyStaysReset | internal/controller/node_controller.go:319-325 | A run in which a drain in ready leaves an external reset to one replica in place |
| Witnesses.RestartReadyStaysReset | internal/controller/rollout_controller.go:322-339 | The same for a restart-surge in ready |
| Witnesses.OptedOutGoesOn | internal/controller/node_controller.go:280-317 | A run in which a drain advances after its workload has opted out |
| Witnesses.RestoreIsSwallowed | internal/controller/node_controller.go:394-407 | A run in which an abort with a lost restore ends with no owned annotation and the HPA still at 2 |
| Witnesses.HugeTimeoutAborts | internal/controller/node_controller.go:131-136 | At a timeout of 4e18 nanoseconds every operation is overdue the moment it starts |
| Witnesses.OperationsMeet | internal/controller/rollout_controller.go:84-112 | A run of five successful reconciles and no outside change: a restart-surge reaches draining, a drain starts beside it, and the restart-surge, overdue, erases the drain's original replica count |
| Witnesses.ReadyIsStranded | internal/controller/rollout_controller.go:84-99 | The same with the drain already in ready: it is left there at one replica with no original on record |
| Witnesses.DoneIsParked | internal/controller/rollout_controller.go:106-112 | A run in which a done restart-surge survives a reconcile past its timeout because a drain is in progress |
| Ownership.YieldKeepsDrain | internal/controller/rollout_controller.go:414-434 | A yield ends the restart-surge, puts replicas back to the original without an HPA, and leaves all six drain and shared annotations alone |
| Ownership.AtMostOneYield | internal/controller/rollout_controller.go:106-112 | A drain operation sees at most one yield |
| Ownership.DrainResurges | internal/controller/node_controller.go:284-298 | After a yield without an HPA, the next timely drain reconcile brings replicas to original plus one if and only if the drain is in pending or scaled-up, and in scaled-up changes nothing else |
| Ownership.BookkeepingSurvives | internal/controller/rollout_controller.go:84-112 | A write of any handler or scan that leaves a drain in progress preserves original-replicas and the HPA record if and only if it is not an abort of a restart-surge: overdue, or found by the orphan scan with Argo through |
| Ownership.BookkeepingOverDrain | internal/controller/rollout_controller.go:463-479 | Over a whole drain, with any failures: the shared annotations are what they were if and only if no such abort has landed, and once erased the original never comes back |
| Lifetime.TimeoutIsOneComparison | internal/controller/node_controller.go:131-143 | The two timeout comparisons mean elapsed beyond the timeout if and only if three timeouts do not wrap around an int64 to less than one |
| Lifetime.TimedOutBeyondTheLesser | internal/controller/node_controller.go:131-143 | An operation is timed out exactly beyond the lesser of one timeout and three, three being an int64 product that may wrap around |
| Lifetime.AbortsAtOnce | internal/controller/node_controller.go:131-136 | Every operation is overdue the moment it starts if and only if three timeouts wrap around to less than zero |
| Lifetime.DrainEndsInTime | internal/controller/node_controller.go:128-145 | With successful reconciles at most a requeue interval apart, no event later than readiness timeout plus requeue interval after its start still finds the drain |
| Lifetime.DrainIsClearedInTime | internal/controller/node_controller.go:128-145 | In a run whose successful reconciles of the node follow at most a requeue interval apart until after the readiness timeout, some state reached within timeout plus requeue interval of the start has no owned annotation |
| Lifetime.DrainTickInTime | internal/controller/node_controller.go:169-170 | A successful reconcile of the recorded node that leaves a drain in place came before the timeout, and none leaves a done drain in place |
| Lifetime.DrainNotCutShort | internal/controller/node_controller.go:198 | A drain is never timed out earlier than the readiness timeout less one second, the precision of its start annotation |
| Lifetime.RestartEndsInTime | internal/controller/rollout_controller.go:85-99 | The same bound for a restart-surge, except while it is done and a drain is in progress |
| Lifetime.RestartIsClearedInTime | internal/controller/rollout_controller.go:85-99 | The same for a restart-surge: in that time it has ended, with no owned annotation left unless a drain is in progress, or it is found done and waiting for a drain |
| Lifetime.LateRestartTick | internal/controller/rollout_controller.go:106-112 | A late successful reconcile leaves a restart-surge in place if and only if it is done and a drain is in progress |
| Lifetime.RestartNotCutShort | internal/controller/rollout_controller.go:188 | A restart-surge is never timed out earlier than its timeout less one second |
| Lifetime.RestartAbortEndsDrain | internal/controller/state.go:58-64 | An abort of a restart-surge, by timeout or orphan scan, erases a drain's original replica count, and a drain in scaled-up or draining is then aborted by its own next reconcile, back at the original |
| Lifetime.RestartAbortStrandsReady | internal/controller/node_controller.go:319-347 | What the same abort does to a drain in ready: replicas back at the original at once, the record gone, no re-application, and an abort by its own reconcile exactly when no live pod is seen on the node or it is overdue |
| Cycle.DrainRoundTrip | internal/controller/node_controller.go:177-388 | In a cooperative environment a drain takes exactly five successful reconciles through scaled-up, ready, draining and done and restores workload and HPA minimum; with an HPA, spec.replicas may change arbitrarily between any two of them and is left as the HPA controller last set it |
| Cycle.RestartRoundTrip | internal/controller/rollout_controller.go:133-393 | The same round trip for a restart-surge, with the same freedom of the HPA controller |
| RestartProperties.ScansAreDual | internal/controller/restart_detect.go:37-69 | The scans of isRestartStuck and restartCompletedByArgo answer oppositely on all pods, and the first answers whether an old pod exists |
| RestartProperties.StuckIffIncompleteAndLate | internal/controller/restart_detect.go:19-70 | For a positive grace period a restart is stuck if and only if Argo has not completed it and restartAt plus grace has passed |
| RestartProperties.StuckIsMonotone | internal/controller/restart_detect.go:29-35 | With the same pods a stuck restart stays stuck |
| RestartProperties.FastPathAgrees | internal/controller/rollout_controller.go:326-339 | With readable pods the machine scales down in ready if and only if restartCompletedByArgo holds; without them, if and only if the status has caught up |
| RestartProperties.RejectedMeansNothingToDo | internal/controller/rollout_controller.go:498-515 | A Rollout that the event filter rejects gets no write from the full reconcile, whatever that reads, and no requeue but the retry of an error; the error occurs if and only if it is opted in at one replica with no drain and its pods cannot be listed |
| RestartProperties.FilterIsExact | internal/controller/rollout_controller.go:498-515 | On an idle workload at one replica the filter accepts a Rollout if and only if some readable pods, budget, HPA and clock make the reconcile write or requeue |
| MergePatch.PatchIsExact | internal/controller/workload.go:42-63 | On every server document the merge patch (section 2 of RFC 7396) sets replicas and the owned annotations exactly, keeps foreign annotations that the snapshot lacks, and changes nothing else |
| MergePatch.PatchMakesView | internal/controller/workload.go:129-131 | After a patch the machines read from the server what they had in memory, whatever the server held |
| MergePatch.FreshPatchKeepsForeign | internal/controller/state.go:41-53 | A snapshot that knows every foreign annotation preserves them all |
| MergePatch.BuildPatch | internal/controller/workload.go:45-63 | The two loops build the document that sets what is in the map and nulls the owned keys that are not |
| Annotations.StateRoundTrip | internal/controller/state.go:13-20 | Every state value written is read back as that state |
| Annotations.StatesRead | internal/controller/state.go:13-20 | Which text makes which state; a missing annotation is idle and any other text unknown |
| Annotations.ViewRead | internal/controller/state.go:92-124 | What both machines read, annotation by annotation, including missing ones; replicas default to 1 |
| Annotations.OriginalReplicasRoundTrip | internal/controller/state.go:114-124 | Every replica count written with strconv.Itoa is read back by getOriginalReplicas |
| Decimal.AtoiItoa | internal/controller/node_controller.go:196 | Every int64 survives decimal encoding and decoding |
| Decimal.AtoiRefuses | internal/controller/state.go:119-122 | Empty text, a sign alone and any other character are refused |
| Decimal.AtoiOutOfRange | internal/controller/state.go:119-122 | Numbers that do not fit an int64 are refused |
| Base.TruncateToSecond | internal/controller/node_controller.go:198 | The start annotation is at most the instant and less than a second behind it |
| Base.WrapIsCongruent | internal/controller/state.go:123 | Both integer conversions keep the number up to a multiple of the width |
| Base.ClampIsNearest | internal/controller/node_controller.go:131 | A saturated duration is the nearest one in range |
| Client.Workload.SetReplicas | internal/controller/workload.go:90-92 | Replicas become the given number and nothing else the machines read changes |
| Client.Workload.ClearDrainAnnotations | internal/controller/state.go:74-78 | Exactly the eight owned keys are deleted |
| Client.Workload.ClearRestartSurgeAnnotations | internal/controller/state.go:80-84 | Exactly the restart-surge keys and the shared bookkeeping are deleted |
| Client.Workload.ClearRestartSurgeExclusiveAnnotations | internal/controller/state.go:86-90 | Exactly the two restart-surge markers are deleted |
| Client.Api.PatchWorkload | internal/controller/workload.go:175-177 | A landed patch makes the stored workload the in-memory one, and a lost one changes nothing |
| Client.Api.PatchHpa | internal/controller/scaler.go:129-140 | A landed patch changes the minimum of the named HPA, if it is there, and nothing else |
| Reconcilers.NodeReconciler.ReconcileWorkload | internal/controller/node_controller.go:115-175 | Under any fates of its writes and any server state, the drain reconcile has the effect and the result of the drain machine on the snapshot it was given |
| Reconcilers.NodeReconciler.HandlePending | internal/controller/node_controller.go:177-252 | As its plan in the drain machine: skip, defer at the surge target, record and then patch the HPA, or scale up |
| Reconcilers.NodeReconciler.HandleScaleUp | internal/controller/node_controller.go:256-278 | As its plan in the drain machine |
| Reconcilers.NodeReconciler.HandleWaitReady | internal/controller/node_controller.go:280-317 | As its plan in the drain machine |
| Reconcilers.NodeReconciler.HandleWaitEviction | internal/controller/node_controller.go:319-355 | As its plan in the drain machine, a failed restore ending the handler |
| Reconcilers.NodeReconciler.HandleScaleDown | internal/controller/node_controller.go:357-374 | As its plan in the drain machine |
| Reconcilers.NodeReconciler.HandleCleanup | internal/controller/node_controller.go:376-388 | As its plan in the drain machine |
| Reconcilers.NodeReconciler.AbortWorkload | internal/controller/node_controller.go:390-411 | As the abort plan, a failed restore being swallowed |
| Reconcilers.NodeReconciler.ShouldProcess | internal/controller/node_controller.go:454-496 | All six conditions for taking a workload up, and never without the opt-in annotation being the text true; what they are on the fields is stated by Outcomes.DrainStartsIff |
| Reconcilers.RolloutReconciler.ReconcileWorkload | internal/controller/rollout_controller.go:71-131 | Under any fates and any server state, the restart reconcile has the effect and the result of the restart machine |
| Reconcilers.RolloutReconciler.HandleRestartPending | internal/controller/rollout_controller.go:133-237 | As its plan in the restart machine |
| Reconcilers.RolloutReconciler.HandleRestartScaleUp | internal/controller/rollout_controller.go:242-263 | As its plan in the restart machine |
| Reconcilers.RolloutReconciler.HandleRestartWaitReady | internal/controller/rollout_controller.go:268-316 | As its plan in the restart machine |
| Reconcilers.RolloutReconciler.HandleRestartWaitForArgo | internal/controller/rollout_controller.go:322-361 | As its plan in the restart machine |
| Reconcilers.RolloutReconciler.HandleRestartScaleDown | internal/controller/rollout_controller.go:363-380 | As its plan in the restart machine |
| Reconcilers.RolloutReconciler.HandleRestartCleanup | internal/controller/rollout_controller.go:382-393 | As its plan in the restart machine |
| Reconcilers.RolloutReconciler.AbortRestartSurge | internal/controller/rollout_controller.go:395-412 | As the abort plan, a failed restore being swallowed |
| Reconcilers.RolloutReconciler.YieldToDrain | internal/controller/rollout_controller.go:418-434 | As the yield plan |
| Reconcilers.RestoreMinReplicas | internal/controller/node_controller.go:500-513 | Nothing without an HPA on record, an error without a readable minimum, otherwise the recorded minimum as an int32 |
| Reconcilers.CheckTimeout | internal/controller/node_controller.go:129-145 | Late if and only if the start is readable and one of the two comparisons holds, in saturating and wrapping int64 |
| Outcomes.DrainStartsIff | internal/controller/node_controller.go:177-252 | Exactly when an event starts a drain, on the fields: opted in at one replica, Rollout phase Healthy, or Deployment available or observed and not Recreate, no other node on record, both HPA reads successful with room and a minimum below 2, a budget found, first write landed |
| Outcomes.IdleOutcome | internal/controller/node_controller.go:454-496 | What a drain reconcile of a workload without a drain returns and stores, check by check and under all fates of its writes: skip, error, 250 ms deferral, scale-up, or record and then surge the HPA from its minReplicas or 1 |
| Outcomes.DrainLateOrElsewhere | internal/controller/node_controller.go:128-156 | A late drain is aborted by any node's reconcile; one in time is left alone by other nodes |
| Outcomes.PendingOutcome | internal/controller/node_controller.go:256-278 | What is stored and returned in pending, under all fates |
| Outcomes.ScaledUpOutcome | internal/controller/node_controller.go:280-317 | In scaled-up: re-applied, failed on unreadable pods, on to ready exactly if a Ready pod that is not terminating is on another node, and otherwise back after the requeue interval |
| Outcomes.ReadyOutcome | internal/controller/node_controller.go:319-355 | In ready: waits exactly while a pod that is not terminating, succeeded or failed is on the node; then a restore that must succeed comes before the write of draining |
| Outcomes.LaterOutcome | internal/controller/node_controller.go:357-388 | In draining, done and unknown states; replicas go back to the original only without an HPA on record |
| Outcomes.NodeGoneOutcome | internal/controller/node_controller.go:415-427 | A workload is aborted exactly if it has the node on record |
| Outcomes.OrphanScanOutcome | internal/controller/node_controller.go:549-571 | The scan leaves workloads without a node, or with a tainted one, as they are, and aborts the others |
| Outcomes.RestartScanOutcome | internal/controller/rollout_controller.go:463-479 | The restart-surge scan aborts exactly the operations whose restartAt is unset or equals restartedAt |
| RestartOutcomes.RestartStartsIff | internal/controller/rollout_controller.go:133-237 | Exactly when an event starts a restart-surge, on the fields: no drain, opted in at one replica, a pending restart older than the grace period with an old pod that is not terminating, phase Healthy, or Progressing with the restart message, a budget, an HPA with maxReplicas at least 2 and a minimum below 2, first write landed |
| RestartOutcomes.RestartIdleOutcome | internal/controller/rollout_controller.go:133-237 | What such a reconcile returns and stores, check by check and under all fates |
| RestartOutcomes.LateOrYieldOutcome | internal/controller/rollout_controller.go:84-112 | A late restart-surge is aborted, drain or no drain; one in time yields to a drain, going back to the original only without an HPA on record |
| RestartOutcomes.RestartPendingOutcome | internal/controller/rollout_controller.go:242-263 | What is stored and returned in pending |
| RestartOutcomes.RestartScaledUpOutcome | internal/controller/rollout_controller.go:268-316 | In scaled-up: on to ready exactly if two pods are Ready and not terminating |
| RestartOutcomes.RestartReadyOutcome | internal/controller/rollout_controller.go:322-361 | In ready: waits exactly while the status lags and an old pod that is not terminating is left |
| RestartOutcomes.RestartLaterOutcome | internal/controller/rollout_controller.go:363-393 | In draining, done and unknown states |
| RestartOutcomes.StuckOnFields | internal/controller/restart_detect.go:19-47 | Stuck exactly if restartAt is set and differs from restartedAt, grace has passed, and a pod that is not terminating predates it |
| Pacing.DrainComesBack | internal/controller/node_controller.go:115-175 | A drain reconcile that leaves a drain of its node on record fails or asks to be back after exactly the requeue interval, under all fates |
| Pacing.RestartComesBack | internal/controller/rollout_controller.go:71-131 | The same of a restart-surge reconcile without a drain |
| Pacing.LoopComesBack | internal/controller/node_controller.go:97-112 | A node reconcile over any workloads in any order that leaves a drain of its node on record at one that did not fail asks to be back after a positive time of at most the requeue interval |
| Pacing.DrainEndsByItsTimers | internal/controller/node_controller.go:128-145 | A drain whose reconciles follow each other only by the times that they ask for, until one asks for none, is cleared within readiness timeout plus requeue interval; that they keep coming is proved, not assumed |
| Pacing.RestartEndsByItsTimers | internal/controller/rollout_controller.go:85-99 | The same for a restart-surge while no drain is on record |
| EndToEnd.CarriedOutExtends | internal/controller/workload.go:42-63 | A plan decided on any earlier state and carried out now, under any fates, extends the stale run of the server's states, so without an HPA the surge it may leave is accounted for |
| EndToEnd.DrainOnCopy | internal/controller/node_controller.go:115-175 | The drain reconcile itself, given the workload as it was in any earlier state of the server: the history stays a stale run and no surge leaks |
| EndToEnd.RestartOnCopy | internal/controller/rollout_controller.go:71-131 | The same of the restart-surge reconcile |
| Scaler.AcceptedCovers | internal/controller/scaler.go:78-85 | Soundness: every label set that satisfies the workload's selector satisfies the selector of an accepted budget |
| Scaler.RequirementLaws | internal/controller/scaler.go:78-81 | What each operator of a requirement selects, by the others |
| Scaler.SelectorLaws | internal/controller/workload.go:65-76 | A selector selects what satisfies all its requirements, and Nothing selects nothing |
| Coverage.StartsOnlyCovered | internal/controller/node_controller.go:181-189 | In every run an operation starts only if the budgets could be listed and one of them selects every pod that the workload's selector selects |
| Scaler.CoveringIsNotEnough | internal/controller/scaler.go:90-91 | A wider budget, and one that writes app=a as app in (a), both cover the workload and are not accepted |
| Scaler.RequirementsMatch | internal/controller/scaler.go:92-109 | True if and only if the budget has requirements and each of them, with the same key, operator and list of values, is among the workload's |
| Scaler.FindMatchingPDB | internal/controller/scaler.go:61-88 | True if and only if some budget is accepted, and then one covers all the workload's pods; never for a nil selector |
| Scaler.FindMatchingHPA | internal/controller/scaler.go:113-127 | The first HPA of the namespace that targets the workload by name and kind, and none if and only if there is none |
| Scaler.FindReadyPodOnOtherNode | internal/controller/scaler.go:161-173 | Whether a Ready, not terminating pod is on another node |
| Scaler.FindPodOnNode | internal/controller/scaler.go:176-188 | Whether a live pod is on the node |
| Scaler.CountReady | internal/controller/rollout_controller.go:293-302 | The number of Ready pods that are not terminating |
| Scaler.TwoReady | internal/controller/rollout_controller.go:304 | The count reaches two if and only if two different pods are Ready and not terminating |
| Store.DoIsLocal | internal/controller/node_controller.go:98-99 | A reconcile, abort or scan of one workload reads and writes nothing but that workload and the HPAs that it has on record or that the reconcile finds: on any two stores that agree there it returns the same and leaves the same |
| Store.JobReads | internal/controller/scaler.go:113-127 | A reconcile of the loop sees the first HPA of its namespace that names the workload and its kind, or an error where the read fails, and everything else as given |
| Store.PatchMinIs | internal/controller/scaler.go:129-140 | A patch sets the minimum of the HPA of that namespace and name and nothing else |
| Store.DoProjects | internal/controller/scaler.go:129-140 | On a workload that has no HPA but its own on record, a job on the store has the outcome of the single-workload machine |
| Order.InOrderIs | internal/controller/node_controller.go:97-113 | If no HPA is linked to two of the workloads, then in any order each workload and HPA ends as its own job on the original store leaves it, nothing else changes, no failure affects another, and the result is the least positive requeue among the successes |
| Order.OrderDoesNotMatter | internal/controller/node_controller.go:97-113 | Then any two traversal orders give the same workloads, HPAs, failures and requeue time |
| Order.LoopProjects | internal/controller/node_controller.go:97-107 | Then each workload with no HPA but its own on record ends as in the single-workload model, so the theorems about its runs apply |
| SharedHpa.OrderFreeIffDisjoint | internal/controller/node_controller.go:97-113 | Exact condition: with given links, all orders of all node reconciles agree in all states and under all reads and failures if and only if no HPA is on record at, or first match of, two of the collected workloads |
| SharedHpa.SharedHpaOrders | internal/controller/node_controller.go:219-228 | A workload in ready that is about to restore the HPA of an eligible idle one: reconciled first, the idle one surges afterwards; reconciled second, the idle one is deferred by 250 milliseconds; workloads, HPA and requeue time differ |
| SharedHpa.OrderMatters | internal/controller/node_controller.go:328-333 | The same at one input: two Rollouts and one HPA, with the HPA ending at 2 or at 1 |
| SharedHpa.SharedRecordOrders | internal/controller/node_controller.go:500-513 | Of two workloads in ready with the same HPA on record, the one reconciled last decides its minimum |
| ClusterRuns.StaysOwn | internal/controller/scaler.go:113-127 | In every run of the cluster (any handlers on any workloads, any failures, outside changes of replicas, scaleTargetRefs fixed) from a state with nothing on record, no workload ever has an HPA on record but its own first match |
| ClusterRuns.ProjectsToRun | internal/controller/node_controller.go:115-175 | In such a run every workload goes through a run of the single-workload model, made of the events that concern it, whatever the others do |
| ClusterRuns.ClusterNoLeak | internal/controller/node_controller.go:177-411 | In the cluster, a workload without an HPA never has a second replica that is not accounted for |
| ClusterRuns.ClusterBaseline | internal/controller/node_controller.go:207-241 | In the cluster, the minReplicas of each workload's HPA, unset counting as 1, is conserved as long as none of its own aborts swallows a restore |
| ClusterRuns.OrderNeverMatters | internal/controller/node_controller.go:97-113 | In every state of such a run no HPA is linked to two workloads and all orders of every loop agree |
| ClusterRuns.LoopExtends | internal/controller/node_controller.go:97-107 | A node reconcile or an orphan scan over any workloads in any order goes on with such a run |
| Cluster.Controller.Traverse | internal/controller/node_controller.go:97-112 | The loop, which picks workloads in an arbitrary order, visits each once and equals the loop over the order that it took |
| Cluster.Controller.ReconcileAll | internal/controller/node_controller.go:97-112 | The loop of node reconcile: each workload once on the store as it is, and a requeue within the interval if a drain of the node is left at one that did not fail |
| Cluster.Controller.RunJobs | internal/controller/node_controller.go:97-112 | The same for the controller's jobs, and each workload as if alone when no two share an HPA |
| Cluster.Controller.CollectWorkloads | internal/controller/node_controller.go:57-91 | The owners of the node's live pods, the first of each key, and beside them the workloads on record for the node |
| Cluster.FirstOwnerIsFirst | internal/controller/node_controller.go:57-78 | Of the live pods that resolve to workloads of one key the first one's workload counts |
| Cluster.Controller.Reconcile | internal/controller/node_controller.go:35-113 | A missing or untainted node has its workloads aborted, or nothing happens if a list fails; a tainted one has exactly the collected workloads reconciled, without those on record if a list fails, and asks to be back within the requeue interval if it leaves a drain; other read errors change nothing |
| Cluster.CheckTaints | internal/controller/node_controller.go:515-524 | Whether a taint key of the node is among the configured ones |
| Cluster.TaintedNodes | internal/controller/node_controller.go:532-541 | Exactly the names of nodes with a drain taint |
| Cluster.ScanByNodes | internal/controller/node_controller.go:532-571 | The scan on the node list: a workload without a node on record, or whose node is listed with a configured taint key, is unchanged; any other, if its writes succeed, ends at its original with none of the eight annotations |
| Cluster.Controller.FindWorkloadsWithDrainNode | internal/controller/node_controller.go:429-452 | An error if either list fails; otherwise exactly the workloads recorded for the non-empty node name, less the Rollouts that share namespace, name and node with a Deployment |
| Cluster.Controller.AbortWorkloadsForNode | internal/controller/node_controller.go:415-427 | Nothing and an error if a list fails; otherwise every workload found is aborted, whatever becomes of the others, and the result is an error if and only if one of the aborts failed |
| Cluster.Controller.RecoverOrphans | internal/controller/node_controller.go:526-575 | Exactly the workloads whose recorded node is missing or untainted are aborted; nothing if nodes or Rollouts cannot be listed, and only the Rollouts among them if Deployments cannot |
| Cluster.Controller.RecoverRestartOrphans | internal/controller/rollout_controller.go:455-483 | Exactly the Rollouts that are mid-operation without a pending restart are aborted, or nothing if they cannot be listed |
| Aborts.AbortsInOrder | internal/controller/node_controller.go:415-427 | In any order and whatever HPAs are shared, aborts leave the workloads in the same state and fail on the same ones |
| Aborts.AbortsRestoreHpas | internal/controller/node_controller.go:394-407 | If the writes succeed and no HPA is on record twice, every HPA on record at an aborted workload is back at the recorded minimum |
| Aborts.ScanAborts | internal/controller/node_controller.go:549-571 | A scan over all workloads is a loop of aborts over the orphans |
| Aborts.ScanLeavesNoOrphan | internal/controller/node_controller.go:549-571 | If the writes succeed, no orphan is left and every other workload is unchanged; which workloads are orphans is stated by Cluster.ScanByNodes |
| Aborts.ScanEqualsNodeAborts | internal/controller/state.go:126-129 | The scan does to the workloads what node aborts of all missing or untainted nodes do, in any orders, if and only if no orphaned Rollout is displaced by a Deployment of the same key; and then to the HPAs too if none is on record twice |
| Aborts.ShadowedIsMissed | internal/controller/node_controller.go:429-452 | A Rollout and a Deployment of one name, both orphans of one node, of which the node abort finds only the Deployment |
| Aborts.KeyDeterminesName | internal/controller/state.go:127-129 | Two workloads share a key if and only if they share namespace and name |
| Aborts.RestartScanLeavesNoOrphan | internal/controller/rollout_controller.go:465-479 | If the writes succeed, exactly the restart-surges whose restartAt is unset or equals restartedAt are ended: back at the original, without the shared bookkeeping even if a drain is in progress, whose state, node and start are kept |
| Aborts.ScanSparesPending | internal/controller/rollout_controller.go:471-475 | Under all fates the scan leaves every Rollout alone whose restartAt is set and differs from restartedAt, and so every Rollout that is stuck for some pods and time |

## Left out

- HPAs changed from outside: nobody but the controller edits HPAs during a run; an HPA pointed at another workload in the middle of an operation is covered by the results on loops, not by those on runs.
- Old reads in loops over workloads: there each job reads the HPAs as they are; old reads are covered in the single-workload runs.
- RFC 3339 text: a start annotation is a value that denotes an instant; only the truncation to seconds is modelled, not the text.
- Rendering of label requirements: requirements are compared as key, operator and list of values up to order, which is what their String method renders; operators that a LabelSelector cannot produce are not modelled.
- ResolveWorkloadFromPod: the owner of a pod is an input of node reconcile.
- Deployment conditions: whether NewReplicaSetAvailable is among them is an input.
- The HPA controller's own changes of spec.replicas: in HPA runs they are arbitrary external changes, so nothing is stated about replicas there.
- Deletion of a workload in the middle of a handler: the patch of a missing workload is a lost write.
- Configuration parsing: `internal/config/config.go` contributes only the inequalities that appear as hypotheses on timeouts, grace period and requeue interval.
- Watches, map functions, field indexes, leader election, logging and events: they do not change durable state.
