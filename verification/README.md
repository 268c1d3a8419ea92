# pvc-migrate: a verified model of its migration workflows

pvc-migrate moves the data of Kubernetes claims to new volumes. Each workflow keeps a
durable status record, acts on the cluster, checkpoints after every step, and may be
killed or fenced between any two steps. This project models the parts whose safety
rests on many functions together, and proves what they keep over every run.

`dafny verify dfyconfig.toml` checks everything.

| file | what it models |
|---|---|
| `Lifecycle.dfy` | phases, the recording of a transition, the two transition tables |
| `History.dfy` | the two decisions that read the capped phase history |
| `Checkpoints.dfy`, `PodRecord.dfy` | planned volumes, per-volume checkpoints, the pod validator |
| `PodMonitor.dfy` | the log of a pod migration's effects, and what makes a log safe |
| `PodInvariant.dfy` | the invariant that carries a run from one step to the next |
| `PodExecutor.dfy` | the pod migration executor, stage by stage, and its driver |
| `CapacityRun.dfy` | when a volume is copied again after its destination was full |
| `OfflineLog.dfy` | the log of an offline migration: saves, copies, cleanups, switches and restores |
| `OfflineRecords.dfy`, `OfflineTwins.dfy` | the offline migration in both scopes, side by side |
| `Storage.dfy`, `Recovery.dfy`, `Reclaim.dfy` | cleanup: which copy may go, and how |
| `SharedMounts.dfy` | temporary sharing of LVM-backed sources |
| `Handoff.dfy` | a reservation handed over to a copy |
| `Orphan.dfy` | recovery of storage whose record was lost |
| `Backoff.dfy` | the delay between copy attempts |

How failure is modelled. Every effect (a save, a call to the workload controller, the
switcher, the copier) may fail with nothing done. A crash, a lost lease or an ended
context is therefore the run in which all later effects fail, and the next command
starts from the durable record. A save may also commit and be reported as failed; the
record in memory is then put back while the durable one has moved on.

How a pod run is judged. The executor keeps a log of what an observer sees. `Safe`
replays that log through a small monitor and asks, event by event, whether the event
was acceptable. `PodExecutor.PodMigrationExecutor.Operate` shows that every sequence of
commands leaves a safe log; the lemmas of `PodMonitor.dfy` turn a safe log into
statements about positions in it. The offline executors keep a smaller log of the same
kind (`OfflineLog.dfy`).

How progress is judged. Every outcome that comes from outside is read through one place
that notes a failure in the ghost field `hitch`. Each contract says that a command which
does not succeed met such a failure or was declined, and on which records it declines:
with nothing failing outside, a run goes all the way (`PodExecutor.PodMigrationExecutor.Run`,
`PodExecutor.PodMigrationExecutor.Invoke`, `OfflineTwins.TwinExecutors.Invoke`). The storage
and orphan cleaners are judged the same way.

## Where the code does less than it says

Each of these has the condition under which the promise holds, proved in both
directions where it is about one decision, and a concrete case where it does not.

- The history keeps 256 entries. An abort that failed and was retried often enough no
  longer knows that it found the workload paused, and ends as Aborted with the workload
  left paused: `History.RetriesForgetTheOrigin`, `History.ForgottenAfterManyRetries`,
  and the named exception in `PodMonitor.TerminalMeansResumed`.
- A rollback retried as often no longer knows that it was requested after the workload had
  been resumed, and does not pause it again: `History.RollbackRetriesForgetTheOrigin`,
  `History.RollbackForgottenAfterManyRetries`, and the named exception in
  `PodMonitor.RestoreFollowsPause`.
- A capacity failure is meant to end all copying. The gate reads the recorded reason, so
  a later invocation copies again exactly when the record it loads does not carry it:
  `CapacityRun.GateIsExact`. Once the reason is durable only the invocation that recorded
  it can drop it, in two ways: its driver is cancelled while it has one more failure to
  record, or the save of the reason is reported as failed after it committed and the
  record before it is saved again: `PodMonitor.CapacityIsFinal`. Both happen in
  `CapacityRun.CancellationReopensTheGate` and `CapacityRun.TakingBackReopensTheGate`,
  runs from a planned record to the second copy.
- A policy can delete the only copy when the volume in use has already vanished:
  `Recovery.SurvivingCopy` gives the exact condition, `Recovery.OnlyCopyDeleted` the
  request prepared from a valid completed checkpoint and what is left after it.
- Finalizing twice needs recorded claim metadata that names no other session; labels are
  recorded as found: `Storage.RerunNeedsOwnerFreeMetadata`, with the case
  `Storage.RefusedAgain`.
- The dry run of a kept, never labelled volume can pass where execution refuses:
  `Storage.PreviewGap`, with the case `Storage.PreviewedAndRefused`.
- A cutover prepares the shared mounts without restoring first. It leaves a valid record
  exactly when no volume it has to enable was already recorded, which is so when every
  recorded volume is enabled: `SharedMounts.PreparedRecordIsValid` and the contract of
  `SharedMounts.SharedMountManager.Prepare`. A mount that an earlier cutover recorded and
  did not enable is recorded twice (`SharedMounts.CutoverTwice`). The restore later in the
  same invocation empties the record again; until then the validator with which every
  command starts refuses it.
- A recovery of orphaned storage that stops after the staged claim went and before its
  volume did can be planned again exactly when the session has a single source volume:
  `Orphan.InterruptedRecovery`, with the case `Orphan.RecoveryStopsWithTwoSources`.
- A one-nanosecond backoff does not saturate: `Backoff.DelayIsSaturatedProduct`.

## Model

| member | source | states |
|---|---|---|
| History.PhaseBefore | internal/app/workflow_history.go:10-32 | the two nested backward loops find the newest phase recorded before the newest entry of the target, failures and the target itself skipped |
| History.AbortOriginWasPaused | internal/app/pod_migration_abort_policy.go:32-48 | true exactly when the newest entry that is no abort attempt is one in which the workload was held |
| History.PodAbortNeedsResume | internal/app/pod_migration_abort_policy.go:10-30 | decides as the specification of the resume decision does, on every status |
| History.PodRollbackNeedsPause | internal/app/pod_migration_rollback_resources.go:15-28 | decides as the specification of the pause decision does, on every status |
| History.AbortDecision | internal/app/pod_migration_abort_policy.go:10-48 | over every legal run: the abort resumes the workload if and only if it was, or would now be, requested in Pausing, Paused, FinalSyncing or FinalSynced, with the origin still in the record; a stale resume phase does not mislead it |
| History.RollbackDecision | internal/app/pod_migration_rollback_resources.go:15-28 | over every legal run: the rollback pauses if and only if it was requested once the workload had been resumed, with the origin still in the history |
| History.RunTracks | internal/domain/workflow_lifecycle.go:12-50 | every legal run keeps what its status and capped history say about the phase an abort or rollback was requested from |
| History.RetriesForgetTheOrigin | internal/domain/workflow_registry.go:376-382 | with d entries since the held origin, the decision is still right after n failed retries if and only if d + 2n is at most 256 |
| History.ForgottenAfterManyRetries | internal/domain/workflow_registry.go:376-382 | a paused workload is resumed after 127 failed abort attempts and forgotten after 128 |
| History.RollbackRetriesForgetTheOrigin | internal/domain/workflow_registry.go:376-382 | with d entries since a Resuming or Completed origin, a rollback retried n times still pauses the workload if and only if d + 2n is at most 256 |
| History.RollbackForgottenAfterManyRetries | internal/domain/workflow_registry.go:376-382 | a rollback of a completed migration pauses the workload after 127 failed attempts and not after 128 |
| History.LastOtherOfSuffix | internal/domain/workflow_registry.go:376-382 | trimming old entries can lose the answer of a backward scan but never change it |
| Checkpoints.ValidateReservationVolumes | internal/app/reservation_executor_validation.go:120-164 | accepts exactly the plans with complete identities, positive capacities and distinct source and destination names, and indexes them by source |
| Checkpoints.CoverageIsExact | internal/app/namespaced_pod_migration_validation.go:136-182 | distinct known names, as many as planned, leave no planned volume out: counting is enough |
| PodRecord.ValidateCheckpoints | internal/app/namespaced_pod_migration_validation.go:136-182 | the loop accepts exactly the valid checkpoint lists |
| PodRecord.ValidRecordCoversThePlan | internal/app/namespaced_pod_migration_validation.go:136-182 | a valid record with checkpoints has exactly one, itself valid for the phase, for each planned volume |
| PodRecord.PlanOrderIsValid | internal/app/namespaced_pod_migration_validation.go:136-182 | checkpoints kept in plan order and each valid satisfy the validator |
| PodRecord.LookupFindsPlanPosition | internal/app/namespaced_pod_migration_validation.go:184-191 | looking a volume up by source name finds its plan position, so the executors' index maps are positions |
| PodMonitor.SafeAppend | internal/app/lifecycle.go:11-28 | an acceptable event extends a safe log to a safe log and moves the monitor by that event |
| PodMonitor.SavedRecordsAreValid | internal/app/namespaced_pod_migration_validation.go:136-182 | the volume checkpoints of every record that ever becomes durable are valid for its phase, one per planned volume; activated volumes are a prefix of the plan, rolled back ones a suffix |
| PodMonitor.TerminalMeansResumed | internal/app/namespaced_pod_migration_abort.go:112-295 | in every run, when Completed, RolledBack or Aborted becomes durable, each earlier pause attempt was followed by a successful resume; the only exceptions are aborts, decided in the invocation that first saved Aborted: one that loaded a requested deletion and then found the source gone or going, or one that worked on a record which had forgotten its origin |
| PodMonitor.SwitchIsVerified | internal/app/namespaced_pod_migration_rollback.go:194-346 | no claim is switched or restored and no final copy starts unless the pause was verified in the same invocation, after any pause or resume |
| PodMonitor.PausedWasVerified | internal/app/namespaced_pod_migration_pause.go:66-106 | the first record that says Paused follows a pause attempt, not undone since, and a verification of it made later by the same invocation |
| PodMonitor.RestoreFollowsPause | internal/app/namespaced_pod_migration_rollback.go:228-291 | no source claim is restored next to a running workload: a pause attempt precedes every restore with no resume since, unless the capped history has lost the phase the rollback came from |
| PodMonitor.RollbackCallsFollowTheRecord | internal/app/namespaced_pod_migration_rollback.go:228-393 | a rollback pauses only if the record says the workload was resumed before it, or has lost that, and something is left to restore; it resumes only once every volume is rolled back |
| PodMonitor.AbortResumesOntoSource | internal/app/namespaced_pod_migration_abort.go:130-160 | an abort resumes only a workload that its durable record found held, or no longer knows about; under a deletion it has found the source pair there, in the same invocation, before |
| PodMonitor.MountsAreRestoredFirst | internal/app/namespaced_pod_migration_cutover.go:73-113 | once a source volume may be shared, no pause, resume, final copy, switch or restore is made, and no phase past the pause recorded, before the mounts were restored |
| PodMonitor.RecordedWorkWasDone | internal/app/migration_activation.go:26-62 | a durable checkpoint says only what was done: a reserved one is what the reserver returned, an activated or rolled back one follows the call for that volume, and the steps of a switch are recorded in their order |
| PodMonitor.PassesWereCopied | internal/app/copy_checkpoint.go:31-45 | when n warm passes are durable, every volume was reported completely warm-copied at least n times before |
| PodMonitor.WarmSuccessFollowsCopy | internal/app/volume_copy.go:134-226 | every report of a complete warm copy follows a warm copy of that volume and the release of its tools, with no other copy of it in between |
| PodMonitor.ActivationFollowsFinalCopy | internal/app/namespaced_pod_migration_activation.go:160-268 | before a claim is switched there is, in this order, the last pause attempt, a final copy of that volume with no copy of it since, the release of its tools and its success; no pause attempt and no resume lies between the first of these and the switch |
| PodMonitor.CopiesDoNotOverlap | internal/app/volume_copy.go:34-308 | over all runs, two copies of one volume carry increasing attempt numbers, each durable before its copy, with the earlier copy cleaned up in between |
| PodMonitor.ToolsStopFirst | internal/app/namespaced_pod_migration_abort.go:112-245 | the workload is never restarted, and no terminal phase recorded, while tools of any copy may still hold a volume |
| PodMonitor.CutoverIsPrepared | internal/app/pod_migration_executor_validation.go:154-197 | a cutover phase becomes durable only after Paused and FinalSynced did |
| PodMonitor.NoReturn | internal/app/pod_migration_executor_validation.go:154-197 | after a cutover phase no abort becomes durable; rollback and abort are never left |
| PodMonitor.CapacityIsFinal | internal/app/workflow_failure.go:14-51 | after a capacity failure became durable no volume is copied and no save leaves the copy phase but to abort, unless before the next load an excuse (a cancelled failure, or the save of the reason taken back) was followed by a save without the reason |
| PodMonitor.LoadedCapacityIsFinal | internal/app/namespaced_pod_migration_warm.go:77-92 | once an invocation has started from a capacity failure nothing is ever copied again, and only an abort leaves the copy phase |
| CapacityRun.GateIsExact | internal/app/pod_migration_warm_tools.go:136-146 | an invocation that takes up a warm pass can copy the volume again if and only if the record it loaded does not carry the capacity reason |
| CapacityRun.CancellationReopensTheGate | internal/app/workflow_failure.go:34-41 | a complete acceptable run: planned, reserved, copied, failed for capacity, the failed mount restore recorded by a cancelled driver, loaded again and copied again |
| CapacityRun.TakingBackReopensTheGate | internal/app/lifecycle.go:20-27 | a complete acceptable run in which the save of the capacity failure is reported as failed, a mount restore saves the record before it, and the next invocation copies again |
| PodInvariant.GoodMayBeSaved | internal/app/namespaced_pod_migration_validation.go:136-182 | a record that satisfies the invariant is acceptable to the monitor when saved: its checkpoints are valid, in order, and no capacity failure that stands is dropped |
| PodInvariant.GoodAfterSave | internal/app/lifecycle.go:11-28 | a save reported as failed after it committed leaves the record that was put back saveable unless it crossed into cutover, rollback or abort |
| PodInvariant.MoveGood | internal/app/namespaced_pod_migration.go:250-279 | every transition the table allows keeps the invariant, given what the stage must have established for the new phase |
| PodInvariant.MoveHeld | internal/app/pod_migration_abort_policy.go:10-48 | transitions keep what the record remembers about a paused workload, through failures, retries and the history cap |
| PodInvariant.FailGood | internal/app/workflow_failure.go:14-51 | recording a failure keeps the invariant and the effective phase, given that a capacity failure that stands is recorded again with its reason |
| PodInvariant.CancelGood | internal/app/workflow_failure.go:34-41 | a cancelled failure, which drops the reason and keeps the phase, keeps the invariant unless a capacity failure stands |
| PodInvariant.LoadGood | internal/kube/workflow_lease.go:32-120 | whatever was durable satisfies the invariant when the next invocation starts, with the observations and excuses of the last one gone |
| PodInvariant.ReactivateGood | internal/domain/workflow_registry.go:322-347 | reopening a failed workflow keeps the invariant unless a capacity failure stands |
| PodInvariant.EventGood | internal/app/namespaced_pod_migration_pause.go:60-106 | pausing, resuming, copying and cleaning keep the invariant in the phases that make these calls |
| PodInvariant.CheckpointGood | internal/app/migration_activation.go:26-62 | a checkpoint of one volume keeps the invariant when activation extends the prefix and rollback the suffix |
| PodInvariant.RestartGood | internal/app/namespaced_pod_migration_sync.go:155-178 | starting a pass with cleared marks, in one save, keeps the invariant |
| PodInvariant.SwitchIsCovered | internal/app/namespaced_pod_migration_activation.go:205-262 | while activating, the pause still holds and every volume was copied in full, finally, since |
| PodInvariant.SilentAbortForgot | internal/app/namespaced_pod_migration_abort.go:132-160 | an abort that finds no reason to resume although the workload is paused has durably forgotten its origin, or already ended |
| PodInvariant.ResumeDecisionKept | internal/app/pod_migration_abort_policy.go:10-48 | recording the abort, or taking it up again, leaves the decision to resume as it was or loses its origin |
| PodInvariant.PauseDecisionKept | internal/app/pod_migration_rollback_resources.go:15-28 | recording the rollback, or taking it up again, leaves the decision to pause as it was or loses its origin |
| PodInvariant.RollbackIsHeld | internal/app/namespaced_pod_migration_rollback.go:228-291 | a rollback that the record does not send to pause finds the workload paused, unless its origin is lost |
| PodInvariant.PassGood | internal/app/copy_checkpoint.go:31-45 | a pass that marked every volume may be counted together with the phase that says so |
| PodExecutor.DeletionChoice | internal/app/workflow_support.go:95-107 | a deletion drives forward exactly the unfinished phases in which the abort gate refuses; it ends in Aborted from exactly the others, in Completed from a cutover and in RolledBack from a rollback |
| PodExecutor.EndOfRun | internal/app/pod_migration_lifecycle.go:54-116 | where a run ends follows from where it started: before the pause, Completed with at least the planned warm passes |
| PodExecutor.PodMigrationExecutor.constructor | internal/app/volume_copy_runner.go:60-84 | a planned record starts the invariant; an unset retry budget becomes positive |
| PodExecutor.PodMigrationExecutor.Emit | internal/app/namespaced_pod_migration_pause.go:60-66 | only an acceptable event of the record's phase can be logged, and logging it keeps the invariant |
| PodExecutor.PodMigrationExecutor.Persist | internal/app/lifecycle.go:11-28 | a save commits or not, acknowledged or not; an acknowledged one is durable, any other met a failure; the log stays safe, and no capacity failure stands that the record does not carry |
| PodExecutor.PodMigrationExecutor.Publish | internal/app/migration_activation.go:43-60 | a checkpoint is durable, or something failed and the record in memory is the previous one and may still be saved; a commit taken back is logged as such |
| PodExecutor.PodMigrationExecutor.Transition | internal/app/namespaced_pod_migration.go:250-279 | a transition is durable and the record otherwise untouched, or memory is as before and a save failed or the table has no such move |
| PodExecutor.PodMigrationExecutor.Fail | internal/app/workflow_failure.go:14-51 | whatever is recorded, the effective phase and the checkpoints stay; a failure that is recorded carries the capacity reason exactly when capacity caused it in a phase that copies; one that stands is not overwritten by another cause unless the driver is cancelled, deleting or aborting |
| PodExecutor.PodMigrationExecutor.Load | internal/kube/workflow_lease.go:32-120 | an invocation works on the durable record; a requested deletion is not withdrawn |
| PodExecutor.PodMigrationExecutor.ReserveCheckpoint | internal/app/volume_reservation.go:15-61 | the reserver's checkpoint of one volume is published even when it failed; success means reserved and durable, anything else met a failure; no other volume changes |
| PodExecutor.PodMigrationExecutor.ReserveAll | internal/app/namespaced_pod_migration.go:174-240 | success leaves every planned volume durably reserved |
| PodExecutor.PodMigrationExecutor.Reserve | internal/app/namespaced_pod_migration.go:101-248 | success rests durably in Reserved with the pass count unchanged; without a failure it succeeds from Planned, Reserving and Reserved |
| PodExecutor.PodMigrationExecutor.Attempt | internal/app/volume_copy.go:134-226 | a transfer starts only under a fresh durable attempt next to no uncleaned copy and, if final, a pause verified in this invocation; a cleaned final success counts as synced, a cleaned warm one as one more complete warm copy |
| PodExecutor.PodMigrationExecutor.CopyWithRetry | internal/app/volume_copy.go:105-307 | only the attempt number of that volume changes, by at least one and at most the retry budget; a final success leaves it synced, a warm one complete for this pass, and any success leaves nothing uncleaned; it fails only if something failed |
| PodExecutor.PodMigrationExecutor.NextAttempt | internal/app/volume_copy.go:107-126 | the number of the next attempt is one more, durable and larger than any copied before the attempt starts |
| PodExecutor.PodMigrationExecutor.BeforeAttempt | internal/app/namespaced_pod_migration_sync.go:217-245 | before every final attempt the pause is verified anew |
| PodExecutor.PodMigrationExecutor.CleanupInterrupted | internal/app/namespaced_pod_migration_sync.go:263-311 | after it succeeds no copy of an interrupted pass is left |
| PodExecutor.PodMigrationExecutor.WarmCopy | internal/app/namespaced_pod_migration_warm.go:77-290 | success rests in WarmCopied with one more pass and no mount left shared; without a failure it succeeds unless the phase or a recorded capacity failure forbids it |
| PodExecutor.PodMigrationExecutor.WarmVolumes | internal/app/namespaced_pod_migration_warm.go:111-290 | a pass that fails without reporting a capacity failure has not made one stand, so the failure its deferred restore may add keeps a recorded reason |
| PodExecutor.PodMigrationExecutor.WarmVolume | internal/app/namespaced_pod_migration_warm.go:182-264 | a volume is marked only after a complete warm copy of it; a recorded failure carries the capacity reason if capacity caused it; no other volume changes |
| PodExecutor.PodMigrationExecutor.CompletePass | internal/app/copy_checkpoint.go:31-45 | the pass count and the phase become durable together, or a save failed and neither is |
| PodExecutor.PodMigrationExecutor.Pause | internal/app/namespaced_pod_migration_pause.go:21-106 | from before the pause success rests in Paused, later phases stay; either way the pause was verified now |
| PodExecutor.PodMigrationExecutor.FinalSync | internal/app/namespaced_pod_migration_sync.go:102-153 | success rests in FinalSynced with every volume copied again, but those an interrupted sync had already marked; without a failure it succeeds unless the phase or a recorded capacity failure forbids it |
| PodExecutor.PodMigrationExecutor.FinalSyncWithProbes | internal/app/namespaced_pod_migration_sync.go:155-261 | success has every volume marked and synced since the pause, each copied again unless an interrupted sync had marked it |
| PodExecutor.PodMigrationExecutor.FinalVolume | internal/app/namespaced_pod_migration_sync.go:182-258 | a volume is marked only after a complete final copy under a new attempt; a recorded failure carries the capacity reason if capacity caused it; no other volume changes |
| PodExecutor.PodMigrationExecutor.PauseAndFinalSync | internal/app/namespaced_pod_migration_cutover.go:28-129 | success rests in FinalSynced; while a manual cutover holds, nothing is touched: neither the record nor the workload |
| PodExecutor.PodMigrationExecutor.CutoverGate | internal/app/pod_migration_cutover_gate.go:44-84 | the gate opens only if no manual cutover holds, and touches neither the record nor the workload |
| PodExecutor.PodMigrationExecutor.SwitchVolume | internal/kube/switcher_activation.go:141-225 | one volume is activated after the switcher was called for it, its predecessors already are, and no other checkpoint changes |
| PodExecutor.PodMigrationExecutor.SwitchSteps | internal/kube/switcher_activation.go:199-217 | success has both deletions and the reservation durably recorded, each in its order, and nothing else changed |
| PodExecutor.PodMigrationExecutor.Activate | internal/app/namespaced_pod_migration_activation.go:160-268 | success from FinalSynced or Activating rests in Activated; without a failure it succeeds in every phase of the cutover |
| PodExecutor.PodMigrationExecutor.ResumeWorkload | internal/app/namespaced_pod_migration_resume.go:69-170 | success rests in Completed with the passes kept; without a failure it succeeds from Activated, Resuming and Completed |
| PodExecutor.PodMigrationExecutor.StartWorkload | internal/app/namespaced_pod_migration_resume.go:112-170 | the closing phase is recorded only after a successful resume with no copy left behind |
| PodExecutor.PodMigrationExecutor.VolumesRestored | internal/app/namespaced_pod_migration_rollback.go:422-434 | true exactly when there are checkpoints and all are rolled back |
| PodExecutor.PodMigrationExecutor.DecidePause | internal/app/namespaced_pod_migration_rollback.go:228-231 | the rollback pauses exactly when not everything is restored and the record says the workload was resumed |
| PodExecutor.PodMigrationExecutor.HoldForRestore | internal/app/namespaced_pod_migration_rollback.go:258-291 | success has the pause verified now and the workload paused, or its origin lost, unless everything is restored already |
| PodExecutor.PodMigrationExecutor.RestoreVolumes | internal/app/namespaced_pod_migration_rollback.go:292-346 | going backwards through the plan under a verified pause, success leaves every volume rolled back |
| PodExecutor.PodMigrationExecutor.Rollback | internal/app/namespaced_pod_migration_rollback.go:194-393 | success rests in RolledBack; a resumed workload is paused again before any source is restored; without a failure it succeeds from FinalSynced, every phase of the cutover and the rollback |
| PodExecutor.PodMigrationExecutor.AbortResumes | internal/app/namespaced_pod_migration_abort.go:130-160 | resuming needs a record that found the workload held and, under a deletion, a source found there in this invocation; not resuming a paused workload needs a source found settling or a forgotten origin |
| PodExecutor.PodMigrationExecutor.CleanupAll | internal/app/namespaced_pod_migration_abort.go:184-244 | cleaning both modes of every attempted volume leaves no copy behind |
| PodExecutor.PodMigrationExecutor.Abort | internal/app/namespaced_pod_migration_abort.go:112-295 | success rests in Aborted; without a failure it succeeds wherever the abort gate is open |
| PodExecutor.PodMigrationExecutor.RequestResume | internal/app/namespaced_pod_migration_preflight.go:53-107 | success leaves no failed phase, the same effective phase and checkpoints; a held cutover whose passes are done moves to Pausing; a capacity failure is refused, and nothing else is |
| PodExecutor.PodMigrationExecutor.FinalizeDeleted | internal/app/namespaced_pod_migration_deletion.go:47-86 | success ends in Completed from a cutover, RolledBack from a rollback and Aborted from everything else; without a failure it succeeds |
| PodExecutor.PodMigrationExecutor.Step | internal/app/pod_migration_lifecycle.go:54-116 | a successful turn ends its stage where the source says, counting a pass exactly for a warm copy; a turn that loops again has fewer passes left, or as many and a later phase; a held cutover is left untouched |
| PodExecutor.PodMigrationExecutor.Advance | internal/app/pod_migration_lifecycle.go:66-110 | from Reserved or WarmCopied with passes left one more warm pass is made, otherwise the workload is paused and synced; every other phase runs its own stage |
| PodExecutor.PodMigrationExecutor.LastStep | internal/app/pod_migration_lifecycle.go:88-109 | an abort, a rollback or a finished cutover ends the run in its own terminal phase |
| PodExecutor.PodMigrationExecutor.Run | internal/app/pod_migration_lifecycle.go:54-116 | the unbounded loop terminates; success rests in the terminal phase its start calls for, from before the pause in Completed with every planned warm pass counted and one more only for a pass under way; without a failure it succeeds unless a capacity failure is recorded or a manual cutover holds |
| PodExecutor.PodMigrationExecutor.Invoke | internal/app/pod_migration_lifecycle.go:14-52 | a command that is not declined and meets no failure outside succeeds; what is declined depends on the record, a requested deletion and the manual hold alone |
| PodExecutor.PodMigrationExecutor.Operate | internal/app/pod_migration_lifecycle.go:27-116 | any sequence of commands, with any failures, only extends the log, keeps it safe, and leaves valid volume checkpoints |
| OfflineRecords.LocalInvertsQualified | internal/app/migration_activation_checkpoint.go:10-48 | localizing a qualified checkpoint gives it back |
| OfflineRecords.QualifiedInvertsLocal | internal/app/namespaced_reservation_validation.go:123-179 | whatever is localized is the qualified form of the result |
| OfflineRecords.ValidateCheckpoints | internal/app/namespaced_migration_validation.go:57-97 | the namespaced loop accepts exactly the valid checkpoint lists |
| OfflineRecords.ValidateClusterCheckpoints | internal/app/migration_executor_validation.go:173-221 | the cluster loop accepts exactly the valid checkpoint lists |
| OfflineRecords.ValidatorsAgree | internal/app/migration_executor_validation.go:49-115 | a namespaced record is valid if and only if its qualified form is valid for a cluster migration within that namespace |
| OfflineRecords.LocalizationIsValidation | internal/app/namespaced_reservation_validation.go:145-179 | of otherwise valid storage results, the namespaced executor refuses exactly those the cluster validator refuses |
| OfflineTwins.MoveGood | internal/app/migration_executor_validation.go:328-368 | every transition the offline table allows keeps the record valid and in order |
| OfflineTwins.GoodIsValid | internal/app/namespaced_migration_validation.go:8-97 | the invariant implies the validator |
| OfflineTwins.CheckpointGood | internal/app/migration_rollback.go:24-54 | a published checkpoint keeps activation a prefix and rollback a suffix of the plan |
| OfflineTwins.TwinExecutors.constructor | internal/app/migration_executor.go:32-47 | both executors start from the same planned record in their own forms |
| OfflineTwins.TwinExecutors.Persist | internal/app/lifecycle.go:11-28 | one save outcome leaves both stores equal up to qualification |
| OfflineTwins.TwinExecutors.Transition | internal/app/migration_executor.go:238-267 | both executors allow or refuse together and end in the same phase, or a save failed or the table has no such move |
| OfflineTwins.TwinExecutors.Fail | internal/app/namespaced_migration.go:259-280 | both record the same failure, with the capacity reason exactly when capacity caused it while syncing; the effective phase stays |
| OfflineTwins.TwinExecutors.ReserveVolume | internal/app/namespaced_migration.go:160-215 | the same request, the same checkpoint in both forms, published even on failure |
| OfflineTwins.TwinExecutors.Reserve | internal/app/migration_executor.go:96-190 | success rests both in Reserved; without a failure it succeeds from Planned, Reserving and Reserved |
| OfflineTwins.TwinExecutors.CopyWithRetry | internal/app/volume_copy.go:105-307 | only the attempts of that volume change, equally in both, by at least one and at most the retry budget; each is durable before its copy; a success leaves the newest attempt a complete copy and none uncleaned |
| OfflineTwins.TwinExecutors.CleanupInterrupted | internal/app/namespaced_migration_sync.go:226-296 | success means the tools of every attempted and unfinished volume were released at its newest attempt, and no copy is left behind |
| OfflineLog.CopiesDoNotOverlap | internal/app/volume_copy.go:105-307 | over all offline runs, two copies of one volume carry increasing attempt numbers, each durable before its copy, with the earlier copy cleaned up in between |
| OfflineLog.ToolsStopFirst | internal/app/namespaced_migration_lifecycle.go:337-377 | no terminal record becomes durable while the tools of any copy may still hold a volume |
| OfflineLog.MarkFollowsCopy | internal/app/namespaced_migration_sync.go:150-216 | when a record marks a volume as synced, and when the volume is switched, its newest copy was the recorded attempt, cleaned up and then reported complete, with no copy of it since |
| OfflineLog.RecordedWorkWasDone | internal/app/namespaced_migration_activation.go:170-229 | a durable checkpoint says only what the reserver, the switcher and the restorer did, and the steps of a switch are recorded in their order |
| OfflineTwins.TwinExecutors.FinalSync | internal/app/namespaced_migration_sync.go:98-224 | success rests both in FinalSynced with every volume copied again, but those an interrupted sync had already marked; a recorded capacity failure is refused with nothing done; without a failure nothing else is |
| OfflineTwins.TwinExecutors.SyncVolume | internal/app/namespaced_migration_sync.go:150-216 | a volume is marked in both records only after a complete copy under a new attempt; a recorded failure carries the capacity reason if capacity caused it |
| OfflineTwins.TwinExecutors.SwitchVolume | internal/app/namespaced_migration_activation.go:170-229 | one volume is activated in both records, its predecessors already are |
| OfflineTwins.TwinExecutors.Activate | internal/app/migration_executor_activation.go:142-214 | success from FinalSynced or Activating rests both in Activated; without a failure it succeeds in FinalSynced, Activating, Activated and Completed |
| OfflineTwins.TwinExecutors.Rollback | internal/app/migration_executor_lifecycle.go:521-609 | success rests both in RolledBack, restored from the last volume to the first; without a failure it succeeds from FinalSynced, the cutover and the rollback |
| OfflineTwins.TwinExecutors.Abort | internal/app/namespaced_migration_lifecycle.go:337-377 | success rests both in Aborted with the tools of every interrupted copy released; without a failure it succeeds wherever the abort gate is open |
| OfflineTwins.TwinExecutors.Run | internal/app/namespaced_migration_lifecycle.go:189-257 | the fallthrough driver ends both in Aborted, RolledBack or Completed as their phase calls for; without a failure it succeeds unless a capacity failure is recorded |
| OfflineTwins.TwinExecutors.RequestResume | internal/app/namespaced_migration_lifecycle.go:150-187 | success leaves neither failed and the effective phase as it was; a capacity failure is refused with nothing done, and nothing else is |
| OfflineTwins.TwinExecutors.FinalizeDeleted | internal/app/migration_executor_lifecycle.go:13-97 | both choose the same convergence: a started cutover completes, a rollback is finished, everything else is aborted; without a failure it succeeds |
| OfflineTwins.DeletionChoice | internal/app/workflow_support.go:95-107 | an offline deletion drives forward exactly the unfinished phases in which the abort gate refuses, and ends in the phase each calls for |
| OfflineTwins.TwinExecutors.Invoke | internal/app/namespaced_migration_lifecycle.go:189-257 | a command that is not declined and meets no failure outside succeeds in both; what is declined depends on the record and a requested deletion alone |
| OfflineTwins.TwinExecutors.Operate | internal/app/migration_executor_lifecycle.go:189-257 | over any sequence of commands and failures the cluster record is the qualified namespaced record, each valid for its own validator, activation a prefix and rollback a suffix, and every copy started in order |
| Storage.FinalizingTwice | internal/app/source_release.go:200-282 | a finalized volume is accepted again, unchanged, and is on the requested policy |
| Storage.ClaimGivenBack | internal/kube/ownership.go:182-274 | a finalized claim has the recorded owners, labels and annotations, none of the workflow's marks unless they were recorded, and everything else as it was |
| Storage.VolumeGivenBack | internal/app/source_release.go:200-282 | a finalized volume is the same volume, bound as it was, on the requested policy and without a mark of the workflow |
| Storage.RerunConverges | internal/app/volume_reclaim.go:813-883 | reclaiming one copy, stopped anywhere and repeated with the same request, is accepted and ends where an uninterrupted run ends |
| Storage.RerunNeedsOwnerFreeMetadata | internal/kube/ownership.go:182-274 | after the claim was finalized the repetition is accepted if and only if the recorded metadata names no other session |
| Storage.RefusedAgain | internal/kube/ownership.go:182-274 | a claim planned while it carried another session is accepted, finalized, and then refused |
| Storage.PreviewGap | internal/app/volume_reclaim.go:750-811 | a kept copy passes the dry run and is refused afterwards exactly when its volume was never labelled and is to be kept under another policy than its own |
| Storage.PreviewedAndRefused | internal/app/volume_reclaim.go:750-811 | an unlabelled volume of a staged claim that is going passes the dry run and is refused |
| Recovery.RecoveryIsStable | internal/app/reservation_recovery.go:18-83 | recovery never replaces an identity that was recorded |
| Recovery.RecoveryIsIdempotent | internal/app/reservation_recovery.go:18-217 | recovering from a recovered checkpoint changes nothing |
| Recovery.RecoveredPolicy | internal/app/reservation_recovery.go:148-217 | a recovered volume is reported under its own UID and the policy it had before the workflow, annotated or in force, which a recorded policy must equal |
| Recovery.RecoveryReportsLive | internal/app/reservation_recovery.go:18-83 | the recovered checkpoint names the live claim, and its volume under that policy if it is there |
| Recovery.RecoveryAdoptsItsOwn | internal/app/reservation_recovery.go:127-259 | recovery adopts nothing of another session: a claim it could not name by UID is this session's staged claim of this source, or unmarked in a terminal cleanup; a volume is marked as staged by it, or unmarked and recorded or never checkpointed |
| Recovery.RecoveryFindsItsOwn | internal/app/reservation_recovery.go:18-217 | a claim and volume staged by the session are recovered, whatever part of them was recorded |
| Recovery.PrepareReserved | internal/app/reserved_destination_cleanup.go:15-60 | accepted exactly when recovery succeeds and the volume found is not the source volume |
| Recovery.PrepareSource | internal/app/migration_reclaim_volume.go:77-116 | the source is deletable only after completion and is otherwise the copy to run on |
| Recovery.PrepareDestination | internal/app/migration_reclaim_volume.go:35-76 | accepted exactly when the staged destination is known and is not the source volume; never deletable after completion, and after an abort only with a live source claim or a recorded active one |
| Recovery.PrepareVolume | internal/app/migration_reclaim_volume.go:21-148 | accepted exactly when the destination is known and an unreserved source can be given back; both requests are then determined: they name the right storage under the right role, policy and metadata, keep the copy in use, and delete the other exactly under the stated conditions |
| Recovery.PairMeans | internal/app/migration_reclaim_volume.go:21-148 | phase by phase: after completion only the source may go, after a rollback only the destination, after an abort the destination if the workload has a claim to run on; a kept source is on the annotated policy of the live volume, else the planned one |
| Recovery.SurvivingCopy | internal/app/migration_reclaim_volume.go:15-20 | after cleanup a copy is left if and only if the one in use was there, or the other was and is not to be deleted |
| Recovery.OnlyCopyDeleted | api/v1alpha1/workflow_types.go:79-83 | the request prepared from a valid completed checkpoint whose destination volume vanished passes every check, and no volume is left while the claim in use is |
| Recovery.CompletedIsValid | internal/app/migration_executor_validation.go:173-221 | the checkpoint that case starts from is valid for Completed |
| Reclaim.StorageReclaimer.Validate | internal/app/volume_reclaim.go:671-811 | passes only what the preview allows and refuses only what it does not |
| Reclaim.StorageReclaimer.DeleteClaim | internal/app/volume_reclaim.go:22-81 | only the claim of that identity and session is deleted |
| Reclaim.StorageReclaimer.DeletePV | internal/app/volume_reclaim.go:83-176 | a finished deletion was acceptable and the volume is gone; a refused one was not |
| Reclaim.StorageReclaimer.RestorePolicyAndDelete | internal/app/volume_reclaim.go:178-261 | only a released volume of that identity, role and policy goes, and it goes under the recorded policy |
| Reclaim.StorageReclaimer.FinalizeActivePV | internal/app/source_release.go:200-282 | refuses exactly what the preview of a finalization refuses, and otherwise ends on the requested policy without ownership |
| Reclaim.StorageReclaimer.FinalizeClaim | internal/kube/ownership.go:182-274 | a finished finalization has put the recorded metadata back; a refused one found a foreign claim or a missing identity |
| Reclaim.StorageReclaimer.ReclaimCopy | internal/app/volume_reclaim.go:813-883 | done means acceptable and at the end, refused means not acceptable, and any stop is on the way; no other storage is touched |
| Reclaim.StorageReclaimer.ProtectRetained | internal/app/volume_reclaim.go:641-669 | a copy is changed in its policy alone: to Retain if it is a kept, named volume with a policy and its claim is absent or going, and not at all otherwise |
| Reclaim.StorageReclaimer.ReclaimAll | internal/app/namespaced_pod_migration_cleanup.go:240-254 | only deletable copies go, each under its policy; a finished run has the others released under theirs and their claims given back; a refusal means a copy was not acceptable from the start |
| Reclaim.StorageReclaimer.ReleaseSource | internal/app/source_release.go:18-96 | no volume goes and only marks are removed; a released source is on its annotated, else planned, policy if its claim lasts and on Retain if not; nothing of another identity changes |
| Reclaim.StorageReclaimer.ReleaseSources | internal/app/namespaced_pod_migration_cleanup.go:222-242 | after an abort every source that nothing was reserved for no longer carries the session; in the other phases nothing happens |
| Reclaim.StorageReclaimer.PrepareAll | internal/app/namespaced_pod_migration_cleanup.go:105-148 | every pair is the one the record and the live objects call for; a refusal means some volume cannot be prepared |
| Reclaim.StorageReclaimer.Cleanup | internal/app/namespaced_pod_migration_cleanup.go:49-254 | stopped anywhere, the volume in use of every planned volume is still there, and nothing has changed unless every copy passed its dry run; finished, deleted copies are gone, each deleted under the policy resolved for it, kept volumes are released on that policy if a claim that was there and not going holds them and on Retain if not, claims have their recorded metadata, and unreserved sources are free |
| Reclaim.SameVerdict | internal/app/volume_reclaim.go:813-883 | what happens to the copies before it does not change the verdict on a copy |
| SharedMounts.ValidateMounts | internal/app/pod_shared_mount_validation.go:9-40 | accepts exactly the records of distinct planned source volumes (of two planned under one name the later counts) with distinct, complete LVM identities |
| SharedMounts.ValidTogether | internal/app/pod_migration_warm_sources.go:206-278 | two valid records together are valid if and only if no volume is in both |
| SharedMounts.PreparedRecordIsValid | internal/app/pod_migration_warm_sources.go:206-278 | the record after a complete preparation is valid if and only if it was valid before and named no volume that was in use, held by nobody and not yet shared |
| SharedMounts.SharedMountManager.EnabledAreNotPrepared | internal/kube/openebs_lvm.go:201-245 | when every recorded volume is enabled by this workflow, none of them is to be enabled again |
| SharedMounts.CutoverTwice | internal/app/namespaced_pod_migration_cutover.go:75-87 | a cutover stopped between recording a volume and enabling it, followed by another one, leaves a record the validator refuses |
| SharedMounts.SharedMountManager.PrepareShared | internal/kube/openebs_lvm.go:155-245 | accepted exactly when the volume is there, held by nobody and set to a known value; a volume to change is as it was and truthfully described |
| SharedMounts.SharedMountManager.EnableShared | internal/kube/openebs_lvm.go:247-280 | only a recorded volume is enabled, and exactly when it is still as it was and held by nobody |
| SharedMounts.SharedMountManager.Collect | internal/app/pod_migration_warm_sources.go:226-257 | succeeds exactly when every volume in use can be prepared and what is to be recorded is valid, and collects the volumes to enable in plan order |
| SharedMounts.SharedMountManager.RecordAndEnable | internal/app/pod_migration_warm_sources.go:259-275 | the record is durable before the volume changes, whichever step fails |
| SharedMounts.SharedMountManager.Prepare | internal/app/pod_migration_warm_sources.go:206-278 | for every outcome of every step: the durable record grows by the volumes whose save committed, exactly the completed ones are enabled, it stays valid wherever this stops if no volume to enable was recorded or all recorded ones are enabled, and after success it is valid only if it was valid and none was recorded |
| SharedMounts.SharedMountManager.RestoreShared | internal/kube/openebs_lvm.go:282-406 | succeeds exactly when the volume answers and no other owner holds it; a restored volume is exactly as it was |
| SharedMounts.SharedMountManager.Restore | internal/kube/shared_mount_restore.go:21-88 | for every answer of every volume: the record keeps exactly what could not be restored, in order, or stays if the driver is fenced or the save fails; success, with every volume as it was and nothing recorded, exactly when each was reached and free and the save acknowledged |
| Handoff.ValidateCopyCheckpoints | internal/app/copy_executor_validation.go:101-158 | the index and lookup loops accept exactly the lists in which every planned volume has its one valid checkpoint |
| Handoff.HandedCheckpointsAreFound | internal/app/reservation_executor_validation.go:166-215 | a list valid from the checkpoints' side is found complete from the plan's side |
| Handoff.HandoffIsValid | internal/app/reservation_copy.go:142-220 | the copy made from an accepted reservation passes the copy validator and keeps every identity |
| Handoff.SameStorageMeans | internal/app/reservation_copy.go:222-250 | the input keeps the storage exactly when namespaces, volumes and placement are the reserved ones |
| Handoff.CopyFromReservation | internal/app/reservation_copy.go:142-250 | succeeds if and only if the reservation is valid, reserved and not deleting, the input keeps the storage and the strategies are valid; each refusal has its own cause; the copy keeps the reserved plan with the transfer as asked: checksum, deletion, node, strategies, policy and online mode; the final validation never fails, and nothing is transferred |
| Orphan.OrphanCleaner.PlanCleanup | internal/app/orphan_cleanup.go:125-349 | a ready plan is anchored on the live source claim and its volume, never lists them for deletion, and lists all that is staged for them and nothing else; which of the plans is made, and whether any is, is decided exactly by the live objects |
| Orphan.OrphanCleaner.PlanPreActivation | internal/app/orphan_cleanup.go:641-988 | the plan lists the one claim staged for this source, with its volume, or the one staged volume that no claim names; never the source ones |
| Orphan.OrphanCleaner.FindStagedClaim | internal/app/orphan_cleanup.go:790-833 | accepted exactly when at most one claim is staged for the source and it is fully marked; finds it and its volume |
| Orphan.OrphanCleaner.FindUnclaimed | internal/app/orphan_cleanup.go:835-887 | finds the staged volume no claim names; accepted exactly when there is none, or one in a session with a single source |
| Orphan.InterruptedRecovery | internal/app/orphan_cleanup.go:835-887 | from the plain state before the switch, once the staged claim alone is gone a plan is made if and only if the session has a single source volume |
| Orphan.RecoveryStopsWithTwoSources | internal/app/orphan_cleanup.go:835-887 | with two source volumes a recovery can be planned, and after its staged claim went it cannot |
| Orphan.OrphanCleaner.PlanPostActivation | internal/app/orphan_cleanup.go:453-639 | made exactly when the active volume is paired with a rollback volume that is gone, or paired back, released and on a policy that leads to the recorded one |
| Orphan.OrphanCleaner.DeleteDestinationClaim | internal/app/orphan_cleanup.go:1237-1299 | a claim is removed only if the live one has the planned UID and version and is marked as the staged claim of this source; refused exactly when it is there and does not match |
| Orphan.OrphanCleaner.DeleteRollbackPV | internal/app/orphan_cleanup.go:1461-1550 | the rollback volume is touched only if the live one has the planned UID and version, the session, the role, a released state and the recorded policy, under which it goes; refused exactly when it is there and does not match |
| Orphan.OrphanCleaner.DeleteStagedPV | internal/app/volume_reclaim.go:83-176 | the staged volume is touched only if the live one has the planned UID, the session, the role and the recorded policy and its claim is gone or going; it goes under that policy |
| Orphan.OrphanCleaner.FinalizeClaim | internal/app/orphan_cleanup.go:1552-1633 | the source claim stays, loses its marks and nothing else, and carries no session, role or rollback note |
| Orphan.OrphanCleaner.FinalizePV | internal/app/orphan_cleanup.go:1635-1698 | the volume stays as it is bound, on its recorded policy and without any mark |
| Orphan.OrphanCleaner.HasSessionResources | internal/app/orphan_cleanup.go:1338-1388 | true exactly when a claim, volume or pod still carries the session |
| Orphan.OrphanCleaner.Cleanup | internal/app/orphan_cleanup.go:1043-1235 | the source claim and its volume are never removed and nothing the plan does not name is touched; a finished recovery leaves both free of the session and the volume on its original policy; every claim staged for the source is gone, every staged or rollback volume deleted under its own original policy, before the source is given back; the lease goes exactly when nothing carries the session; from the plain states only a failure outside prevents this |
| Orphan.OrphanCleaner.CleanupPreActivation | internal/app/orphan_cleanup.go:1178-1235 | the pods, the staged claim and the staged volume go before the source is released |
| Orphan.OrphanCleaner.CleanupPostActivation | internal/app/orphan_cleanup.go:1149-1176 | the rollback volume goes before the source is released |
| Orphan.ClearedAsListed | internal/app/orphan_cleanup.go:641-988 | since a plan lists all that is staged for its source, a finished plan has cleared it |
| Backoff.GuardIsExact | internal/app/volume_copy.go:25-28 | the division guard is the overflow test of the product |
| Backoff.DelayIsSaturatedProduct | internal/app/volume_copy.go:20-32 | for a positive base the delay is base times two to the index, saturated, if and only if the base is not 1 or the index is at most 62 |
| Backoff.DelayIsMonotone | internal/app/volume_copy.go:20-32 | for every base and index the delay is a non-negative 64-bit duration and never shrinks from one retry to the next |

## Left out

- Messages, times and conditions: a time is kept as set or unset, text that is never compared is dropped.
- Workload identities, adapters and node placement: a controller call is an outcome and a possible save.
- PodMonitor.SavedRecordsAreValid: does not cover the shared mounts that the pod validator also checks, because the pod record holds none: their saves are saves of the same record there, and SharedMounts.dfy proves exactly when a recorded list of mounts stays valid.
- Reading the cluster before the shared mounts are prepared is one outcome that may fail; the pods in use and the steps of each volume are inputs.
- Checks that only read the cluster (consumers, quotas, image probes, offline verification) are outcomes that may fail at any time.
- A lease check and the call it guards are one step: a lease lost between the two is not modelled.
- Concurrent changes by others to the same claims, volumes or LVM volumes are not modelled; what was read is still so when it is written.
- Whether a failure outside is ever mended is not modelled: progress is stated for runs in which nothing fails.
- PodExecutor.PodMigrationExecutor.PauseAndFinalSync: a hold, which the source reports as success, is reported as not done here.
- Legacy records (Failed without a resume phase) that a deletion repairs before validating, and records without an execution plan.
- Cluster migrations across namespaces: after a rollback the validator and the verification of restored storage expect different namespaces there, so the agreement is stated for one namespace.
- Reclaim.StorageReclaimer.Cleanup: does not say that repeating a whole cleanup with newly resolved requests converges, because the original policy is read from an annotation that the first pass removes.
- Reclaim.StorageReclaimer.AwaitRelease: the controllers remove a deleted claim and release its volume as part of the wait.
- PodExecutor.PodMigrationExecutor.FinalizeDeleted: the cleanup that follows the convergence is modelled in Reclaim.dfy.
- Resource versions, kinds and API versions of requested references in the handoff are dropped; only names and UIDs are compared.
- The plain copy and reservation executors, rename, move, backup, planning, discovery, the command line and the controller: they would add members of the same kind or only plumbing.
