# Verification model of the O-Cloud Manager

This project models, in Dafny, the parts of the O-Cloud Manager operator that work as
crash-restart state machines, and proves what they promise over every run. A reconciler reads a
persisted status, acts on a hub and a spoke cluster, persists a checkpoint and returns; it may stop
at any point, its status writes may fail or take effect although they are reported as failed, and
the answer to a Create may be lost. Everything here is stated for all of that.

- Seed generation (`SeedStatus`, `SeedProtocol`, `SeedInvariant`, `SeedTheorems`, `SeedWitnesses`,
  `SeedWrites`, `SeedDecisions`, `SeedTask`). `SeedProtocol` is a transition system over the persisted
  status, the hub, the spoke, the clock and the knowledge of the running reconcile; its guards say
  what must be known before each write and action. `SeedTheorems` holds the results over all runs,
  `SeedWitnesses` the runs that show their conditions to be needed. `SeedDecisions` says what a
  reconcile leads to when no call and no write fails, and proves what a run fails for and that it
  completes. `SeedTask.Task` is the reconciler itself, method by method: each method is proved to
  extend a run, with other parties acting between any two of its steps, and to take its decision, so
  the results hold of it. What is found out by tools, Pods and parsers is an input of a reconcile,
  `Outside`. Branches that the invariant excludes end in `assert false`.
- Detachment of the ACM agents (`Detachment`): safety of every Klusterlet delete, and termination.
- Hardware (`HardwareMatching`, `NodeScaling`): matching as a fold that the two-table loop refines,
  group sizes, and the node accounting over scale-out, scale-in and swap, which converges.
- Policy configuration (`PolicyConfig`): what is reported when, the timeout clock, requeueing.
- Deletion (`Deletion`): order of the dependents and the finalizer, and termination.
- Node details (`NodeDetails`): extraction from and assignment to a ClusterInstance.
- Image mirrors (`Mirrors`, `TagMirrors`), with `Strings` for lexicographic order and sorting.
- The CRD watcher's screen (`Screen`).

Assumptions. Reads of the ProvisioningRequest are current and the clock is monotone. A Create
answered with a client error that proves rejection had no effect. Hostnames and hardware names are
distinct and not empty, group names contain no slash, and hardware of a rendered host stays in the
pool of the host's group until the host is no longer rendered. While a request is being deleted
nothing of it is created, and force-detach, once enabled, is not taken back.

Where the code falls short of what one would expect, the model follows the code, a lemma gives the
condition and a run, an input or a reconcile shows the failure: idempotence of mirror normalisation,
the path of a tag mirror, requeueing after a lost readiness error, namespaces deleted before an
unrecorded ClusterInstance, a negative fulfilled count, whatever blocks a detachment, a
foreign SeedGenerator during spoke cleanup, a Secret or a Job whose lost Create lands after its
cleanup, and very small terminals.

## Model

| member | source | states |
|---|---|---|
| `SeedTheorems.GeneratorCreatedAtMostOnce` | internal/controllers/provisioningrequest_seedgeneration_lifecycle.go:103-231 | over every run, with crashes, lost answers to Creates that take effect at once, late or never, failed and lying status writes and LCA removing and restoring the object, at most one Create of the SeedGenerator takes effect |
| `SeedTheorems.GuardClearedOnlyAfterProof` | internal/controllers/provisioningrequest_seedgeneration_lifecycle.go:201-231 | the persisted `SeedGeneratorSubmitted` is cleared only in a reconcile that itself received an answer (throttled or a definite client error) proving that its Create did nothing |
| `SeedTheorems.JobCreatedAtMostOnce` | internal/controllers/provisioningrequest_seedgeneration_iso.go:438-511 | over every run, under the same conditions, at most one ISO build Job is created |
| `SeedTheorems.JobGuardClearedOnlyAfterProof` | internal/controllers/provisioningrequest_seedgeneration_iso.go:482-501 | the same for the guard of the Job |
| `SeedTheorems.ResultAcceptedOnlyFromPinnedJob` | internal/controllers/provisioningrequest_seedgeneration_iso.go:513-587 | a run with a live ISO completes only on an owned, succeeded Job whose UID was already persisted when the accepting reconcile began and whose fingerprint is the persisted intent |
| `SeedTheorems.OwnJobPassesValidation` | internal/controllers/provisioningrequest_seedgeneration_iso.go:589-650 | in every state of every run the Job the run owns has the persisted fingerprint and a deadline within policy, so validation never rejects it |
| `SeedTheorems.ProgressIsKept` | internal/controllers/provisioningrequest_seedgeneration.go:262-305 | terminal status and reason, start and timeout, identity pins and every checkpoint of progress are the same in every later state of the run |
| `SeedTheorems.StartedAtMostOnce` | internal/controllers/provisioningrequest_seedgeneration.go:169-197 | a run is started by at most one status write |
| `SeedTheorems.CheckpointOrder` | internal/controllers/provisioningrequest_seedgeneration.go:262-373 | in every reachable state: Job submitted implies LCA finished and spoke cleaned, finished implies submitted, implies agents detached, implies detachment started, implies pins and snapshot; a live finished run has its seed image and release digest |
| `SeedTheorems.NoProvisioningAfterDetachment` | internal/controllers/provisioningrequest_controller.go:194-221 | normal provisioning phases never run again once detachment has started |
| `SeedTheorems.MutationsFollowIntent` | internal/controllers/provisioningrequest_seedgeneration.go:335-373 | no detachment change on hub or spoke before the intent and the three pins are persisted; every spoke change reaches the pinned cluster, which stays the same for the whole run |
| `SeedTheorems.GeneratorDeletedOnlyAfterLca` | internal/controllers/provisioningrequest_seedgeneration_lifecycle.go:388-442 | the owned SeedGenerator is deleted only after LCA has finished |
| `SeedTheorems.SecretDeletedOnlyAfterLca` | internal/controllers/provisioningrequest_seedgeneration_lifecycle.go:388-444 | the owned Secret is deleted only after LCA finished, or while nothing is submitted, created or under way, unless the deleting reconcile saw another party's object on the singleton name |
| `SeedTheorems.ForeignNeedsOthers` | internal/controllers/provisioningrequest_seedgeneration_lifecycle.go:115-121 | such an object is seen only if another party created one |
| `SeedWitnesses.SecretDeletedUnderLca` | internal/controllers/provisioningrequest_seedgeneration_lifecycle.go:388-444 | a run in which one was created while LCA had its object away, and the Secret is deleted under the running LCA |
| `SeedWitnesses.RecordUnderLca` | internal/controllers/provisioningrequest_seedgeneration_lifecycle.go:444-466 | the same run goes on to record spoke cleanup while LCA is running |
| `SeedTheorems.CleanupRecordIsTrue` | internal/controllers/provisioningrequest_seedgeneration_lifecycle.go:444-466 | recorded spoke cleanup of a run whose status says that LCA finished or that nothing was submitted means that the owned SeedGenerator does not exist, then and ever after, and LCA is not running; nor does the owned Secret if no answer to one of its Creates was lost |
| `SeedTheorems.SecretAfterRecord` | internal/controllers/provisioningrequest_seedgeneration_lifecycle.go:144-185 | otherwise the Secret is there only because a Create of it lost its answer and landed after cleanup had looked or recorded |
| `SeedTheorems.RecordStaysTrueExactly` | internal/controllers/provisioningrequest_seedgeneration_lifecycle.go:444-466 | in a run with such a record and no Secret, the record stays true in every continuation exactly if no Create of the Secret is under way |
| `SeedTheorems.UnsettledRecord` | internal/controllers/provisioningrequest_seedgeneration_lifecycle.go:428-466 | if nobody else used the singleton name, every record is of a run that LCA finished or that submitted nothing |
| `SeedWitnesses.LostSecretOutlivesRecord` | internal/controllers/provisioningrequest_seedgeneration_lifecycle.go:144-185 | a run in which the Create of the Secret loses its answer, cleanup finds nothing and records that, and the Secret lands |
| `SeedTheorems.SnapshotDeletedLast` | internal/controllers/provisioningrequest_seedgeneration.go:396-463 | snapshot credentials are deleted only in a terminal run whose spoke cleanup is recorded or never needed and whose upload is settled; no Job and no Pod is left if the UID of the Job was persisted when the reconcile began or no Job was submitted |
| `SeedTheorems.LeftJobLandedLate` | internal/controllers/provisioningrequest_seedgeneration_iso.go:876-946 | otherwise a Job or Pod is left only if a Create of the Job that had lost its answer landed after the deleting reconcile had listed the Jobs |
| `SeedTheorems.JobStaysAwayExactly` | internal/controllers/provisioningrequest_seedgeneration_iso.go:876-946 | a finished run without a Job stays without one in every continuation exactly if no Create of the Job is under way |
| `SeedWitnesses.LostJobOutlivesSnapshot` | internal/controllers/provisioningrequest_seedgeneration_iso.go:478-501 | a run in which the Create of the Job loses its answer, the run fails and is cleaned up within the persisted deadline for the upload, the Job lands and the snapshot is deleted while it exists |
| `SeedTheorems.SnapshotNeverLoadedAfterDeletion` | internal/controllers/provisioningrequest_seedgeneration_iso_cleanup.go:26-63 | after the first deletion of the snapshot no step of any later reconcile loads it |
| `SeedTheorems.BeginningOf` | internal/controllers/provisioningrequest_controller.go:182-192 | what a reconcile works from is the status that was persisted when it began |
| `SeedProtocol.RunPrefix` | internal/controllers/provisioningrequest_controller.go:194-221 | a run cut off at any point, as by a crash of the manager, is a run |
| `SeedInvariant.RunInv` | internal/controllers/provisioningrequest_seedgeneration.go:262-305 | the inductive invariant of status, one-shot guards, cleanup records and Job holds at the end of every run |
| `SeedInvariant.WriteKeepsInv` | internal/controllers/provisioningrequest_seedgeneration.go:70-94 | every status write that keeps the write discipline keeps the invariant, acknowledged or not |
| `SeedInvariant.EnvironmentKeepsInv` | internal/controllers/provisioningrequest_seedgeneration_lifecycle.go:139-143 | LCA, the Job controller, other users and time keep the invariant |
| `SeedInvariant.SpokeStepKeepsInv` | internal/controllers/provisioningrequest_seedgeneration_lifecycle.go:103-231 | the spoke actions of the controller keep it |
| `SeedInvariant.JobStepKeepsInv` | internal/controllers/provisioningrequest_seedgeneration_iso.go:438-511 | so do the Job actions |
| `SeedStatus.JobDeadlinePassesPolicy` | internal/controllers/provisioningrequest_seedgeneration_iso.go:450-459 | for all start times, timeouts and current times before the deadline, the rounded Job deadline passes the 1..TimeoutSeconds check and the Job never outlives the run by a second |
| `SeedStatus.TimeoutSeconds` | internal/controllers/provisioningrequest_seedgeneration.go:180-187 | a positive timeout is rounded up to whole seconds, at least one |
| `SeedWrites.FailedWriteIsFailable` | internal/controllers/provisioningrequest_seedgeneration_lifecycle.go:91-101 | after a status write that reported failure, failing the run from memory is right whether or not the write took effect |
| `SeedWrites.LiveIsFailable` | internal/controllers/provisioningrequest_seedgeneration.go:375-394 | a live run can be failed at any moment and for every failure reason |
| `SeedDecisions.HelpfulRunCompletes` | internal/controllers/provisioningrequest_seedgeneration.go:262-373 | ten reconciles in which the run sees what it waits for, in time and without a fault, complete it from any checkpoint, with or without an ISO |
| `SeedDecisions.HelpfulGoesOn` | internal/controllers/provisioningrequest_seedgeneration.go:262-373 | each such reconcile brings the run to a later checkpoint |
| `SeedDecisions.ReachableGoesOn` | internal/controllers/provisioningrequest_seedgeneration.go:262-373 | in every state that any run of the protocol can reach |
| `SeedDecisions.HelpIsPossible` | internal/controllers/provisioningrequest_seedgeneration.go:262-373 | such a reconcile exists in time for every live state with whole pins and frozen inputs |
| `SeedDecisions.LiveIsOrdered` | internal/controllers/provisioningrequest_seedgeneration.go:262-305 | in every reachable live state the checkpoints were reached in order |
| `SeedDecisions.FailsExactly` | internal/controllers/provisioningrequest_seedgeneration.go:262-373 | a reconcile gives up a live run exactly at its deadline or for a fault it sees or is told of, and as timed out only at the deadline of the run or of its Job |
| `SeedDecisions.CompletedMeans` | internal/controllers/provisioningrequest_seedgeneration.go:262-373 | a run is completed only on the success of its pinned Job with the fingerprint of the intent, with the verified result recorded, or without an ISO on the success of LCA with the configured image |
| `SeedDecisions.DecisionSaysStage` | internal/controllers/provisioningrequest_seedgeneration.go:70-81 | whatever a reconcile decides, the reason of the condition goes on telling the stage of the run |
| `SeedDecisions.ObservedMeans` | internal/controllers/provisioningrequest_seedgeneration_lifecycle.go:301-353 | a success stores the image and leads to BuildingISO or Completed, a failure ends the run with LCA finished, anything else only says InProgress |
| `SeedDecisions.SucceededNeverFails` | internal/controllers/provisioningrequest_seedgeneration_iso.go:557-587 | a Job that succeeded with a valid result never fails the run, whatever happened to other Pods |
| `SeedDecisions.GeneratorFails` | internal/controllers/provisioningrequest_seedgeneration_lifecycle.go:103-199 | with the agents gone a run fails exactly for a blank image, another cluster, a foreign, different or failed SeedGenerator, another image than the recorded one, or a Secret that does not do |
| `SeedDecisions.JobDecisionFails` | internal/controllers/provisioningrequest_seedgeneration_iso.go:513-587 | a run with a Job fails exactly if the Job is missing after the adoption window, not owned, not the submitted one, failed, or without a valid result |
| `SeedDecisions.PreflightFails` | internal/controllers/provisioningrequest_seedgeneration.go:307-333 | preflight fails exactly for changed inputs, missing or changed identities, or no release digest |
| `SeedTask.Task.constructor` | internal/controllers/provisioningrequest_controller.go:182-192 | a reconcile begins on the persisted status after any earlier history |
| `SeedTask.Task.UpdateStatus` | internal/controllers/provisioningrequest_seedgeneration.go:83-94 | a status write may fail and may take effect although reported as failed; the run goes on in all cases |
| `SeedTask.Task.VerifySpoke` | internal/controllers/provisioningrequest_seedgeneration_spoke.go:225-247 | the spoke client is usable only if the kubeconfig still leads to the pinned cluster; otherwise the error is permanent |
| `SeedTask.Task.CreateSecret` | internal/controllers/provisioningrequest_seedgeneration_lifecycle.go:160-166 | any answer may come back; a lost one leaves open whether the Secret was or will be created |
| `SeedTask.Task.CreateGenerator` | internal/controllers/provisioningrequest_seedgeneration_lifecycle.go:192-231 | any answer may come back; whether the Create took or will take effect is open only for lost or unspecific answers |
| `SeedTask.Task.CreateJob` | internal/controllers/provisioningrequest_seedgeneration_iso.go:478-501 | the same for the Job; its UID is known only if the Create was accepted |
| `SeedTask.Task.Fail` | internal/controllers/provisioningrequest_seedgeneration.go:375-394 | the persisted run has ended for the given reason and keeps everything but cleanup records, or a status write failed; it is not requeued only if nothing needs its inputs any more and its objects were seen gone |
| `SeedTask.Task.FinishCleanup` | internal/controllers/provisioningrequest_seedgeneration_iso_diagnostics.go:343-357 | cleanup never changes the outcome or the course of the run; it stops only when nothing needs the inputs any more, workspace and snapshot were seen gone and no build logs are retained, comes back only otherwise, and reports an error only for a failed call or an object that is not of this run |
| `SeedTask.Task.LifecycleError` | internal/controllers/provisioningrequest_seedgeneration_lifecycle.go:91-101 | a transient error changes nothing and is retried, a permanent one ends the run as Failed |
| `SeedTask.Task.PreflightError` | internal/controllers/provisioningrequest_seedgeneration.go:142-152 | the same for preflight, as PreconditionChecksFailed |
| `SeedTask.Task.UpdateProgress` | internal/controllers/provisioningrequest_seedgeneration.go:70-94 | progress changes only the condition; an identical one need not be written |
| `SeedTask.Task.EnsureSnapshot` | internal/controllers/provisioningrequest_seedgeneration_preflight.go:258-313 | inputs are frozen before anything else and their UIDs recorded once; other UIDs than the recorded ones are a permanent error |
| `SeedTask.Task.PinIdentity` | internal/controllers/provisioningrequest_seedgeneration_spoke.go:153-216 | all three identities are persisted as they were read; a missing or changed one is a permanent error |
| `SeedTask.Task.ToolsPreflight` | internal/controllers/provisioningrequest_seedgeneration_tools.go:57-132 | the release digest is pinned in one reconcile and the run made ready in a later one; without a digest the error is permanent |
| `SeedTask.Task.Preflight` | internal/controllers/provisioningrequest_seedgeneration.go:307-333 | if no call and no write fails, the persisted status is that of the preflight decision: waits, frozen inputs, pins, digest, ready, or ended with PreconditionChecksFailed |
| `SeedTask.Task.DetachAgents` | internal/controllers/provisioningrequest_seedgeneration_detachment.go:47-139 | agents that were seen gone on the verified spoke are recorded as detached, otherwise the run waits for them; another cluster is a permanent error |
| `SeedTask.Task.ReconcileSeedGenerator` | internal/controllers/provisioningrequest_seedgeneration_lifecycle.go:103-143 | if no call and no write fails, a foreign or different SeedGenerator ends the run, one being deleted or missing after submission is waited for, an owned one is observed and a missing one submitted; an owned object without persisted intent is impossible |
| `SeedTask.Task.EnsureSeedSecret` | internal/controllers/provisioningrequest_seedgeneration_lifecycle.go:145-184 | success means that an owned Secret with the frozen credentials was seen or created; a foreign or different one, or no credentials, is a permanent error; it is never replaced |
| `SeedTask.Task.SubmitSeedGenerator` | internal/controllers/provisioningrequest_seedgeneration_lifecycle.go:186-199 | intent is persisted and acknowledged before the one Create, and then the Create is made; nothing is submitted without the Secret |
| `SeedTask.Task.SubmissionError` | internal/controllers/provisioningrequest_seedgeneration_lifecycle.go:201-221 | for every answer what becomes of the run: the guard falls for throttling and definite rejection only, permanent errors end the run, others are retried |
| `SeedTask.Task.ObservationError` | internal/controllers/provisioningrequest_seedgeneration_lifecycle.go:233-245 | an unreachable spoke is waited for once LCA has work; a permanent error ends the run |
| `SeedTask.Task.WaitForStatus` | internal/controllers/provisioningrequest_seedgeneration_lifecycle.go:247-253 | a missing singleton is never recreated after submission: only the condition changes |
| `SeedTask.Task.ObserveSeedGenerator` | internal/controllers/provisioningrequest_seedgeneration_lifecycle.go:301-353 | unless a write fails: a success stores the seed image and leads to BuildingISO or Completed, a failure or another image than the stored one ends the run as Failed with LCA finished, and otherwise only the condition changes, to InProgress |
| `SeedTask.Task.ReconcileDetached` | internal/controllers/provisioningrequest_seedgeneration_lifecycle.go:64-89 | if no call and no write fails, a finished run is cleaned on the spoke before the ISO is built, any other is detached and then handed to LCA |
| `SeedTask.Task.RemoveGenerator` | internal/controllers/provisioningrequest_seedgeneration_lifecycle.go:400-430 | LCA's end is persisted before the delete, and then the owned SeedGenerator is deleted; it waits exactly while LCA is not settled |
| `SeedTask.Task.CleanupDetached` | internal/controllers/provisioningrequest_seedgeneration_lifecycle.go:388-442 | not pending exactly if neither owned object was seen and LCA is settled |
| `SeedTask.Task.CleanupDetachedAndRecord` | internal/controllers/provisioningrequest_seedgeneration_lifecycle.go:449-466 | the record is written exactly then, and changes nothing else of a live run |
| `SeedTask.Task.ReconcileISO` | internal/controllers/provisioningrequest_seedgeneration_iso.go:415-437 | invalid inputs end the run, otherwise the Job is submitted or observed; the not-cleaned and missing-image branches are unreachable |
| `SeedTask.Task.SubmitISOJob` | internal/controllers/provisioningrequest_seedgeneration_iso.go:438-482 | if no call and no write fails: waits for the workspace, ends the run at its deadline or for a Job that cannot be built, and otherwise leaves the intent with fingerprint and a time within the reconcile, and the UID of the created Job |
| `SeedTask.Task.CreateISOJob` | internal/controllers/provisioningrequest_seedgeneration_iso.go:478-508 | the Create is made, and the UID recorded if it is known |
| `SeedTask.Task.JobCreateError` | internal/controllers/provisioningrequest_seedgeneration_iso.go:483-501 | for every answer what becomes of the run: rejecting answers withdraw the intent, an existing Job is left for the next reconcile, permanent errors end the run, others are retried |
| `SeedTask.Task.ObserveISOJob` | internal/controllers/provisioningrequest_seedgeneration_iso.go:513-560 | if no call and no write fails: a missing Job leaves the status alone within the adoption window and ends the run after it, a strange or different one ends the run, one being deleted is waited for, an unpinned one is pinned and read in a later reconcile |
| `SeedTask.Task.JudgeISOJob` | internal/controllers/provisioningrequest_seedgeneration_iso.go:557-587 | success is preferred over failures of other Pods; a failed Job or an invalid result ends the run, a running Job or a result that is not ready is waited for |
| `SeedTask.Task.CompleteISO` | internal/controllers/provisioningrequest_seedgeneration_iso.go:781-814 | completion is written, with URL and digest, only for the pinned, verified Job; another result than the recorded one ends the run |
| `SeedTask.Task.FailISOJob` | internal/controllers/provisioningrequest_seedgeneration_iso_diagnostics.go:85-155 | the run ends for the given reason with its logs retained for a day, or keeping them is retried, which happens only before the deadline |
| `SeedTask.Task.FailISOTimeout` | internal/controllers/provisioningrequest_seedgeneration_iso_diagnostics.go:52-73 | at or after the deadline the run ends as TimedOut unless a write fails, keeping the logs of its own Job |
| `SeedTask.Task.PinJobForCleanup` | internal/controllers/provisioningrequest_seedgeneration_iso.go:913-928 | an adopted Job is pinned before it is deleted, and nothing else is changed |
| `SeedTask.Task.DeleteJobAndPods` | internal/controllers/provisioningrequest_seedgeneration_iso.go:876-946 | the owned Job is deleted before its Pods, and both are unless they were gone; not pending means none of either exists |
| `SeedTask.Task.EnsureUploadDeadline` | internal/controllers/provisioningrequest_seedgeneration_iso_cleanup.go:35-42 | the time budget of upload cleanup is persisted once, five minutes from the reconcile that does it |
| `SeedTask.Task.CompleteUploadCleanup` | internal/controllers/provisioningrequest_seedgeneration_iso_cleanup.go:78-96 | completion is recorded only when Jobs and Pods are gone |
| `SeedTask.Task.CleanupISOUpload` | internal/controllers/provisioningrequest_seedgeneration_iso_cleanup.go:26-63 | not pending exactly if the upload is settled, and pending only before the persisted deadline, for an upload that could not be reached |
| `SeedTask.Task.CleanupISOResources` | internal/controllers/provisioningrequest_seedgeneration_iso.go:855-871 | not pending exactly if the Jobs are gone, the workspace was seen gone and the snapshot may go |
| `SeedTask.Task.CleanupPreflightResources` | internal/controllers/provisioningrequest_seedgeneration.go:418-463 | deletes the snapshot only when nothing needs it any more, and then does; not pending exactly if it was seen gone |
| `SeedTask.Task.CleanupRunResources` | internal/controllers/provisioningrequest_seedgeneration.go:396-416 | spoke, ISO, snapshot, in this order, pending exactly until all are gone; the outcome is never changed |
| `SeedTask.Task.ReconcileSnapshot` | internal/controllers/provisioningrequest_seedgeneration.go:335-373 | if no call and no write fails: missing inputs, digest or pins end the run, preflight Pods are waited for, and detachment starts with its intent persisted or goes on |
| `SeedTask.Task.ReconcileSeedGeneration` | internal/controllers/provisioningrequest_seedgeneration.go:262-305 | if no call and no write fails the persisted status is that of the decision for the stage of the run; at or after the deadline a live run ends as TimedOut or a write failed; a terminal run is only cleaned up; the incomplete-state and final fallback branches are unreachable |
| `SeedTask.Task.StartOrResume` | internal/controllers/provisioningrequest_seedgeneration.go:169-225 | a run starts from an untouched status only, with its clock in whole seconds and its rounded timeout persisted; an invalid configuration ends it; terminal runs are not touched |
| `SeedTask.Task.Run` | internal/controllers/provisioningrequest_controller.go:194-221 | routing on the persisted status: a live run takes its decision, an untouched one goes through provisioning and starts if asked, a terminal one is only cleaned up; whatever happens the history stays a run of the protocol, a run past its deadline ends, and it is dropped only when nothing needs its inputs and its objects were seen gone |
| `Detachment.DetachmentEnds` | internal/controllers/provisioningrequest_seedgeneration_detachment.go:47-139 | with a cooperative environment the number of unfinished turns never exceeds the measure of the first state, unless detachment is blocked: another cluster under the name, one being deleted or with a conflicting taint, another Klusterlet, or a work record of another agent |
| `Detachment.RoundAsksOrWaits` | internal/controllers/provisioningrequest_seedgeneration_detachment.go:47-139 | an unfinished round asks for something new or waits for an answer that is owed, so there is no deadlock without work records of another agent |
| `Detachment.TurnFalls` | internal/controllers/provisioningrequest_seedgeneration_detachment.go:47-139 | controller and environment together lower the measure in every unfinished turn that is not blocked, and no turn blocks it |
| `Detachment.BlockedStays` | internal/controllers/provisioningrequest_seedgeneration_detachment.go:185-363 | the condition is needed: a reconcile is blocked after it exactly if it was before, for any of the five causes, and a blocked one is never the last, whether it waits or refuses |
| `Detachment.TouchedInOrder` | internal/controllers/provisioningrequest_seedgeneration_detachment.go:47-139 | an object is touched only on the fenced cluster with the pinned UID, after everything of the earlier kinds is gone or paused; a Klusterlet only if it is the pinned one and all import works have let go, a work record only if all are of the pinned agent |
| `Detachment.DoneMeansDetached` | internal/controllers/provisioningrequest_seedgeneration_detachment.go:97-139 | when a round is done no agent, record, CRD, namespace, add-on or observability secret is left and add-on configs are paused |
| `Detachment.Detacher.DeleteKlusterlet` | internal/controllers/provisioningrequest_seedgeneration_detachment.go:185-222 | every delete of a Klusterlet is one that the same reconcile read as safe: pinned UID, no other Klusterlet, configs paused, no add-ons, import works read-only and acknowledged |
| `Detachment.Detacher.RemoveKlusterlet` | internal/controllers/provisioningrequest_seedgeneration_detachment.go:185-222 | import works are paused before the Klusterlet is touched; another Klusterlet is refused with nothing changed |
| `Detachment.Detacher.CleanupAppliedWorks` | internal/controllers/provisioningrequest_seedgeneration_detachment.go:339-383 | stops at finalizers, waits for works of other agents, otherwise asks all to go |
| `Detachment.Detacher.Fence` | internal/controllers/provisioningrequest_seedgeneration_detachment.go:227-268 | refuses exactly another or a deleted ManagedCluster and a conflicting taint; otherwise it is fenced |
| `Detachment.Detacher.WorkOn` | internal/controllers/provisioningrequest_seedgeneration_detachment.go:148-181 | one stage: asks every fresh object of a kind, is finished when none is in the way |
| `Detachment.Detacher.AskAll` | internal/controllers/provisioningrequest_seedgeneration_detachment.go:360-379 | the loop asks each listed object once, in any order, up to an error or finalizers |
| `Detachment.Detacher.CleanupSpoke` | internal/controllers/provisioningrequest_seedgeneration_detachment.go:107-133 | records, CRD, namespaces and secrets in this order |
| `Detachment.Detacher.Reconcile` | internal/controllers/provisioningrequest_seedgeneration_detachment.go:47-139 | all deletions stay safe under interference, and an undisturbed reconcile in which no call fails is exactly one pass: refused, or one round |
| `HardwareMatching.AssignmentMeans` | internal/controllers/provisioningrequest_hwprovision.go:490-530 | a host keeps the hardware it holds in its group; otherwise it gets the free hardware of its group with the least name, or nothing if there is none, and no other entry changes |
| `HardwareMatching.GroupOfRole` | internal/controllers/helpers.go:64-73 | in the legacy format the group is the first of the role |
| `HardwareMatching.RerunCompletesTheMatching` | internal/controllers/provisioningrequest_hwprovision.go:484-575 | stopping after any node and matching again from the beginning on the same hardware gives exactly the uninterrupted map |
| `HardwareMatching.MatchingKeepsAssignments` | internal/controllers/provisioningrequest_hwprovision.go:592-620 | existing assignments never change |
| `HardwareMatching.MatchingStaysInjective` | internal/controllers/provisioningrequest_hwprovision.go:484-535 | no host gets two hardware nodes, if hardware of rendered hosts is still in the group of the host |
| `HardwareMatching.HostWithTwoHardwareNodes` | internal/controllers/provisioningrequest_hwprovision.go:484-535 | without that assumption a host can end with two |
| `HardwareMatching.MatchingForgetsListOrder` | internal/controllers/helpers.go:22-49 | neither the groups nor the final map depend on the order of the API list |
| `HardwareMatching.NamesAreInputs` | internal/controllers/helpers.go:22-49 | distinct names in the list and in the cluster are all that matching asks for |
| `HardwareMatching.CollectNodeDetails` | internal/controllers/helpers.go:22-49 | sorted by name within each group; an error exactly if a node lacks its BMC |
| `HardwareMatching.RoleToGroupName` | internal/controllers/helpers.go:64-73 | the first group of each role |
| `HardwareMatching.Classify` | internal/controllers/provisioningrequest_hwprovision.go:484-498 | held hardware by group and host and free hardware in order, for any iteration order of the map |
| `HardwareMatching.KeysAreDistinct` | internal/controllers/provisioningrequest_hwprovision.go:492-494 | the joined key tells group and host apart when group names hold no slash |
| `HardwareMatching.Resolve` | internal/controllers/provisioningrequest_hwprovision.go:500-535 | the table lookup picks what the specification picks, and the tables keep agreeing with the map |
| `HardwareMatching.Request.UpdateHostMap` | internal/controllers/provisioningrequest_hwprovision.go:592-620 | one entry is added and persisted, or the write fails with or without effect |
| `HardwareMatching.Request.ApplyNodeConfiguration` | internal/controllers/provisioningrequest_hwprovision.go:457-590 | however it ends, the persisted map is the matching of a prefix of the nodes; if it ran through, of all, with each node's hardware reported and an error exactly if one has none; it stops only for a failed call or hardware without a boot interface |
| `HardwareMatching.Request.ProvisionHardware` | internal/controllers/provisioningrequest_hwprovision.go:457-590 | from the API list to the map: the persisted map is the matching of a prefix of the nodes on the groups of the list, and nothing is assigned if a node lacks its BMC; it stops only for that, a failed call or hardware without a boot interface |
| `HardwareMatching.BuildGroupSizes` | internal/controllers/provisioningrequest_hwprovision.go:782-867 | per group the hosts mapped to it or, in the legacy format, the nodes of its role |
| `HardwareMatching.CountRoles` | internal/controllers/provisioningrequest_hwprovision.go:789-806 | counts nodes by role |
| `HardwareMatching.CountGroups` | internal/controllers/provisioningrequest_hwprovision.go:808-812 | counts hosts by group in any order |
| `HardwareMatching.SizesCoverHosts` | internal/controllers/provisioningrequest_hwprovision.go:855-862 | in both formats the size of a group covers the hosts that will look for hardware in it |
| `HardwareMatching.NoNodeUnmatched` | internal/controllers/provisioningrequest_hwprovision.go:484-535 | groups as large as their hosts and assignments within the group leave no node unmatched |
| `HardwareMatching.SizedDeliveryMatchesAll` | internal/controllers/provisioningrequest_hwprovision.go:782-867 | delivery of the computed sizes therefore matches every node, for both formats |
| `NodeScaling.AccountingHolds` | internal/controllers/provisioningrequest_clusterinstall.go:767-945 | in every state of every run of matching, draining, scale-out, scale-in, swap and finalization the host map is injective, the fulfilled count does not exceed its size and every applied host holds hardware |
| `NodeScaling.ScaleInCountsRenderedNodes` | internal/controllers/provisioningrequest_clusterinstall.go:903-939 | when the scale-in branch marks provisioning completed the fulfilled count is the number of rendered nodes; otherwise it is smaller |
| `NodeScaling.ScaleInMissesUnfulfilled` | internal/controllers/provisioningrequest_clusterinstall.go:903-939 | a scale-in undercounts the rendered nodes by exactly the hosts that had hardware without being fulfilled, so it counts them right exactly if there were none |
| `NodeScaling.CountBelowZero` | internal/controllers/provisioningrequest_clusterinstall.go:767-916 | for every two or more fulfilled workers and every greater number of workers that were matched and withdrawn, a run that ends in the negative difference, after which no scale-out and no scale-in is detected, and the count stays, before a finalization |
| `NodeScaling.TwoPassesConverge` | internal/controllers/provisioningrequest_clusterinstall.go:767-945 | from every state with hardware for the rendered hosts, whatever is added, removed or swapped, two passes in which the outside cooperates leave a completed cluster in which exactly the rendered hosts hold hardware and are counted, unless the count is not positive |
| `NodeScaling.CompletedMeansCounted` | internal/controllers/provisioningrequest_clusterinstall.go:767-945 | a cluster fulfilled before is reported completed only if all rendered nodes are counted and only rendered hosts hold hardware |
| `NodeScaling.ScaleOutIsDetected` | internal/controllers/provisioningrequest_clusterinstall.go:772-847 | more rendered than fulfilled nodes: in progress with the old count until all are ready, then all are counted |
| `NodeScaling.ScaleInIsDetected` | internal/controllers/provisioningrequest_clusterinstall.go:849-935 | hosts with hardware that are not rendered: in progress until they are gone and deallocated, then forgotten and subtracted |
| `NodeScaling.CountRemoved` | internal/controllers/provisioningrequest_clusterinstall.go:853-863 | the number of allocated hosts that are not rendered, in any order |
| `NodeScaling.ForgetRemoved` | internal/controllers/provisioningrequest_clusterinstall.go:1687-1731 | through the reversed map exactly the entries of rendered hosts are kept |
| `NodeScaling.Installer.MatchHardware` | internal/controllers/provisioningrequest_hwprovision.go:457-590 | the hardware phase extends the map by a matching of the listed hardware; if it completes every rendered host has hardware, and it completes unless a call fails or the list does not do |
| `NodeScaling.Installer.ReconcileNodes` | internal/controllers/provisioningrequest_controller.go:232-262 | drain, hardware and installation in this order: it drains exactly while nodes have to leave, then matches, and reports a fulfilled cluster completed only with exactly the rendered hosts on hardware and counted |
| `NodeScaling.Installer.ScaleOut` | internal/controllers/provisioningrequest_clusterinstall.go:774-847 | counts the rendered nodes exactly if all are ready; otherwise the cluster is in progress with the old count |
| `NodeScaling.Installer.HandleScaleInDrain` | internal/controllers/provisioningrequest_clusterinstall.go:224-331 | waits exactly while applied hosts with hardware have to leave a completed cluster and are not drained and pruned; the intermediate ClusterInstance keeps the applied hosts that are rendered or hold hardware |
| `NodeScaling.Installer.HandleClusterInstallation` | internal/controllers/provisioningrequest_clusterinstall.go:744-945 | the history stays a run whatever writes fail; if none fails the status is that of a pass, for every report from outside; a completed scale-in persisted the rendered count, although it counts from a possibly stale base; with a count that is not positive only the condition can change |
| `NodeScaling.Installer.ScaleIn` | internal/controllers/provisioningrequest_clusterinstall.go:865-945 | waits in progress until nodes are gone and deallocated, then forgets and subtracts them, and completes exactly with the rendered count |
| `NodeScaling.Installer.FinalizeProvisioning` | internal/controllers/provisioningrequest_controller.go:1386-1408 | fulfilment records the number of applied hosts |
| `NodeScaling.ValidateScaleWorkerOnly` | internal/controllers/provisioningrequest_clusterinstall.go:1320-1378 | accepted changes add and remove only workers, never on a single-node cluster, and equal host sets have equal roles; a rejection has one of these reasons, or a role change in a swap of equal size |
| `NodeScaling.CompareRoles` | internal/controllers/provisioningrequest_clusterinstall.go:1325-1342 | equal host sets are compared completely; otherwise the result may depend on the order of the map |
| `PolicyConfig.CompletedExactly` | internal/controllers/provisioningrequest_clusterconfig.go:197-210 | with a determined readiness Completed is reported, and the clock cleared, exactly if some policy of the template exists, every one complies and no expected one is missing |
| `PolicyConfig.MissingExactly` | internal/controllers/provisioningrequest_clusterconfig.go:190-233 | Missing is reported exactly if there is nothing to apply, or the cluster is ready, an expected policy is missing and all expected ones only inform |
| `PolicyConfig.OutOfDateExactly` | internal/controllers/provisioningrequest_clusterconfig.go:241-248 | OutOfDate is reported exactly if the cluster is ready, nothing is missing, something does not comply and all policies only inform |
| `PolicyConfig.ClusterNotReadyExactly` | internal/controllers/provisioningrequest_clusterconfig.go:212-223 | ClusterNotReady is reported exactly if the cluster is not ready and the configuration is neither complete nor empty; the clock goes on |
| `PolicyConfig.OutstandingMeans` | internal/controllers/provisioningrequest_clusterconfig.go:225-253 | the verdict depends on the clock exactly if the cluster is ready and a policy is missing while an expected one enforces, or none is missing, one does not comply and one enforces |
| `PolicyConfig.UnknownReadiness` | internal/controllers/provisioningrequest_clusterconfig.go:212-219 | without a determined readiness nothing changes unless the configuration is complete or empty |
| `PolicyConfig.TimedOutExactly` | internal/controllers/provisioningrequest_clusterconfig.go:531-586 | with outstanding configuration a reconcile of any run reports TimedOut exactly if the clock was running and has exceeded the timeout, and InProgress otherwise |
| `PolicyConfig.TimedOutMeansElapsed` | internal/controllers/provisioningrequest_clusterconfig.go:531-586 | in every run TimedOut means that the clock was started by an earlier InProgress reconcile, runs since then without a Completed, Missing or OutOfDate verdict, and has exceeded the timeout |
| `PolicyConfig.ClockRunsAfterTwo` | internal/controllers/provisioningrequest_clusterconfig.go:531-586 | with outstanding enforced configuration the clock runs at the latest after two reconciles; one is lost exactly after Missing or ClusterNotReady without a clock |
| `PolicyConfig.SettledRequeues` | internal/controllers/provisioningrequest_clusterconfig.go:121-125 | a reconcile that reports Completed, OutOfDate or TimedOut requeues exactly if readiness could not be determined, the report is an old one and configuration is outstanding |
| `PolicyConfig.StaleTimeoutRequeues` | internal/controllers/provisioningrequest_clusterconfig.go:180-219 | an input on which it does |
| `PolicyConfig.ZtpDoneStays` | internal/controllers/provisioningrequest_clusterconfig.go:358-377 | ZTP Done is never taken back |
| `PolicyConfig.ZtpDoneMeans` | internal/controllers/provisioningrequest_clusterconfig.go:358-377 | and was set by a reconcile that found the cluster provisioned and all policies compliant |
| `PolicyConfig.RequeuesExactly` | internal/controllers/provisioningrequest_clusterconfig.go:121-125 | a reconcile requeues exactly for enforced configuration that does not comply or is missing, unless it reports that this has timed out |
| `PolicyConfig.ScanPolicies` | internal/controllers/provisioningrequest_clusterconfig.go:75-104 | compliance and remediation of exactly the policies of the template |
| `PolicyConfig.ScanExpected` | internal/controllers/provisioningrequest_clusterconfig.go:129-150 | whether an expected policy is missing and whether all of them only inform |
| `PolicyConfig.ConfigTask.HasTimedOut` | internal/controllers/provisioningrequest_clusterconfig.go:531-586 | the decision and the new clock for every previous condition |
| `PolicyConfig.ConfigTask.UpdateConfigurationApplied` | internal/controllers/provisioningrequest_clusterconfig.go:169-254 | the verdict, condition and clock for every observation; an unknown readiness changes nothing |
| `PolicyConfig.ConfigTask.HandlePolicyConfiguration` | internal/controllers/provisioningrequest_clusterconfig.go:32-125 | a step of the run whatever happens to its writes; on success the requeue is exactly for unconverged configuration that has not timed out |
| `Deletion.StagesNeverGoBack` | internal/controllers/provisioningrequest_controller.go:1187-1323 | on every deletion run, over all its reconciles, seed objects, force-detach, hardware, cluster, namespaces and finalizer follow each other and never go back |
| `Deletion.DeletionEnds` | internal/controllers/provisioningrequest_controller.go:1187-1323 | with other parties that finish what is being deleted, the number of unfinished passes never exceeds the measure of the first world, for any number of seed objects and namespaces |
| `Deletion.PassAsksOrWaits` | internal/controllers/provisioningrequest_controller.go:1187-1323 | an unfinished pass asks for the deletion of something new or waits for something that is being deleted |
| `Deletion.NamespaceAfterInstance` | internal/controllers/provisioningrequest_controller.go:1256-1322 | a namespace delete follows the end of the hardware request, and that of the ClusterInstance unless the cluster was never recorded |
| `Deletion.NamespaceDeletedExactly` | internal/controllers/provisioningrequest_controller.go:1256-1322 | once the hardware is gone, a run can go on with the delete of a namespace exactly if the ClusterInstance is gone or the cluster was never recorded |
| `Deletion.UnrecordedInstanceRun` | internal/controllers/provisioningrequest_controller.go:1256-1279 | a run, from the delete of the hardware request on, that ends in the delete of the namespace while the ClusterInstance exists |
| `Deletion.UnrecordedInstance` | internal/controllers/provisioningrequest_controller.go:1256-1279 | in that case a pass of the reconciler that nobody disturbs and no call of which fails does so |
| `Deletion.Finalizer.CleanupSeedObjects` | internal/controllers/provisioningrequest_seedgeneration.go:467-526 | clean means no seed object is left; otherwise an undisturbed pass without failed calls has all of them being deleted |
| `Deletion.Finalizer.ForceDetach` | internal/controllers/provisioningrequest_controller.go:1203-1230 | the hardware request is reached only with force-detach enabled, with skip-cleanup, or with nothing to detach |
| `Deletion.Finalizer.DeleteDependents` | internal/controllers/provisioningrequest_controller.go:1232-1323 | each kind is waited for before the next is touched, and an undisturbed pass without failed calls has the first kind that is left being deleted |
| `Deletion.Finalizer.MarkNamespaces` | internal/controllers/provisioningrequest_controller.go:1297-1320 | the loop deletes each listed namespace that is not being deleted yet and touches nothing else |
| `Deletion.Finalizer.DeleteNamespaces` | internal/controllers/provisioningrequest_controller.go:1281-1323 | undisturbed and without error every namespace is being deleted afterwards |
| `Deletion.Finalizer.HandleDeletion` | internal/controllers/provisioningrequest_controller.go:1187-1323 | every action is in order and complete means nothing is left; an undisturbed pass without failed calls deletes exactly the first kind that is left and is complete exactly if none was; with the hardware gone it leaves the namespaces alone exactly if a recorded ClusterInstance exists |
| `Deletion.Finalizer.HandleFinalizer` | internal/controllers/provisioningrequest_controller.go:1144-1180 | the finalizer is gone only when seed objects, hardware, cluster and namespaces are, and an undisturbed reconcile without failed calls removes it exactly then |
| `NodeDetails.DetailsSurvive` | internal/controllers/provisioningrequest_clusterinstall.go:1810-1955 | extracting from the re-rendered list finds the same hosts and, for a host of the existing list, its BMC address, credentials, boot MAC and host reference again, and its interface addresses exactly if the rendered network is well-formed or there are none; other hosts and interfaces keep theirs |
| `NodeDetails.CarriedTwice` | internal/controllers/provisioningrequest_clusterinstall.go:1879-1955 | carrying the same details over twice changes nothing in the list the second time |
| `NodeDetails.CarryOver` | internal/controllers/provisioningrequest_clusterinstall.go:98-106 | extraction from the existing and assignment to the rendered list; it stops exactly on an unreadable existing list |
| `NodeDetails.AssignedIsExtracted` | internal/controllers/provisioningrequest_clusterinstall.go:1879-1955 | the same for any details; where none were assigned the rendered ones stay |
| `NodeDetails.AssignedTwice` | internal/controllers/provisioningrequest_clusterinstall.go:1879-1955 | assigning the same details twice changes nothing the second time |
| `NodeDetails.UpdatedMacs` | internal/controllers/provisioningrequest_clusterinstall.go:1930-1951 | every given address is found again under its name and other interfaces keep theirs |
| `NodeDetails.AssignInterfaces` | internal/controllers/provisioningrequest_clusterinstall.go:1930-1951 | in place for existing interfaces and appended for others, in any order of the map |
| `NodeDetails.AssignNode` | internal/controllers/provisioningrequest_clusterinstall.go:1894-1952 | one node; a malformed network is left alone |
| `NodeDetails.AssignNodeDetails` | internal/controllers/provisioningrequest_clusterinstall.go:1879-1955 | all nodes in place; other hosts and malformed nodes are untouched |
| `NodeDetails.ExtractNodeDetails` | internal/controllers/provisioningrequest_clusterinstall.go:1810-1874 | the details of the last node of every host name; it stops exactly if a node or an interface of a named node is not an object |
| `NodeDetails.ReadMacs` | internal/controllers/provisioningrequest_clusterinstall.go:1850-1868 | the last address of every interface name |
| `Mirrors.NormalizeMeans` | internal/controllers/provisioningrequest_seedgeneration_mirrors.go:206-242 | the result is strictly sorted by source; each entry has exactly the mirrors named for its source, once each, and NeverContactSource exactly if one entry says so |
| `Mirrors.NormalizeIsComplete` | internal/controllers/provisioningrequest_seedgeneration_mirrors.go:206-215 | every non-empty source has an entry |
| `Mirrors.NormalizeIdempotent` | internal/controllers/provisioningrequest_seedgeneration_mirrors.go:206-242 | normalising twice is normalising once exactly if no source and no mirror ends, after outer spaces, in a slash that follows a slash or a space |
| `Mirrors.NormalizeTidyConcat` | internal/controllers/provisioningrequest_seedgeneration_mirrors.go:206-242 | normalising two lists first and together afterwards equals normalising them together exactly under the same condition |
| `Mirrors.TrimIsFinal` | internal/controllers/provisioningrequest_seedgeneration_mirrors.go:211-228 | one trimming is final exactly if the text is not ragged in this sense |
| `Mirrors.RaggedExample` | internal/controllers/provisioningrequest_seedgeneration_mirrors.go:211-228 | a text that is trimmed further the second time |
| `Mirrors.AbsorbEntry` | internal/controllers/provisioningrequest_seedgeneration_mirrors.go:216-232 | one more entry for a known source |
| `Mirrors.BySource` | internal/controllers/provisioningrequest_seedgeneration_mirrors.go:209-233 | the map holds for every source what the entries say about it |
| `Mirrors.NormalizeSources` | internal/controllers/provisioningrequest_seedgeneration_mirrors.go:206-242 | the loops compute the normalised list for any iteration order of the map |
| `TagMirrors.SourceMatchesExactly` | internal/controllers/provisioningrequest_seedgeneration_mirrors.go:355-370 | a source written as registry and repository matches exactly the images of that registry, the names of Docker Hub being one, in that repository or below it |
| `TagMirrors.RegistryMatchesExactly` | internal/controllers/provisioningrequest_seedgeneration_mirrors.go:355-370 | a source written as a registry matches exactly the images of that registry |
| `TagMirrors.WildcardMatchesExactly` | internal/controllers/provisioningrequest_seedgeneration_mirrors.go:357-362 | a wildcard matches exactly the registries that end in a dot and its domain, with or without a repository |
| `TagMirrors.MatchesIgnoresCase` | internal/controllers/provisioningrequest_seedgeneration_mirrors.go:356-356 | a source and its lower-case form match the same images, and one slash at its end does not matter |
| `TagMirrors.CaseDoesNotMatter` | internal/controllers/provisioningrequest_seedgeneration_mirrors.go:356-356 | sources that differ only in the case of letters match the same images |
| `TagMirrors.NormalizedHost` | internal/controllers/provisioningrequest_seedgeneration_preflight.go:997-1011 | of lower-case hosts only the names of Docker Hub are replaced |
| `TagMirrors.CandidatesAreLongest` | internal/controllers/provisioningrequest_seedgeneration_mirrors.go:380-396 | the candidates are exactly the matching sources that no matching source exceeds in length |
| `TagMirrors.AddedSourceIsIgnored` | internal/controllers/provisioningrequest_seedgeneration_mirrors.go:380-396 | a source that does not match or is shorter changes nothing, wherever it is added |
| `TagMirrors.RemainderIsWholeSegments` | internal/controllers/provisioningrequest_seedgeneration_mirrors.go:409-416 | what is left of the repository is empty or begins a segment, and completes the source's repository: segments are never glued |
| `TagMirrors.UnchangedExactly` | internal/controllers/provisioningrequest_seedgeneration_mirrors.go:397-399 | an image is left as it is exactly if no source matches it |
| `TagMirrors.RewriteReads` | internal/controllers/provisioningrequest_seedgeneration_mirrors.go:409-418 | the mirror takes the place of registry and repository of the source, or of the registry, and the rest of the path and the tag stay |
| `TagMirrors.ResolvesToRightPath` | internal/controllers/provisioningrequest_seedgeneration_mirrors.go:399-418 | the reference is the right one for the mirror that is used exactly if its source and the first candidate name the same repository, as when the first has a mirror |
| `TagMirrors.WrongPathExample` | internal/controllers/provisioningrequest_seedgeneration_mirrors.go:399-418 | sources on which it is not |
| `TagMirrors.Scan` | internal/controllers/provisioningrequest_seedgeneration_mirrors.go:382-395 | the loop keeps the longest matches |
| `TagMirrors.FindCandidates` | internal/controllers/provisioningrequest_seedgeneration_mirrors.go:380-396 | the nested loops over sets and sources keep exactly the candidates |
| `TagMirrors.ResolveTagMirror` | internal/controllers/provisioningrequest_seedgeneration_mirrors.go:372-422 | the loops compute the specified resolution over all mirror sets |
| `Screen.ApplyDifferentialUpdate` | dev-tools/crd-watcher/tui.go:296-339 | rewriting only changed lines leaves the rows of a full redraw |
| `Screen.ShowsIsPainted` | dev-tools/crd-watcher/tui.go:595-604 | the rows shown are those after clearing and printing |
| `Screen.BuildSection` | dev-tools/crd-watcher/tui.go:540-587 | a section adds its title, header and first events, or a note that there are none; it stays within the rows left and is cut exactly if some events within the limit are missing, which happens only when the rows are used up |
| `Screen.BuildScreen` | dev-tools/crd-watcher/tui.go:533-592 | the content is the header, every shown section in order and the status line, which says exactly whether a section or an event within the limit of eleven per type is left out; from four rows on it fits the terminal, and nothing is left out while a section fits |
| `Screen.SectionOnScreen` | dev-tools/crd-watcher/tui.go:545-587 | on every such screen each section stands at its place: title, header, then its first events in order |
| `Screen.StartsFollow` | dev-tools/crd-watcher/tui.go:545-587 | the sections follow each other without gaps or overlaps |
| `Screen.Watcher.RedrawScreen` | dev-tools/crd-watcher/tui.go:511-610 | after every redraw without errors, on at least four rows, the rows are those of a full clear and draw of the screen of the given sections, whatever was drawn before |
| `Screen.Watcher.DrawErrorScreen` | dev-tools/crd-watcher/tui.go:613-690 | an error screen, even one that scrolls, never spoils a later screen |
| `Screen.TakeEvent` | dev-tools/crd-watcher/tui.go:155-184 | the loop replaces, removes or appends the event of a resource |
| `Screen.UpsertMeans` | dev-tools/crd-watcher/tui.go:155-189 | a resource is shown once, with its latest state, or not at all once deleted; others keep theirs |
| `Screen.UpsertPlaces` | dev-tools/crd-watcher/tui.go:155-182 | a known resource keeps its place in the list and a new one comes last |
| `Screen.LatestAreNewest` | dev-tools/crd-watcher/tui.go:191-194 | the limit keeps exactly the newest events, in order |
| `Screen.Watcher.FormatEvent` | dev-tools/crd-watcher/tui.go:148-206 | the buffer after an event, limited to the latest: at most the oldest event is given up, never the new one; it stops with an invalid slice exactly on a terminal of less than six rows |
| `Screen.CompactInPlace` | dev-tools/crd-watcher/tui.go:433-444 | in-place compaction keeps exactly the events of other types, in order |
| `Screen.KeepMembers` | dev-tools/crd-watcher/tui.go:433-444 | which are exactly those of another type |
| `Screen.KeepIsUnique` | dev-tools/crd-watcher/tui.go:433-444 | and still unique |

## Left out

- SeedTask.Task.DetachAgents: makes its changes in any order; their order is the subject of `Detachment`, which has its own state.
- SeedTask.Task.UpdateProgress: messages are not modelled, only reasons.
- SeedTask.Task.EnsureSnapshot: the set of snapshot UIDs is one opaque value, and an incomplete snapshot is only retried.
- SeedTask.Task.CompleteUploadCleanup: the removal of files over SSH is not modelled, only when it is recorded.
- SeedTask.Task.ToolsPreflight: Pods, image tools and their output are reduced to complete, failed or not yet.
- SeedTask.Task.Fail: that cleanup is ever finished depends on the spoke being reachable and is not claimed; only that the run is not dropped before.
- SeedTask.Task.FinishCleanup: the objects of workspace and snapshot are counted, and were gone when they were listed; who creates them, and late landing of such Creates, is not modelled.
- Detachment.Detacher.Reconcile: editing the monitoring configuration, which nothing waits for, and the resource lists inside import works.
- HardwareMatching.Request.ApplyNodeConfiguration: BMC, interface and boot MAC values of the matched hardware; the model records which hardware a node gets.
- NodeScaling.Installer.HandleClusterInstallation: CSR approval and messages; how readiness, drain, pruning and deallocation are found out is an input.
- NodeScaling.ValidateScaleWorkerOnly: an in-place role change hidden in a swap of equal size, which the code finds or not depending on map order.
- Deletion.Finalizer.CleanupSeedObjects: the order inside seed cleanup while a request is deleted, including spoke cleanup under skip-cleanup.
- TagMirrors.ResolveTagMirror: parsing of image references and the final validity check of the resolved one; a registry written as a URL.
- Mirrors.NormalizeSources: Unicode spaces; strings are sequences of bytes with ASCII spaces and case.
- Screen.Watcher.FormatEvent: periodic removal of resources that no longer exist.
- Screen.Watcher.RedrawScreen: grouping and sorting of events into sections, colours, column widths, wrapping of long lines, and the moment between setting an error and forcing a redraw, which are one step here.
- Deletion of a request during a seed run is not part of the seed protocol.
- The fingerprint of the Job is an opaque value with equality; nothing is claimed about collisions.
- Status times other than the start of a run and `NonCompliantAt` are not truncated to seconds.
- Kubernetes plumbing, Pod, Job and PVC specifications, SSH, TLS, OAuth, log redaction and YAML.
- The other controllers, ClusterTemplate validation and hardware manager plugins: mostly single-branch status updates.
