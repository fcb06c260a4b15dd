# Volume snapshot mover: a model of the two reconcilers

The volume snapshot mover copies the data of CSI snapshots to and from object storage. A
VolumeSnapshotBackup (VSB) clones a snapshot into the protected namespace and lets a VolSync
ReplicationSource upload it; a VolumeSnapshotRestore (VSR) lets a ReplicationDestination download it
and records the snapshot that results. This project models both reconcilers as step-based protocols
over a cluster, and proves what holds at every API write, over every run, for any number of custom
resources and any pattern of failing calls.

## How it is laid out

| files | what they hold |
|---|---|
| `Prelude`, `Api` | optional values, sums over maps; phases, batching, conditions, and the API server's compare-and-swap |
| `BackupModel`, `RestoreModel` | one custom resource with the objects it owns, and each step of a pass as a function on that record |
| `BackupSafety`, `BackupPass`, `RestoreSafety` | what every write and every pass keeps |
| `BackupSlots`, `BackupDeletion`, `BackupQueue`, `BackupFailures`, `BackupThrough`, `BackupAgain`, `RestoreSlots`, `RestoreDeletion` | the count of processing resources, how it drifts, and what a full queue and failing calls do |
| `BackupContents`, `RestoreContents` | what every single write writes, in terms of keys, names and texts |
| `BackupVerdict`, `BackupOutcome`, `RestoreVerdict`, `BackupIdempotence` | exactly when a pass starts, fails or finishes a resource, takes it up, and asks to be called again; repeated creation |
| `Fairness`, `BackupProgress`, `BackupTermination`, `BackupOwing`, `RestoreProgress`, `RestoreTermination`, `RestoreOwing` | liveness |
| `BackupWrites`, `RestoreWrites` | where a pass stops when a call fails |
| `BackupRuns`, `RestoreRuns`, `RestoreQueue` | any number of resources: runs of passes, cluster moves, creations and deletions |
| `BackupChain`, `BackupSources`, `BackupRecords`, `BackupClasses`, `RestoreRecords` | over runs, where everything that is live or recorded came from, and the way from a backup's repository to a restore's secret |
| `BackupStore`, `BackupCluster`, `RestoreStore`, `RestoreCluster` | the API server's content: named objects with labels, of which the records are views |
| `BackupController`, `RestoreController` | the reconcilers as the source has them: objects whose methods read copies and write them back, each proved to do to the request's resource what the record-level step says and nothing to any other |
| `Secrets`, `Decimal`, `Options` | the credential variables, the retain policy, the repository path, and the storage options |

The methods of the two `Reconciler` classes and the step functions of the two models are two forms of
the same code: the class has the named objects, copies, versions and counters, the functions are what
the theorems are about, and the contract of each method ties one to the other. The `trail` of a step is
the list of records after each of its writes; a call that fails cuts it short, so that each of its
points is also the end of a pass in which some more calls fail (`EveryWriteIsAnEnd`), and what the
reconcilers' contracts say of every pass they say of every write. What the step functions compute is
pinned down from outside: `EveryWriteIsRight` says of each write what it must be, and the verdict,
outcome and liveness theorems say when it must come.

## Standing assumptions

- One worker per controller, no restart, reads see the latest write, and `DeleteAllOf` removes at once
  what it selects, or nothing when it fails.
- The environment moves between passes: CSI and VolSync change readiness, binding and sync status;
  users create and delete. Within a pass the readings of `Env` are constant, and `faults` is the set of
  calls that are refused. A custom resource therefore does not vanish during its own pass.
- VSBs have distinct names and distinct source contents in the whole cluster, because content clones are
  cluster-scoped; `BackupStore.CleanupSparesExactly` says what happens otherwise. VSRs have distinct
  names within a protected namespace. No other agent creates objects with the owned names, and a VSB and
  a VSR that share a protected namespace do not share a name (their secrets would).
- A ReplicationSource or ReplicationDestination that reports a finished sync goes on reporting it.
- No other client updates a custom resource.

## Where the code does not do what it seems to

These are consequences of the code as written, each with the condition under which it happens.

- The limit on concurrent restores (docs/design/batching.md, lines 21-46) does not bound the data that
  is moved: a restore is given its ReplicationDestination in the very pass that queues it. It holds as
  long as no pass takes up a new restore while the queue is full (`RestoreQueue.LimitOnDestinations`),
  and behind a full queue not at all (`RestoreQueue.NoLimitOnDestinations`,
  `RestoreQueue.LimitFails`). For backups
  it holds (`BackupRuns.SlotAccounting`), because a queued backup is stopped before its content clone is
  ready.
- Deletion can give a slot back twice (`BackupDeletion.SlotGivenBack`, `RestoreDeletion.SlotGivenBack`):
  the pass's own status write makes its finalizer write stale, and the retry takes from the count again.
- A deletion waits behind a full queue like everything else (`BackupQueue.DeletionEnds`), and Failed
  backups, which keep their slots, can make it wait for ever (`BackupQueue.DeletionNeverEnds`).
  Without deletions, and as long as failed backups leave a slot free, all others complete
  (`BackupTermination.EveryBackupCompletes`).
- An API error while listing snapshot or storage classes marks a backup Failed for good, whereas an empty
  content name does so only if reading a content without a name succeeds (`BackupVerdict.FailedByValidation`).
- The branch that marks a resource Failed on a synchronisation error is never taken
  (`Api.SyncErrorNeverSeen`), so an error of the data movement is waited for.
- A batch size that does not parse fails the pass, but the variable keeps the number that the parser
  returned, and later passes work with it (`BackupFailures.BadBatchSizeStays`).
- A cleanup that fails halfway leaves a backup in the phase Cleanup without its ReplicationSource
  (`BackupFailures.CleanupStopsHalfway`). Later passes build again what was deleted, and when it completes
  once more (`BackupAgain.HalfCleanedCompletesAgain`) it takes from the count once more
  (`BackupFailures.SecondCompletion`, `BackupAgain.CompletesTwice`).
- The snapshot class that a backup records for its restore is written before the content is cloned. If the
  clone fails and the original's class changes, clone and record differ (`BackupClasses.ClassesDiffer`);
  `BackupClasses.RecordedClass` says exactly when they agree. The ReplicationSource has the recorded one.

## Model

| member | source | states |
|---|---|---|
| Api.SyncErrorNeverSeen | controllers/replicationsource.go:215-222 | The condition kept as progress can never carry the error reason, so the branch at line 257 that would mark a backup Failed on it (and its twin for restores) is dead |
| Api.ScanConditions | controllers/replicationsource.go:212-222 | The scan keeps the last condition whose status is false and the last one whose reason is a running sync, each independently of the other |
| Api.LastFalseMeans | controllers/replicationsource.go:215-218 | What the scan keeps as completed is the condition at the last index with status false, or the empty condition if there is none |
| Api.LastSyncMeans | controllers/replicationsource.go:219-221 | What it keeps as progress is the condition at the last index whose reason is a running sync, or the empty condition if there is none |
| BackupController.Reconciler.constructor | controllers/volumesnapshotbackup_controller.go:51-52 | A controller that starts beside an empty cluster is in the initial state of every run, with the invariants that each pass requires |
| BackupController.Reconciler.UpdateStatus | controllers/common.go:626-629 | A status update is a compare-and-swap on the version of the caller's copy; a refused one changes nothing, an accepted one changes this backup only, and one that changes nothing keeps the version |
| BackupController.Reconciler.ValidateVolumeSnapshotMoverBackup | controllers/validator.go:19-84 | Writes Failed on an invalid backup and the start time on a valid one that has none; every read error ends the pass instead, except an error of listing the classes, which counts as invalid |
| BackupController.Reconciler.RecordSnapshotClass | controllers/volumesnapshot.go:181-191 | The snapshot class is written to the status once and not again |
| BackupController.Reconciler.MirrorVolumeSnapshotContent | controllers/volumesnapshot.go:20-86 | Clones the original content with the handle and class it has now, only if there is no clone yet, and records the clone's class if none is recorded; an original that is not ready is waited for; a failed create keeps the class that was recorded before it |
| BackupController.Reconciler.WaitForClonedVolumeSnapshotContentToBeReady | controllers/volumesnapshot.go:253-288 | Goes on whether or not the clone is ready, changing nothing |
| BackupController.Reconciler.MirrorVolumeSnapshot | controllers/volumesnapshot.go:88-151 | Creates the snapshot clone under the name that the content clone refers to, once the content clone is ready, and at most once |
| BackupController.Reconciler.WaitForClonedVolumeSnapshotToBeReady | controllers/volumesnapshot.go:211-251 | Waits for the snapshot clone to exist, not for it to be ready; an error of reading it is waited for too |
| BackupController.Reconciler.MirrorPVC | controllers/pvc.go:20-170 | Creates the claim clone once, from a ready snapshot clone, with the larger of the two sizes and with storage class and access modes from the config map for the source claim's class; the source claim's data goes to the status on every pass, before the create and also when that fails |
| BackupController.Reconciler.BindPVCToDummyPod | controllers/pvc.go:172-275 | Creates the pod that binds the claim clone, once, and only if the claim exists |
| BackupController.Reconciler.CreateVSBResticSecret | controllers/restic.go:36-149 | Creates or rebuilds the secret from the user's secret and the package variables, and then records the repository path that the stored secret carries; for a provider it does not know the secret keeps the data it had |
| BackupController.Reconciler.IsPVCBound | controllers/pvc.go:333-367 | Waits until the claim clone is bound |
| BackupController.Reconciler.CreateReplicationSource | controllers/replicationsource.go:21-189 | Creates the ReplicationSource once, on the claim clone and the controller's secret, with retain policy, prune interval and schedule parsed from that secret (else the backup's own manual trigger) and volume and cache options from the config map for the recorded class; numbers that do not parse are an error on every pass; a later pass may only add the custom CA |
| BackupController.Reconciler.DeleteOwned | controllers/cleanup.go:67-73 | The loop deletes the six kinds in order by label and stops at the first failing call, having erased exactly the kinds before it from this backup and nothing of any other |
| BackupController.Reconciler.MarkCompleted | controllers/cleanup.go:75-82 | The phase Completed is written last and only on a backup that is not being deleted |
| BackupController.Reconciler.CleanBackupResources | controllers/cleanup.go:22-85 | Cleanup waits for VolSync, is skipped for a Completed backup, writes Cleanup before it deletes, and leaves what a failing call left |
| BackupController.Reconciler.ReconcileBatch | controllers/common.go:126-133 | Runs the steps in order until one does not return true, for any list of them |
| BackupController.Reconciler.SetVSBQueue | controllers/common.go:728-758 | Admission on the copy read at the start of the pass: takes a slot and adds one to the count in the same breath, or neither; a backup just marked Queued still goes on |
| BackupController.Reconciler.UpdateVSBStatusPhase | controllers/common.go:591-615 | Writes phase, completion time and the source's sync time to a fresh copy and nothing else |
| BackupController.Reconciler.IsRepSourceCompleted | controllers/replicationsource.go:274-305 | True exactly when the manual trigger is not empty and echoed, or a scheduled source has both a last and a next sync time |
| BackupController.Reconciler.MarkDone | controllers/replicationsource.go:227-241 | Takes the backup out of the queue, then writes VolSync-done, then takes one from the count; a failing second write leaves the count as it was; always reports the backup as not complete |
| BackupController.Reconciler.SetStatusFromRepSource | controllers/replicationsource.go:191-272 | Chooses between completion, progress and waiting from the conditions and the echo, on a copy that keeps every other field |
| BackupController.Reconciler.SetVSBStatus | controllers/common.go:369-426 | PartiallyFailed on a failed Velero Backup whatever the phase; otherwise complete only in the phase VolSync-done with the source still there |
| BackupController.Reconciler.SetCondition | controllers/volumesnapshotbackup_controller.go:186-212 | The copy read at the start of the pass is written back only if no other write of the pass has moved the version |
| BackupController.Reconciler.RemoveFinalizerFrom | controllers/volumesnapshotbackup_controller.go:160-164 | Taking the finalizer off the copy read at the start removes the object, and only if that copy is current |
| BackupController.Reconciler.ReconcileDeleted | controllers/volumesnapshotbackup_controller.go:149-167 | Takes one from the count on a stored Queued or Processing status, each time it runs, before cleanup and whether or not that succeeds |
| BackupController.Reconciler.ReconcileLive | controllers/volumesnapshotbackup_controller.go:169-224 | Batch, condition and status in that order, whatever each of them returns; the last error wins and the batch's own error is dropped |
| BackupController.Reconciler.ReconcileAdmitted | controllers/volumesnapshotbackup_controller.go:137-184 | Admission comes before the test for deletion, so a deleted backup can wait behind a full queue |
| BackupController.Reconciler.Reconcile | controllers/volumesnapshotbackup_controller.go:78-224 | A pass over named, labelled objects keeps the cluster without strays, changes no other backup, keeps the invariants of every run, and is one step of the runs of BackupRuns, with the same counters and the same requeue decision |
| BackupStore.DeleteWrite | controllers/cleanup.go:50-73 | Deleting one kind by a backup's label takes it from that backup and leaves every other backup's objects, given names distinct in the whole cluster |
| BackupStore.CleanupSparesExactly | controllers/cleanup.go:50-73 | Without that assumption: cleanup leaves another backup as it was if and only if the names differ, or the other has nothing to lose; the content clones of a namesake in a different protected namespace are lost, because a namespace does not restrict the deletion of cluster-scoped objects |
| BackupStore.RemoveWrite | controllers/volumesnapshotbackup_controller.go:160-164 | Removing a backup that owns nothing leaves no object without a backup |
| BackupCluster.StoreFollows | controllers/volumesnapshotbackup_controller.go:78-167 | Every event of a run, passes included, can be followed on named objects, keeping the cluster without strays |
| BackupCluster.NoOrphansInAnyRun | controllers/cleanup.go:22-85 | In every run, whatever has been deleted and whichever calls have failed, some valid store holds the backups, and in each that does every labelled object of every kind belongs to a backup that exists and has the finalizer |
| BackupCluster.EveryObjectIsOwned | controllers/cleanup.go:50-73 | No orphans: each labelled object of each kind belongs to a backup that exists and still has the finalizer |
| BackupSafety.BatchKeeps | controllers/common.go:126-133 | From any step on, the writes of a batch form a path: each keeps the invariants and is one of the allowed changes |
| BackupSafety.DeleteAllKeeps | controllers/cleanup.go:23-30 | Deleting in this order never leaves a ReplicationSource, claim or snapshot clone whose supports are gone, wherever it stops |
| BackupSafety.CleanKeeps | controllers/cleanup.go:22-85 | Cleanup that succeeds leaves nothing owned; cleanup that is put off changes nothing |
| BackupSafety.FinishedMeans | controllers/replicationsource.go:212-305 | What the reconciler takes for a finished sync is one, and nothing else is: a scheduled source has both a last and a next sync time; a manual one has echoed the backup's name with -trigger, and its last condition with status false, by index, is a synchronizing one |
| BackupPass.ConditionKeeps | controllers/volumesnapshotbackup_controller.go:209-212 | The stale write-back changes nothing but the condition, so no field written by a step is reverted |
| BackupPass.PassIsSafe | controllers/volumesnapshotbackup_controller.go:78-224 | Every write of every pass keeps the invariants and advances the backup, whichever calls fail; a backup leaves the cluster only when it owns nothing |
| BackupPass.EveryWrite | controllers/volumesnapshotbackup_controller.go:172-184 | The phase automaton, write by write, and a ReplicationSource that exists has its claim, pod, snapshot, content and secret at every point of a pass |
| BackupPass.BatchFromStart | controllers/volumesnapshotbackup_controller.go:172-184 | A batch returns true only after it has cleaned up: the backup is then Completed and owns nothing |
| BackupPass.NoLostWakeUp | controllers/volumesnapshotbackup_controller.go:115-224 | A pass ends without error or requeue if and only if the backup is gone, or was found in a terminal phase, not deleted, and left alone |
| BackupVerdict.FailedByValidation | controllers/validator.go:19-69 | A pass leaves an admitted backup Failed if and only if validation rejects it, the write succeeds, and the same pass does not make it PartiallyFailed, which it does if and only if it finds the Velero Backup failed; an error of listing the classes rejects it for good |
| BackupVerdict.DoneWhenSynced | controllers/replicationsource.go:191-305 | A pass marks a backup done if and only if its own ReplicationSource has a finished sync, the Velero Backup has not failed, validation does not fail it in that pass, and no read or write on the way fails; in every other case it leaves the backup undone; VolSync-done takes the second write as well |
| BackupVerdict.StartedAndInProgress | controllers/replicationsource.go:243-254 | A pass stamps the start time if and only if there is none, validation goes through and the write does not fail; it makes a backup InProgress if and only if the source has not finished, its last running condition is true, and nothing on the way fails |
| BackupOutcome.PassQueues | controllers/common.go:728-758 | A waiting backup is taken up by a pass if and only if the count is below the batch size, and is put into the queue if and only if it is not and the backup is new, given that the calls up to there succeed; one that has been taken up never goes back |
| BackupOutcome.ReconciledTells | controllers/volumesnapshotbackup_controller.go:186-212 | The condition is false after a pass whose first read fails, and after one with valid inputs and no failing call it is true, or as before where the copy had become stale |
| BackupOutcome.PassAsksAgain | controllers/volumesnapshotbackup_controller.go:169-224 | A pass ends with an error if the Velero Backup is missing, failed or unreadable or validation fails the backup, and with the fixed interval if nothing of this is so and no call of the status step fails, whatever has failed in the batch |
| BackupOutcome.BatchIsRead | controllers/volumesnapshotbackup_controller.go:102-113 | In every run a batch size other than zero is the number that some pass read when none was known, unchanged since |
| BackupContents.EveryWriteIsRight | controllers/volumesnapshotbackup_controller.go:78-224 | Every write of every pass, whichever calls fail, in terms of keys, names and texts: it changes the status or one object; each verdict has its reason and its time; source claim, class and repository on the status are those read, cloned and stored; each new object carries the names, sizes, options, credentials and policy that the readings and the objects before it prescribe, and is made only once what it waits for is there |
| BackupContents.SecretStepRecords | controllers/restic.go:76-149 | Whenever the secret step returns true for a known provider, the path recorded on the status is the one in the stored secret: the user's repository without slashes at the end, protected namespace, backup name and claim name; options and credentials in it are the user's, key by key, else empty or what the variables held |
| BackupContents.PassLeaves | controllers/replicationsource.go:21-189 | A ReplicationSource after a pass was there before, with the same claim, or is built from what this very pass has read; a repository that changes, or a source that is new, means that this pass recorded the repository of the secret; a new content clone is of the class read from the original |
| BackupSlots.PassDriftLaw | controllers/common.go:728-758 | How far a pass moves the count away from the stored statuses, exactly, for every pass and every set of failing calls |
| BackupSlots.PassSettled | controllers/replicationsource.go:224-241 | Without deletions and failing cleanup calls, slots held and status agree after every pass, and a slot is taken only below the batch size |
| BackupRuns.ExecSound | controllers/volumesnapshotbackup_controller.go:78-224 | The invariants hold in every state of every run |
| BackupRuns.NoLostUpdates | controllers/volumesnapshotbackup_controller.go:87-94 | Between any two points of any run the batching status only moves forward, start time and snapshot class never change once set, and a terminal phase stays, with the whole status, until deletion |
| BackupRuns.CompletedMeansMoved | controllers/replicationsource.go:224-304 | In every run a backup marked done, so also a Completed one, had its own ReplicationSource report a finished sync at an earlier point: both sync times of a scheduled one, or its own trigger echoed with the last false condition, by index, a synchronizing one |
| BackupRuns.NoOrphans | controllers/volumesnapshotbackup_controller.go:127-167 | In every run a backup that goes owns nothing when last seen, and one without the finalizer owns nothing |
| BackupRuns.SlotAccounting | controllers/common.go:728-758 | In every run without deletions and failing cleanup calls, the counter is the number of Processing backups plus those marked done whose decrement has not run, and the batch size bounds both the Processing backups and the unfinished ReplicationSources |
| BackupRuns.DriftLaw | controllers/volumesnapshotbackup_controller.go:149-164 | The gap between counter and Processing backups changes only in the deletion branch, the completion branch, or when a Processing backup disappears, and by exactly so much |
| BackupDeletion.SlotGivenBack | controllers/volumesnapshotbackup_controller.go:149-164 | A failure-free deletion past admission takes two passes and gives back exactly the slot held if and only if the backup was done, was not batched, or was Processing and already in Cleanup; else one slot too many |
| BackupQueue.WaitingPass | controllers/volumesnapshotbackup_controller.go:137-149 | A deleted backup that a pass finds behind a full queue stays, with the slots it had, whichever calls fail |
| BackupQueue.DeletionEnds | controllers/volumesnapshotbackup_controller.go:137-167 | Over any events in which its own passes do not fail, a backup deleted before its admission is gone after its next pass if and only if some earlier pass found room for it |
| BackupQueue.DeletionNeverEnds | controllers/volumesnapshotbackup_controller.go:115-149 | Behind as many Failed backups as there are slots a deletion never ends, whatever passes, creations and answers follow, as long as no other backup is deleted and no cleanup fails |
| BackupQueue.QueueJams | controllers/volumesnapshotbackup_controller.go:115-149 | A run that leads into that state: one backup that fails validation, another one deleted before its admission, under a batch size of one |
| BackupThrough.CreationGoes | controllers/volumesnapshotbackup_controller.go:172-184 | The creation steps all go through once more for a backup that has its objects if and only if ten conditions hold of the backup and of what the pass reads, one for each step |
| BackupFailures.CleanupStopsHalfway | controllers/cleanup.go:57-82 | In every run, a pass over a moved backup leaves it in Cleanup without its ReplicationSource if and only if those conditions hold, the first calls of cleanup go through, a later one fails, and the Velero Backup has not failed |
| BackupFailures.CompletionTakesOne | controllers/replicationsource.go:224-241 | Each completion takes one from the count, also that of a backup which is done already, needs a finished source, and no pass goes on to Completed from there; no pass gives a slot to a backup that is done |
| BackupFailures.SecondCompletion | controllers/replicationsource.go:224-241 | In every run, when a backup that was left in Cleanup completes again, the counter falls below the number of Processing backups by one more, although the backup held no slot |
| BackupAgain.HalfCleanedCompletesAgain | controllers/cleanup.go:57-82 | After a cleanup that stopped halfway fair rounds get the backup Completed, with a ReplicationSource of its own finished on the way and with less than no slot |
| BackupAgain.HalfStopHappens | controllers/cleanup.go:67-73 | A run with one valid backup and one failing call leads to a cleanup that stopped halfway |
| BackupAgain.CompletesTwice | controllers/replicationsource.go:224-241 | And on to a Completed backup and a counter below zero |
| BackupFailures.BadBatchSizeStays | controllers/volumesnapshotbackup_controller.go:102-113 | A batch size that does not parse fails the pass and touches no backup, but the number that the parser returned stays, and unless it is zero every later pass works with it |
| BackupChain.HandleSinceCloning | controllers/volumesnapshot.go:153-179 | Every content clone has the handle that the original had when a pass cloned it, unchanged ever since |
| BackupChain.ClaimSinceBuilding | controllers/pvc.go:109-167 | Every claim clone is as large as the larger of the request and the restore size that the pass which built it read, has the storage class and access modes that the config map of the source claim's class sets, else the source claim's own, and has changed in nothing but its binding since |
| BackupChain.ReferenceChain | controllers/replicationsource.go:151-189 | From every live ReplicationSource the references lead by claim, snapshot clone and content clone, the last two naming each other, to the handle read at cloning time |
| BackupSources.SourceSinceBuilding | controllers/replicationsource.go:157-166 | Every live ReplicationSource was built by some pass and has changed in nothing but status and custom CA since, nor has its claim's choice of options |
| BackupSources.OptionsBuilt | controllers/pvc.go:104-157 | In every run storage class and access modes of a claim clone are those under SourceStorageClassName and SourceAccessMode in the config map for the source claim's class, as the pass that built it read both, and where a key is missing the source claim's; those of its ReplicationSource likewise, from the readings of its own pass and the claim clone's access modes, with the cache under its three keys |
| BackupSources.OptionsAgree | controllers/replicationsource.go:307-351 | In every run, if the passes over a backup read the same class and access modes of its source claim and the same config map for that class, its ReplicationSource and claim clone have the same storage class and access modes: the configured ones, else the source claim's |
| BackupSources.RetainPolicyArrives | controllers/replicationsource.go:112-166 | In every run, for a known provider, the daily, hourly, weekly, monthly and yearly counts, the within text, the prune interval and the schedule of a live ReplicationSource are each what stands under its own key in the user's secret as the pass that built it read it; a number written there arrives as itself, or as nothing if zero |
| BackupRecords.RepositorySinceRecording | controllers/restic.go:132-139 | In every run the repository on the status of a backup that has a source or whose data has moved was recorded by some pass over it and has not changed since |
| BackupRecords.RecordedPath | controllers/restic.go:116-139 | It is the repository that the backup's own secret had at that write; for a known provider, the user's repository without slashes at the end, with protected namespace, backup name and claim name |
| BackupClasses.PassClass | controllers/volumesnapshot.go:181-191 | A pass changes the recorded class only from empty, to the class of the content clone that is there or, without one, of the original that it read |
| BackupClasses.SourceHasRecordedClass | controllers/replicationsource.go:157-166 | In every run a live ReplicationSource has the recorded class, and a content clone with a class has one recorded |
| BackupClasses.ClassSinceRecording | controllers/volumesnapshot.go:181-191 | In every run a recorded class was recorded once, from the clone or the original as that pass found them, and has not changed since |
| BackupClasses.RecordedClass | controllers/volumesnapshot.go:20-86 | In every run a content clone is of the class of the original as the cloning pass read it, and the recorded class is the clone's if and only if, before that pass, no class or that class was recorded; a live ReplicationSource has the recorded one |
| BackupClasses.ClassesAgree | controllers/volumesnapshot.go:20-86 | So if all passes over a backup read the same class of the original, then clone, record and ReplicationSource have it |
| BackupClasses.ClassesDiffer | controllers/volumesnapshot.go:181-191 | A run in which they differ: a pass records the class and fails to clone, the original's class changes, the next pass clones |
| BackupIdempotence.CreationIsIdempotent | controllers/common.go:126-133 | Running the creation steps twice with nothing changed in between ends at the same step with the same objects, specifications and status as once; a validation that fails stamps its time again |
| BackupWrites.EveryWriteIsAnEnd | controllers/volumesnapshotbackup_controller.go:78-224 | For each write of a pass there are calls whose failure makes the same pass stop right after it, with the same writes before |
| BackupProgress.PassProgress | controllers/volumesnapshotbackup_controller.go:78-224 | With valid inputs no pass raises the measure of a backup, whichever waits it finds open, that for the original content included; one that leaves it as it was has changed nothing admission depends on; one that finds all waits answered and can move the backup lowers it |
| Fairness.RoundsReach | controllers/volumesnapshotbackup_controller.go:215-222 | The argument behind both termination theorems: a total that no fair event raises and that every served mover lowers comes to its end in as many rounds |
| BackupTermination.EventSteps | controllers/volumesnapshotbackup_controller.go:78-224 | No pass and no answer of the cluster raises the total over all backups that have not failed, what can move can still move until the total falls, and an answered pass over it makes it fall |
| BackupTermination.EveryBackupCompletes | controllers/volumesnapshotbackup_controller.go:78-224 | Under any batch size of at least one, with no creation, deletion or failing call meanwhile, and as long as failed backups leave a slot free, every backup that has not failed reaches Completed within as many rounds as the measure of the system; a round is any list of passes and answers, in any order, that gives each of them one pass with its waits answered |
| BackupOwing.RunOwing | controllers/common.go:728-758 | In every run, whichever calls fail, a backup that is not deleted holds no slot before admission, at most one after it, and none once its data has moved |
| BackupOwing.UndeletedRunIsLive | controllers/volumesnapshotbackup_controller.go:78-224 | The termination theorem starts from every state of every run without deletions, however many calls have failed on the way, in which the backups are valid or have failed and the failed ones leave a slot free |
| RestoreController.Reconciler.constructor | controllers/volumesnapshotrestore_controller.go:44-45 | As for backups |
| RestoreController.Reconciler.ValidateVolumeSnapshotMoverRestore | controllers/validator.go:86-161 | Five empty fields or an ambiguous class make a restore Failed; a valid one gets its start time once |
| RestoreController.Reconciler.CreateVSRResticSecret | controllers/restic.go:151-211 | Creates or rebuilds the restore's secret from the user's secret, the package variables and the recorded path; an empty secret name makes it Failed |
| RestoreController.Reconciler.CreateReplicationDestination | controllers/replicationdestination.go:21-131 | Waits for the secret, then creates the destination once with the recorded size and snapshot class and with storage class, access modes and cache from the config map for the recorded class; later passes may only add the custom CA |
| RestoreController.Reconciler.GetVolSyncSnapshotContent | controllers/volumesnapshot.go:326-365 | Follows destination, latest image and bound content; a missing destination or sync is no error, a missing snapshot or content is |
| RestoreController.Reconciler.WaitForVolSyncSnapshotContentToBeReady | controllers/volumesnapshot.go:290-324 | Records name and handle of a ready content that has one, and waits otherwise |
| RestoreController.Reconciler.DeleteOwned | controllers/cleanup.go:235-241 | Deletes secret and destination in this order by label and namespace, stopping at the first failing call |
| RestoreController.Reconciler.CleanRestoreResources | controllers/cleanup.go:205-262 | Cleanup without the early return that backups have, with the restore read again before it is marked Completed |
| RestoreController.Reconciler.SetVSRQueue | controllers/common.go:760-791 | Admission that also changes the caller's copy |
| RestoreController.Reconciler.MarkDone | controllers/replicationdestination.go:199-215 | As for backups, but reports the restore as complete |
| RestoreController.Reconciler.SetStatusFromRepDest | controllers/replicationdestination.go:176-245 | An echo decides before any condition is looked at; a foreign echo is only waited for |
| RestoreController.Reconciler.SetVSRStatus | controllers/replicationdestination.go:133-245 | Complete in the phase VolSync-done without looking at the destination |
| RestoreController.Reconciler.ReconcileDeleted | controllers/volumesnapshotrestore_controller.go:141-159 | Takes one from the count on the copy that admission has changed, each time it runs |
| RestoreController.Reconciler.Reconcile | controllers/volumesnapshotrestore_controller.go:72-210 | A pass over named, labelled objects keeps the cluster without strays, changes no other restore, and is one step of the runs of RestoreRuns with the same counters and requeue decision |
| RestoreStore.DeleteWrite | controllers/cleanup.go:223-241 | Deleting one kind by a restore's label and namespace leaves every other restore's objects |
| RestoreCluster.StoreFollows | controllers/volumesnapshotrestore_controller.go:72-159 | Every event of a run, passes included, can be followed on named objects, keeping the cluster without strays |
| RestoreCluster.NoOrphansInAnyRun | controllers/cleanup.go:205-262 | In every run every labelled secret and destination belongs to a restore into its namespace that exists and has the finalizer |
| RestoreCluster.EveryObjectIsOwned | controllers/cleanup.go:223-241 | No orphans: each labelled secret and destination belongs to a restore into its namespace that exists and still has the finalizer |
| RestoreSafety.CleanKeeps | controllers/cleanup.go:205-262 | Cleanup that succeeds leaves nothing owned and the phase Completed, or Cleanup under deletion, with every other field as it was |
| RestoreSafety.BatchKeeps | controllers/common.go:126-133 | A batch completes a restore if and only if it returns true, and then it has recorded a ready content reached through the destination that was there before the batch |
| RestoreSafety.QueuedCopyIsStale | controllers/common.go:778-788 | The copy that admission changes without storing it is always stale afterwards, so it is never written back |
| RestoreSafety.PassIsSafe | controllers/volumesnapshotrestore_controller.go:72-210 | Every write of every pass keeps the invariants and advances the restore, whichever calls fail; one that becomes Completed has recorded its content in that pass; one that goes owns nothing |
| RestoreSafety.EveryWrite | controllers/volumesnapshotrestore_controller.go:164-170 | The phase automaton, write by write, and a destination lacks its secret only once its data has moved or under deletion |
| RestoreSafety.NoLostWakeUp | controllers/volumesnapshotrestore_controller.go:72-210 | A pass ends without error or requeue if and only if the restore is gone, or was found in a terminal phase, not deleted, and left alone |
| RestoreContents.EveryWriteIsRight | controllers/volumesnapshotrestore_controller.go:72-210 | As for backups: every write of every pass, in terms of keys, names and texts |
| RestoreContents.SecretStepWrites | controllers/restic.go:151-211 | Whenever the secret step returns true for a known provider, whatever was in the secret before, it carries the repository in the specification, no options, and credentials that are each the user's own or what the variables held |
| RestoreVerdict.PassVerdict | controllers/validator.go:86-161 | A pass over a restore past the queue makes it Failed if and only if a field is empty or a class is ambiguous or cannot be listed, the write succeeds and it is not made PartiallyFailed, which it is if and only if the Velero Restore is found failed; done if and only if its own trigger is echoed and nothing on the way fails; InProgress if and only if nothing is echoed and the last running condition is true; and stamps the start time if and only if there is none and validation goes through |
| RestoreVerdict.PassAsksAgain | controllers/volumesnapshotrestore_controller.go:161-210 | As for backups |
| RestoreSlots.PassDriftLaw | controllers/common.go:760-791 | How far a pass moves the count of restores away from the stored statuses, exactly |
| RestoreSlots.NewRestoreStarts | controllers/common.go:760-791 | A failure-free pass over a new, valid restore leaves it with a ReplicationDestination, and without a slot if and only if the queue is full |
| RestoreQueue.PassQueues | controllers/common.go:760-773 | A pass makes a restore Queued if and only if it gets to admission, finds it new and the queue full, and the write goes through |
| RestoreQueue.LimitOnDestinations | controllers/volumesnapshotrestore_controller.go:119-170 | When the limit holds: in every run without deletions and failing cleanup calls in which no pass takes up a new restore while the queue is full, the batch size bounds the unfinished ReplicationDestinations |
| RestoreQueue.NoLimitOnDestinations | controllers/volumesnapshotrestore_controller.go:119-170 | When it does not: from every state of every run with a full queue, valid creations and failure-free passes alone lead to any number of unfinished ReplicationDestinations with count and batch size unchanged |
| RestoreQueue.LimitFails | controllers/volumesnapshotrestore_controller.go:119-170 | Such runs exist: for every number, one from the empty cluster under a batch size of one with that many unfinished ReplicationDestinations |
| RestoreRuns.NoLostUpdates | controllers/volumesnapshotrestore_controller.go:82-90 | Between any two points of any run the batching status only moves forward, the start time never changes once set, and a terminal phase stays, with the whole status, until deletion |
| RestoreRuns.CompletedMeansMoved | controllers/replicationdestination.go:191-215 | In every run a restore marked done had its own ReplicationDestination echo its own trigger at an earlier point |
| RestoreRuns.CompletedMeansRecorded | controllers/volumesnapshot.go:290-365 | In every run a Completed restore carries the name and handle of a content that an earlier pass found ready, bound to the snapshot that the status of the restore's own ReplicationDestination named after a sync |
| RestoreRecords.SecretMade | controllers/restic.go:151-211 | In every run a restore's secret is empty, or carries the repository in the specification and the credentials as the pass that wrote it found them in the user's secret and the variables |
| RestoreRecords.DestinationBuilt | controllers/replicationdestination.go:21-131 | In every run a live ReplicationDestination reads the restore's own secret and has its own trigger, the size and snapshot class of the specification, and for volume and cache what the config map for the recorded class sets, else the recorded class and a single writer |
| RestoreRecords.PathHandedOver | controllers/restic.go:132-198 | From backup to restore: a restore that is given the repository which a backup recorded has in its secret exactly the path that the backup's own secret had, whatever else has happened to both |
| RestoreRuns.NoOrphans | controllers/volumesnapshotrestore_controller.go:119-159 | In every run a restore that goes owns nothing when last seen, and one without the finalizer owns nothing |
| RestoreRuns.SlotAccounting | controllers/common.go:760-791 | In every run without deletions and failing cleanup calls, the counter is the number of Processing restores plus those marked done whose decrement has not run; unfinished destinations belong to Processing or Queued restores |
| RestoreRuns.DriftLaw | controllers/volumesnapshotrestore_controller.go:141-159 | The gap between counter and Processing restores changes only in the deletion branch, the completion branch, or when a Processing restore disappears, and by exactly so much |
| RestoreDeletion.SlotGivenBack | controllers/volumesnapshotrestore_controller.go:141-159 | A failure-free deletion past admission takes two passes and gives back exactly the slot held if and only if the restore was done, or was Processing and already in Cleanup; else one slot too many, also for a restore that the first pass admits |
| RestoreWrites.EveryWriteIsAnEnd | controllers/volumesnapshotrestore_controller.go:72-210 | For each write of a pass there are calls whose failure makes the same pass stop right after it, with the same writes before |
| RestoreProgress.PassProgress | controllers/volumesnapshotrestore_controller.go:72-210 | With valid inputs no pass raises the measure of a restore, which a destination built while it was Queued already lowers; one that finds its snapshot ready and can move it lowers it |
| RestoreTermination.EveryRestoreCompletes | controllers/volumesnapshotrestore_controller.go:72-210 | As for backups: fair rounds bring every restore that has not failed to Completed, within the measure of the system, as long as failed ones leave a slot free |
| RestoreOwing.UndeletedRunIsLive | controllers/volumesnapshotrestore_controller.go:72-210 | As for backups: from every state of every run without deletions in which the restores are valid or have failed and the failed ones leave a slot free |
| Secrets.ValidateResticSecret | controllers/common.go:275-362 | For every order of keys: rejects no data at all, and a key of the provider that is present but empty; accepts a missing key and any data of an unknown provider |
| Secrets.Globals.GatherAws | controllers/common.go:163-177 | For every order of keys each variable ends up with its key's value, or keeps its own |
| Secrets.Globals.GatherAzure | controllers/common.go:204-216 | As above for Azure |
| Secrets.Globals.GatherGcp | controllers/common.go:242-252 | As above for GCP |
| Secrets.Globals.BuildResticSecret | controllers/common.go:152-273 | Keeps the variables equal to what the history of calls has left in them and builds the data from them; an unknown provider gets no data and changes no variable |
| Secrets.Globals.ExtractPolicy | controllers/restic.go:81-114 | For every order of keys: each field of the policy comes from its own key, and the repository keeps an earlier value if the secret has none |
| Secrets.Globals.CreateVSBResticSecret | controllers/restic.go:76-127 | The derived data of a backup and what is left in the variables, for every order of keys: the function of user's secret and variables with which the backup model builds its secret; a malformed secret changes nothing |
| Secrets.Globals.CreateVSRResticSecret | controllers/restic.go:179-198 | As above for a restore: no policy, the recorded path, and the repository variable left alone |
| Secrets.CredentialsOf | controllers/common.go:180-198 | A derived secret carries exactly the credentials that its provider uses, each under its own key |
| Secrets.CredentialHistory | controllers/common.go:106-270 | Over any sequence of calls a credential in the last derived secret is that call's own value, else the value from the latest earlier call that used and carried it, else empty |
| Secrets.ParseCount | controllers/replicationsource.go:359-364 | A count is rejected exactly when it is not a 32-bit decimal, and the narrowing cast loses nothing of one that is accepted |
| Secrets.ConfigureRepSourceSnapshotRetainPolicy | controllers/replicationsource.go:353-423 | Each count reaches its own field, as the integer or as nothing if it is zero or absent; one bad count stops all |
| Secrets.ReadSourceOptions | controllers/replicationsource.go:112-156 | Schedule, prune interval and retain policy, each from its own key of the controller's secret, or an error |
| Secrets.RetainPolicyPipeline | controllers/restic.go:81-127 | Through extraction, rebuilding and reading back, the derived secret carries each option of the user's secret under its own key and asks for exactly the same, errors included; BackupSources.RetainPolicyArrives takes it on to the ReplicationSource |
| Secrets.OptionsMean | controllers/replicationsource.go:112-156 | Secret data asks for a source if and only if the texts under its six number keys are 32-bit decimals or empty, and then each option is what stands under its own key |
| Secrets.WellFormedMeans | controllers/common.go:275-362 | A user's secret is rejected if and only if it has no data or an empty value under a key that its provider needs |
| Secrets.BackupSecretMeans | controllers/restic.go:76-127 | The derived secret of a backup, key by key: the path, the user's options, the provider's credentials, and no other provider's |
| Secrets.RestoreSecretMeans | controllers/restic.go:179-198 | The derived secret of a restore, key by key: the given path, no options, the provider's credentials |
| Secrets.KeyHistory | controllers/common.go:106-270 | Over any sequence of calls each key that the last provider reads is in the last derived secret, with the value that the latest call to bring that key brought, else empty |
| Secrets.TrimTakesSlashes | controllers/restic.go:83-86 | Trimming takes slashes from the end of the repository and nothing else |
| Secrets.CountArrives | controllers/replicationsource.go:353-423 | A count written as a decimal arrives as that integer, or as nothing if zero; it parses if and only if it fits 32 bits |
| Secrets.TrimIgnoresSlashes | controllers/restic.go:83-86 | Any number of trailing slashes makes no difference to the trimmed repository, which ends in none |
| Secrets.RepositoryPathInjective | controllers/restic.go:116 | Two paths are equal if and only if trimmed base, namespace, backup and claim are, given that the last three contain no slash |
| Secrets.RestoreRebuildsPath | controllers/restic.go:191-198 | A restore given the path that a backup recorded carries it unchanged, whatever the providers, credentials and policies |
| Decimal.FormatParses | controllers/replicationsource.go:359-364 | Every 32-bit integer survives being written and parsed, and no other parses |
| Decimal.Readings | controllers/replicationsource.go:359-364 | The digits and the order in which they count, one sign, and what is rejected |
| Options.BuildPVCClone | controllers/pvc.go:92-167 | For every order of keys the claim clone takes the options under SourceStorageClassName and SourceAccessMode in the config map for the source claim's class, else the source claim's own, and the larger size, no more |
| Options.ConfigureRepDestVolOptions | controllers/replicationdestination.go:247-291 | For every order of keys the ReplicationDestination takes the options under DestinationStorageClassName and DestinationAccessMode in the config map for the recorded class, else the recorded class and a single writer |
| Options.ConfigureCache | controllers/replicationsource.go:436-478 | For every order of keys each cache option comes from its own key, or is left open |
| Options.ConfigureRepSourceVolOptions | controllers/replicationsource.go:307-351 | For every order of keys the ReplicationSource takes the options under SourceStorageClassName and SourceAccessMode in the config map for the recorded class, else the recorded class and the clone's access modes |

## Left out

- BackupRuns.SlotAccounting: assumes no deletion and no failing call inside cleanup; without that the drift laws say by how much the count is off.
- Restart of the manager, stale caches, several workers, and deletion delayed by foreign finalizers.
- Answers that a custom resource is not found in the middle of its own pass, which several steps treat as success.
- A `DeleteAllOf` that removes some objects of a kind and then fails.
- Nil-pointer panics: a snapshot, content or claim status with a missing field that the code dereferences, a claim without a storage class, a size that does not parse.
- Quantities are natural numbers in bytes; a request that does not fit 64 bits, and the text of sizes.
- The specification fields of owned objects that no property mentions: driver and deletion policy of contents, volume mode, pod image, command and security context, mover security context, service account.
- The rule for at most one default class (two readings of `Env`), and the texts of errors, events and condition messages; the condition keeps only whether the batch ended without error.
- The event filters: that status-only updates wake no pass up is why `NoLostWakeUp` matters, but the work queue itself is not modelled.
- Waiting times of requeues.
- How the deployment's environment is searched for the batch size: `BatchRead` is its outcome.
- Concurrent use of the credential variables by the two controllers. A pass finds in them what `Env` says, as `held` and `base`; that this is what the history of calls has left there is the invariant of `Secrets.Globals`.
- The secret's data that is present but empty is taken as absent; bytes are characters.
- `areVSBResourcesDeleted`, `isRetainPolicySet`, `scheduleCronTriggerSet` and `checkRestoreStatus`, which no reconciler calls.
