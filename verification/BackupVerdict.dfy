/** When a pass marks a backup Failed, PartiallyFailed, or done. */
module BackupVerdict {
  import opened Prelude
  import opened Api
  import opened BackupModel
  import opened BackupSafety
  import opened BackupPass
  import opened BackupSlots

  /** What validation holds against a backup. An API error while listing classes is among it, but an empty
      name of the content is not on its own: reading a content without a name has to succeed first. */
  predicate Rejects(l: Backup, e: Env) {
    && {Get(Validate), Lookup(Validate)} !! e.faults && e.original.Some?
    && (l.cr.spec.vscName == "" || l.cr.spec.protectedNs == ""
        || ListSnapClasses in e.faults || !e.oneSnapClass || ListStorageClasses in e.faults || !e.oneStorageClass)
  }

  /** The status step finds the Velero Backup failed and says so. */
  predicate PartiallyFails(e: Env) {
    {GetStatus, GetVeleroBackup, PartialWrite} !! e.faults && e.velero == Broken
  }

  lemma StepNeverFails(i: nat, l: Backup, e: Env)
    requires 0 < i < |BATCH| && Working(i, l)
    ensures var o := Run(BATCH[i], l, e);
            o.l.cr.status.phase !in {Failed, PartiallyFailed} && (o.flow == Continue && i < |CREATION| ==> Working(i + 1, o.l))
  {
    BatchSuffix(i);
    if i < |CREATION| {
      StepKeeps(i, l, e);
      StepPhase(CREATION[i], l, e);
    } else {
      CleanPhase(l, e);
    }
  }

  lemma StepPhase(step: Step, l: Backup, e: Env)
    requires step != Validate && step != Clean
    ensures Run(step, l, e).l.cr.status.phase == l.cr.status.phase
  {
  }

  lemma CleanPhase(l: Backup, e: Env)
    requires l.cr.status.phase !in {Failed, PartiallyFailed}
    ensures CleanStep(l, e).l.cr.status.phase !in {Failed, PartiallyFailed}
  {
    hide DeleteAll;
    DeleteAllAdmission(Status(l, l.cr.status.(phase := Cleanup)), CLEANUP_KINDS, e);
  }

  lemma {:induction false} BatchNeverFails(i: nat, l: Backup, e: Env)
    requires 0 < i < |BATCH| && Working(i, l)
    ensures RunBatch(BATCH[i..], l, e).l.cr.status.phase !in {Failed, PartiallyFailed}
    decreases |BATCH| - i
  {
    hide Run, Working;
    BatchSuffix(i);
    StepNeverFails(i, l, e);
    if Run(BATCH[i], l, e).flow == Continue && i < |CREATION| {
      BatchNeverFails(i + 1, Run(BATCH[i], l, e).l, e);
    }
  }

  lemma BatchFails(l: Backup, e: Env)
    requires Working(0, l)
    ensures RunBatch(BATCH, l, e).l.cr.status.phase == Failed <==> Rejects(l, e) && FailWrite !in e.faults
    ensures RunBatch(BATCH, l, e).l.cr.status.phase != PartiallyFailed
  {
    hide Path;
    assert BATCH[0] == Validate;
    ValidateKeeps(l, e);
    if ValidateStep(l, e).flow == Continue {
      BatchNeverFails(1, ValidateStep(l, e).l, e);
    }
  }

  lemma StatusFails(l: Backup, e: Env)
    requires Good(l) && !l.cr.deleting
    ensures StatusStep(l, e).l.cr.status.phase == Failed <==> l.cr.status.phase == Failed && !PartiallyFails(e)
    ensures l.cr.status.phase != PartiallyFailed ==>
              (StatusStep(l, e).l.cr.status.phase == PartiallyFailed <==> PartiallyFails(e))
  {
    hide Linked, Layered, Consistent, LastFalse, LastSync;
    if l.src.Some? && l.src.value.status.Some? {
      SyncErrorNeverSeen(l.src.value.status.value.conditions);
    }
  }

  /** A pass over a live, admitted backup leaves it Failed exactly when validation rejects it, the write goes
      through, and the status step of the same pass does not make it PartiallyFailed instead, which it does
      exactly when it finds the Velero Backup failed. No error of the data movement leads to either. */
  lemma FailedByValidation(l: Backup, processing: int, batch0: int, e: Env)
    requires Good(l) && Admits(l, batch0, e) && !l.cr.deleting
    requires QueueStep(l, processing, BatchSize(batch0, e.batch).0, e).flow == Continue
    ensures var o := Pass(l, processing, batch0, e);
            && o.l.Some?
            && (o.l.value.cr.status.phase == Failed <==> Rejects(l, e) && FailWrite !in e.faults && !PartiallyFails(e))
            && (o.l.value.cr.status.phase == PartiallyFailed <==> PartiallyFails(e))
  {
    hide StatusStep, RunBatch, Advance, Linked, Layered, Rejects;
    var batch := BatchSize(batch0, e.batch).0;
    var q := QueueStep(l, processing, batch, e);
    QueueKeeps(l, processing, batch, e);
    PathEnds(e, l, q.trail, q.l);
    SameSpec(l, q.l, e);
    var work := RunBatch(BATCH, q.l, e);
    BatchFails(q.l, e);
    BatchFromStart(q.l, e);
    PathEnds(e, q.l, work.trail, work.l);
    ConditionKeeps(work.l, l.cr, work.flow != Fail, e);
    var cond := ConditionStep(work.l, l.cr, work.flow != Fail, e);
    PathEnds(e, work.l, cond.trail, cond.l);
    StatusFails(cond.l, e);
  }

  lemma SameSpec(l: Backup, m: Backup, e: Env)
    requires l.cr.spec == m.cr.spec
    ensures Rejects(l, e) == Rejects(m, e)
  {
  }

  /******* Started, in progress, done *******/

  /** The backup has its own source with a finished sync. */
  ghost predicate Synced(l: Backup) {
    l.src.Some? && SyncFinished(l.src.value, l.cr.name)
  }

  /** The source has not synced yet, or not on its trigger, and its last running condition is true. */
  ghost predicate Syncing(s: RepSource, name: string) {
    && s.status.Some?
    && (match s.trigger
        case Schedule(_) => s.status.value.lastSync.None? || s.status.value.nextSync.None?
        case Manual(_) => s.status.value.lastManualSync != name + "-trigger")
    && exists i: nat :: LastRunningAt(s.status.value.conditions, i) && s.status.value.conditions[i].status == True
  }

  /** What the source reports has not changed, and a new one reports nothing. */
  predicate SameSync(l: Backup, m: Backup) {
    m.cr.name == l.cr.name &&
    if l.src.Some? && l.src.value.status.Some?
    then m.src.Some? && m.src.value.trigger == l.src.value.trigger && m.src.value.status == l.src.value.status
    else m.src.None? || m.src.value.status.None?
  }

  lemma SameSyncMeans(l: Backup, m: Backup)
    requires SameSync(l, m)
    ensures Synced(l) <==> Synced(m)
    ensures l.src.Some? && Syncing(l.src.value, l.cr.name) <==> m.src.Some? && Syncing(m.src.value, m.cr.name)
  {
  }

  /** What a creation step keeps: phase, what the source reports, and, unless it is validation, the start time. */
  predicate StepKept(step: Step, l: Backup, o: Out) {
    && SameSync(l, o.l) && o.l.cr.status.phase in {l.cr.status.phase, Failed} && o.l.cr.deleting == l.cr.deleting
    && (o.flow == Continue ==> o.l.cr.status.phase == l.cr.status.phase)
    && (step != Validate ==> o.l.cr.status.start == l.cr.status.start)
  }

  lemma StepKeepsSync(step: Step, l: Backup, e: Env)
    requires step != Clean
    ensures StepKept(step, l, Run(step, l, e))
  {
    hide Run, StepKept;
    if step == CreateSource {
      SourceKeepsSync(l, e);
    } else {
      StepKeepsSource(step, l, e);
    }
  }

  lemma StepKeepsSource(step: Step, l: Backup, e: Env)
    requires step !in {Clean, CreateSource}
    ensures StepKept(step, l, Run(step, l, e))
  {
    hide CleanStep, CreateSourceStep, SecretFor, BuiltSecret, NewClaim;
  }

  lemma SourceKeepsSync(l: Backup, e: Env)
    ensures StepKept(CreateSource, l, Run(CreateSource, l, e))
  {
  }

  lemma CleanWaitsForSync(l: Backup, e: Env)
    requires l.cr.status.phase !in {VolSyncDone, Failed, PartiallyFailed} && !l.cr.deleting
    ensures CleanStep(l, e).l == l
  {
  }

  lemma CleanKeepsStart(l: Backup, e: Env)
    ensures CleanStep(l, e).l.cr.status.start == l.cr.status.start
  {
    DeleteAllAdmission(Status(l, l.cr.status.(phase := Cleanup)), CLEANUP_KINDS, e);
  }

  lemma {:induction false} LaterKeepsSync(i: nat, l: Backup, e: Env)
    requires 0 < i < |BATCH| && !l.cr.deleting
    ensures var m := RunBatch(BATCH[i..], l, e).l;
            && m.cr.status.start == l.cr.status.start
            && (l.cr.status.phase !in {VolSyncDone, Failed, PartiallyFailed} ==>
                  SameSync(l, m) && m.cr.status.phase in {l.cr.status.phase, Failed})
    decreases |BATCH| - i
  {
    hide Run, CleanStep;
    BatchSuffix(i);
    var o := Run(BATCH[i], l, e);
    if i < |CREATION| {
      assert BATCH[i] != Validate && BATCH[i] != Clean;
      StepKeepsSync(BATCH[i], l, e);
      if o.flow == Continue {
        LaterKeepsSync(i + 1, o.l, e);
      }
    } else {
      RunIsClean(l, e);
      CleanKeepsStart(l, e);
      if l.cr.status.phase !in {VolSyncDone, Failed, PartiallyFailed} {
        CleanWaitsForSync(l, e);
      }
    }
  }

  /** Validation goes through: the reads succeed and nothing is held against the backup. */
  predicate Accepts(l: Backup, e: Env) {
    {Get(Validate), Lookup(Validate)} !! e.faults && e.original.Some? && !Rejects(l, e)
  }

  /** The start time after a batch. */
  function Started(l: Backup, e: Env): Option<nat> {
    if l.cr.status.start.Some? || !Accepts(l, e) || StartWrite in e.faults then l.cr.status.start else Some(e.now)
  }

  lemma BatchKeepsSync(l: Backup, e: Env)
    requires !l.cr.deleting
    ensures var m := RunBatch(BATCH, l, e).l;
            && m.cr.status.start == Started(l, e)
            && (l.cr.status.phase !in {VolSyncDone, Failed, PartiallyFailed} ==>
                  SameSync(l, m) && m.cr.status.phase in {l.cr.status.phase, Failed})
  {
    hide Run;
    BatchSuffix(0);
    assert BATCH[0..] == BATCH;
    var o := Run(Validate, l, e);
    StepKeepsSync(Validate, l, e);
    ValidationStarts(l, e);
    if o.flow == Continue {
      LaterKeepsSync(1, o.l, e);
    }
  }

  lemma ValidationStarts(l: Backup, e: Env)
    ensures Run(Validate, l, e).l.cr.status.start == Started(l, e)
  {
  }

  /** What it takes for the status step to get to what the source reports. */
  predicate Asks(e: Env) {
    {GetStatus, GetVeleroBackup, GetSource, GetSourceAgain} !! e.faults && e.velero == Running
  }

  /** What it takes for a pass to mark a backup done. */
  ghost predicate Finishes(l: Backup, batch0: int, e: Env) {
    && Synced(l) && !l.cr.deleting && l.cr.status.phase in {NoPhase, InProgress, Cleanup}
    && (batch0 != 0 || e.batch.Value?) && Asks(e) && {Fetch, DoneBatchingWrite} !! e.faults
    && !(Rejects(l, e) && FailWrite !in e.faults)
  }

  lemma SyncingMeans(l: Backup)
    requires Linked(l) && l.src.Some? && l.src.value.status.Some?
    ensures Syncing(l.src.value, l.cr.name)
            <==> !SourceDone(l.src.value) && LastSync(l.src.value.status.value.conditions).status == True
  {
    LastSyncMeans(l.src.value.status.value.conditions);
  }

  /** The status step marks the backup done, or in progress, exactly when it finds the sync so and nothing in the way. */
  predicate StatusSays(l: Backup, m: Backup, e: Env, synced: bool, syncing: bool) {
    var a, b := l.cr.status, m.cr.status;
    && (b.batching == BatchDone <==>
          a.batching == BatchDone
          || (Asks(e) && DoneBatchingWrite !in e.faults && a.phase in {NoPhase, InProgress, Cleanup} && synced))
    && (a.phase != VolSyncDone ==>
          (b.phase == VolSyncDone <==> Asks(e) && {DoneBatchingWrite, DonePhaseWrite} !! e.faults
                                       && a.phase in {NoPhase, InProgress, Cleanup} && synced))
    && (a.phase in {NoPhase, Cleanup} ==> (b.phase == InProgress <==> Asks(e) && ProgressWrite !in e.faults && syncing))
    && (a.phase == Failed ==> b.phase in {Failed, PartiallyFailed})
    && b.start == a.start
  }

  lemma FromSourceSays(l: Backup, s: RepSource, e: Env)
    requires Linked(l) && l.src == Some(s) && s.status.Some? && l.cr.status.phase !in {VolSyncDone, Failed, PartiallyFailed}
    ensures var a, b := l.cr.status, StatusFromSource(l, s, e).l.cr.status;
            var done := GetSourceAgain !in e.faults && DoneBatchingWrite !in e.faults && a.phase != Completed && Synced(l);
            && (b.batching == BatchDone <==> a.batching == BatchDone || done)
            && (b.phase == VolSyncDone <==> done && DonePhaseWrite !in e.faults)
            && (a.phase != InProgress ==>
                  (b.phase == InProgress <==> {GetSourceAgain, ProgressWrite} !! e.faults && Syncing(s, l.cr.name)))
            && b.start == a.start
  {
    hide SyncFinished, Syncing, LastFalse, LastSync, Linked;
    FinishedMeans(l);
    SyncErrorNeverSeen(s.status.value.conditions);
    SyncingMeans(l);
  }

  lemma StatusFinishes(l: Backup, e: Env)
    requires Good(l)
    ensures StatusSays(l, StatusStep(l, e).l, e, Synced(l), l.src.Some? && Syncing(l.src.value, l.cr.name))
  {
    hide SyncFinished, Syncing, StatusFromSource;
    if l.src.Some? {
      if l.src.value.status.None? {
        NothingReported(l.src.value, l.cr.name);
      } else if l.cr.status.phase !in {VolSyncDone, Failed, PartiallyFailed} {
        FromSourceSays(l, l.src.value, e);
      }
    }
  }

  lemma NothingReported(s: RepSource, name: string)
    requires s.status.None?
    ensures !SyncFinished(s, name) && !Syncing(s, name)
  {
  }

  lemma WorkFinishes(l: Backup, copy: Vsb, batch: int, e: Env)
    requires Working(0, l) && copy.rv <= l.cr.rv && (copy.rv == l.cr.rv ==> copy == l.cr)
    ensures var m := WorkBranch(l, copy, batch, e).l;
            var finds := Asks(e) && !(Rejects(l, e) && FailWrite !in e.faults);
            && m.Some? && m.value.cr.status.start == Started(l, e)
            && (l.cr.status.phase != VolSyncDone ==>
                  var a, b := l.cr.status, m.value.cr.status;
                  && (b.batching == BatchDone <==>
                        a.batching == BatchDone || (finds && DoneBatchingWrite !in e.faults && Synced(l)))
                  && (b.phase == VolSyncDone <==> finds && {DoneBatchingWrite, DonePhaseWrite} !! e.faults && Synced(l))
                  && (a.phase in {NoPhase, Cleanup} ==>
                        (b.phase == InProgress <==> finds && ProgressWrite !in e.faults
                                                    && l.src.Some? && Syncing(l.src.value, l.cr.name))))
  {
    hide StatusStep, RunBatch, Advance, Linked, Layered, Rejects, SyncFinished, Syncing, SameSync, Accepts, Synced;
    var work := RunBatch(BATCH, l, e);
    BatchKeepsSync(l, e);
    BatchFails(l, e);
    BatchAdmission(BATCH, l, e);
    BatchFromStart(l, e);
    PathEnds(e, l, work.trail, work.l);
    ConditionKeeps(work.l, copy, work.flow != Fail, e);
    var cond := ConditionStep(work.l, copy, work.flow != Fail, e);
    PathEnds(e, work.l, cond.trail, cond.l);
    StatusFinishes(cond.l, e);
    if l.cr.status.phase != VolSyncDone {
      SameSyncMeans(l, work.l);
      SameSource(work.l, cond.l);
    }
  }

  lemma SameSource(l: Backup, m: Backup)
    requires m.src == l.src && m.cr.name == l.cr.name
    ensures Synced(m) <==> Synced(l)
  {
  }

  lemma DeletingFinishesNothing(l: Backup, copy: Vsb, batch: int, e: Env)
    requires Good(l) && l.cr.deleting
    ensures var o := DeletionBranch(l, copy, batch, e);
            o.l.Some? ==> o.l.value.cr.status.batching == l.cr.status.batching
                          && o.l.value.cr.status.phase in {l.cr.status.phase, Cleanup}
  {
    hide CleanStep, Path;
    CleanKeeps(l.(slots := l.slots - Freed(copy)), e);
  }

  lemma DoneStaysDone(l: Backup, copy: Vsb, batch: int, e: Env)
    requires Working(0, l) && copy.rv <= l.cr.rv && (copy.rv == l.cr.rv ==> copy == l.cr)
    requires l.cr.status.batching == BatchDone
    ensures var o := WorkBranch(l, copy, batch, e);
            o.l.Some? && o.l.value.cr.status.batching == BatchDone
  {
    hide WorkBranch, Advance, Linked, Layered;
    WorkKeeps(l, copy, batch, e);
    PathEnds(e, l, WorkBranch(l, copy, batch, e).trail, WorkBranch(l, copy, batch, e).l.value);
  }

  /** A pass takes a backup out of the queue exactly when the backup's own ReplicationSource has a finished sync, the
      Velero Backup has not failed, validation does not fail the backup in this pass, and no read or write on the way
      fails; and it goes on to VolSync-done exactly when the second write goes through as well. */
  lemma DoneWhenSynced(l: Backup, processing: int, batch0: int, e: Env)
    requires Good(l)
    ensures var o := Pass(l, processing, batch0, e);
            && (o.l.None? ==> l.cr.deleting)
            && (o.l.Some? ==>
                  var m := o.l.value.cr.status;
                  && (m.batching == BatchDone <==> l.cr.status.batching == BatchDone || Finishes(l, batch0, e))
                  && (l.cr.status.phase != VolSyncDone ==>
                        (m.phase == VolSyncDone <==> Finishes(l, batch0, e) && DonePhaseWrite !in e.faults)))
  {
    hide WorkBranch, DeletionBranch, Advance, Linked, Layered, Rejects, SyncFinished, Syncing, Accepts;
    var batch := BatchSize(batch0, e.batch).0;
    if Admits(l, batch0, e) {
      var q := QueueStep(l, processing, batch, e);
      QueueKeeps(l, processing, batch, e);
      PathEnds(e, l, q.trail, q.l);
      SameSpec(l, q.l, e);
      if q.flow == Continue {
        if l.cr.deleting {
          DeletingFinishesNothing(q.l, l.cr, batch, e);
        } else if l.cr.status.phase == VolSyncDone {
          DoneStaysDone(q.l, l.cr, batch, e);
        } else {
          WorkFinishes(q.l, l.cr, batch, e);
        }
      }
    }
  }

  /** A pass over a live, admitted backup stamps the start time exactly when there is none, validation goes through and
      the write does not fail; and it makes a backup InProgress exactly when its source has not finished, its last
      running condition is true, the Velero Backup has not failed, validation does not fail the backup, and no
      read or write on the way fails. */
  lemma StartedAndInProgress(l: Backup, processing: int, batch0: int, e: Env)
    requires Good(l) && Admits(l, batch0, e) && !l.cr.deleting
    requires QueueStep(l, processing, BatchSize(batch0, e.batch).0, e).flow == Continue
    ensures var o := Pass(l, processing, batch0, e);
            && o.l.Some?
            && o.l.value.cr.status.start == (if l.cr.status.start.None? && Accepts(l, e) && StartWrite !in e.faults
                                             then Some(e.now) else l.cr.status.start)
            && (l.cr.status.phase in {NoPhase, Cleanup} ==>
                  (o.l.value.cr.status.phase == InProgress
                   <==> && Asks(e) && ProgressWrite !in e.faults && !(Rejects(l, e) && FailWrite !in e.faults)
                        && l.src.Some? && Syncing(l.src.value, l.cr.name)))
  {
    hide WorkBranch, Advance, Linked, Layered, Rejects, SyncFinished, Syncing;
    var batch := BatchSize(batch0, e.batch).0;
    var q := QueueStep(l, processing, batch, e);
    QueueKeeps(l, processing, batch, e);
    PathEnds(e, l, q.trail, q.l);
    SameSpec(l, q.l, e);
    WorkFinishes(q.l, l.cr, batch, e);
  }
}
