/** When a pass marks a restore Failed, PartiallyFailed, or done, and what it asks for next. */
module RestoreVerdict {
  import opened Prelude
  import opened Api
  import opened RestoreModel
  import opened RestoreSafety
  import opened RestoreSlots
  import opened RestoreContents

  /** The status step finds the Velero Restore failed and says so. */
  predicate PartiallyFails(e: Env) {
    {GetStatus, GetVeleroRestore, PartialWrite} !! e.faults && e.velero == Broken
  }

  /** What the destination reports has not changed, and a new one reports nothing. */
  predicate SameSync(l: Restore, m: Restore) {
    m.cr.name == l.cr.name &&
    if l.dest.Some? && l.dest.value.status.Some? then m.dest.Some? && m.dest.value.status == l.dest.value.status
    else m.dest.None? || m.dest.value.status.None?
  }

  lemma SameSyncMeans(l: Restore, m: Restore)
    requires SameSync(l, m)
    ensures Synced(l) <==> Synced(m)
    ensures l.dest.Some? && Syncing(l.dest.value) <==> m.dest.Some? && Syncing(m.dest.value)
  {
  }

  lemma StepVerdict(step: Step, l: Restore, e: Env)
    requires step !in {Validate, Clean} && l.cr.spec.resticSecret != ""
    ensures var o := Run(step, l, e);
            && o.l.cr.status.phase == l.cr.status.phase && o.l.cr.deleting == l.cr.deleting
            && o.l.cr.spec == l.cr.spec && SameSync(l, o.l) && o.l.cr.status.start == l.cr.status.start
  {
    hide SecretFor, BuiltSecret, CleanStep;
  }

  lemma CleanVerdict(l: Restore, e: Env)
    requires l.cr.status.phase !in {Failed, PartiallyFailed} && !l.cr.deleting
    ensures CleanStep(l, e).l.cr.status.phase !in {Failed, PartiallyFailed}
    ensures CleanStep(l, e).l.cr.status.start == l.cr.status.start
    ensures l.cr.status.phase != VolSyncDone ==> CleanStep(l, e).l == l
  {
    DeleteAllCr(Status(l, l.cr.status.(phase := Cleanup)), CLEANUP_KINDS, e);
  }

  lemma {:induction false} LaterVerdict(i: nat, l: Restore, e: Env)
    requires 0 < i < |BATCH| && l.cr.spec.resticSecret != ""
    requires l.cr.status.phase !in {Failed, PartiallyFailed} && !l.cr.deleting
    ensures var m := RunBatch(BATCH[i..], l, e).l;
            && m.cr.status.phase !in {Failed, PartiallyFailed} && m.cr.status.start == l.cr.status.start
            && (l.cr.status.phase != VolSyncDone ==> m.cr.status.phase == l.cr.status.phase && SameSync(l, m))
    decreases |BATCH| - i
  {
    hide Run, CleanStep;
    BatchSuffix(i);
    var o := Run(BATCH[i], l, e);
    if i < |CREATION| {
      StepVerdict(BATCH[i], l, e);
      if o.flow == Continue {
        LaterVerdict(i + 1, o.l, e);
      }
    } else {
      RunIsClean(l, e);
      CleanVerdict(l, e);
    }
  }

  /** The start time after a batch. */
  function Started(l: Restore, e: Env): Option<nat> {
    if l.cr.status.start.Some? || Get(Validate) in e.faults || Rejects(l, e) || StartWrite in e.faults then l.cr.status.start
    else Some(e.now)
  }

  lemma BatchVerdict(l: Restore, e: Env)
    requires l.cr.status.phase !in {Failed, PartiallyFailed} && !l.cr.deleting
    ensures var m := RunBatch(BATCH, l, e).l;
            && (m.cr.status.phase == Failed <==> Rejects(l, e) && FailWrite !in e.faults)
            && m.cr.status.phase != PartiallyFailed && m.cr.status.start == Started(l, e)
            && (l.cr.status.phase != VolSyncDone ==> m.cr.status.phase in {l.cr.status.phase, Failed} && SameSync(l, m))
  {
    hide CleanStep;
    assert BATCH[0..] == BATCH;
    BatchSuffix(0);
    var o := Run(Validate, l, e);
    if o.flow == Continue {
      LaterVerdict(1, o.l, e);
    }
  }

  /** What it takes for the status step to get to what the destination reports. */
  predicate Asks(e: Env) {
    {GetStatus, GetVeleroRestore, GetDest} !! e.faults && e.velero == Running
  }

  lemma SyncingMeans(l: Restore)
    requires l.dest.Some? && l.dest.value.status.Some?
    ensures Syncing(l.dest.value) <==> l.dest.value.status.value.lastManualSync == ""
                                       && LastSync(l.dest.value.status.value.conditions).status == True
    ensures LastSync(l.dest.value.status.value.conditions).status == True ==>
              LastSync(l.dest.value.status.value.conditions).reason == SyncInProgress
  {
    LastSyncMeans(l.dest.value.status.value.conditions);
  }

  /** What the status step makes of a restore whose destination is in this state. */
  predicate StatusSays(l: Restore, m: Restore, e: Env, synced: bool, syncing: bool) {
    var a, b := l.cr.status, m.cr.status;
    var finds := Asks(e) && DoneBatchingWrite !in e.faults && a.phase in {NoPhase, InProgress, Cleanup} && synced;
    && (b.phase == Failed <==> a.phase == Failed && !PartiallyFails(e))
    && (a.phase != PartiallyFailed ==> (b.phase == PartiallyFailed <==> PartiallyFails(e)))
    && (b.batching == BatchDone <==> a.batching == BatchDone || finds)
    && (a.phase != VolSyncDone ==> (b.phase == VolSyncDone <==> finds && DonePhaseWrite !in e.faults))
    && (a.phase in {NoPhase, Cleanup} ==> (b.phase == InProgress <==> Asks(e) && ProgressWrite !in e.faults && syncing))
    && b.start == a.start
  }

  lemma StatusVerdict(l: Restore, e: Env)
    requires Good(l) && !l.cr.deleting
    ensures StatusSays(l, StatusStep(l, e).l, e, Synced(l), l.dest.Some? && Syncing(l.dest.value))
  {
    hide Syncing, LastSync;
    if l.dest.Some? {
      if l.dest.value.status.Some? {
        SyncErrorNeverSeen(l.dest.value.status.value.conditions);
        SyncingMeans(l);
      } else {
        NothingReported(l.dest.value);
      }
    }
  }

  lemma NothingReported(d: RepDest)
    requires d.status.None?
    ensures !Syncing(d)
  {
  }

  lemma SameDestination(l: Restore, m: Restore)
    requires m.dest == l.dest && m.cr.name == l.cr.name
    ensures Synced(m) <==> Synced(l)
  {
  }

  /** What a pass over a live, admitted restore makes of it. */
  ghost predicate Verdict(l: Restore, e: Env, m: Restore) {
    var a, b := l.cr.status, m.cr.status;
    var asks := Asks(e) && !(Rejects(l, e) && FailWrite !in e.faults);
    && b.start == (if a.start.None? && Get(Validate) !in e.faults && !Rejects(l, e) && StartWrite !in e.faults
                   then Some(e.now) else a.start)
    && (b.phase == Failed <==> Rejects(l, e) && FailWrite !in e.faults && !PartiallyFails(e))
    && (b.phase == PartiallyFailed <==> PartiallyFails(e))
    && (a.phase != VolSyncDone ==>
          && (b.batching == BatchDone <==> a.batching == BatchDone || (asks && DoneBatchingWrite !in e.faults && Synced(l)))
          && (b.phase == VolSyncDone <==> asks && {DoneBatchingWrite, DonePhaseWrite} !! e.faults && Synced(l)))
    && (a.phase in {NoPhase, Cleanup} ==>
          (b.phase == InProgress <==> asks && ProgressWrite !in e.faults && l.dest.Some? && Syncing(l.dest.value)))
  }

  lemma WorkVerdict(l: Restore, copy: Vsr, batch: int, e: Env)
    requires Working(0, l, e) && copy.rv <= l.cr.rv && (copy.rv == l.cr.rv ==> copy == l.cr)
    ensures var o := WorkBranch(l, copy, batch, e);
            o.l.Some? && Verdict(l, e, o.l.value)
  {
    hide StatusStep, RunBatch, Advance, Linked, Consistent, Rejects, Synced, Syncing, SameSync;
    var work := RunBatch(BATCH, l, e);
    assert BATCH[0..] == BATCH;
    BatchVerdict(l, e);
    BatchKeeps(0, l, e);
    PathEnds(e, l, work.trail, work.l);
    ConditionKeeps(work.l, copy, work.flow != Fail, e);
    var cond := ConditionStep(work.l, copy, work.flow != Fail, e);
    PathEnds(e, work.l, cond.trail, cond.l);
    StatusVerdict(cond.l, e);
    if l.cr.status.phase != VolSyncDone {
      SameSyncMeans(l, work.l);
      SameDestination(work.l, cond.l);
    }
  }

  lemma SameVerdict(l: Restore, q: Restore, e: Env, m: Restore)
    requires Verdict(q, e, m) && q.cr.spec == l.cr.spec && q.cr.name == l.cr.name && q.dest == l.dest
    requires q.cr.status.phase == l.cr.status.phase && (q.cr.status.batching == BatchDone <==> l.cr.status.batching == BatchDone)
    requires q.cr.status.start == l.cr.status.start
    ensures Verdict(l, e, m)
  {
  }

  lemma QueueKeepsStart(l: Restore, processing: int, batch: int, e: Env)
    ensures QueueStep(l, processing, batch, e).l.cr.status.start == l.cr.status.start
  {
  }

  /** A pass over a live restore that gets past the queue leaves it Failed exactly when validation rejects it and the
      write goes through, unless the status step of the same pass makes it PartiallyFailed, which it does exactly
      when it finds the Velero Restore failed; takes it out of the queue exactly when its own
      ReplicationDestination has echoed its trigger and no read or write on the way fails; takes it on to
      VolSync-done exactly when the second write goes through as well; makes it InProgress exactly when the
      destination has echoed nothing and its last running condition is true; and stamps the start time exactly
      when there is none and validation goes through. */
  lemma PassVerdict(l: Restore, processing: int, batch0: int, e: Env)
    requires Good(l) && PassAdmits(l, batch0, e) && !l.cr.deleting
    requires QueueStep(l, processing, BatchSize(batch0, e.batch).0, e).flow == Continue
    ensures var o := Pass(l, processing, batch0, e);
            o.l.Some? && Verdict(l, e, o.l.value)
  {
    hide WorkBranch, Advance, Linked, Consistent, Verdict, QueuedCopy;
    var batch := BatchSize(batch0, e.batch).0;
    var q := QueueStep(l, processing, batch, e);
    var copy := QueuedCopy(l.cr, processing, batch);
    QueueKeeps(l, processing, batch, e);
    QueueKeepsStart(l, processing, batch, e);
    PathEnds(e, l, q.trail, q.l);
    QueuedCopyIsStale(l, processing, batch, e);
    WorkVerdict(q.l, copy, batch, e);
    SameVerdict(l, q.l, e, WorkBranch(q.l, copy, batch, e).l.value);
  }

  /******* The next wake-up *******/

  /** The calls of the status step, apart from the verdict on the Velero Restore. */
  predicate StatusGoes(e: Env) {
    {GetStatus, GetVeleroRestore, GetDest, DoneBatchingWrite, DonePhaseWrite, ProgressWrite} !! e.faults
  }

  lemma StatusResult(l: Restore, e: Env)
    requires Good(l) && !l.cr.deleting
    ensures GetStatus in e.faults || GetVeleroRestore in e.faults || e.velero != Running || l.cr.status.phase == Failed ==>
              StatusStep(l, e).flow == Fail
    ensures StatusGoes(e) && e.velero == Running && l.cr.status.phase !in {Failed, PartiallyFailed} ==>
              StatusStep(l, e).flow != Fail
  {
  }

  lemma WorkResult(l: Restore, copy: Vsr, batch: int, e: Env)
    requires Working(0, l, e) && copy.rv <= l.cr.rv && (copy.rv == l.cr.rv ==> copy == l.cr)
    ensures var o := WorkBranch(l, copy, batch, e);
            var rejected := Rejects(l, e) && FailWrite !in e.faults;
            && (GetStatus in e.faults || GetVeleroRestore in e.faults || e.velero != Running || rejected ==> o.result == Retry)
            && (StatusGoes(e) && e.velero == Running && !rejected ==> o.result == Requeue)
  {
    hide RunBatch, StatusStep, Advance, Linked, Consistent, Rejects, StatusGoes;
    var work := RunBatch(BATCH, l, e);
    assert BATCH[0..] == BATCH;
    BatchVerdict(l, e);
    BatchKeeps(0, l, e);
    PathEnds(e, l, work.trail, work.l);
    ConditionKeeps(work.l, copy, work.flow != Fail, e);
    var cond := ConditionStep(work.l, copy, work.flow != Fail, e);
    PathEnds(e, work.l, cond.trail, cond.l);
    StatusResult(cond.l, e);
    WorkKeeps(l, copy, batch, e);
  }

  /** What a pass over a live, admitted restore asks for: an error, and so the growing delay of the work queue, if the
      Velero Restore is missing, has failed or cannot be read, or validation fails the restore; the fixed interval if
      nothing of this is so and no call of the status step fails, whatever has failed in the batch. */
  lemma PassAsksAgain(l: Restore, processing: int, batch0: int, e: Env)
    requires Good(l) && PassAdmits(l, batch0, e) && !l.cr.deleting
    ensures var o := Pass(l, processing, batch0, e);
            var q := QueueStep(l, processing, BatchSize(batch0, e.batch).0, e);
            var rejected := Rejects(l, e) && FailWrite !in e.faults;
            && (q.flow == Fail ==> o.result == Retry) && (q.flow == Wait ==> o.result == Requeue)
            && (q.flow == Continue ==>
                  && (GetStatus in e.faults || GetVeleroRestore in e.faults || e.velero != Running || rejected ==>
                        o.result == Retry)
                  && (StatusGoes(e) && e.velero == Running && !rejected ==> o.result == Requeue))
  {
    hide WorkBranch, Advance, Linked, Consistent, StatusGoes, QueuedCopy;
    var batch := BatchSize(batch0, e.batch).0;
    var q := QueueStep(l, processing, batch, e);
    var copy := QueuedCopy(l.cr, processing, batch);
    QueueKeeps(l, processing, batch, e);
    PathEnds(e, l, q.trail, q.l);
    if q.flow == Continue {
      QueuedCopyIsStale(l, processing, batch, e);
      WorkResult(q.l, copy, batch, e);
    }
  }
}
