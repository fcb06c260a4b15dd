/** The count of processing backups, pass by pass. */
module BackupSlots {
  import opened Prelude
  import opened Api
  import opened BackupModel
  import opened BackupSafety
  import opened BackupPass

  /** What the stored status says this backup should have added to the count. */
  function Due(l: Backup): int {
    Indicator(l.cr.status.batching == Processing)
  }

  /** By how much the passes of this backup have left the count off. */
  function Drift(l: Backup): int {
    l.slots - Due(l)
  }

  /******* Batch steps do not touch admission *******/

  predicate SameAdmission(l: Backup, m: Backup) {
    m.slots == l.slots && m.cr.status.batching == l.cr.status.batching
  }

  lemma {:induction false} DeleteAllAdmission(l: Backup, kinds: seq<Kind>, e: Env)
    ensures var o := DeleteAll(l, kinds, e);
            && o.l.cr == l.cr && o.l.slots == l.slots && o.flow != Wait
            && ((forall k :: k in kinds ==> Delete(k) !in e.faults) ==> o.flow == Continue)
    decreases |kinds|
  {
    if kinds != [] && Delete(kinds[0]) !in e.faults {
      DeleteAllAdmission(Erase(l, kinds[0]), kinds[1..], e);
    }
  }

  lemma CleanAdmission(l: Backup, e: Env)
    ensures SameAdmission(l, CleanStep(l, e).l)
  {
    DeleteAllAdmission(Status(l, l.cr.status.(phase := Cleanup)), CLEANUP_KINDS, e);
  }

  lemma StepAdmission(step: Step, l: Backup, e: Env)
    ensures SameAdmission(l, Run(step, l, e).l)
  {
    hide CleanStep;
    CleanAdmission(l, e);
  }

  lemma {:induction false} BatchAdmission(steps: seq<Step>, l: Backup, e: Env)
    ensures SameAdmission(l, RunBatch(steps, l, e).l)
    decreases |steps|
  {
    hide Run;
    if steps != [] {
      var o := Run(steps[0], l, e);
      StepAdmission(steps[0], l, e);
      BatchAdmission(steps[1..], o.l, e);
    }
  }

  /******* The drift law *******/

  /** The state in which the status step of a pass finds a live, admitted backup. */
  function AfterWork(l: Backup, copy: Vsb, e: Env): Backup {
    var work := RunBatch(BATCH, l, e);
    ConditionStep(work.l, copy, work.flow != Fail, e).l
  }

  /** Whether the status step reaches the branch that marks the backup done. */
  predicate Completes(l: Backup, e: Env) {
    && {GetStatus, GetVeleroBackup, GetSource, GetSourceAgain} !! e.faults && e.velero == Running
    && l.cr.status.phase in {NoPhase, InProgress, Cleanup}
    && Moved(l)
  }

  /** The change of drift in the completion branch: its second write can fail after the first has taken
      the backup out of Processing, and it takes from the count again when it runs for a backup that is
      already out. */
  function CompletionDrift(l: Backup, e: Env): int {
    if !Completes(l, e) || DoneBatchingWrite in e.faults then 0
    else if DonePhaseWrite in e.faults then Due(l)
    else Due(l) - 1
  }

  lemma StatusDrift(l: Backup, e: Env)
    ensures Drift(StatusStep(l, e).l) - Drift(l) == CompletionDrift(l, e)
  {
    hide LastFalse, LastSync;
    if l.src.Some? && l.src.value.status.Some? {
      SyncErrorNeverSeen(l.src.value.status.value.conditions);
    }
  }

  /** Whether a pass gets as far as admission. */
  predicate Admits(l: Backup, batch: int, e: Env) {
    && Fetch !in e.faults && BatchSize(batch, e.batch).1 && l.cr.finalizer
    && (l.cr.deleting || !Terminal(l.cr.status.phase))
  }

  /** The drift of every pass. Admission keeps it. The deletion branch takes from the count each time it
      runs on a stored Queued or Processing status, so once per retry, and never for a backup admitted in
      the same pass; the completion branch drifts as above; nothing else does. */
  function PassDrift(l: Backup, processing: int, batch0: int, e: Env): int {
    var batch := BatchSize(batch0, e.batch).0;
    var q := QueueStep(l, processing, batch, e);
    if !Admits(l, batch0, e) || q.flow != Continue then 0
    else if l.cr.deleting then -Freed(l.cr)
    else CompletionDrift(AfterWork(q.l, l.cr, e), e)
  }

  /** The drift a pass leaves behind: that of the backup, or all of its slots once it is gone. */
  function DriftAfter(o: PassOut): int {
    if o.l.Some? then Drift(o.l.value) else o.slots
  }

  lemma WorkDrift(l: Backup, copy: Vsb, batch: int, e: Env)
    requires Working(0, l) && copy.rv <= l.cr.rv && (copy.rv == l.cr.rv ==> copy == l.cr)
    ensures var o := WorkBranch(l, copy, batch, e);
            o.l.Some? && o.slots == o.l.value.slots
            && Drift(o.l.value) == Drift(l) + CompletionDrift(AfterWork(l, copy, e), e)
  {
    hide StatusStep, CompletionDrift, Advance;
    var work := RunBatch(BATCH, l, e);
    BatchAdmission(BATCH, l, e);
    BatchFromStart(l, e);
    PathEnds(e, l, work.trail, work.l);
    ConditionKeeps(work.l, copy, work.flow != Fail, e);
    StatusDrift(AfterWork(l, copy, e), e);
  }

  /** The law itself, for every pass over a backup that stays. When a pass removes the backup, the status
      it had is no longer due and its slots stay behind. */
  lemma PassDriftLaw(l: Backup, processing: int, batch: int, e: Env)
    requires Good(l)
    ensures var o := Pass(l, processing, batch, e);
            && (o.l.Some? ==> o.slots == o.l.value.slots)
            && DriftAfter(o) - Drift(l)
               == PassDrift(l, processing, batch, e) + (if o.l.None? then Due(l) else 0)
  {
    var size := BatchSize(batch, e.batch).0;
    if Admits(l, batch, e) {
      var q := QueueStep(l, processing, size, e);
      QueueKeeps(l, processing, size, e);
      assert Drift(q.l) == Drift(l);
      if q.flow == Continue {
        PathEnds(e, l, q.trail, q.l);
        if l.cr.deleting {
          DeletionDrift(l, q.l, size, e);
        } else {
          WorkDrift(q.l, l.cr, size, e);
        }
      }
    }
  }

  /** When the finalizer goes, the version read at the start of the pass is still current, so admission
      has not changed it. */
  lemma DeletionDrift(before: Backup, l: Backup, batch: int, e: Env)
    requires Good(l) && l.cr.deleting && (before.cr.rv <= l.cr.rv) && (before.cr.rv == l.cr.rv ==> before.cr == l.cr)
    ensures var o := DeletionBranch(l, before.cr, batch, e);
            && (o.l.Some? ==> o.slots == o.l.value.slots && Drift(o.l.value) == Drift(l) - Freed(before.cr))
            && (o.l.None? ==> o.slots == l.slots - Freed(before.cr) && before.cr == l.cr)
  {
    hide CleanStep, Advance;
    var l1 := l.(slots := l.slots - Freed(before.cr));
    CleanAdmission(l1, e);
    CleanKeepsAnySlots(l, l1.slots, e);
    var c := CleanStep(l1, e);
    PathEnds(e, l, c.trail, c.l);
  }

  /******* Calm passes *******/

  /** No cleanup call fails once cleanup has begun. */
  predicate NoFailingCleanup(e: Env) {
    CompletedWrite !in e.faults && forall k: Kind :: Delete(k) !in e.faults
  }

  /** What holds of a backup as long as nothing is deleted and no cleanup call fails. */
  predicate Settled(l: Backup) {
    var st := l.cr.status;
    && !l.cr.deleting && st.phase != Cleanup
    && match st.batching
       case NotBatched => l.slots == 0
       case Queued => l.slots == 0
       case Processing => l.slots == 1
       case BatchDone =>
         && 0 <= l.slots <= 1
         && (st.phase in {NoPhase, InProgress} ==> l.slots == 1)
         && (st.phase in {VolSyncDone, Completed} ==> l.slots == 0)
         && (st.phase in {NoPhase, InProgress, VolSyncDone} ==> l.src.Some?)
         && (l.src.Some? ==> SourceDone(l.src.value))
  }

  lemma CreationSettled(step: Step, l: Backup, e: Env)
    requires step != Clean && Settled(l) && Good(l) && !Terminal(l.cr.status.phase)
    requires l.cr.status.batching == BatchDone ==> l.src.Some?
    ensures var o := Run(step, l, e);
            && Settled(o.l) && o.l.cr.status.phase in {l.cr.status.phase, Failed}
            && (o.l.cr.status.batching == BatchDone ==> o.l.src.Some?)
            && (o.flow == Continue ==> o.l.cr.status.phase == l.cr.status.phase)
  {
    hide Good, Settled;
    if step in {Validate, MirrorContent, WaitForContent, MirrorSnapshot, WaitForSnapshot, MirrorPvc} {
      EarlySettled(step, l, e);
    } else {
      LateSettled(step, l, e);
    }
  }

  lemma EarlySettled(step: Step, l: Backup, e: Env)
    requires step in {Validate, MirrorContent, WaitForContent, MirrorSnapshot, WaitForSnapshot, MirrorPvc}
    requires Settled(l) && !Terminal(l.cr.status.phase) && (l.cr.status.batching == BatchDone ==> l.src.Some?)
    ensures var o := Run(step, l, e);
            && Settled(o.l) && o.l.cr.status.phase in {l.cr.status.phase, Failed}
            && (o.l.cr.status.batching == BatchDone ==> o.l.src.Some?)
            && (o.flow == Continue ==> o.l.cr.status.phase == l.cr.status.phase)
  {
    hide CleanStep, CreateSecretStep, CreateSourceStep, BindPodStep;
  }

  lemma LateSettled(step: Step, l: Backup, e: Env)
    requires step in {BindPod, CreateSecret, IsPvcBound, CreateSource}
    requires Settled(l) && !Terminal(l.cr.status.phase) && (l.cr.status.batching == BatchDone ==> l.src.Some?)
    ensures var o := Run(step, l, e);
            && Settled(o.l) && o.l.cr.status.phase == l.cr.status.phase
            && (o.l.cr.status.batching == BatchDone ==> o.l.src.Some?)
  {
    hide CleanStep, ValidateStep, MirrorContentStep, MirrorPvcStep, BuiltSecret;
  }

  lemma CleanSettled(l: Backup, e: Env)
    requires Settled(l) && Good(l) && !Terminal(l.cr.status.phase) && NoFailingCleanup(e)
    ensures Settled(CleanStep(l, e).l)
  {
    var l1 := Status(l, l.cr.status.(phase := Cleanup));
    DeleteAllAdmission(l1, CLEANUP_KINDS, e);
    if l.cr.status.phase == VolSyncDone {
      assert l.cr.status.batching == BatchDone;
      CleanKeeps(l, e);
    }
  }

  lemma {:induction false} BatchSettled(i: nat, l: Backup, e: Env)
    requires i < |BATCH| && Working(i, l) && Settled(l) && NoFailingCleanup(e)
    requires l.cr.status.batching == BatchDone ==> l.src.Some?
    ensures Settled(RunBatch(BATCH[i..], l, e).l)
    decreases |BATCH| - i
  {
    hide Run;
    var o := Run(BATCH[i], l, e);
    BatchSuffix(i);
    if i < |CREATION| {
      StepKeeps(i, l, e);
      assert BATCH[i] != Clean;
      CreationSettled(BATCH[i], l, e);
      if o.flow == Continue {
        BatchSettled(i + 1, o.l, e);
      }
    } else {
      CleanSettledStep(l, e);
    }
  }

  lemma CleanSettledStep(l: Backup, e: Env)
    requires Settled(l) && Good(l) && !Terminal(l.cr.status.phase) && NoFailingCleanup(e)
    ensures Settled(Run(Clean, l, e).l)
  {
    CleanSettled(l, e);
  }

  lemma StatusSettled(l: Backup, e: Env)
    requires Settled(l) && Good(l) && l.cr.finalizer
    ensures Settled(StatusStep(l, e).l)
  {
    if l.src.Some? && l.src.value.status.Some? {
      SyncErrorNeverSeen(l.src.value.status.value.conditions);
    }
  }

  lemma QueueSettled(l: Backup, processing: int, batch: int, e: Env)
    requires Settled(l)
    ensures var q := QueueStep(l, processing, batch, e);
            && Settled(q.l)
            && q.l.slots - l.slots in {0, 1} && (q.l.slots > l.slots ==> processing < batch)
            && q.l.cr.status.phase == l.cr.status.phase && q.l.src == l.src
  {
  }

  lemma WorkSettled(l: Backup, copy: Vsb, batch: int, e: Env)
    requires Working(0, l) && Settled(l) && NoFailingCleanup(e)
    requires copy.rv <= l.cr.rv && (copy.rv == l.cr.rv ==> copy == l.cr)
    ensures var o := WorkBranch(l, copy, batch, e);
            o.l.Some? && Settled(o.l.value) && o.l.value.slots <= l.slots
  {
    hide StatusStep, RunBatch, Advance, Linked, Layered;
    assert BATCH[0..] == BATCH;
    var work := RunBatch(BATCH, l, e);
    BatchSettled(0, l, e);
    BatchAdmission(BATCH, l, e);
    BatchFromStart(l, e);
    PathEnds(e, l, work.trail, work.l);
    ConditionKeeps(work.l, copy, work.flow != Fail, e);
    var cond := ConditionStep(work.l, copy, work.flow != Fail, e);
    PathEnds(e, work.l, cond.trail, cond.l);
    StatusSettled(cond.l, e);
    StatusTakes(cond.l, e);
  }

  lemma StatusTakes(l: Backup, e: Env)
    ensures StatusStep(l, e).l.slots <= l.slots
  {
  }

  /** A calm pass keeps a backup settled, and adds to the count only below the batch size. */
  lemma PassSettled(l: Backup, processing: int, batch: int, e: Env)
    requires Good(l) && Settled(l) && NoFailingCleanup(e)
    ensures var o := Pass(l, processing, batch, e);
            && o.l.Some? && Settled(o.l.value) && o.slots == o.l.value.slots
            && (o.slots > l.slots ==> processing < BatchSize(batch, e.batch).0 && o.slots == l.slots + 1)
            && o.batch in {batch, BatchSize(batch, e.batch).0}
            && (o.slots > l.slots ==> o.batch == BatchSize(batch, e.batch).0)
  {
    var size := BatchSize(batch, e.batch).0;
    if Admits(l, batch, e) {
      var q := QueueStep(l, processing, size, e);
      QueueKeeps(l, processing, size, e);
      QueueSettled(l, processing, size, e);
      if q.flow == Continue {
        PathEnds(e, l, q.trail, q.l);
        WorkSettled(q.l, l.cr, size, e);
      }
    }
  }
}
