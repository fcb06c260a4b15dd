/** The count of processing restores, pass by pass. */
module RestoreSlots {
  import opened Prelude
  import opened Api
  import opened Secrets
  import opened RestoreModel
  import opened RestoreSafety

  /** What the stored status says this restore should have added to the count. */
  function Due(l: Restore): int {
    Indicator(l.cr.status.batching == Processing)
  }

  /** By how much the passes of this restore have left the count off. */
  function Drift(l: Restore): int {
    l.slots - Due(l)
  }

  /******* The drift law *******/

  /** The state in which the status step of a pass finds a live, admitted restore. */
  function AfterWork(l: Restore, copy: Vsr, e: Env): Restore {
    var work := RunBatch(BATCH, l, e);
    ConditionStep(work.l, copy, work.flow != Fail, e).l
  }

  /** Whether the status step reaches the branch that marks the restore done. */
  predicate Completes(l: Restore, e: Env) {
    && {GetStatus, GetVeleroRestore, GetDest} !! e.faults && e.velero == Running
    && l.cr.status.phase in {NoPhase, InProgress, Cleanup}
    && Moved(l)
  }

  /** The change of drift in the completion branch, as for a backup. */
  function CompletionDrift(l: Restore, e: Env): int {
    if !Completes(l, e) || DoneBatchingWrite in e.faults then 0
    else if DonePhaseWrite in e.faults then Due(l)
    else Due(l) - 1
  }

  lemma StatusDrift(l: Restore, e: Env)
    requires Good(l)
    ensures Drift(StatusStep(l, e).l) - Drift(l) == CompletionDrift(l, e)
  {
    if l.dest.Some? && l.dest.value.status.Some? {
      SyncErrorNeverSeen(l.dest.value.status.value.conditions);
    }
  }

  /** Whether a pass gets as far as admission. */
  predicate PassAdmits(l: Restore, batch: int, e: Env) {
    && Fetch !in e.faults && BatchSize(batch, e.batch).1 && l.cr.finalizer
    && (l.cr.deleting || !Terminal(l.cr.status.phase))
  }

  /** The drift of every pass. The deletion branch takes from the count each time it runs: for a restore
      that it finds Queued or Processing, and for one that this very pass has admitted. */
  function PassDrift(l: Restore, processing: int, batch0: int, e: Env): int {
    var batch := BatchSize(batch0, e.batch).0;
    var q := QueueStep(l, processing, batch, e);
    var copy := QueuedCopy(l.cr, processing, batch);
    if !PassAdmits(l, batch0, e) || q.flow != Continue then 0
    else if l.cr.deleting then -Freed(copy)
    else CompletionDrift(AfterWork(q.l, copy, e), e)
  }

  /** The drift a pass leaves behind: that of the restore, or all of its slots once it is gone. */
  function DriftAfter(o: PassOut): int {
    if o.l.Some? then Drift(o.l.value) else o.slots
  }

  lemma WorkDrift(l: Restore, copy: Vsr, batch: int, e: Env)
    requires Working(0, l, e) && copy.rv <= l.cr.rv && (copy.rv == l.cr.rv ==> copy == l.cr)
    ensures var o := WorkBranch(l, copy, batch, e);
            o.l.Some? && o.slots == o.l.value.slots
            && Drift(o.l.value) == Drift(l) + CompletionDrift(AfterWork(l, copy, e), e)
  {
    hide StatusStep, CompletionDrift, Advance;
    assert BATCH[0..] == BATCH;
    var work := RunBatch(BATCH, l, e);
    BatchKeeps(0, l, e);
    PathEnds(e, l, work.trail, work.l);
    ConditionKeeps(work.l, copy, work.flow != Fail, e);
    var cond := ConditionStep(work.l, copy, work.flow != Fail, e);
    PathEnds(e, work.l, cond.trail, cond.l);
    StatusDrift(AfterWork(l, copy, e), e);
  }

  /** When the finalizer goes, the version read at the start of the pass is still current, so admission
      has not changed it. */
  lemma DeletionDrift(before: Restore, l: Restore, copy: Vsr, batch: int, e: Env)
    requires Good(l) && l.cr.deleting && copy.rv <= l.cr.rv && (copy.rv == l.cr.rv ==> copy == l.cr == before.cr)
    ensures var o := DeletionBranch(l, copy, batch, e);
            && (o.l.Some? ==> o.slots == o.l.value.slots && Drift(o.l.value) == Drift(l) - Freed(copy))
            && (o.l.None? ==> o.slots == l.slots - Freed(copy) && l.cr == before.cr)
  {
    hide CleanStep, Advance;
    var l1 := l.(slots := l.slots - Freed(copy));
    CleanKeeps(l1, e);
    var c := CleanStep(l1, e);
    PathEnds(e, l1, c.trail, c.l);
  }

  /** The law itself, for every pass. When a pass removes the restore, its slots stay behind. */
  lemma PassDriftLaw(l: Restore, processing: int, batch: int, e: Env)
    requires Good(l)
    ensures var o := Pass(l, processing, batch, e);
            && (o.l.Some? ==> o.slots == o.l.value.slots)
            && DriftAfter(o) - Drift(l)
               == PassDrift(l, processing, batch, e) + (if o.l.None? then Due(l) else 0)
  {
    var size := BatchSize(batch, e.batch).0;
    if PassAdmits(l, batch, e) {
      var q := QueueStep(l, processing, size, e);
      var copy := QueuedCopy(l.cr, processing, size);
      QueueKeeps(l, processing, size, e);
      assert Drift(q.l) == Drift(l);
      if q.flow == Continue {
        QueuedCopyIsStale(l, processing, size, e);
        PathEnds(e, l, q.trail, q.l);
        if l.cr.deleting {
          DeletionDrift(l, q.l, copy, size, e);
        } else {
          WorkDrift(q.l, copy, size, e);
        }
      }
    }
  }

  /******* Calm passes *******/

  /** No cleanup call fails once cleanup has begun. */
  predicate NoFailingCleanup(e: Env) {
    {Delete(SecretKind), Delete(DestKind), GetAgain, CompletedWrite} !! e.faults
  }

  /** What holds of a restore as long as nothing is deleted and no cleanup call fails. */
  predicate Settled(l: Restore) {
    var st := l.cr.status;
    && !l.cr.deleting && st.phase != Cleanup
    && match st.batching
       case NotBatched => l.slots == 0
       case Queued => l.slots == 0
       case Processing => l.slots == 1
       case BatchDone =>
         && 0 <= l.slots <= 1
         && (st.phase in {NoPhase, InProgress} ==> l.slots == 1)
         && (st.phase in {VolSyncDone, Completed} ==> l.slots == 0)
         && (st.phase in {NoPhase, InProgress, VolSyncDone} ==> l.dest.Some?)
         && (l.dest.Some? ==> DestDone(l.dest.value))
  }

  lemma CreationSettled(step: Step, l: Restore, e: Env)
    requires step != Clean && Settled(l) && Good(l) && !Terminal(l.cr.status.phase)
    requires l.cr.status.batching == BatchDone ==> l.dest.Some?
    ensures var o := Run(step, l, e);
            && Settled(o.l) && o.l.cr.status.phase in {l.cr.status.phase, Failed}
            && (o.l.cr.status.batching == BatchDone ==> o.l.dest.Some?)
            && (o.flow == Continue ==> o.l.cr.status.phase == l.cr.status.phase)
  {
  }

  lemma CleanSettled(l: Restore, e: Env)
    requires Settled(l) && Good(l) && !Terminal(l.cr.status.phase) && NoFailingCleanup(e)
    ensures Settled(Run(Clean, l, e).l)
  {
    var l1 := Status(l, l.cr.status.(phase := Cleanup));
    if l.cr.status.phase == VolSyncDone {
      assert Good(l1);
      assert CLEANUP_KINDS[0..] == CLEANUP_KINDS;
      DeleteAllKeeps(l1, 0, e);
      CleanKeeps(l, e);
    }
  }

  lemma {:induction false} BatchSettled(i: nat, l: Restore, e: Env)
    requires i < |BATCH| && Working(i, l, e) && Settled(l) && NoFailingCleanup(e)
    requires l.cr.status.batching == BatchDone ==> l.dest.Some?
    ensures Settled(RunBatch(BATCH[i..], l, e).l)
    decreases |BATCH| - i
  {
    hide Run;
    var o := Run(BATCH[i], l, e);
    BatchSuffix(i);
    if i < |CREATION| {
      StepKeeps(i, l, e);
      assert BATCH[i] != Clean;
      CreationSettled(BATCH[i], l, e);
      if o.flow == Continue {
        BatchSettled(i + 1, o.l, e);
      }
    } else {
      CleanSettled(l, e);
    }
  }

  lemma StatusSettled(l: Restore, e: Env)
    requires Settled(l) && Good(l) && l.cr.finalizer
    requires l.cr.status.batching == Queued && l.dest.Some? ==> l.dest.value.status.None?
    requires l.cr.status.batching != NotBatched
    ensures Settled(StatusStep(l, e).l) && StatusStep(l, e).l.slots <= l.slots
  {
    if l.dest.Some? && l.dest.value.status.Some? {
      SyncErrorNeverSeen(l.dest.value.status.value.conditions);
    }
  }

  lemma WorkSettled(l: Restore, copy: Vsr, batch: int, e: Env)
    requires Working(0, l, e) && Settled(l) && NoFailingCleanup(e)
    requires copy.rv <= l.cr.rv && (copy.rv == l.cr.rv ==> copy == l.cr)
    ensures var o := WorkBranch(l, copy, batch, e);
            && o.l.Some? && Settled(o.l.value) && o.l.value.slots <= l.slots
            && o.slots == o.l.value.slots && o.batch == batch
  {
    hide StatusStep, Advance, Good;
    assert BATCH[0..] == BATCH;
    var work := RunBatch(BATCH, l, e);
    WorkingGood(l, e);
    BatchSettled(0, l, e);
    BatchKeeps(0, l, e);
    PathEnds(e, l, work.trail, work.l);
    ConditionKeeps(work.l, copy, work.flow != Fail, e);
    var cond := ConditionStep(work.l, copy, work.flow != Fail, e);
    PathEnds(e, work.l, cond.trail, cond.l);
    StatusSettled(cond.l, e);
  }

  lemma WorkingGood(l: Restore, e: Env)
    requires Working(0, l, e) && Settled(l)
    ensures Good(l) && (l.cr.status.batching == BatchDone ==> l.dest.Some?)
  {
  }

  lemma QueueSettled(l: Restore, processing: int, batch: int, e: Env)
    requires Settled(l)
    ensures var q := QueueStep(l, processing, batch, e);
            && Settled(q.l)
            && q.l.slots - l.slots in {0, 1} && (q.l.slots > l.slots ==> processing < batch)
  {
  }

  /** A calm pass keeps a restore settled, and adds to the count only below the batch size. */
  lemma PassSettled(l: Restore, processing: int, batch: int, e: Env)
    requires Good(l) && Settled(l) && NoFailingCleanup(e)
    ensures var o := Pass(l, processing, batch, e);
            && o.l.Some? && Settled(o.l.value) && o.slots == o.l.value.slots
            && (o.slots > l.slots ==> processing < BatchSize(batch, e.batch).0 && o.slots == l.slots + 1)
            && o.batch in {batch, BatchSize(batch, e.batch).0}
            && (o.slots > l.slots ==> o.batch == BatchSize(batch, e.batch).0)
  {
    hide WorkBranch;
    var size := BatchSize(batch, e.batch).0;
    if PassAdmits(l, batch, e) {
      var q := QueueStep(l, processing, size, e);
      QueueKeeps(l, processing, size, e);
      QueueSettled(l, processing, size, e);
      if q.flow == Continue {
        QueuedCopyIsStale(l, processing, size, e);
        PathEnds(e, l, q.trail, q.l);
        WorkSettled(q.l, QueuedCopy(l.cr, processing, size), size, e);
      }
    }
  }

  /******* The limit that is not one *******/

  /** Nothing fails and the inputs are valid. */
  predicate Smooth(e: Env) {
    e.faults == {} && e.oneSnapClass && e.oneStorageClass && e.given.Some? && WellFormed(e.given.value)
    && e.velero == Running
  }

  /** A new restore starts to move data whether or not there is room for it: the pass that takes it out of its
      unbatched state runs the batch and leaves it with a ReplicationDestination. It does so without a slot
      if and only if the queue is full. */
  lemma NewRestoreStarts(l: Restore, processing: int, batch: int, e: Env)
    requires Good(l) && l.cr.finalizer && !l.cr.deleting && ValidSpec(l.cr.spec)
    requires l.cr.status.batching == NotBatched && l.cr.status.phase == NoPhase
    requires Smooth(e) && batch != 0
    ensures var o := Pass(l, processing, batch, e);
            && o.l.Some? && o.l.value.dest.Some? && !DestDone(o.l.value.dest.value)
            && o.l.value.cr.status.batching == (if processing >= batch then Queued else Processing)
            && (o.slots == l.slots <==> processing >= batch)
            && o.slots == l.slots + (if processing >= batch then 0 else 1)
  {
    hide StatusStep, ConditionStep, WaitForContentStep, BuiltSecret, SecretFor, WellFormed;
    SecretDerives(l, e);
    var q := QueueStep(l, processing, batch, e);
    var o0 := ValidateStep(q.l, e);
    var o1 := CreateSecretStep(o0.l, e);
    var o2 := CreateDestStep(o1.l, e);
    StartedBatch(q.l, e);
    WaitsForStatus(o2.l, e);
    var work := RunBatch(BATCH, q.l, e);
    StartedCondition(work.l, QueuedCopy(l.cr, processing, batch), work.flow != Fail, e);
  }

  lemma SecretDerives(l: Restore, e: Env)
    requires Smooth(e)
    ensures forall m: Restore :: m.cr.spec == l.cr.spec ==> !SecretFor(m, e).Malformed?
  {
    hide WellFormed, CredentialData, CommonData;
  }

  lemma WaitsForStatus(l: Restore, e: Env)
    requires e.faults == {} && l.dest.Some? && l.dest.value.status.None?
    ensures WaitForContentStep(l, e) == Stay(l, Wait)
  {
  }

  lemma StartedBatch(l: Restore, e: Env)
    ensures var o0 := Run(Validate, l, e);
            var o1 := Run(CreateSecret, o0.l, e);
            var o2 := Run(CreateDest, o1.l, e);
            var o3 := Run(WaitForContent, o2.l, e);
            o0.flow == Continue && o1.flow == Continue && o2.flow == Continue && o3.flow != Continue ==>
              RunBatch(BATCH, l, e).l == o3.l && RunBatch(BATCH, l, e).flow == o3.flow
  {
    hide Run;
    var b1, b2, b3 := BATCH[1..], BATCH[1..][1..], BATCH[1..][1..][1..];
    assert BATCH[0] == Validate && b1[0] == CreateSecret && b2[0] == CreateDest && b3[0] == WaitForContent;
    var o0 := Run(Validate, l, e);
    var o1 := Run(CreateSecret, o0.l, e);
    var o2 := Run(CreateDest, o1.l, e);
    var r3 := RunBatch(b3, o2.l, e);
    var r2 := RunBatch(b2, o1.l, e);
    var r1 := RunBatch(b1, o0.l, e);
  }

  lemma StartedCondition(l: Restore, copy: Vsr, ok: bool, e: Env)
    requires e.faults == {} && e.velero == Running && copy.rv < l.cr.rv && l.dest.Some? && l.dest.value.status.None?
    requires l.cr.status.phase == NoPhase
    ensures ConditionStep(l, copy, ok, e).l == l && StatusStep(l, e).l == l
  {
  }
}
