/** Progress of restores: with valid inputs and no failing call no pass adds work, and a pass over a restore
    whose waits the cluster has answered takes some away. */
module RestoreProgress {
  import opened Prelude
  import opened Api
  import opened Secrets
  import opened RestoreModel
  import opened RestoreSafety
  import opened RestoreSlots
  import opened RestoreRuns

  /** Nothing fails, every input is valid, and there is a batch size. */
  predicate SmoothPass(e: Env) {
    Smooth(e) && e.batch.Value? && e.batch.n > 0
  }

  /** What every run keeps true of a restore that is not deleted, whichever calls fail. */
  predicate Owing(l: Restore) {
    var st := l.cr.status;
    !l.cr.deleting ==>
      && l.slots <= 1 && (st.batching in {NotBatched, Queued} ==> l.slots <= 0)
      && (st.phase in {VolSyncDone, Cleanup, Completed} ==> l.slots <= 0)
      && (st.phase == VolSyncDone ==> l.dest.Some?)
  }

  /** A restore with valid inputs that has not failed. */
  predicate Live(l: Restore) {
    Good(l) && LiveStatus(l)
  }

  predicate LiveStatus(l: Restore) {
    !l.cr.deleting && ValidSpec(l.cr.spec) && l.cr.status.phase !in {Failed, PartiallyFailed} && Owing(l)
  }

  /** VolSync has moved the data, and the snapshot it took is ready, as pass `e` sees it. */
  predicate Answered(l: Restore, e: Env) {
    l.dest.Some? ==>
      && DestDone(l.dest.value) && BoundContent(l.dest.value, l.cr.spec.protectedNs, e).Some?
      && var content := e.contents[BoundContent(l.dest.value, l.cr.spec.protectedNs, e).value];
         content.Some? && content.value.ready && content.value.handle.Some?
  }

  /** The work that is left. A restore that is only queued may already own a destination, so its data can
      have moved before it is admitted. */
  function Work(l: Restore): nat {
    if l.cr.status.phase == Completed then 0
    else if l.cr.status.phase == VolSyncDone then 1
    else if l.dest.Some? then if DestDone(l.dest.value) then 2 else 3
    else 4
  }

  function Measure(l: Restore): nat {
    Work(l)
    + (if !l.cr.finalizer then 60 else 0)
    + (match l.cr.status.batching case NotBatched => 40 case Queued => 20 case _ => 0)
  }

  /******* One pass *******/

  /** Work has been taken away, or there is nothing to wait for. */
  predicate Ahead(l: Restore, e: Env, w: nat) {
    Work(l) < w || Answered(l, e)
  }

  predicate OnTime(l: Restore, w: nat) {
    LiveStatus(l) && Work(l) <= w
  }

  lemma StepOnTime(i: nat, l: Restore, e: Env, w: nat)
    requires i < |CREATION| && Working(i, l, e) && OnTime(l, w) && Smooth(e)
    ensures var o := Run(CREATION[i], l, e);
            && OnTime(o.l, w)
            && (Ahead(l, e, w) ==> if o.flow == Continue then Ahead(o.l, e, w) else Work(o.l) < w)
  {
    hide CleanStep, Linked, Consistent, SecretFor, BuiltSecret, WellFormed;
    if i == 1 && e.given.Some? {
      SecretDerives(l, e);
    }
  }

  lemma CleanRunning(l: Restore, e: Env, w: nat)
    requires Working(4, l, e) && OnTime(l, w) && Smooth(e)
    ensures var o := CleanStep(l, e);
            && OnTime(o.l, w)
            && (Work(o.l) == w ==> o.l == l && l.cr.status.phase in {NoPhase, InProgress, Cleanup})
  {
    hide WellFormed;
    CleanKeeps(l, e);
    assert CLEANUP_KINDS[0..] == CLEANUP_KINDS;
    var l1 := Status(l, l.cr.status.(phase := Cleanup));
    if l.cr.status.phase == VolSyncDone {
      assert Good(l1);
      DeleteAllKeeps(l1, 0, e);
    }
  }

  /** A smooth batch takes work away, or ends in a wait, or finds the data moved. */
  lemma {:induction false} BatchRunning(i: nat, l: Restore, e: Env, w: nat)
    requires i < |BATCH| && Working(i, l, e) && OnTime(l, w) && Smooth(e)
    ensures var o := RunBatch(BATCH[i..], l, e);
            && OnTime(o.l, w)
            && (Ahead(l, e, w) && Work(o.l) == w ==> Moved(o.l) && o.l.cr.status.phase in {NoPhase, InProgress, Cleanup})
    decreases |BATCH| - i
  {
    hide Run, CleanStep, Smooth, OnTime, BoundContent, RecordedFrom;
    BatchSuffix(i);
    if i < |CREATION| {
      var o := Run(BATCH[i], l, e);
      StepKeeps(i, l, e);
      StepOnTime(i, l, e, w);
      OnTimeWork(o.l, w);
      if o.flow == Continue {
        BatchRunning(i + 1, o.l, e, w);
      }
    } else {
      RunIsClean(l, e);
      CleanRunning(l, e, w);
      OnTimeWork(CleanStep(l, e).l, w);
    }
  }

  lemma OnTimeWork(l: Restore, w: nat)
    requires OnTime(l, w)
    ensures Work(l) <= w
  {
  }

  predicate SameQueue(l: Restore, m: Restore) {
    && m.slots == l.slots && m.cr.status.batching == l.cr.status.batching && m.cr.finalizer == l.cr.finalizer
    && (m.cr.status.phase == Completed <==> l.cr.status.phase == Completed)
  }

  /** The status step finishes what is finished, and never adds work. */
  lemma StatusRunning(l: Restore, e: Env)
    requires Live(l) && l.cr.finalizer && Smooth(e)
    ensures var o := StatusStep(l, e);
            && LiveStatus(o.l) && Work(o.l) <= Work(l)
            && (Work(o.l) == Work(l) ==> SameQueue(l, o.l))
            && (l.cr.status.phase in {NoPhase, InProgress, Cleanup} && Moved(l) ==> Work(o.l) < Work(l))
  {
    hide Linked, LastSync, WellFormed;
    if l.dest.Some? && l.dest.value.status.Some? {
      SyncErrorNeverSeen(l.dest.value.status.value.conditions);
    }
  }

  /** A smooth pass over an admitted restore never adds work; over an answered one it takes some away. */
  lemma WorkProgress(l: Restore, copy: Vsr, batch: int, e: Env)
    requires Working(0, l, e) && Live(l) && Smooth(e)
    requires copy.rv <= l.cr.rv && (copy.rv == l.cr.rv ==> copy == l.cr)
    ensures var o := WorkBranch(l, copy, batch, e);
            && o.l.Some? && LiveStatus(o.l.value) && Work(o.l.value) <= Work(l)
            && (Answered(l, e) ==> Work(o.l.value) < Work(l))
            && (Work(o.l.value) == Work(l) ==> SameQueue(l, o.l.value))
  {
    hide StatusStep, RunBatch, Good, Advance, Smooth, Owing, Answered, RecordedFrom;
    assert BATCH[0..] == BATCH;
    var w := Work(l);
    var work := RunBatch(BATCH, l, e);
    BatchRunning(0, l, e, w);
    BatchKeeps(0, l, e);
    PathEnds(e, l, work.trail, work.l);
    ConditionKeeps(work.l, copy, work.flow != Fail, e);
    var cond := ConditionStep(work.l, copy, work.flow != Fail, e);
    PathEnds(e, work.l, cond.trail, cond.l);
    ConditionLive(work.l, cond.l);
    StatusRunning(cond.l, e);
  }

  lemma ConditionLive(l: Restore, m: Restore)
    requires LiveStatus(l) && Good(m) && m == l.(cr := m.cr) && m.cr.spec == l.cr.spec && m.cr.deleting == l.cr.deleting
    requires m.cr.status == l.cr.status.(reconciled := m.cr.status.reconciled)
    ensures Live(m) && Work(m) == Work(l)
  {
  }

  /** Whether a pass can move this restore on, once the cluster has answered. */
  predicate CanMove(l: Restore, processing: int, batch: int) {
    && l.cr.status.phase != Completed
    && (l.cr.status.batching == Queued && l.cr.finalizer ==> processing < batch)
  }

  lemma LivePhase(l: Restore)
    requires Live(l)
    ensures !l.cr.deleting && (Terminal(l.cr.status.phase) ==> l.cr.status.phase == Completed)
    ensures !l.cr.finalizer ==> Live(l.(cr := WithFinalizer(l.cr, true)))
  {
  }

  lemma QueueLive(l: Restore, processing: int, batch: int, e: Env)
    requires Live(l) && l.cr.finalizer && l.cr.status.phase != Completed && e.faults == {}
    ensures var q := QueueStep(l, processing, batch, e);
            && LiveStatus(q.l) && Work(q.l) == Work(l) && q.l.cr.finalizer
            && Rank(q.l.cr.status.batching) >= Rank(l.cr.status.batching) && (Answered(l, e) ==> Answered(q.l, e))
            && (q.flow == Wait <==> l.cr.status.batching == Queued && processing >= batch) && q.flow != Fail
            && (q.flow == Wait ==> q.l == l)
            && (q.l.cr.status.batching == l.cr.status.batching ==> q.l == l)
            && (l.cr.status.batching in {Processing, BatchDone} ==> q.l == l)
  {
    hide Linked, BoundContent;
  }

  /** No smooth pass raises the measure of a restore; one that leaves it as it was has changed nothing that
      admission depends on; and one over an answered restore that can move lowers it. */
  lemma PassProgress(l: Restore, processing: int, batch0: int, e: Env)
    requires Live(l) && SmoothPass(e) && batch0 >= 0
    ensures var batch := BatchSize(batch0, e.batch).0;
            var o := Pass(l, processing, batch0, e);
            && o.l.Some? && Live(o.l.value) && o.batch == batch > 0 && Measure(o.l.value) <= Measure(l)
            && (Measure(o.l.value) == Measure(l) ==> SameQueue(l, o.l.value))
            && (l.cr.status.phase == Completed ==> o.l.value == l)
            && (Answered(l, e) && CanMove(l, processing, batch) ==> Measure(o.l.value) < Measure(l))
  {
    hide Advance, WorkBranch, Linked, Path, LiveStatus, QueueStep, QueuedCopy, WellFormed, Answered, RecordedFrom;
    LivePhase(l);
    var batch := BatchSize(batch0, e.batch).0;
    PassIsSafe(l, processing, batch0, e);
    var o := Pass(l, processing, batch0, e);
    if l.cr.finalizer && l.cr.status.phase != Completed {
      var q := QueueStep(l, processing, batch, e);
      var copy := QueuedCopy(l.cr, processing, batch);
      QueueKeeps(l, processing, batch, e);
      PathEnds(e, l, q.trail, q.l);
      QueueLive(l, processing, batch, e);
      if q.flow == Continue {
        QueuedCopyIsStale(l, processing, batch, e);
        WorkProgress(q.l, copy, batch, e);
        var rest := WorkBranch(q.l, copy, batch, e);
        WorkKeeps(q.l, copy, batch, e);
        BranchBatch(q.l, copy, batch, e);
        PathEnds(e, q.l, rest.trail, rest.l.value);
        MeasureFalls(l, q.l, rest.l.value);
      }
    }
  }

  lemma BranchBatch(l: Restore, copy: Vsr, batch: int, e: Env)
    ensures WorkBranch(l, copy, batch, e).batch == batch
  {
  }

  lemma MeasureFalls(l: Restore, q: Restore, m: Restore)
    requires l.cr.finalizer && q.cr.finalizer && m.cr.finalizer && Work(m) <= Work(q) == Work(l)
    requires Rank(l.cr.status.batching) <= Rank(q.cr.status.batching) <= Rank(m.cr.status.batching)
    requires q.cr.status.batching == l.cr.status.batching ==> q == l
    requires l.cr.status.batching in {Processing, BatchDone} ==> q == l
    requires Work(m) == Work(q) ==> SameQueue(q, m)
    ensures Measure(m) <= Measure(l) && (Work(m) < Work(l) ==> Measure(m) < Measure(l))
    ensures Measure(m) == Measure(l) ==> SameQueue(l, m)
  {
  }
}
