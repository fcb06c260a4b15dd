/** How a pass ends for the queue, for the reconciler's condition, and for the next wake-up; and which batch size it
    works with. */
module BackupOutcome {
  import opened Prelude
  import opened Api
  import opened BackupModel
  import opened BackupSafety
  import opened BackupPass
  import opened BackupSlots
  import opened BackupVerdict
  import opened BackupRuns
  import opened BackupProgress

  /******* The queue *******/

  lemma StatusBatching(l: Backup, e: Env)
    ensures StatusStep(l, e).l.cr.status.batching in {l.cr.status.batching, BatchDone}
  {
  }

  lemma WorkBatching(l: Backup, copy: Vsb, batch: int, e: Env)
    requires Working(0, l) && copy.rv <= l.cr.rv && (copy.rv == l.cr.rv ==> copy == l.cr)
    ensures var o := WorkBranch(l, copy, batch, e);
            o.l.Some? && o.l.value.cr.status.batching in {l.cr.status.batching, BatchDone}
  {
    hide StatusStep, RunBatch, Advance, Linked, Layered;
    var work := RunBatch(BATCH, l, e);
    BatchAdmission(BATCH, l, e);
    BatchFromStart(l, e);
    PathEnds(e, l, work.trail, work.l);
    ConditionKeeps(work.l, copy, work.flow != Fail, e);
    StatusBatching(ConditionStep(work.l, copy, work.flow != Fail, e).l, e);
  }

  lemma DeletionBatching(l: Backup, copy: Vsb, batch: int, e: Env)
    ensures var o := DeletionBranch(l, copy, batch, e);
            o.l.Some? ==> o.l.value.cr.status.batching == l.cr.status.batching
  {
    hide CleanStep;
    CleanAdmission(l.(slots := l.slots - Freed(copy)), e);
  }

  /** A waiting backup is taken up by a pass exactly when the count is below the batch size, is put into the queue
      exactly when it is not and the backup is new, and stays where it is when a call on the way fails; one that has
      been taken up never goes back. */
  lemma PassQueues(l: Backup, processing: int, batch0: int, e: Env)
    requires Good(l) && Pass(l, processing, batch0, e).l.Some?
    ensures var before, after := l.cr.status.batching, Pass(l, processing, batch0, e).l.value.cr.status.batching;
            var admits := Admits(l, batch0, e) && QueueWrite !in e.faults;
            var room := processing < BatchSize(batch0, e.batch).0;
            && (before in {NotBatched, Queued} ==>
                  && (after == Processing <==> admits && room)
                  && (after == Queued <==> if before == Queued then !(admits && room) else admits && !room)
                  && after != BatchDone)
            && (before == Processing ==> after in {Processing, BatchDone})
            && (before == BatchDone ==> after == BatchDone)
  {
    hide WorkBranch, DeletionBranch, Advance, Linked, Layered;
    var batch := BatchSize(batch0, e.batch).0;
    if Admits(l, batch0, e) {
      var q := QueueStep(l, processing, batch, e);
      QueueKeeps(l, processing, batch, e);
      PathEnds(e, l, q.trail, q.l);
      if q.flow == Continue {
        if l.cr.deleting {
          DeletionBatching(q.l, l.cr, batch, e);
        } else {
          WorkBatching(q.l, l.cr, batch, e);
          if l.cr.status.batching in {NotBatched, Queued} {
            WaitingIsNotDone(l, q.l, batch, e);
          }
        }
      }
    }
  }

  lemma WaitingIsNotDone(l: Backup, q: Backup, batch: int, e: Env)
    requires Good(l) && l.cr.status.batching in {NotBatched, Queued} && q.src == l.src && q.cr.status.batching != BatchDone
    requires Working(0, q) && l.cr.rv <= q.cr.rv && (l.cr.rv == q.cr.rv ==> l.cr == q.cr)
    ensures var o := WorkBranch(q, l.cr, batch, e);
            o.l.Some? && o.l.value.cr.status.batching != BatchDone
  {
    hide WorkBranch, Advance, Linked, Layered;
    WorkKeeps(q, l.cr, batch, e);
    var o := WorkBranch(q, l.cr, batch, e);
    PathEnds(e, q, o.trail, o.l.value);
  }

  /******* The condition *******/

  /** The condition says whether the batch went through, as long as nothing else has been written. */
  lemma WorkTells(l: Backup, batch: int, e: Env)
    requires Working(0, l) && ConditionWrite !in e.faults
    ensures var o := WorkBranch(l, l.cr, batch, e);
            && o.l.Some?
            && (Get(Validate) in e.faults ==> o.l.value.cr.status.reconciled == Some(false))
            && (Smooth(e) && Live(l) ==> o.l.value.cr.status.reconciled in {l.cr.status.reconciled, Some(true)})
  {
    hide RunBatch, StatusStep, Advance, Linked, Layered, Smooth, Live, ConditionStep;
    var work := RunBatch(BATCH, l, e);
    BatchFromStart(l, e);
    PathEnds(e, l, work.trail, work.l);
    if Get(Validate) in e.faults {
      FirstReadFails(l, e);
    }
    if Smooth(e) && Live(l) {
      RunWhole(l, e);
      WorkingIsOnTrack(l);
      BatchRunning(0, l, e, Work(l));
    }
    ConditionTells(work.l, l.cr, work.flow != Fail, e);
    BatchKeepsCondition(BATCH, l, e);
    StatusKeepsCondition(ConditionStep(work.l, l.cr, work.flow != Fail, e).l, e);
  }

  lemma WorkingIsOnTrack(l: Backup)
    requires Working(0, l) && Live(l)
    ensures OnTrack(0, l, Work(l))
  {
  }

  lemma FirstReadFails(l: Backup, e: Env)
    requires Get(Validate) in e.faults
    ensures RunBatch(BATCH, l, e) == Stay(l, Fail)
  {
    assert BATCH[0] == Validate;
  }

  lemma ConditionTells(l: Backup, copy: Vsb, ok: bool, e: Env)
    requires copy.rv == l.cr.rv ==> copy == l.cr
    ensures var m := ConditionStep(l, copy, ok, e).l;
            m.cr.status.reconciled == if copy.rv == l.cr.rv && ConditionWrite !in e.faults then Some(ok)
                                      else l.cr.status.reconciled
  {
  }

  lemma StepKeepsCondition(step: Step, l: Backup, e: Env)
    requires step != Clean
    ensures Run(step, l, e).l.cr.status.reconciled == l.cr.status.reconciled
  {
    hide CleanStep, SecretFor, BuiltSecret, NewSource, NewClaim;
  }

  lemma CleanKeepsCondition(l: Backup, e: Env)
    ensures CleanStep(l, e).l.cr.status.reconciled == l.cr.status.reconciled
  {
    DeleteAllAdmission(Status(l, l.cr.status.(phase := Cleanup)), CLEANUP_KINDS, e);
  }

  lemma {:induction false} BatchKeepsCondition(steps: seq<Step>, l: Backup, e: Env)
    ensures RunBatch(steps, l, e).l.cr.status.reconciled == l.cr.status.reconciled
    decreases |steps|
  {
    hide Run, CleanStep;
    if steps != [] {
      if steps[0] == Clean {
        RunIsClean(l, e);
        CleanKeepsCondition(l, e);
      } else {
        StepKeepsCondition(steps[0], l, e);
      }
      BatchKeepsCondition(steps[1..], Run(steps[0], l, e).l, e);
    }
  }

  lemma StatusKeepsCondition(l: Backup, e: Env)
    ensures StatusStep(l, e).l.cr.status.reconciled == l.cr.status.reconciled
  {
  }

  /** The condition of a live backup that has been taken up, after a pass whose condition write does not fail: false if
      the first read of the batch fails, and if nothing fails and every input is valid, true or, where the copy had
      become stale, as before. */
  lemma ReconciledTells(l: Backup, processing: int, batch0: int, e: Env)
    requires Good(l) && Admits(l, batch0, e) && !l.cr.deleting && l.cr.status.batching in {Processing, BatchDone}
    requires ConditionWrite !in e.faults
    ensures var o := Pass(l, processing, batch0, e);
            && o.l.Some?
            && (Get(Validate) in e.faults ==> o.l.value.cr.status.reconciled == Some(false))
            && (Smooth(e) && Live(l) ==> o.l.value.cr.status.reconciled in {l.cr.status.reconciled, Some(true)})
  {
    hide WorkBranch, Advance, Linked, Layered, Smooth, Live, Path;
    var batch := BatchSize(batch0, e.batch).0;
    QueueKeeps(l, processing, batch, e);
    WorkTells(l, batch, e);
  }

  /******* The next wake-up *******/

  /** The calls of the status step, apart from the verdict on the Velero Backup. */
  predicate StatusGoes(e: Env) {
    {GetStatus, GetVeleroBackup, GetSource, GetSourceAgain, DoneBatchingWrite, DonePhaseWrite, ProgressWrite} !! e.faults
  }

  lemma StatusResult(l: Backup, e: Env)
    requires Good(l) && !l.cr.deleting
    ensures GetStatus in e.faults || GetVeleroBackup in e.faults || e.velero != Running || l.cr.status.phase == Failed ==>
              StatusStep(l, e).flow == Fail
    ensures StatusGoes(e) && e.velero == Running && l.cr.status.phase !in {Failed, PartiallyFailed} ==>
              StatusStep(l, e).flow != Fail
  {
  }

  lemma WorkResult(l: Backup, copy: Vsb, batch: int, e: Env)
    requires Working(0, l) && copy.rv <= l.cr.rv && (copy.rv == l.cr.rv ==> copy == l.cr)
    ensures var o := WorkBranch(l, copy, batch, e);
            var rejected := Rejects(l, e) && FailWrite !in e.faults;
            && (GetStatus in e.faults || GetVeleroBackup in e.faults || e.velero != Running || rejected ==> o.result == Retry)
            && (StatusGoes(e) && e.velero == Running && !rejected ==> o.result == Requeue)
  {
    hide RunBatch, StatusStep, Advance, Linked, Layered, Rejects, StatusGoes;
    var work := RunBatch(BATCH, l, e);
    BatchFromStart(l, e);
    BatchFails(l, e);
    PathEnds(e, l, work.trail, work.l);
    ConditionKeeps(work.l, copy, work.flow != Fail, e);
    var cond := ConditionStep(work.l, copy, work.flow != Fail, e);
    PathEnds(e, work.l, cond.trail, cond.l);
    StatusResult(cond.l, e);
    WorkKeeps(l, copy, batch, e);
  }

  /** What a pass over a live, admitted backup asks for: an error, and so the growing delay of the work queue, if the
      Velero Backup is missing, has failed or cannot be read, or validation fails the backup; the fixed interval if
      nothing of this is so and no call of the status step fails, whatever has failed in the batch. */
  lemma PassAsksAgain(l: Backup, processing: int, batch0: int, e: Env)
    requires Good(l) && Admits(l, batch0, e) && !l.cr.deleting
    ensures var o := Pass(l, processing, batch0, e);
            var q := QueueStep(l, processing, BatchSize(batch0, e.batch).0, e);
            var rejected := Rejects(l, e) && FailWrite !in e.faults;
            && (q.flow == Fail ==> o.result == Retry) && (q.flow == Wait ==> o.result == Requeue)
            && (q.flow == Continue ==>
                  && (GetStatus in e.faults || GetVeleroBackup in e.faults || e.velero != Running || rejected ==>
                        o.result == Retry)
                  && (StatusGoes(e) && e.velero == Running && !rejected ==> o.result == Requeue))
  {
    hide WorkBranch, Advance, Linked, Layered, Rejects, StatusGoes;
    var batch := BatchSize(batch0, e.batch).0;
    var q := QueueStep(l, processing, batch, e);
    QueueKeeps(l, processing, batch, e);
    PathEnds(e, l, q.trail, q.l);
    BackupVerdict.SameSpec(l, q.l, e);
    if q.flow == Continue {
      WorkResult(q.l, l.cr, batch, e);
    }
  }

  /******* The batch size *******/

  /** Pass `k` of the run found no batch size known and read `n`; every pass since has worked with it. */
  ghost predicate BatchReadBy(run: seq<Event>, k: nat, m: nat, n: int) {
    && k < m <= |run| && Exec(run[..k]).batch == 0 && run[k].Reconcile? && run[k].e.batch in {Value(n), BadValue(n)}
    && forall j: nat :: k < j <= m ==> Exec(run[..j]).batch == n
  }

  lemma EventBatch(s: System, ev: Event)
    ensures var n := Next(s, ev).batch;
            n == s.batch || (s.batch == 0 && ev.Reconcile? && ev.e.batch in {Value(n), BadValue(n)})
  {
    hide RunBatch, StatusStep, CleanStep, QueueStep;
  }

  /** In every run a batch size other than zero is the number that some pass read from the deployment, unchanged
      since. */
  lemma {:induction false} BatchIsRead(run: seq<Event>, m: nat)
    requires m <= |run| && Exec(run[..m]).batch != 0
    ensures exists k :: BatchReadBy(run, k, m, Exec(run[..m]).batch)
    decreases m
  {
    hide Next, Exec;
    StartsWithoutSize(run);
    var n := Exec(run[..m]).batch;
    ExecStep(run, m - 1);
    EventBatch(Exec(run[..m - 1]), run[m - 1]);
    if Exec(run[..m - 1]).batch == n {
      BatchIsRead(run, m - 1);
      var k :| BatchReadBy(run, k, m - 1, n);
      assert BatchReadBy(run, k, m, n);
    } else {
      assert BatchReadBy(run, m - 1, m, n);
    }
  }

  lemma StartsWithoutSize(run: seq<Event>)
    ensures Exec(run[..0]).batch == 0
  {
    assert run[..0] == [];
  }
}
