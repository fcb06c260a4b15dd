/** Progress: with valid inputs and no failing call no pass adds work, and a pass over a backup whose waits the
    cluster has answered takes some away. */
module BackupProgress {
  import opened Prelude
  import opened Api
  import opened Options
  import opened Secrets
  import opened BackupModel
  import opened BackupSafety
  import opened BackupPass
  import opened BackupSlots
  import opened BackupRuns

  /** Nothing fails and every input is valid; the Velero Backup has not failed. */
  predicate Smooth(e: Env) {
    && e.faults == {} && e.original.Some? && e.oneSnapClass && e.oneStorageClass
    && e.sourcePvc.Some? && e.sourcePvc.value.name != ""
    && e.given.Some? && Known(e.given.value.provider) && WellFormed(e.given.value) && OptionsIn(e.given.value.data).Some?
    && e.velero == Running && e.batch.Value? && e.batch.n > 0
  }

  predicate ValidSpec(spec: BackupSpec) {
    spec.vscName != "" && spec.protectedNs != "" && spec.resticSecret != ""
  }

  /** What every run keeps true of a backup that is not deleted, whichever calls fail: it holds a slot at most
      once it is admitted, and none once its data has moved. */
  predicate Owing(l: Backup) {
    var st := l.cr.status;
    !l.cr.deleting ==>
      && l.slots <= 1 && (st.batching in {NotBatched, Queued} ==> l.slots <= 0)
      && (st.phase in {VolSyncDone, Cleanup, Completed} ==> l.slots <= 0)
      && (st.phase == VolSyncDone ==> l.src.Some?)
  }

  /** A backup with valid inputs that has not failed. */
  predicate Live(l: Backup) {
    Good(l) && LiveStatus(l)
  }

  predicate LiveStatus(l: Backup) {
    !l.cr.deleting && ValidSpec(l.cr.spec) && l.cr.status.phase !in {Failed, PartiallyFailed} && Owing(l)
  }

  /** CSI and VolSync have answered every wait of this backup, and the original content is ready to be cloned,
      as pass `e` sees it. */
  predicate Answered(l: Backup, e: Env) {
    && e.original.Some? && e.original.value.status.Some? && e.original.value.status.value.ready != Some(false)
    && (l.vsc.Some? ==> l.vsc.value.ready)
    && (l.snap.Some? ==> l.snap.value.ready)
    && (l.pvc.Some? ==> l.pvc.value.bound)
    && (l.src.Some? ==> SourceFinished(l.src.value))
  }

  /** The work that is left once the backup is processing. */
  function Work(l: Backup): nat {
    if l.cr.status.phase == Completed then 0
    else if l.cr.status.phase == VolSyncDone then 1
    else if l.src.Some? then if SourceFinished(l.src.value) then 2 else 3
    else if l.pvc.Some? then if l.pvc.value.bound then 4 else 5
    else if l.snap.Some? then if l.snap.value.ready then 6 else 7
    else if l.vsc.Some? then if l.vsc.value.ready then 8 else 9
    else 10
  }

  /** The measure: the finalizer, the queue, then the work. */
  function Measure(l: Backup): nat {
    Work(l)
    + (if !l.cr.finalizer then 60 else 0)
    + (match l.cr.status.batching case NotBatched => 40 case Queued => 20 case _ => 0)
  }

  /******* One pass *******/

  /** The state before step `i` of a smooth pass that began with work `w`. */
  predicate OnTrack(i: nat, l: Backup, w: nat) {
    && Working(i, l) && OnTime(i, l, w)
  }

  predicate OnTime(i: nat, l: Backup, w: nat) {
    && LiveStatus(l) && Work(l) <= w
    && (i >= 6 ==> l.cr.status.source.name != "")
    && (i >= 8 ==> l.secret.Some? && OptionsIn(l.secret.value.data).Some?)
  }

  /** Work has been taken away, or there is nothing to wait for. */
  predicate Ahead(l: Backup, e: Env, w: nat) {
    Work(l) < w || Answered(l, e)
  }

  /** A step that leaves the pass on time, and waits without having taken work away only for an answer. */
  predicate Timely(i: nat, l: Backup, o: Out, e: Env, w: nat) {
    && o.flow != Fail
    && (if o.flow == Continue then OnTime(i + 1, o.l, w) else LiveStatus(o.l) && Work(o.l) <= w)
    && (Ahead(l, e, w) ==> if o.flow == Continue then Ahead(o.l, e, w) else Work(o.l) < w)
  }

  lemma StepOnTime(i: nat, step: Step, l: Backup, e: Env, w: nat)
    requires i < |CREATION| && step == CREATION[i] && OnTrack(i, l, w) && Smooth(e)
    ensures Timely(i, l, Run(step, l, e), e, w)
  {
    hide Run, OnTrack, OnTime, LiveStatus, Timely, Smooth;
    if i <= 2 {
      FirstStepsOnTime(i, step, l, e, w);
    } else if i <= 5 {
      MiddleStepsOnTime(i, step, l, e, w);
    } else if step == CreateSecret {
      SecretOnTime(l, e, w);
    } else {
      LastStepsOnTime(i, step, l, e, w);
    }
  }

  lemma FirstStepsOnTime(i: nat, step: Step, l: Backup, e: Env, w: nat)
    requires i <= 2 && step == CREATION[i] && OnTrack(i, l, w) && Smooth(e)
    ensures Timely(i, l, Run(step, l, e), e, w)
  {
    hide CleanStep, CreateSecretStep, CreateSourceStep, MirrorPvcStep, Linked, Consistent, OptionsIn, WellFormed, Known;
  }

  lemma MiddleStepsOnTime(i: nat, step: Step, l: Backup, e: Env, w: nat)
    requires 3 <= i <= 5 && step == CREATION[i] && OnTrack(i, l, w) && Smooth(e)
    ensures Timely(i, l, Run(step, l, e), e, w)
  {
    hide CleanStep, CreateSecretStep, CreateSourceStep, ValidateStep, MirrorContentStep, Linked, Consistent, OptionsIn,
         WellFormed, Known;
  }

  /** The controller's secret asks of a ReplicationSource what the user's secret asks. */
  lemma SecretTracked(l: Backup, e: Env)
    requires e.given.Some? && !SecretFor(l, e).Malformed? && Known(e.given.value.provider)
    ensures OptionsIn(BuiltSecret(l.secret, l.cr.name, SecretFor(l, e)).data) == OptionsIn(e.given.value.data)
  {
    hide OptionsIn, DerivedData, WellFormed, Known, After, BaseAfter, RepositoryPath;
    var given := e.given.value;
    var path := RepositoryPath(BaseAfter(e.base, given), l.cr.spec.protectedNs, l.cr.spec.backupName, PvcName(l.cr.spec.vscName));
    RetainPolicyPipeline(given, After(e.held, given), path);
  }

  lemma SecretOnTime(l: Backup, e: Env, w: nat)
    requires OnTrack(7, l, w) && Smooth(e)
    ensures Timely(7, l, Run(CreateSecret, l, e), e, w)
  {
    hide OptionsIn, SecretFor, BuiltSecret, Linked, Consistent, WellFormed, Known;
    WellFormedDerives(l, e);
    SecretTracked(l, e);
  }

  lemma WellFormedDerives(l: Backup, e: Env)
    requires Smooth(e)
    ensures !SecretFor(l, e).Malformed?
  {
    hide OptionsIn, WellFormed, DerivedData, Known;
  }

  lemma LastStepsOnTime(i: nat, step: Step, l: Backup, e: Env, w: nat)
    requires 5 < i < |CREATION| && step == CREATION[i] && step != CreateSecret && OnTrack(i, l, w) && Smooth(e)
    ensures Timely(i, l, Run(step, l, e), e, w)
  {
    hide CleanStep, ValidateStep, MirrorContentStep, MirrorPvcStep, Linked, Consistent, OptionsIn, WellFormed, Known,
         MoverOptions;
  }

  lemma RunningStep(i: nat, l: Backup, e: Env, w: nat)
    requires i < |CREATION| && OnTrack(i, l, w) && Smooth(e)
    ensures var o := Run(CREATION[i], l, e);
            && Timely(i, l, o, e, w) && o.l.cr.finalizer
            && (if o.flow == Continue then OnTrack(i + 1, o.l, w) else Live(o.l))
  {
    hide Run, Good, Smooth;
    StepOnTime(i, CREATION[i], l, e, w);
    StepKeeps(i, l, e);
    var o := Run(CREATION[i], l, e);
    PathEnds(e, l, o.trail, o.l);
  }

  lemma CleanRunning(l: Backup, e: Env, w: nat)
    requires OnTrack(10, l, w) && Smooth(e)
    ensures var o := CleanStep(l, e);
            && o.flow != Fail && Live(o.l) && o.l.slots == l.slots && Work(o.l) <= w && o.l.cr.finalizer
            && (Work(o.l) == w ==> o.l == l && l.cr.status.phase in {NoPhase, InProgress, Cleanup})
  {
    hide OptionsIn, Smooth, Advance;
    SmoothFaults(e);
    DeleteAllAdmission(Status(l, l.cr.status.(phase := Cleanup)), CLEANUP_KINDS, e);
    CleanKeeps(l, e);
    var o := CleanStep(l, e);
    PathEnds(e, l, o.trail, o.l);
  }

  lemma SmoothFaults(e: Env)
    requires Smooth(e)
    ensures e.faults == {} && e.velero == Running
  {
  }

  /** A smooth batch takes work away, or ends in a wait, or finds all waits answered and the data moved. */
  lemma {:induction false} BatchRunning(i: nat, l: Backup, e: Env, w: nat)
    requires i < |BATCH| && OnTrack(i, l, w) && Smooth(e)
    ensures var o := RunBatch(BATCH[i..], l, e);
            && o.flow != Fail && Live(o.l) && o.l.cr.finalizer && Work(o.l) <= w
            && (Ahead(l, e, w) && Work(o.l) == w ==> Moved(o.l) && o.l.cr.status.phase in {NoPhase, InProgress, Cleanup})
    decreases |BATCH| - i
  {
    hide Run, CleanStep, Smooth, OnTime, LiveStatus, Linked, Consistent;
    BatchSuffix(i);
    if i < |CREATION| {
      var o := Run(BATCH[i], l, e);
      RunningStep(i, l, e, w);
      if o.flow == Continue {
        BatchRunning(i + 1, o.l, e, w);
      }
    } else {
      RunIsClean(l, e);
      CleanRunning(l, e, w);
    }
  }

  predicate SameQueue(l: Backup, m: Backup) {
    && m.slots == l.slots && m.cr.status.batching == l.cr.status.batching && m.cr.finalizer == l.cr.finalizer
    && (m.cr.status.phase == Completed <==> l.cr.status.phase == Completed)
  }

  /** The status step finishes what is finished, and never adds work. */
  lemma StatusRunning(l: Backup, e: Env)
    requires Live(l) && l.cr.finalizer && Smooth(e)
    ensures var o := StatusStep(l, e);
            && o.flow != Fail && LiveStatus(o.l) && Work(o.l) <= Work(l)
            && (Work(o.l) == Work(l) ==> SameQueue(l, o.l))
            && (l.cr.status.phase in {NoPhase, InProgress, Cleanup} && Moved(l) ==> Work(o.l) < Work(l))
  {
    hide Linked, Layered, LastFalse, LastSync, OptionsIn, WellFormed, Known;
    if l.src.Some? && l.src.value.status.Some? {
      SyncErrorNeverSeen(l.src.value.status.value.conditions);
    }
  }

  lemma StatusLive(l: Backup, e: Env)
    requires Live(l) && l.cr.finalizer && Smooth(e)
    ensures var o := StatusStep(l, e);
            Good(o.l) && o.l.cr.finalizer && Rank(o.l.cr.status.batching) >= Rank(l.cr.status.batching)
  {
    hide StatusStep, Linked, Layered, Advance, Smooth, Owing;
    StatusKeeps(l, e);
    var o := StatusStep(l, e);
    PathEnds(e, l, o.trail, o.l);
  }

  lemma RunWhole(l: Backup, e: Env)
    ensures RunBatch(BATCH[0..], l, e) == RunBatch(BATCH, l, e)
  {
    assert BATCH[0..] == BATCH;
  }

  /** A smooth pass over an admitted backup never adds work; over an answered one it takes some away. */
  lemma WorkProgress(l: Backup, copy: Vsb, batch: int, e: Env)
    requires Working(0, l) && Live(l) && Smooth(e)
    requires copy.rv <= l.cr.rv && (copy.rv == l.cr.rv ==> copy == l.cr)
    ensures var o := WorkBranch(l, copy, batch, e);
            && o.l.Some? && Live(o.l.value) && Work(o.l.value) <= Work(l) && o.l.value.cr.finalizer && o.batch == batch
            && Rank(o.l.value.cr.status.batching) >= Rank(l.cr.status.batching)
            && (Answered(l, e) ==> Work(o.l.value) < Work(l))
            && (Work(o.l.value) == Work(l) ==> SameQueue(l, o.l.value))
  {
    hide StatusStep, RunBatch, Good, Advance, Smooth, Owing;
    RunWhole(l, e);
    var w := Work(l);
    var work := RunBatch(BATCH, l, e);
    BatchRunning(0, l, e, w);
    BatchAdmission(BATCH, l, e);
    BatchFromStart(l, e);
    PathEnds(e, l, work.trail, work.l);
    ConditionKeeps(work.l, copy, work.flow != Fail, e);
    var cond := ConditionStep(work.l, copy, work.flow != Fail, e);
    PathEnds(e, work.l, cond.trail, cond.l);
    ConditionLive(work.l, cond.l);
    StatusRunning(cond.l, e);
    StatusLive(cond.l, e);
  }

  lemma ConditionLive(l: Backup, m: Backup)
    requires Live(l) && Good(m) && m == l.(cr := m.cr) && m.cr.spec == l.cr.spec && m.cr.deleting == l.cr.deleting
    requires m.cr.status == l.cr.status.(reconciled := m.cr.status.reconciled)
    ensures Live(m) && Work(m) == Work(l)
  {
  }

  /** Whether a pass can move this backup on, once the cluster has answered. */
  predicate CanMove(l: Backup, processing: int, batch: int) {
    && l.cr.status.phase != Completed
    && (l.cr.status.batching == Queued && l.cr.finalizer ==> processing < batch)
  }

  lemma LivePhase(l: Backup)
    requires Live(l)
    ensures !l.cr.deleting && (Terminal(l.cr.status.phase) ==> l.cr.status.phase == Completed)
    ensures !l.cr.finalizer ==> Live(l.(cr := WithFinalizer(l.cr, true)))
  {
  }

  lemma QueueLive(l: Backup, processing: int, batch: int, e: Env)
    requires Live(l) && l.cr.finalizer && l.cr.status.phase != Completed && e.faults == {}
    ensures var q := QueueStep(l, processing, batch, e);
            && LiveStatus(q.l) && Work(q.l) == Work(l)
            && Rank(q.l.cr.status.batching) >= Rank(l.cr.status.batching) && (Answered(l, e) ==> Answered(q.l, e))
            && (q.flow == Wait <==> l.cr.status.batching == Queued && processing >= batch) && q.flow != Fail
            && (q.flow == Wait ==> q.l == l)
            && (q.l.cr.status.batching == l.cr.status.batching ==> q.l == l)
            && (l.cr.status.batching in {Processing, BatchDone} ==> q.l == l)
  {
    hide Linked, Layered;
  }

  /** No smooth pass raises the measure of a backup; one that leaves it as it was has changed nothing that
      admission depends on; and one over an answered backup that can move lowers it. The batch size is read,
      if none is known yet. */
  lemma PassProgress(l: Backup, processing: int, batch0: int, e: Env)
    requires Live(l) && Smooth(e) && batch0 >= 0
    ensures var batch := BatchSize(batch0, e.batch).0;
            var o := Pass(l, processing, batch0, e);
            && o.l.Some? && Live(o.l.value) && o.batch == batch > 0 && Measure(o.l.value) <= Measure(l)
            && (Measure(o.l.value) == Measure(l) ==> SameQueue(l, o.l.value))
            && (l.cr.status.phase == Completed ==> o.l.value == l)
            && (Answered(l, e) && CanMove(l, processing, batch) ==> Measure(o.l.value) < Measure(l))
  {
    hide Advance, WorkBranch, Linked, Layered, Path, LiveStatus, QueueStep, OptionsIn, WellFormed, Known;
    LivePhase(l);
    var batch := BatchSize(batch0, e.batch).0;
    if l.cr.finalizer && l.cr.status.phase != Completed {
      var q := QueueStep(l, processing, batch, e);
      QueueKeeps(l, processing, batch, e);
      PathEnds(e, l, q.trail, q.l);
      QueueLive(l, processing, batch, e);
      if q.flow == Continue {
        WorkProgress(q.l, l.cr, batch, e);
        var rest := WorkBranch(q.l, l.cr, batch, e);
        MeasureFalls(l, q.l, rest.l.value);
      }
    }
  }

  lemma MeasureFalls(l: Backup, q: Backup, m: Backup)
    requires l.cr.finalizer && q.cr.finalizer && m.cr.finalizer && Work(m) <= Work(q) == Work(l)
    requires Rank(l.cr.status.batching) <= Rank(q.cr.status.batching) <= Rank(m.cr.status.batching)
    requires q.cr.status.batching == l.cr.status.batching ==> q == l
    requires l.cr.status.batching in {Processing, BatchDone} ==> q == l
    requires Work(m) == Work(q) ==> SameQueue(q, m)
    ensures Measure(m) <= Measure(l) && (Work(m) < Work(l) ==> Measure(m) < Measure(l))
    ensures Measure(m) == Measure(l) ==> SameQueue(l, m)
  {
  }
}
