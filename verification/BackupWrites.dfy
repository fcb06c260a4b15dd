/** The trail of a pass is not only a list: each point of it is where the pass stops if the call after it fails. */
module BackupWrites {
  import opened Prelude
  import opened Api
  import opened Options
  import opened Secrets
  import opened BackupModel
  import opened BackupSafety
  import opened BackupPass
  import opened BackupSlots
  import opened BackupIdempotence

  /** The same pass with more calls failing. */
  function Cut(e: Env, calls: set<Call>): Env {
    e.(faults := e.faults + calls)
  }

  /** The position in the batch of the step that makes a call; 11 for the calls outside the batch. */
  function StepOf(c: Call): nat {
    match c
    case Get(step) => Index(step)
    case Lookup(step) => Index(step)
    case LookupSnapshot(step) => Index(step)
    case ListSnapClasses => 0
    case ListStorageClasses => 0
    case FailWrite => 0
    case StartWrite => 0
    case ClassWrite => 1
    case SourceWrite => 5
    case ReadConfig => 5
    case RepositoryWrite => 7
    case ReadOptions => 9
    case Put(kind) =>
      (match kind
       case ContentKind => 1
       case SnapshotKind => 3
       case PvcKind => 5
       case PodKind => 6
       case SecretKind => 7
       case SourceKind => 9)
    case CleanupWrite => 10
    case Delete(_) => 10
    case CompletedWrite => 10
    case _ => 11
  }

  lemma {:induction false} DeleteAllUnaffected(l: Backup, kinds: seq<Kind>, e: Env, calls: set<Call>)
    requires forall c :: c in calls ==> StepOf(c) != 10
    ensures DeleteAll(l, kinds, Cut(e, calls)) == DeleteAll(l, kinds, e)
    decreases |kinds|
  {
    if kinds != [] {
      assert StepOf(Delete(kinds[0])) == 10;
      DeleteAllUnaffected(Erase(l, kinds[0]), kinds[1..], e, calls);
    }
  }

  predicate Others(step: Step, calls: set<Call>) {
    forall c :: c in calls ==> StepOf(c) != Index(step)
  }

  /** A step does not notice the calls of other steps. */
  lemma StepUnaffected(step: Step, l: Backup, e: Env, calls: set<Call>)
    requires Others(step, calls)
    ensures Run(step, l, Cut(e, calls)) == Run(step, l, e)
  {
    hide Run, Others;
    if step == Clean {
      CleanUnaffected(l, e, calls);
    } else if Index(step) <= 2 {
      FirstUnaffected(step, l, e, calls);
    } else if Index(step) <= 5 {
      MiddleUnaffected(step, l, e, calls);
    } else {
      LastUnaffected(step, l, e, calls);
    }
  }

  lemma CleanUnaffected(l: Backup, e: Env, calls: set<Call>)
    requires Others(Clean, calls)
    ensures Run(Clean, l, Cut(e, calls)) == Run(Clean, l, e)
  {
    hide DeleteAll;
    DeleteAllUnaffected(Status(l, l.cr.status.(phase := Cleanup)), CLEANUP_KINDS, e, calls);
    assert StepOf(Get(Clean)) == StepOf(CleanupWrite) == StepOf(CompletedWrite) == 10;
    RunIsClean(l, e);
    RunIsClean(l, Cut(e, calls));
  }

  lemma FirstUnaffected(step: Step, l: Backup, e: Env, calls: set<Call>)
    requires Index(step) <= 2 && Others(step, calls)
    ensures Run(step, l, Cut(e, calls)) == Run(step, l, e)
  {
    hide CleanStep, CreateSecretStep, CreateSourceStep, MirrorPvcStep;
    assert StepOf(Get(step)) == StepOf(Lookup(step)) == Index(step);
    assert StepOf(ListSnapClasses) == 0 && StepOf(ListStorageClasses) == 0 && StepOf(FailWrite) == 0 && StepOf(StartWrite) == 0;
    assert StepOf(ClassWrite) == 1 && StepOf(Put(ContentKind)) == 1;
  }

  lemma MiddleUnaffected(step: Step, l: Backup, e: Env, calls: set<Call>)
    requires 3 <= Index(step) <= 5 && Others(step, calls)
    ensures Run(step, l, Cut(e, calls)) == Run(step, l, e)
  {
    hide CleanStep, CreateSecretStep, CreateSourceStep, ValidateStep, MirrorContentStep;
    assert StepOf(Get(step)) == StepOf(Lookup(step)) == StepOf(LookupSnapshot(step)) == Index(step);
    assert StepOf(Put(SnapshotKind)) == 3 && StepOf(SourceWrite) == 5 && StepOf(ReadConfig) == 5 && StepOf(Put(PvcKind)) == 5;
    if e.sourcePvc.Some? && l.vsc.Some? {
      assert NewClaim(l, e.sourcePvc.value, Cut(e, calls)) == NewClaim(l, e.sourcePvc.value, e);
    }
  }

  lemma LastUnaffected(step: Step, l: Backup, e: Env, calls: set<Call>)
    requires 6 <= Index(step) <= 9 && Others(step, calls)
    ensures Run(step, l, Cut(e, calls)) == Run(step, l, e)
  {
    hide CleanStep, ValidateStep, MirrorContentStep, MirrorPvcStep, DeriveBackup, OptionsIn, MoverOptions, BuiltSecret;
    assert StepOf(Get(step)) == StepOf(Lookup(step)) == Index(step);
    assert StepOf(Put(PodKind)) == 6 && StepOf(Put(SecretKind)) == 7 && StepOf(RepositoryWrite) == 7;
    assert StepOf(ReadOptions) == 9 && StepOf(Put(SourceKind)) == 9;
  }

  /******* Cutting a step short *******/

  /** With these calls failing, the step makes the first `n` of its writes and ends with an error. */
  predicate CutsAt(step: Step, l: Backup, e: Env, n: nat, calls: set<Call>) {
    && (forall c :: c in calls ==> StepOf(c) == Index(step))
    && n <= |Run(step, l, e).trail|
    && (var o := Run(step, l, Cut(e, calls));
        && o.flow == Fail && o.trail == Run(step, l, e).trail[..n]
        && o.l == if n == 0 then l else Run(step, l, e).trail[n - 1])
  }

  lemma {:induction false} DeleteAllCut(l: Backup, kinds: seq<Kind>, e: Env, n: nat)
    requires n < |DeleteAll(l, kinds, e).trail| && forall i, j :: 0 <= i < j < |kinds| ==> kinds[i] != kinds[j]
    ensures n < |kinds|
    ensures var o := DeleteAll(l, kinds, Cut(e, {Delete(kinds[n])}));
            && o.flow == Fail && o.trail == DeleteAll(l, kinds, e).trail[..n]
            && o.l == if n == 0 then l else DeleteAll(l, kinds, e).trail[n - 1]
    decreases |kinds|
  {
    if n > 0 {
      DeleteAllCut(Erase(l, kinds[0]), kinds[1..], e, n - 1);
      assert kinds[1..][n - 1] == kinds[n];
    }
  }

  lemma {:induction false} DeleteAllTrail(l: Backup, kinds: seq<Kind>, e: Env)
    ensures var o := DeleteAll(l, kinds, e);
            |o.trail| <= |kinds| && o.l == (if o.trail == [] then l else o.trail[|o.trail| - 1])
    ensures var o := DeleteAll(l, kinds, e); o.flow == Continue ==> |o.trail| == |kinds|
    decreases |kinds|
  {
    if kinds != [] {
      DeleteAllTrail(Erase(l, kinds[0]), kinds[1..], e);
    }
  }

  lemma CleanCut(l: Backup, e: Env, n: nat) returns (calls: set<Call>)
    requires n < |CleanStep(l, e).trail|
    ensures CutsAt(Clean, l, e, n, calls)
  {
    hide CutsAt, CleanStep, DeleteAll;
    var l1 := Status(l, l.cr.status.(phase := Cleanup));
    var gone := DeleteAll(l1, CLEANUP_KINDS, e);
    CleanTrail(l, e);
    if n == 0 {
      calls := {Get(Clean)};
      FirstReadCut(l, e);
    } else if n - 1 < |gone.trail| {
      calls := DeletionCut(l, e, n);
    } else {
      calls := {CompletedWrite};
      LastWriteCut(l, e);
    }
  }

  lemma FirstReadCut(l: Backup, e: Env)
    ensures CutsAt(Clean, l, e, 0, {Get(Clean)})
  {
    hide DeleteAll;
    RunIsClean(l, e);
    RunIsClean(l, Cut(e, {Get(Clean)}));
  }

  lemma DeletionCut(l: Backup, e: Env, n: nat) returns (calls: set<Call>)
    requires CleanStep(l, e).trail != []
    requires 1 <= n <= |DeleteAll(Status(l, l.cr.status.(phase := Cleanup)), CLEANUP_KINDS, e).trail|
    ensures CutsAt(Clean, l, e, n, calls)
  {
    hide DeleteAll;
    var l1 := Status(l, l.cr.status.(phase := Cleanup));
    var gone := DeleteAll(l1, CLEANUP_KINDS, e);
    DeleteAllCut(l1, CLEANUP_KINDS, e, n - 1);
    calls := {Delete(CLEANUP_KINDS[n - 1])};
    assert ([l1] + gone.trail)[..n] == [l1] + gone.trail[..n - 1];
    CleanTrail(l, e);
    RunIsClean(l, e);
    RunIsClean(l, Cut(e, calls));
  }

  lemma LastWriteCut(l: Backup, e: Env)
    requires |CleanStep(l, e).trail| == |DeleteAll(Status(l, l.cr.status.(phase := Cleanup)), CLEANUP_KINDS, e).trail| + 2
    ensures CutsAt(Clean, l, e, |CleanStep(l, e).trail| - 1, {CompletedWrite})
  {
    hide DeleteAll;
    var l1 := Status(l, l.cr.status.(phase := Cleanup));
    var gone := DeleteAll(l1, CLEANUP_KINDS, e);
    OneFault(l1, CLEANUP_KINDS, e);
    DeleteAllTrail(l1, CLEANUP_KINDS, e);
    CleanTrail(l, e);
    RunIsClean(l, e);
    RunIsClean(l, Cut(e, {CompletedWrite}));
  }

  lemma CleanTrail(l: Backup, e: Env)
    requires CleanStep(l, e).trail != []
    ensures var l1 := Status(l, l.cr.status.(phase := Cleanup));
            var gone := DeleteAll(l1, CLEANUP_KINDS, e);
            var o := CleanStep(l, e);
            && {Get(Clean), CleanupWrite} !! e.faults
            && (|o.trail| == |gone.trail| + 1 ==> o.trail == [l1] + gone.trail)
            && (|o.trail| != |gone.trail| + 1 ==> o.trail == [l1] + gone.trail + [o.l] && gone.flow == Continue)
            && o.trail[..|gone.trail| + 1] == [l1] + gone.trail
            && |o.trail| <= |gone.trail| + 2
  {
    hide DeleteAll;
  }

  lemma {:induction false} OneFault(l: Backup, kinds: seq<Kind>, e: Env)
    ensures DeleteAll(l, kinds, Cut(e, {CompletedWrite})) == DeleteAll(l, kinds, e)
    decreases |kinds|
  {
    if kinds != [] {
      OneFault(Erase(l, kinds[0]), kinds[1..], e);
    }
  }

  lemma ContentCut(l: Backup, e: Env)
    requires |Run(MirrorContent, l, e).trail| == 2
    ensures CutsAt(MirrorContent, l, e, 1, {Put(ContentKind)})
  {
  }

  lemma ClaimCut(l: Backup, e: Env)
    requires |Run(MirrorPvc, l, e).trail| == 2
    ensures CutsAt(MirrorPvc, l, e, 1, {Put(PvcKind)})
  {
    hide NewClaim;
  }

  lemma SecretCut(l: Backup, e: Env)
    requires |Run(CreateSecret, l, e).trail| == 2
    ensures CutsAt(CreateSecret, l, e, 1, {RepositoryWrite})
  {
    hide DeriveBackup, BuiltSecret;
  }

  lemma FirstCut(step: Step, l: Backup, e: Env)
    requires step != Clean
    ensures CutsAt(step, l, e, 0, {Get(step)})
  {
    hide CleanStep;
    var o := Run(step, l, Cut(e, {Get(step)}));
    assert o == Stay(l, Fail) by { FirstReadFails(step, l, Cut(e, {Get(step)})); }
  }

  lemma FirstReadFails(step: Step, l: Backup, e: Env)
    requires step != Clean && Get(step) in e.faults
    ensures Run(step, l, e) == Stay(l, Fail)
  {
  }

  lemma StepCut(step: Step, l: Backup, e: Env, n: nat) returns (calls: set<Call>)
    requires n < |Run(step, l, e).trail|
    ensures CutsAt(step, l, e, n, calls)
  {
    hide CutsAt, CleanStep;
    if step != Clean {
      TrailLength(step, l, e);
    }
    if step == Clean {
      calls := CleanCut(l, e, n);
    } else if n == 0 {
      calls := {Get(step)};
      FirstCut(step, l, e);
    } else if step == MirrorContent {
      calls := {Put(ContentKind)};
      ContentCut(l, e);
    } else if step == MirrorPvc {
      calls := {Put(PvcKind)};
      ClaimCut(l, e);
    } else {
      calls := {RepositoryWrite};
      SecretCut(l, e);
    }
  }

  lemma TrailLength(step: Step, l: Backup, e: Env)
    requires step != Clean
    ensures |Run(step, l, e).trail| <= if step in {MirrorContent, MirrorPvc, CreateSecret} then 2 else 1
    ensures var o := Run(step, l, e); o.l == if o.trail == [] then l else o.trail[|o.trail| - 1]
  {
    hide NewClaim, SecretFor, BuiltSecret, NewSource;
  }

  /******* Cutting a batch short *******/

  function EndOf(l: Backup, trail: seq<Backup>, n: nat): Backup
    requires n <= |trail|
  {
    if n == 0 then l else trail[n - 1]
  }

  lemma CleanEnd(l: Backup, e: Env)
    ensures var o := CleanStep(l, e); o.l == EndOf(l, o.trail, |o.trail|)
  {
    DeleteAllTrail(Status(l, l.cr.status.(phase := Cleanup)), CLEANUP_KINDS, e);
  }

  lemma StepEnd(step: Step, l: Backup, e: Env)
    ensures var o := Run(step, l, e); o.l == EndOf(l, o.trail, |o.trail|)
  {
    hide Run, CleanStep;
    if step == Clean {
      RunIsClean(l, e);
      CleanEnd(l, e);
    } else {
      TrailLength(step, l, e);
    }
  }

  lemma {:induction false} BatchUnaffected(steps: seq<Step>, l: Backup, e: Env, calls: set<Call>)
    requires forall c :: c in calls ==> StepOf(c) == 11
    ensures RunBatch(steps, l, Cut(e, calls)) == RunBatch(steps, l, e)
    decreases |steps|
  {
    hide Run, StepOf;
    if steps != [] {
      assert Others(steps[0], calls) by { OutsideCalls(steps[0], calls); }
      StepUnaffected(steps[0], l, e, calls);
      BatchUnaffected(steps[1..], Run(steps[0], l, e).l, e, calls);
    }
  }

  lemma OutsideCalls(step: Step, calls: set<Call>)
    requires forall c :: c in calls ==> StepOf(c) == 11
    ensures Others(step, calls)
  {
    hide StepOf;
  }

  predicate InBatch(i: nat, calls: set<Call>) {
    forall c :: c in calls ==> i <= StepOf(c) <= 10
  }

  lemma BatchIndex(i: nat)
    requires i < |BATCH|
    ensures Index(BATCH[i]) == i
  {
  }

  /** For each number of writes, the calls whose failure stops the batch after as many. */
  lemma {:induction false} BatchCut(i: nat, l: Backup, e: Env, n: nat) returns (calls: set<Call>)
    requires i < |BATCH| && n <= |RunBatch(BATCH[i..], l, e).trail|
    ensures InBatch(i, calls)
    ensures var whole, o := RunBatch(BATCH[i..], l, e), RunBatch(BATCH[i..], l, Cut(e, calls));
            o.trail == whole.trail[..n] && o.l == EndOf(l, whole.trail, n)
    decreases |BATCH| - i
  {
    hide Run, StepOf;
    BatchSuffix(i);
    BatchIndex(i);
    var step := BATCH[i];
    var first := Run(step, l, e);
    StepEnd(step, l, e);
    if n < |first.trail| {
      calls := StepCut(step, l, e, n);
    } else if first.flow != Continue || i == 10 {
      calls := {};
      assert Cut(e, {}) == e;
      assert first.trail + [] == first.trail;
    } else {
      calls := BatchCut(i + 1, first.l, e, n - |first.trail|);
      StepUnaffected(step, l, e, calls);
      var rest := RunBatch(BATCH[i + 1..], first.l, e);
      assert (first.trail + rest.trail)[..n] == first.trail + rest.trail[..n - |first.trail|];
    }
  }

  /******* Cutting a pass short *******/

  lemma StatusEnd(l: Backup, e: Env)
    ensures var o := StatusStep(l, e);
            |o.trail| <= 2 && o.l.(slots := 0) == EndOf(l, o.trail, |o.trail|).(slots := 0)
  {
    hide LastSync, LastFalse, SourceDone;
  }

  lemma DoneCut(l: Backup, e: Env)
    requires |StatusStep(l, e).trail| == 2
    ensures var whole, o := StatusStep(l, e), StatusStep(l, Cut(e, {DonePhaseWrite}));
            o.trail == whole.trail[..1] && o.l == whole.trail[0]
  {
    hide LastSync, LastFalse, SourceDone;
  }

  lemma StatusCut(l: Backup, e: Env, n: nat) returns (calls: set<Call>)
    requires n <= |StatusStep(l, e).trail|
    ensures AfterAdmission(calls) && ConditionWrite !in calls && forall c :: c in calls ==> StepOf(c) == 11
    ensures var whole, o := StatusStep(l, e), StatusStep(l, Cut(e, calls));
            o.trail == whole.trail[..n] && o.l.(slots := 0) == EndOf(l, whole.trail, n).(slots := 0)
  {
    hide StatusFromSource;
    StatusEnd(l, e);
    var whole := StatusStep(l, e);
    assert Cut(e, {}) == e;
    if n == |whole.trail| {
      calls := {};
    } else if n == 0 {
      calls := {GetStatus};
    } else {
      calls := {DonePhaseWrite};
      DoneCut(l, e);
    }
  }

  /** What a pass has written, and where it stops. */
  predicate StopsAt(o: PassOut, l: Backup, trail: seq<Backup>, n: nat) {
    n <= |trail| && o.trail == trail[..n] && o.l.Some? && o.l.value.(slots := 0) == EndOf(l, trail, n).(slots := 0)
  }

  /** Calls that admission and the steps before it do not make. */
  predicate AfterAdmission(calls: set<Call>) {
    Fetch !in calls && AddFinalizer !in calls && QueueWrite !in calls
  }

  lemma BatchIsLater(calls: set<Call>)
    requires InBatch(0, calls)
    ensures AfterAdmission(calls)
  {
    assert StepOf(Fetch) == StepOf(AddFinalizer) == StepOf(QueueWrite) == 11;
  }

  lemma EarlyWorkCut(l: Backup, copy: Vsb, batch: int, e: Env, n: nat) returns (calls: set<Call>)
    requires n <= |RunBatch(BATCH, l, e).trail|
    ensures AfterAdmission(calls) && StopsAt(WorkBranch(l, copy, batch, Cut(e, calls)), l, WorkBranch(l, copy, batch, e).trail, n)
  {
    hide RunBatch;
    assert BATCH[0..] == BATCH;
    var inner := BatchCut(0, l, e, n);
    calls := inner + {ConditionWrite, GetStatus};
    BatchIsLater(inner);
    assert Cut(e, calls) == Cut(Cut(e, inner), {ConditionWrite, GetStatus});
    BatchUnaffected(BATCH, l, Cut(e, inner), {ConditionWrite, GetStatus});
    var o := RunBatch(BATCH, l, Cut(e, calls));
    assert o.trail + [] + [] == o.trail;
    var whole := WorkBranch(l, copy, batch, e).trail;
    assert whole[..n] == RunBatch(BATCH, l, e).trail[..n];
  }

  lemma LateWorkCut(l: Backup, copy: Vsb, batch: int, e: Env, n: nat) returns (calls: set<Call>)
    requires |RunBatch(BATCH, l, e).trail| < n <= |WorkBranch(l, copy, batch, e).trail|
    ensures AfterAdmission(calls) && StopsAt(WorkBranch(l, copy, batch, Cut(e, calls)), l, WorkBranch(l, copy, batch, e).trail, n)
  {
    hide RunBatch, StatusStep, LastSync, LastFalse;
    var work := RunBatch(BATCH, l, e);
    var cond := ConditionStep(work.l, copy, work.flow != Fail, e);
    var status := StatusStep(cond.l, e);
    BatchEnd(l, e);
    var before := |work.trail| + |cond.trail|;
    assert n >= before;
    calls := StatusCut(cond.l, e, n - before);
    BatchUnaffected(BATCH, l, e, calls);
    var whole := work.trail + cond.trail + status.trail;
    assert whole[..n] == work.trail + cond.trail + status.trail[..n - before];
  }

  lemma BatchEnd(l: Backup, e: Env)
    ensures var o := RunBatch(BATCH, l, e); o.l == EndOf(l, o.trail, |o.trail|)
  {
    assert BATCH[0..] == BATCH;
    BatchEndFrom(BATCH, l, e);
  }

  lemma {:induction false} BatchEndFrom(steps: seq<Step>, l: Backup, e: Env)
    ensures var o := RunBatch(steps, l, e); o.l == EndOf(l, o.trail, |o.trail|)
    decreases |steps|
  {
    hide Run;
    if steps != [] {
      StepEnd(steps[0], l, e);
      BatchEndFrom(steps[1..], Run(steps[0], l, e).l, e);
    }
  }

  lemma WorkCut(l: Backup, copy: Vsb, batch: int, e: Env, n: nat) returns (calls: set<Call>)
    requires n <= |WorkBranch(l, copy, batch, e).trail|
    ensures AfterAdmission(calls) && StopsAt(WorkBranch(l, copy, batch, Cut(e, calls)), l, WorkBranch(l, copy, batch, e).trail, n)
  {
    hide WorkBranch, StopsAt;
    if n <= |RunBatch(BATCH, l, e).trail| {
      calls := EarlyWorkCut(l, copy, batch, e, n);
    } else {
      calls := LateWorkCut(l, copy, batch, e, n);
    }
  }

  lemma DeletionBranchCut(l: Backup, copy: Vsb, batch: int, e: Env, n: nat) returns (calls: set<Call>)
    requires n <= |DeletionBranch(l, copy, batch, e).trail|
    ensures AfterAdmission(calls) && StopsAt(DeletionBranch(l, copy, batch, Cut(e, calls)), l, DeletionBranch(l, copy, batch, e).trail, n)
  {
    hide CleanStep;
    var l1 := l.(slots := l.slots - Freed(copy));
    var c := CleanStep(l1, e);
    CleanEnd(l1, e);
    RunIsClean(l1, e);
    if n < |c.trail| {
      calls := CleanCut(l1, e, n);
      RunIsClean(l1, Cut(e, calls));
    } else {
      calls := {RemoveFinalizer};
      CleanUnaffected(l1, e, calls);
      RunIsClean(l1, Cut(e, calls));
    }
  }

  /** Each point of the trail of a pass is where the same pass stops if some more of its calls fail: what holds
      after every pass whichever calls fail therefore holds after every write. */
  lemma EveryWriteIsAnEnd(l: Backup, processing: int, batch0: int, e: Env, k: nat) returns (calls: set<Call>)
    requires k < |Pass(l, processing, batch0, e).trail|
    ensures StopsAt(Pass(l, processing, batch0, Cut(e, calls)), l, Pass(l, processing, batch0, e).trail, k + 1)
  {
    hide WorkBranch, DeletionBranch, CleanStep;
    assert Cut(e, {}) == e;
    var batch := BatchSize(batch0, e.batch).0;
    if !Admits(l, batch0, e) {
      calls := {};
    } else {
      calls := AdmittedCut(l, processing, batch, e, k + 1);
    }
  }

  lemma AdmittedCut(l: Backup, processing: int, batch: int, e: Env, n: nat) returns (calls: set<Call>)
    requires 1 <= n <= |Admitted(l, processing, batch, e).trail|
    ensures AfterAdmission(calls) && StopsAt(Admitted(l, processing, batch, Cut(e, calls)), l, Admitted(l, processing, batch, e).trail, n)
  {
    hide WorkBranch, DeletionBranch;
    var q := QueueStep(l, processing, batch, e);
    assert Cut(e, {}) == e;
    if q.flow != Continue {
      calls := {};
    } else {
      if l.cr.deleting {
        calls := DeletionBranchCut(q.l, l.cr, batch, e, n - |q.trail|);
      } else {
        calls := WorkCut(q.l, l.cr, batch, e, n - |q.trail|);
      }
      QueueUnaffected(l, processing, batch, e, calls);
      var rest := if l.cr.deleting then DeletionBranch(q.l, l.cr, batch, e) else WorkBranch(q.l, l.cr, batch, e);
      assert (q.trail + rest.trail)[..n] == q.trail + rest.trail[..n - |q.trail|];
    }
  }

  lemma QueueUnaffected(l: Backup, processing: int, batch: int, e: Env, calls: set<Call>)
    requires AfterAdmission(calls)
    ensures QueueStep(l, processing, batch, Cut(e, calls)) == QueueStep(l, processing, batch, e)
  {
  }
}
