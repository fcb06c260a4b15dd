/** Level-triggered creation: running the creation steps again with nothing changed in between changes
    nothing and stops at the same step. */
module BackupIdempotence {
  import opened Prelude
  import opened Api
  import opened Options
  import opened Secrets
  import opened BackupModel

  /** The step would do nothing and return true. */
  predicate Fixed(step: Step, l: Backup, e: Env) {
    Run(step, l, e).l == l && Run(step, l, e).flow == Continue
  }

  /** The only step whose second run can leave a trace is a validation that fails: it stamps the time. */
  predicate SameButCompletion(l: Backup, m: Backup) {
    m == l.(cr := l.cr.(rv := m.cr.rv, status := l.cr.status.(completion := m.cr.status.completion)))
  }

  /** The position of a step in the batch. */
  function Index(step: Step): nat {
    match step
    case Validate => 0
    case MirrorContent => 1
    case WaitForContent => 2
    case MirrorSnapshot => 3
    case WaitForSnapshot => 4
    case MirrorPvc => 5
    case BindPod => 6
    case CreateSecret => 7
    case IsPvcBound => 8
    case CreateSource => 9
    case Clean => 10
  }

  predicate AgainHolds(step: Step, l: Backup, e: Env, later: nat) {
    var o := Run(step, l, e);
    var again := Run(step, o.l, e.(now := later));
    && again.flow == o.flow
    && (if step == Validate && o.flow == Fail then SameButCompletion(o.l, again.l) else again.l == o.l)
  }

  lemma StepAgain(step: Step, l: Backup, e: Env, later: nat)
    requires step != Clean && e.faults == {}
    ensures AgainHolds(step, l, e, later)
  {
    hide Run, AgainHolds;
    if Index(step) <= 5 {
      EarlyStepAgain(step, l, e, later);
    } else {
      LateStepAgain(step, l, e, later);
    }
  }

  lemma EarlyStepAgain(step: Step, l: Backup, e: Env, later: nat)
    requires Index(step) <= 5 && e.faults == {}
    ensures AgainHolds(step, l, e, later)
  {
    hide Run, AgainHolds;
    if step == MirrorPvc {
      MirrorPvcAgain(l, e, later);
    } else {
      MirrorAgain(step, l, e, later);
    }
  }

  lemma MirrorPvcAgain(l: Backup, e: Env, later: nat)
    requires e.faults == {}
    ensures AgainHolds(MirrorPvc, l, e, later)
  {
  }

  lemma MirrorAgain(step: Step, l: Backup, e: Env, later: nat)
    requires Index(step) < 5 && e.faults == {}
    ensures AgainHolds(step, l, e, later)
  {
    hide CleanStep, CreateSecretStep, CreateSourceStep, MirrorPvcStep;
  }

  lemma LateStepAgain(step: Step, l: Backup, e: Env, later: nat)
    requires 5 < Index(step) < 10 && e.faults == {}
    ensures AgainHolds(step, l, e, later)
  {
    hide CleanStep, ValidateStep, MirrorContentStep, MirrorPvcStep, DeriveBackup, OptionsIn, MoverOptions;
  }

  /** What a step has done is not undone by a later one. */
  lemma StepStays(done: Step, step: Step, l: Backup, e: Env, later: nat)
    requires Index(done) < Index(step) < 10 && e.faults == {} && Fixed(done, l, e.(now := later))
    ensures Fixed(done, Run(step, l, e).l, e.(now := later))
  {
    hide Run;
    if Index(step) <= 5 {
      EarlyStepStays(done, step, l, e, later);
    } else {
      LateStepStays(done, step, l, e, later);
    }
  }

  lemma EarlyStepStays(done: Step, step: Step, l: Backup, e: Env, later: nat)
    requires Index(done) < Index(step) <= 5 && e.faults == {} && Fixed(done, l, e.(now := later))
    ensures Fixed(done, Run(step, l, e).l, e.(now := later))
  {
    hide CleanStep, CreateSecretStep, CreateSourceStep;
  }

  lemma LateStepStays(done: Step, step: Step, l: Backup, e: Env, later: nat)
    requires Index(done) < Index(step) < 10 && 5 < Index(step) && e.faults == {} && Fixed(done, l, e.(now := later))
    ensures Fixed(done, Run(step, l, e).l, e.(now := later))
  {
    hide CleanStep, DeriveBackup, BuiltSecret, OptionsIn, NewSource, NewClaim;
  }

  /** The state after a first run of the steps from `i`: the step at `stop` ended it, and all before are fixed. */
  ghost predicate StoppedAt(stop: nat, m: Backup, flow: Flow, e: Env) {
    && stop <= |CREATION|
    && (forall j :: 0 <= j < stop ==> Fixed(CREATION[j], m, e))
    && (if stop == |CREATION| then flow == Continue
        else flow != Continue && Run(CREATION[stop], m, e).flow == flow
             && (if stop == 0 && flow == Fail then SameButCompletion(m, Run(CREATION[stop], m, e).l)
                 else Run(CREATION[stop], m, e).l == m))
  }

  lemma {:induction false} FirstRun(i: nat, l: Backup, e: Env, later: nat) returns (stop: nat)
    requires i <= |CREATION| && e.faults == {}
    requires forall j :: 0 <= j < i ==> Fixed(CREATION[j], l, e.(now := later))
    ensures StoppedAt(stop, RunBatch(CREATION[i..], l, e).l, RunBatch(CREATION[i..], l, e).flow, e.(now := later))
    ensures i <= stop && (i == stop < |CREATION| <==> i < |CREATION| && Run(CREATION[i], l, e).flow != Continue)
    decreases |CREATION| - i
  {
    hide Run;
    stop := i;
    if i < |CREATION| {
      assert CREATION[i..][0] == CREATION[i] && CREATION[i..][1..] == CREATION[i + 1..];
      CreationOrder(i);
      var o := Run(CREATION[i], l, e);
      StepAgain(CREATION[i], l, e, later);
      forall j | 0 <= j < i
        ensures Fixed(CREATION[j], o.l, e.(now := later))
      {
        CreationOrder(j);
        StepStays(CREATION[j], CREATION[i], l, e, later);
      }
      if o.flow == Continue {
        stop := FirstRun(i + 1, o.l, e, later);
      }
    }
  }

  lemma CreationOrder(i: nat)
    requires i < |CREATION|
    ensures Index(CREATION[i]) == i && CREATION[i] != Clean && (CREATION[i] == Validate <==> i == 0)
  {
  }

  lemma {:induction false} SecondRun(i: nat, stop: nat, m: Backup, flow: Flow, e: Env)
    requires i <= stop && StoppedAt(stop, m, flow, e)
    ensures var again := RunBatch(CREATION[i..], m, e);
            && again.flow == flow
            && (if stop == 0 && flow == Fail then SameButCompletion(m, again.l) else again.l == m)
    decreases |CREATION| - i
  {
    hide Run;
    if i < |CREATION| {
      assert CREATION[i..][0] == CREATION[i] && CREATION[i..][1..] == CREATION[i + 1..];
      if i < stop {
        SecondRun(i + 1, stop, m, flow, e);
      }
    }
  }

  /** Idempotent reconciliation: with no failing call and nothing changed in between but the time, a
      second run of the creation steps ends the same way and leaves the same objects, specifications and
      status as one run; if validation fails, up to the completion time that it stamps again. */
  lemma CreationIsIdempotent(l: Backup, e: Env, later: nat)
    requires e.faults == {}
    ensures var once := RunBatch(CREATION, l, e);
            var twice := RunBatch(CREATION, once.l, e.(now := later));
            && twice.flow == once.flow
            && (if ValidateStep(l, e).flow == Fail then SameButCompletion(once.l, twice.l) else twice.l == once.l)
  {
    assert CREATION[0..] == CREATION;
    var stop := FirstRun(0, l, e, later);
    var once := RunBatch(CREATION, l, e);
    SecondRun(0, stop, once.l, once.flow, e.(now := later));
    StepAgain(Validate, l, e, later);
  }
}
