/** When the creation steps go through once more for a backup that has all its objects: conditions on the objects
    and on what the pass reads, step by step. */
module BackupThrough {
  import opened Prelude
  import opened Api
  import opened Options
  import opened Secrets
  import opened BackupModel
  import opened BackupSafety
  import opened BackupPass
  import opened BackupProgress

  /** A backup with all its objects. */
  predicate Equipped(l: Backup) {
    l.vsc.Some? && l.snap.Some? && l.pvc.Some? && l.pod.Some? && l.secret.Some? && l.src.Some?
  }

  /** Neither of the reads that every creation step makes fails. */
  predicate Reads(step: Step, e: Env) {
    Get(step) !in e.faults && Lookup(step) !in e.faults
  }

  /** The secret as this pass rebuilds it. */
  function Rebuilt(l: Backup, e: Env): Secret
    requires e.given.Some? && !SecretFor(l, e).Malformed?
  {
    BuiltSecret(l.secret, l.cr.name, SecretFor(l, e))
  }

  /** The step returns true, in terms of the backup before the pass. */
  predicate Goes(step: Step, l: Backup, e: Env)
    requires Equipped(l)
  {
    var st := l.cr.status;
    Reads(step, e) &&
    match step
    case Validate =>
      && e.original.Some? && l.cr.spec.vscName != "" && l.cr.spec.protectedNs != ""
      && ListSnapClasses !in e.faults && e.oneSnapClass && ListStorageClasses !in e.faults && e.oneStorageClass
      && (st.start.None? ==> StartWrite !in e.faults)
    case MirrorContent =>
      && e.original.Some? && e.original.value.status.Some? && e.original.value.status.value.ready != Some(false)
      && (st.snapClass == "" ==> ClassWrite !in e.faults)
    case WaitForContent => true
    case MirrorSnapshot => l.vsc.value.ready
    case WaitForSnapshot => LookupSnapshot(WaitForSnapshot) !in e.faults
    case MirrorPvc =>
      LookupSnapshot(MirrorPvc) !in e.faults && l.snap.value.ready && e.sourcePvc.Some? && {SourceWrite, ReadConfig} !! e.faults
    case BindPod => true
    case CreateSecret =>
      && l.cr.spec.resticSecret != "" && e.given.Some? && !SecretFor(l, e).Malformed?
      && (l.secret != Some(Rebuilt(l, e)) ==> Put(SecretKind) !in e.faults) && RepositoryWrite !in e.faults
    case IsPvcBound => l.pvc.value.bound
    case CreateSource =>
      && e.sourcePvc.Some? && e.sourcePvc.value.name != "" && ReadOptions !in e.faults
      && e.given.Some? && !SecretFor(l, e).Malformed? && OptionsIn(Rebuilt(l, e).data).Some?
      && (Field(Rebuilt(l, e).data, "RESTIC_CUSTOM_CA") != "" && !l.src.value.customCA ==> Put(SourceKind) !in e.faults)
    case Clean => true
  }

  predicate GoesThrough(l: Backup, e: Env)
    requires Equipped(l)
  {
    forall i :: 0 <= i < |CREATION| ==> Goes(CREATION[i], l, e)
  }

  /** What the steps before step `i` have made of the backup. */
  predicate Tracks(i: nat, l: Backup, m: Backup, e: Env)
    requires Equipped(l)
  {
    && m.cr.name == l.cr.name && m.cr.spec == l.cr.spec && m.cr.status.phase == l.cr.status.phase
    && m == l.(cr := m.cr, secret := m.secret, src := m.src)
    && (i == 0 ==> m == l)
    && (i <= 1 ==> m.cr.status.snapClass == l.cr.status.snapClass)
    && (i >= 6 ==> e.sourcePvc.Some? && m.cr.status.source.name == e.sourcePvc.value.name)
    && (i <= 7 ==> m.secret == l.secret)
    && (i >= 8 ==> e.given.Some? && !SecretFor(l, e).Malformed? && m.secret == Some(Rebuilt(l, e)))
    && (i <= 9 ==> m.src == l.src)
  }

  lemma EarlyStepGoes(i: nat, l: Backup, m: Backup, e: Env)
    requires i <= 5 && Equipped(l) && Tracks(i, l, m, e) && l.cr.status.phase == VolSyncDone
    ensures var o := Run(CREATION[i], m, e);
            && (o.flow == Continue <==> Goes(CREATION[i], l, e))
            && (o.flow == Continue ==> Tracks(i + 1, l, o.l, e))
  {
    hide CleanStep, CreateSecretStep, CreateSourceStep, BuiltSecret, SecretFor, OptionsIn;
  }

  lemma LateStepGoes(i: nat, l: Backup, m: Backup, e: Env)
    requires 6 <= i <= 9 && Equipped(l) && Tracks(i, l, m, e) && l.cr.status.phase == VolSyncDone
    ensures var o := Run(CREATION[i], m, e);
            && (o.flow == Continue <==> Goes(CREATION[i], l, e))
            && (o.flow == Continue ==> Tracks(i + 1, l, o.l, e))
  {
    hide CleanStep, ValidateStep, MirrorContentStep, MirrorPvcStep, BuiltSecret, DeriveBackup, OptionsIn;
  }

  lemma {:induction false} StepsGo(i: nat, l: Backup, m: Backup, e: Env)
    requires i <= |CREATION| && Equipped(l) && Tracks(i, l, m, e) && l.cr.status.phase == VolSyncDone
    ensures RunBatch(CREATION[i..], m, e).flow == Continue <==> forall j :: i <= j < |CREATION| ==> Goes(CREATION[j], l, e)
    decreases |CREATION| - i
  {
    hide Run, Goes, Tracks;
    if i < |CREATION| {
      assert CREATION[i..][0] == CREATION[i] && CREATION[i..][1..] == CREATION[i + 1..];
      if i <= 5 {
        EarlyStepGoes(i, l, m, e);
      } else {
        LateStepGoes(i, l, m, e);
      }
      var o := Run(CREATION[i], m, e);
      if o.flow == Continue {
        StepsGo(i + 1, l, o.l, e);
      }
    }
  }

  /** The creation steps all return true for a backup that has its objects exactly when each of the conditions
      holds of the backup and the readings before the pass. */
  lemma CreationGoes(l: Backup, e: Env)
    requires Equipped(l) && l.cr.status.phase == VolSyncDone
    ensures RunBatch(CREATION, l, e).flow == Continue <==> GoesThrough(l, e)
  {
    assert CREATION[0..] == CREATION;
    StepsGo(0, l, l, e);
  }

  /******* Smooth passes up to cleanup *******/

  /** One failing deletion, after a smooth pass up to there. */
  function OneFailure(e: Env): Env {
    e.(faults := {Delete(PvcKind)})
  }

  lemma SmoothGoesThrough(l: Backup, e: Env)
    requires Live(l) && Equipped(l) && l.cr.status.phase == VolSyncDone && Smooth(e) && Answered(l, e)
    ensures GoesThrough(l, OneFailure(e))
  {
    hide Good, Owing, Goes;
    var f := OneFailure(e);
    forall i | 0 <= i < |CREATION| ensures Goes(CREATION[i], l, f) {
      assert CREATION[i] != Clean;
      SmoothGoes(CREATION[i], l, e);
    }
  }

  lemma SameSecret(l: Backup, e: Env)
    requires e.given.Some?
    ensures SecretFor(l, OneFailure(e)) == SecretFor(l, e)
  {
  }

  lemma SmoothGoes(step: Step, l: Backup, e: Env)
    requires step != Clean && Live(l) && Equipped(l) && Smooth(e) && Answered(l, e)
    ensures Goes(step, l, OneFailure(e))
  {
    hide Good, Owing, SecretFor, BuiltSecret, WellFormed, Known, OptionsIn;
    SmoothSecret(l, e);
  }

  lemma SmoothSecret(l: Backup, e: Env)
    requires Smooth(e)
    ensures var f := OneFailure(e);
            !SecretFor(l, f).Malformed? && OptionsIn(Rebuilt(l, f).data).Some?
  {
    hide WellFormed, Known, OptionsIn, DerivedData;
    SameSecret(l, e);
    WellFormedDerives(l, e);
    SecretTracked(l, e);
  }
}
