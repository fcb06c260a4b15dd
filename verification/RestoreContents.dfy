/** What every single API write of a restore's pass writes, in terms of the objects, the keys and the texts
    themselves. */
module RestoreContents {
  import opened Prelude
  import opened Api
  import opened Options
  import opened Secrets
  import opened RestoreModel
  import opened RestoreSafety
  import opened RestoreSlots

  /******* What one write may write *******/

  /** The destination has echoed the trigger of the restore `name`. */
  predicate SyncFinished(d: RepDest, name: string) {
    d.status.Some? && d.status.value.lastManualSync == name + "-trigger"
  }

  predicate Synced(l: Restore) {
    l.dest.Some? && SyncFinished(l.dest.value, l.cr.name)
  }

  /** The destination has not echoed any trigger, and its last running condition is true. */
  ghost predicate Syncing(d: RepDest) {
    && d.status.Some? && d.status.value.lastManualSync == ""
    && exists i: nat :: LastRunningAt(d.status.value.conditions, i) && d.status.value.conditions[i].status == True
  }

  /** What validation holds against a restore: an empty field, or the classes; an error while listing them counts. */
  predicate Rejects(l: Restore, e: Env) {
    Get(Validate) !in e.faults &&
    (|| l.cr.spec.resticSecret == "" || l.cr.spec.repository == "" || l.cr.spec.pvcName == "" || l.cr.spec.pvcSize == ""
     || l.cr.spec.protectedNs == ""
     || ListSnapClasses in e.faults || !e.oneSnapClass || ListStorageClasses in e.faults || !e.oneStorageClass)
  }

  /** Phase and times: the start is written once, the completion time with each verdict and at no other time,
      and each verdict has its reason. */
  ghost predicate VerdictWrites(e: Env, l: Restore, m: Restore) {
    var a, b := l.cr.status, m.cr.status;
    && (b.start != a.start ==> a.start.None? && b.start == Some(e.now))
    && (b.completion != a.completion ==> b.completion == Some(e.now) && b.phase in {VolSyncDone, Failed, PartiallyFailed})
    && (b.phase != a.phase && b.phase in {VolSyncDone, Failed, PartiallyFailed} ==> b.completion == Some(e.now))
    && (b.phase != a.phase && b.phase == Failed ==> Rejects(l, e))
    && (b.phase != a.phase && b.phase == PartiallyFailed ==> e.velero == Broken)
    && (b.phase != a.phase && b.phase == VolSyncDone ==> e.velero == Running && Synced(l))
    && (b.phase != a.phase && b.phase == InProgress ==> e.velero == Running && l.dest.Some? && Syncing(l.dest.value))
    && (b.batching != a.batching && b.batching == BatchDone ==> e.velero == Running && Synced(l))
  }

  /** The record of the sync: the destination's name and when it started with the phase InProgress, and when the last
      sync ended with VolSync-done. */
  predicate SyncWrites(l: Restore, m: Restore) {
    var a, b := l.cr.status, m.cr.status;
    (b.sync != a.sync || (b.phase != a.phase && b.phase in {InProgress, VolSyncDone}) ==>
      && l.dest.Some? && l.dest.value.status.Some? && b.phase in {InProgress, VolSyncDone}
      && (b.phase == InProgress ==>
            && b.sync.name == (if a.sync.name == "" then l.cr.name + "-rep-dest" else a.sync.name)
            && b.sync.start == l.dest.value.status.value.lastSyncStart && b.sync.completion == a.sync.completion)
      && (b.phase == VolSyncDone ==>
            && b.sync.name == a.sync.name && b.sync.start == a.sync.start
            && b.sync.completion == if l.dest.value.status.value.lastSync.Some? then l.dest.value.status.value.lastSync
                                    else a.sync.completion))
  }

  /** The secret, new or rebuilt: for a known provider the repository in the specification, no options, and the
      credentials, key by key; otherwise it is new and empty. */
  predicate SecretWrites(e: Env, l: Restore, s: Secret) {
    && e.given.Some? && l.cr.spec.resticSecret != "" && e.given.value.data != map[]
    && s.owner == (if l.secret.Some? then l.secret.value.owner else l.cr.name)
    && (if e.given.value.provider in {"aws", "azure", "gcp"} then SecretFrom(e, l.cr.spec, s.data)
        else l.secret.None? && s.data == map[])
  }

  predicate SecretFrom(e: Env, spec: RestoreSpec, data: map<string, string>) {
    && e.given.Some? && e.given.value.provider in {"aws", "azure", "gcp"}
    && "RESTIC_REPOSITORY" in data && data["RESTIC_REPOSITORY"] == spec.repository
    && CredentialsFrom(e.given.value.provider, data, e.given.value.data, e.held)
    && PolicyFrom(data, map[])
  }

  /** The destination was built from the specification and from the config map for the recorded class. */
  predicate DestFrom(e: Env, name: string, spec: RestoreSpec, d: RepDest) {
    && d.owner == name && d.repository == name + "-secret" && d.tag == name + "-trigger"
    && d.capacity == spec.pvcSize && d.snapClass == spec.snapClass
    && DestinationSide(d.volume, spec.storageClass, spec.protectedNs, e.configs)
    && SetFrom(d.cache.storageClass, e.configs, spec.protectedNs, spec.storageClass, "DestinationCacheStorageClassName")
    && SetFrom(d.cache.accessMode, e.configs, spec.protectedNs, spec.storageClass, "DestinationCacheAccessMode")
    && SetFrom(d.cache.capacity, e.configs, spec.protectedNs, spec.storageClass, "DestinationCacheCapacity")
  }

  /** A new destination; one that is there only ever gains the custom CA. */
  predicate DestWrites(e: Env, l: Restore, m: Restore)
    requires m.dest.Some?
  {
    && m.secret.Some?
    && (if l.dest.None? then
          && DestFrom(e, l.cr.name, l.cr.spec, m.dest.value) && m.dest.value.status.None?
          && (m.dest.value.customCA <==> !ReadsAs(m.secret.value.data, "RESTIC_CUSTOM_CA", ""))
        else m.dest.value == l.dest.value.(customCA := true) && !ReadsAs(m.secret.value.data, "RESTIC_CUSTOM_CA", ""))
  }

  /** Each write is for the custom resource or for one object, never for two. */
  predicate OneThing(l: Restore, m: Restore) {
    || m == l.(cr := m.cr, slots := m.slots) || m == l.(secret := m.secret, slots := m.slots)
    || m == l.(dest := m.dest, slots := m.slots)
  }

  ghost predicate Writes(e: Env, l: Restore, m: Restore) {
    && OneThing(l, m) && m.cr.spec == l.cr.spec && m.cr.name == l.cr.name
    && VerdictWrites(e, l, m) && SyncWrites(l, m)
    && (SameRecord(l, m) || RecordedFrom(e, l.dest, l.cr.spec.protectedNs, m.cr.status))
    && (m.secret != l.secret && m.secret.Some? ==> SecretWrites(e, l, m.secret.value))
    && (m.dest != l.dest && m.dest.Some? ==> DestWrites(e, l, m))
  }

  /** All writes of a trail. */
  ghost predicate Wrote(e: Env, l: Restore, trail: seq<Restore>)
    decreases |trail|
  {
    trail == [] || (Writes(e, l, trail[0]) && Wrote(e, trail[0], trail[1..]))
  }

  lemma WroteOne(e: Env, l: Restore, m: Restore)
    requires Writes(e, l, m)
    ensures Wrote(e, l, [m])
  {
    assert [m][1..] == [];
  }

  lemma WroteTwo(e: Env, l: Restore, m: Restore, n: Restore)
    requires Writes(e, l, m) && Writes(e, m, n)
    ensures Wrote(e, l, [m, n])
  {
    assert [m, n][1..] == [n];
    WroteOne(e, m, n);
  }

  /** Slots are not part of the cluster. */
  lemma SameWrite(e: Env, l: Restore, slots: int, m: Restore)
    requires Writes(e, l, m)
    ensures Writes(e, l.(slots := slots), m)
  {
  }

  lemma WroteSlots(e: Env, l: Restore, slots: int, trail: seq<Restore>)
    requires Wrote(e, l, trail)
    ensures Wrote(e, l.(slots := slots), trail)
  {
    hide Writes;
    if trail != [] {
      SameWrite(e, l, slots, trail[0]);
      assert Wrote(e, trail[0], trail[1..]);
    }
  }

  lemma {:induction false} WroteConcat(e: Env, l: Restore, t: seq<Restore>, m: Restore, u: seq<Restore>)
    requires Wrote(e, l, t) && Wrote(e, m, u) && m.(slots := 0) == Last(l, t).(slots := 0)
    ensures Wrote(e, l, t + u)
    decreases |t|
  {
    hide Writes;
    if t == [] {
      assert t + u == u;
      WroteSlots(e, m, l.slots, u);
    } else {
      WroteConcat(e, t[0], t[1..], m, u);
      assert (t + u)[1..] == t[1..] + u;
    }
  }

  /******* The steps *******/

  lemma ValidateContents(l: Restore, e: Env)
    ensures Wrote(e, l, ValidateStep(l, e).trail)
  {
    var o := ValidateStep(l, e);
    if o.trail != [] {
      WroteOne(e, l, o.l);
    }
  }

  /** The secret as the mutate callback leaves it. */
  lemma BuiltMeans(l: Restore, e: Env)
    requires e.given.Some? && !SecretFor(l, e).Malformed?
    ensures var built := BuiltSecret(l.secret, l.cr.name, SecretFor(l, e));
            && e.given.value.data != map[]
            && built.owner == (if l.secret.Some? then l.secret.value.owner else l.cr.name)
            && (if e.given.value.provider in {"aws", "azure", "gcp"} then SecretFrom(e, l.cr.spec, built.data)
                else built.data == if l.secret.Some? then l.secret.value.data else map[])
  {
    hide PolicyFrom, CredentialsFrom, DeriveRestore, WellFormed;
    WellFormedMeans(e.given.value);
    RestoreSecretMeans(e.given.value, e.held, l.cr.spec.repository);
  }

  lemma SecretContents(l: Restore, e: Env)
    requires l.cr.spec.resticSecret != ""
    ensures Wrote(e, l, CreateSecretStep(l, e).trail)
  {
    hide SecretFor, BuiltSecret, SecretFrom;
    var o := CreateSecretStep(l, e);
    if o.trail != [] {
      BuiltMeans(l, e);
      WroteOne(e, l, o.l);
    }
  }

  lemma NewDestMeans(l: Restore, e: Env)
    ensures var d := NewDest(l, e);
            DestFrom(e, l.cr.name, l.cr.spec, d) && d.status.None? && !d.customCA
  {
    hide DestinationOptions, CacheFor, ConfigFor, DestinationSide, SetFrom;
    DestinationOptionsMean(l.cr.spec.storageClass, l.cr.spec.protectedNs, e.configs);
    DestinationCacheMeans(l.cr.spec.storageClass, l.cr.spec.protectedNs, e.configs);
  }

  lemma DestContents(l: Restore, e: Env)
    ensures Wrote(e, l, CreateDestStep(l, e).trail)
  {
    hide NewDest, DestFrom;
    var o := CreateDestStep(l, e);
    if o.trail != [] {
      NewDestMeans(l, e);
      DestWritten(l, e);
      WroteOne(e, l, o.l);
    }
  }

  lemma DestWritten(l: Restore, e: Env)
    requires DestFrom(e, l.cr.name, l.cr.spec, NewDest(l, e)) && NewDest(l, e).status.None? && !NewDest(l, e).customCA
    ensures DestFrom(e, l.cr.name, l.cr.spec, NewDest(l, e).(customCA := true))
  {
  }

  lemma WaitContents(l: Restore, e: Env)
    ensures Wrote(e, l, WaitForContentStep(l, e).trail)
  {
    var o := WaitForContentStep(l, e);
    if o.trail != [] {
      WroteOne(e, l, o.l);
    }
  }

  /** The steps after validation have a secret to read. */
  predicate Named(i: nat, l: Restore) {
    i >= 1 ==> l.cr.spec.resticSecret != ""
  }

  lemma StepContents(i: nat, l: Restore, e: Env)
    requires i < |CREATION| && Named(i, l)
    ensures var o := Run(CREATION[i], l, e);
            && Wrote(e, l, o.trail) && o.l == Last(l, o.trail) && (o.flow == Continue ==> Named(i + 1, o.l))
  {
    hide Writes;
    match CREATION[i]
    case Validate => ValidateContents(l, e);
    case CreateSecret => SecretContents(l, e);
    case CreateDest => DestContents(l, e);
    case WaitForContent => WaitContents(l, e);
  }

  lemma PhaseContents(l: Restore, phase: Phase, e: Env)
    requires phase in {Cleanup, Completed}
    ensures Writes(e, l, Status(l, l.cr.status.(phase := phase)))
  {
  }

  lemma EraseContents(l: Restore, kind: Kind, e: Env)
    ensures Writes(e, l, Erase(l, kind))
  {
  }

  lemma {:induction false} DeleteContents(l: Restore, kinds: seq<Kind>, e: Env)
    ensures var o := DeleteAll(l, kinds, e);
            Wrote(e, l, o.trail) && o.l == Last(l, o.trail)
    decreases |kinds|
  {
    hide Writes;
    if kinds != [] && Delete(kinds[0]) !in e.faults {
      EraseContents(l, kinds[0], e);
      var l1 := Erase(l, kinds[0]);
      DeleteContents(l1, kinds[1..], e);
      var rest := DeleteAll(l1, kinds[1..], e);
      WroteOne(e, l, l1);
      WroteConcat(e, l, [l1], l1, rest.trail);
    }
  }

  lemma CleanContents(l: Restore, e: Env)
    ensures var o := CleanStep(l, e);
            Wrote(e, l, o.trail) && o.l == Last(l, o.trail)
  {
    hide Writes, DeleteAll;
    var o := CleanStep(l, e);
    if o.trail != [] {
      var l1 := Status(l, l.cr.status.(phase := Cleanup));
      PhaseContents(l, Cleanup, e);
      WroteOne(e, l, l1);
      DeleteContents(l1, CLEANUP_KINDS, e);
      var gone := DeleteAll(l1, CLEANUP_KINDS, e);
      WroteConcat(e, l, [l1], l1, gone.trail);
      if o.flow == Continue && !l.cr.deleting {
        PhaseContents(gone.l, Completed, e);
        WroteOne(e, gone.l, o.l);
        WroteConcat(e, l, [l1] + gone.trail, gone.l, [o.l]);
      }
    }
  }

  lemma {:induction false} BatchContents(i: nat, l: Restore, e: Env)
    requires i < |BATCH| && Named(i, l)
    ensures var o := RunBatch(BATCH[i..], l, e);
            Wrote(e, l, o.trail) && o.l == Last(l, o.trail)
    decreases |BATCH| - i
  {
    hide Writes, CleanStep, Run, Named;
    var o := Run(BATCH[i], l, e);
    BatchSuffix(i);
    if i < |CREATION| {
      StepContents(i, l, e);
      if o.flow == Continue {
        BatchContents(i + 1, o.l, e);
        WroteConcat(e, l, o.trail, o.l, RunBatch(BATCH[i + 1..], o.l, e).trail);
      }
    } else {
      RunIsClean(l, e);
      CleanContents(l, e);
      assert o.trail + [] == o.trail;
    }
  }

  /******* The rest of a pass *******/

  lemma SyncingMeans(d: RepDest)
    requires d.status.Some? && d.status.value.lastManualSync == "" && LastSync(d.status.value.conditions).status == True
    ensures Syncing(d)
  {
    LastSyncMeans(d.status.value.conditions);
  }

  /** What the reconciler takes for a finished sync is one. */
  lemma FinishedMeans(l: Restore)
    requires Linked(l)
    ensures Moved(l) <==> Synced(l)
  {
  }

  lemma OutOfQueueContents(l: Restore, e: Env)
    requires e.velero == Running && Synced(l)
    ensures Writes(e, l, Status(l, l.cr.status.(batching := BatchDone)))
  {
  }

  lemma SyncDoneContents(l: Restore, d: RepDest, e: Env)
    requires e.velero == Running && Synced(l) && l.dest == Some(d) && l.cr.status.phase in {NoPhase, InProgress, Cleanup}
    ensures var m := WithPhase(l, d, VolSyncDone, e.now);
            Writes(e, l, m.(slots := m.slots - 1))
  {
  }

  lemma DoneContents(l: Restore, d: RepDest, e: Env)
    requires Linked(l) && l.dest == Some(d) && DestDone(d) && e.velero == Running
    requires l.cr.status.phase in {NoPhase, InProgress, Cleanup}
    ensures Wrote(e, l, DoneWork(l, d, e).trail)
  {
    hide Writes, WithPhase;
    FinishedMeans(l);
    var o := DoneWork(l, d, e);
    if o.trail != [] {
      OutOfQueueContents(l, e);
      WroteOne(e, l, o.trail[0]);
      if |o.trail| == 2 {
        SyncDoneContents(o.trail[0], d, e);
        WroteTwo(e, l, o.trail[0], o.l);
      }
    }
  }

  lemma ProgressContents(l: Restore, d: RepDest, e: Env)
    requires l.dest == Some(d) && d.status.Some? && e.velero == Running && d.tag != ""
    requires l.cr.status.phase !in {Failed, PartiallyFailed, VolSyncDone} && !DestDone(d)
    ensures Wrote(e, l, StatusFromDest(l, d, e).trail)
  {
    hide Syncing;
    var o := StatusFromDest(l, d, e);
    SyncErrorNeverSeen(d.status.value.conditions);
    if o.trail != [] {
      SyncingMeans(d);
      WroteOne(e, l, o.l);
    }
  }

  lemma StatusContents(l: Restore, e: Env)
    requires Good(l)
    ensures Wrote(e, l, StatusStep(l, e).trail)
  {
    hide DoneWork;
    var o := StatusStep(l, e);
    if e.velero == Running {
      if l.dest.Some? && l.dest.value.status.Some? && l.cr.status.phase !in {Failed, PartiallyFailed, VolSyncDone} {
        if DestDone(l.dest.value) {
          DoneContents(l, l.dest.value, e);
        } else {
          ProgressContents(l, l.dest.value, e);
        }
      }
    } else if o.trail != [] {
      WroteOne(e, l, o.l);
    }
  }

  lemma ConditionContents(l: Restore, copy: Vsr, ok: bool, e: Env)
    requires copy.rv == l.cr.rv ==> copy == l.cr
    ensures var o := ConditionStep(l, copy, ok, e);
            Wrote(e, l, o.trail) && o.l == Last(l, o.trail)
  {
    var o := ConditionStep(l, copy, ok, e);
    if o.trail != [] {
      WroteOne(e, l, o.l);
    }
  }

  lemma LastConcat(l: Restore, t: seq<Restore>, u: seq<Restore>)
    ensures u != [] ==> Last(l, t + u) == Last(l, u)
    ensures u == [] ==> t + u == t
  {
  }

  lemma WorkContents(l: Restore, copy: Vsr, batch: int, e: Env)
    requires Working(0, l, e) && copy.rv <= l.cr.rv && (copy.rv == l.cr.rv ==> copy == l.cr)
    ensures Wrote(e, l, WorkBranch(l, copy, batch, e).trail)
  {
    hide StatusStep, Advance, RunBatch, Linked, Consistent, Writes;
    assert BATCH[0..] == BATCH;
    BatchContents(0, l, e);
    var work := RunBatch(BATCH, l, e);
    BatchKeeps(0, l, e);
    PathEnds(e, l, work.trail, work.l);
    var cond := ConditionStep(work.l, copy, work.flow != Fail, e);
    ConditionKeeps(work.l, copy, work.flow != Fail, e);
    ConditionContents(work.l, copy, work.flow != Fail, e);
    PathEnds(e, work.l, cond.trail, cond.l);
    StatusContents(cond.l, e);
    WroteConcat(e, l, work.trail, work.l, cond.trail);
    LastConcat(l, work.trail, cond.trail);
    WroteConcat(e, l, work.trail + cond.trail, cond.l, StatusStep(cond.l, e).trail);
  }

  lemma QueueContents(l: Restore, processing: int, batch: int, e: Env)
    ensures var q := QueueStep(l, processing, batch, e);
            Wrote(e, l, q.trail) && q.l == Last(l, q.trail)
  {
    var q := QueueStep(l, processing, batch, e);
    if q.trail != [] {
      WroteOne(e, l, q.l);
    }
  }

  lemma DeletionContents(l: Restore, copy: Vsr, batch: int, e: Env)
    ensures Wrote(e, l, DeletionBranch(l, copy, batch, e).trail)
  {
    hide CleanStep, Writes;
    var l1 := l.(slots := l.slots - Freed(copy));
    CleanContents(l1, e);
    WroteSlots(e, l1, l.slots, CleanStep(l1, e).trail);
    assert l1.(slots := l.slots) == l;
  }

  lemma FinalizerContents(l: Restore, e: Env)
    ensures Wrote(e, l, [l.(cr := WithFinalizer(l.cr, true))])
  {
    WroteOne(e, l, l.(cr := WithFinalizer(l.cr, true)));
  }

  /** All writes of every pass, whichever calls fail. */
  lemma PassContents(l: Restore, processing: int, batch0: int, e: Env)
    requires Good(l)
    ensures Wrote(e, l, Pass(l, processing, batch0, e).trail)
  {
    hide WorkBranch, DeletionBranch, Advance, Linked, Consistent, Writes;
    var batch := BatchSize(batch0, e.batch).0;
    if PassAdmits(l, batch0, e) {
      var q := QueueStep(l, processing, batch, e);
      var copy := QueuedCopy(l.cr, processing, batch);
      QueueKeeps(l, processing, batch, e);
      QueueContents(l, processing, batch, e);
      PathEnds(e, l, q.trail, q.l);
      if q.flow == Continue {
        QueuedCopyIsStale(l, processing, batch, e);
        if l.cr.deleting {
          DeletionContents(q.l, copy, batch, e);
          WroteConcat(e, l, q.trail, q.l, DeletionBranch(q.l, copy, batch, e).trail);
        } else {
          WorkContents(q.l, copy, batch, e);
          WroteConcat(e, l, q.trail, q.l, WorkBranch(q.l, copy, batch, e).trail);
        }
      }
    } else {
      FinalizerContents(l, e);
    }
  }

  lemma {:induction false} WroteAt(e: Env, l: Restore, trail: seq<Restore>, k: nat)
    requires Wrote(e, l, trail) && k < |trail|
    ensures Writes(e, Last(l, trail[..k]), trail[k])
    decreases k
  {
    hide Writes;
    if k > 0 {
      WroteAt(e, trail[0], trail[1..], k - 1);
      assert Last(trail[0], trail[1..][..k - 1]) == Last(l, trail[..k]);
    }
  }

  /** What the k-th write of any pass writes: a verdict with its reason and its time, a record of what the pass has
      read, or one object made of the specification and of what the pass has read. */
  lemma EveryWriteIsRight(l: Restore, processing: int, batch: int, e: Env, k: nat)
    requires Good(l) && k < |Pass(l, processing, batch, e).trail|
    ensures var trail := Pass(l, processing, batch, e).trail;
            Writes(e, Last(l, trail[..k]), trail[k])
  {
    hide Pass, Writes;
    PassContents(l, processing, batch, e);
    WroteAt(e, l, Pass(l, processing, batch, e).trail, k);
  }

  /******* From the start of a pass to its end *******/

  /** Nothing but the status and the custom CA of a destination ever changes. */
  predicate SameDest(a: RepDest, b: RepDest) {
    b == a.(customCA := b.customCA, status := b.status)
  }

  /** The secret and the destination at the end were there at the start, or come from the specification and from what
      the pass has read; the secret of an unknown provider is empty. */
  predicate KeptOrBuilt(e: Env, l: Restore, m: Restore) {
    && (m.secret.Some? ==>
          m.secret == l.secret || SecretFrom(e, m.cr.spec, m.secret.value.data) || m.secret.value.data == map[])
    && (m.dest.Some? ==> || (l.dest.Some? && SameDest(l.dest.value, m.dest.value))
                         || DestFrom(e, m.cr.name, m.cr.spec, m.dest.value))
  }

  lemma OneStep(e: Env, l: Restore, t: Restore, m: Restore)
    requires Writes(e, l, t) && KeptOrBuilt(e, t, m) && m.cr.spec == t.cr.spec && m.cr.name == t.cr.name
    ensures KeptOrBuilt(e, l, m)
  {
    hide VerdictWrites, SyncWrites, RecordedFrom, CredentialsFrom, PolicyFrom, DestinationSide, SetFrom;
  }

  lemma {:induction false} TrailBuilds(e: Env, l: Restore, trail: seq<Restore>, m: Restore)
    requires Path(e, l, trail, m) && Wrote(e, l, trail)
    ensures KeptOrBuilt(e, l, m) && m.cr.spec == l.cr.spec && m.cr.name == l.cr.name
    decreases |trail|
  {
    hide Good, Writes, KeptOrBuilt;
    if trail != [] {
      TrailBuilds(e, trail[0], trail[1..], m);
      OneStep(e, l, trail[0], m);
    } else {
      NothingBuilt(e, l, m.slots);
    }
  }

  lemma NothingBuilt(e: Env, l: Restore, slots: int)
    ensures KeptOrBuilt(e, l, l.(slots := slots))
  {
  }

  lemma PassLeaves(l: Restore, processing: int, batch: int, e: Env)
    requires Good(l) && Pass(l, processing, batch, e).l.Some?
    ensures KeptOrBuilt(e, l, Pass(l, processing, batch, e).l.value)
  {
    hide Pass, Good, Path, Wrote, KeptOrBuilt;
    PassIsSafe(l, processing, batch, e);
    PassContents(l, processing, batch, e);
    var o := Pass(l, processing, batch, e);
    TrailBuilds(e, l, o.trail, o.l.value);
  }

  /** Whenever the secret step returns true for a known provider, whatever was in the secret before, the stored
      secret is the one made of the specification and the user's secret, and belongs to the restore. */
  lemma SecretStepWrites(l: Restore, e: Env)
    requires Good(l) && CreateSecretStep(l, e).flow == Continue
    ensures var m := CreateSecretStep(l, e).l;
            && m == l.(secret := m.secret) && m.secret.Some? && m.secret.value.owner == l.cr.name
            && (e.given.value.provider in {"aws", "azure", "gcp"} ==> SecretFrom(e, l.cr.spec, m.secret.value.data))
  {
    hide SecretFor, BuiltSecret, SecretFrom;
    BuiltMeans(l, e);
  }
}
