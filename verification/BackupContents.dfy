/** What every single API write of a pass writes, in terms of the objects, the keys and the texts themselves. */
module BackupContents {
  import opened Prelude
  import opened Api
  import opened Options
  import opened Secrets
  import opened BackupModel
  import opened BackupSafety
  import opened BackupPass
  import opened BackupSlots
  import opened BackupVerdict

  /******* The status *******/

  ghost predicate Finishing(e: Env, l: Backup) {
    e.velero == Running && l.src.Some? && SyncFinished(l.src.value, l.cr.name)
  }

  /** Phase and times: the start is written once, the completion time with each verdict and at no other time,
      and each verdict has its reason. */
  ghost predicate VerdictWrites(e: Env, l: Backup, m: Backup) {
    var a, b := l.cr.status, m.cr.status;
    && (b.start != a.start ==> a.start.None? && b.start == Some(e.now))
    && (b.completion != a.completion ==> b.completion == Some(e.now) && b.phase in {VolSyncDone, Failed, PartiallyFailed})
    && (b.phase != a.phase && b.phase in {VolSyncDone, Failed, PartiallyFailed} ==> b.completion == Some(e.now))
    && (b.phase != a.phase && b.phase == Failed ==> Rejects(l, e))
    && (b.phase != a.phase && b.phase == PartiallyFailed ==> e.velero == Broken)
    && (b.phase != a.phase && b.phase == VolSyncDone ==> Finishing(e, l))
    && (b.phase != a.phase && b.phase == InProgress ==> e.velero == Running && l.src.Some? && Syncing(l.src.value, l.cr.name))
    && (b.batching != a.batching && b.batching == BatchDone ==> Finishing(e, l))
  }

  /** The record of the sync: the source's name and when it started with the phase InProgress, and when the last
      sync ended with VolSync-done. */
  predicate SyncWrites(l: Backup, m: Backup) {
    var a, b := l.cr.status, m.cr.status;
    (b.sync != a.sync || (b.phase != a.phase && b.phase in {InProgress, VolSyncDone}) ==>
      && l.src.Some? && l.src.value.status.Some? && b.phase in {InProgress, VolSyncDone}
      && (b.phase == InProgress ==>
            && b.sync.name == (if a.sync.name == "" then l.cr.name + "-rep-src" else a.sync.name)
            && b.sync.start == l.src.value.status.value.lastSyncStart && b.sync.completion == a.sync.completion)
      && (b.phase == VolSyncDone ==>
            && b.sync.name == a.sync.name && b.sync.start == a.sync.start
            && b.sync.completion == if l.src.value.status.value.lastSync.Some? then l.src.value.status.value.lastSync
                                    else a.sync.completion))
  }

  predicate SourceRead(e: Env, d: PvcData) {
    && e.sourcePvc.Some? && d.name == e.sourcePvc.value.name && d.size == e.sourcePvc.value.request
    && d.storageClass == e.sourcePvc.value.storageClass
  }

  /** The backup has recorded the repository in its own secret; for a known provider this is the path made of
      the user's repository and the names of namespace, backup and claim. */
  predicate PathRecorded(e: Env, l: Backup) {
    && e.given.Some? && l.secret.Some? && ReadsAs(l.secret.value.data, "RESTIC_REPOSITORY", l.cr.status.repository)
    && (e.given.value.provider in {"aws", "azure", "gcp"} ==>
          PathFrom(l.cr.status.repository, e.given.value.data, e.base, l.cr.spec.protectedNs, l.cr.spec.backupName,
                   l.cr.spec.vscName + "-pvc"))
  }

  /** What the status says of the data: the source claim as read, the class of the content clone or of the
      original it is about to be cloned from, and the repository. */
  predicate RecordWrites(e: Env, l: Backup, m: Backup) {
    var a, b := l.cr.status, m.cr.status;
    && (b.source != a.source ==> SourceRead(e, b.source))
    && (b.snapClass != a.snapClass ==>
          && a.snapClass == "" && e.original.Some?
          && b.snapClass == if l.vsc.Some? then l.vsc.value.snapClass else e.original.value.snapClass)
    && (b.repository != a.repository ==> PathRecorded(e, m))
  }

  /******* The objects *******/

  /** A new content clone: the handle and class of an original that does not say it is not ready. */
  predicate ContentWrites(e: Env, l: Backup, c: VscClone) {
    && e.original.Some? && e.original.value.status.Some? && e.original.value.status.value.ready != Some(false)
    && c.handle == e.original.value.status.value.handle && c.snapClass == e.original.value.snapClass
    && c.refNs == l.cr.spec.protectedNs && c.refName == l.cr.spec.vscName + "-clone" + "-volumesnapshot"
    && c.owner == l.cr.name && !c.ready
    && (l.cr.status.snapClass == "" ==> c.snapClass == "")
  }

  /** A new snapshot clone, of a content clone that is ready. */
  predicate SnapshotWrites(l: Backup, s: VsClone) {
    l.vsc.Some? && l.vsc.value.ready && s.owner == l.cr.name && s.content == l.cr.spec.vscName + "-clone" && !s.ready
  }

  /** A new claim clone, of a snapshot clone that is ready. */
  predicate ClaimWrites(e: Env, l: Backup, c: PvcClone) {
    && l.snap.Some? && l.snap.value.ready && ClaimFrom(e, l, c)
    && c.owner == l.cr.name && c.dataSource == l.cr.spec.vscName + "-clone" + "-volumesnapshot" && !c.bound
  }

  predicate PodWrites(l: Backup, p: Pod) {
    l.pvc.Some? && p.owner == l.cr.name && p.claim == l.cr.spec.vscName + "-pvc"
  }

  /** The secret, new or rebuilt: for a known provider the derived path, the user's options and credentials, key
      by key; otherwise as it was found. */
  predicate SecretWrites(e: Env, l: Backup, s: Secret) {
    && l.pvc.Some? && e.given.Some? && l.cr.spec.resticSecret != "" && e.given.value.data != map[]
    && s.owner == (if l.secret.Some? then l.secret.value.owner else l.cr.name)
    && (if e.given.value.provider in {"aws", "azure", "gcp"} then
          && "RESTIC_REPOSITORY" in s.data
          && PathFrom(s.data["RESTIC_REPOSITORY"], e.given.value.data, e.base, l.cr.spec.protectedNs, l.cr.spec.backupName,
                      l.cr.spec.vscName + "-pvc")
          && PolicyFrom(s.data, e.given.value.data)
          && CredentialsFrom(e.given.value.provider, s.data, e.given.value.data, e.held)
        else l.secret.None? && s.data == map[])
  }

  /** The source asks for what stands in the data: schedule, prune interval and retain policy, each under its own
      key; without a schedule it is triggered by the name of the backup. */
  predicate AsksFor(s: RepSource, name: string, data: map<string, string>) {
    && RetainAt(data, s.prune, s.retain)
    && s.trigger == if ReadsAs(data, "SnapshotScheduleCron", "") then Manual(name + "-trigger")
                    else Schedule(data["SnapshotScheduleCron"])
  }

  /** The source of `l` was built from its claim clone and from what pass `e` has read: the config map for the class
      of the source claim, and, for a known provider, the options in the user's secret. */
  predicate SourceFrom(e: Env, l: Backup)
    requires l.src.Some?
  {
    var s, ns := l.src.value, l.cr.spec.protectedNs;
    && l.pvc.Some? && e.sourcePvc.Some? && e.given.Some?
    && (var scName := e.sourcePvc.value.storageClass;
        && SourceSide(s.volume, scName, l.pvc.value.options.accessModes, ns, e.configs)
        && SetFrom(s.cache.storageClass, e.configs, ns, scName, "SourceCacheStorageClassName")
        && SetFrom(s.cache.accessMode, e.configs, ns, scName, "SourceCacheAccessMode")
        && SetFrom(s.cache.capacity, e.configs, ns, scName, "SourceCacheCapacity"))
    && (e.given.value.provider in {"aws", "azure", "gcp"} ==> AsksFor(s, l.cr.name, e.given.value.data))
  }

  /** A new source, of a claim clone that is bound, with the recorded class, for a secret whose repository is
      recorded. */
  predicate NewSourceWrites(e: Env, l: Backup, m: Backup)
    requires m.src.Some?
  {
    var s := m.src.value;
    && SourceFrom(e, m) && PathRecorded(e, m)
    && m.pvc.value.bound && AsksFor(s, l.cr.name, m.secret.value.data)
    && s.owner == l.cr.name && s.sourcePvc == l.cr.spec.vscName + "-pvc" && s.repository == l.cr.name + "-secret"
    && s.snapClass == m.cr.status.snapClass && (s.snapClass == "" ==> m.vsc.Some? && m.vsc.value.snapClass == "")
    && (s.customCA <==> !ReadsAs(m.secret.value.data, "RESTIC_CUSTOM_CA", ""))
    && s.status.None?
  }

  /** A source that is there only ever gains the custom CA. */
  predicate SourceWrites(e: Env, l: Backup, m: Backup)
    requires m.src.Some?
  {
    if l.src.None? then NewSourceWrites(e, l, m)
    else
      && m.src.value == l.src.value.(customCA := true)
      && m.secret.Some? && !ReadsAs(m.secret.value.data, "RESTIC_CUSTOM_CA", "")
  }

  predicate ObjectWrites(e: Env, l: Backup, m: Backup) {
    && (m.vsc != l.vsc && m.vsc.Some? ==> l.vsc.None? && ContentWrites(e, l, m.vsc.value))
    && (m.snap != l.snap && m.snap.Some? ==> l.snap.None? && SnapshotWrites(l, m.snap.value))
    && (m.pvc != l.pvc && m.pvc.Some? ==> l.pvc.None? && ClaimWrites(e, l, m.pvc.value))
    && (m.pod != l.pod && m.pod.Some? ==> l.pod.None? && PodWrites(l, m.pod.value))
    && (m.secret != l.secret && m.secret.Some? ==> SecretWrites(e, l, m.secret.value))
    && (m.src != l.src && m.src.Some? ==> SourceWrites(e, l, m))
  }

  /** Each write is for the custom resource or for one object, never for two. */
  predicate OneThing(l: Backup, m: Backup) {
    || m == l.(cr := m.cr, slots := m.slots) || m == l.(vsc := m.vsc, slots := m.slots)
    || m == l.(snap := m.snap, slots := m.slots) || m == l.(pvc := m.pvc, slots := m.slots)
    || m == l.(pod := m.pod, slots := m.slots) || m == l.(secret := m.secret, slots := m.slots)
    || m == l.(src := m.src, slots := m.slots)
  }

  ghost predicate Writes(e: Env, l: Backup, m: Backup) {
    && OneThing(l, m) && m.cr.spec == l.cr.spec && m.cr.name == l.cr.name
    && VerdictWrites(e, l, m) && SyncWrites(l, m) && RecordWrites(e, l, m) && ObjectWrites(e, l, m)
  }

  /** All writes of a trail. */
  ghost predicate Wrote(e: Env, l: Backup, trail: seq<Backup>)
    decreases |trail|
  {
    trail == [] || (Writes(e, l, trail[0]) && Wrote(e, trail[0], trail[1..]))
  }

  lemma WroteOne(e: Env, l: Backup, m: Backup)
    requires Writes(e, l, m)
    ensures Wrote(e, l, [m])
  {
    assert [m][1..] == [];
  }

  lemma WroteTwo(e: Env, l: Backup, m: Backup, n: Backup)
    requires Writes(e, l, m) && Writes(e, m, n)
    ensures Wrote(e, l, [m, n])
  {
    assert [m, n][1..] == [n];
    WroteOne(e, m, n);
  }

  /** Slots are not part of the cluster. */
  lemma SameWrite(e: Env, l: Backup, slots: int, m: Backup)
    requires Writes(e, l, m)
    ensures Writes(e, l.(slots := slots), m)
  {
    hide SyncFinished, Syncing, ReadsAs, RetainAt, SourceSide, SetFrom, PathFrom, PolicyFrom, CredentialsFrom;
  }

  lemma WroteSlots(e: Env, l: Backup, slots: int, trail: seq<Backup>)
    requires Wrote(e, l, trail)
    ensures Wrote(e, l.(slots := slots), trail)
  {
    hide Writes;
    if trail != [] {
      SameWrite(e, l, slots, trail[0]);
      assert Wrote(e, trail[0], trail[1..]);
    }
  }

  lemma {:induction false} WroteConcat(e: Env, l: Backup, t: seq<Backup>, m: Backup, u: seq<Backup>)
    requires Wrote(e, l, t) && Wrote(e, m, u) && m.(slots := 0) == Last(l, t).(slots := 0)
    ensures Wrote(e, l, t + u)
    decreases |t|
  {
    hide Writes;
    if t == [] {
      assert t + u == u;
      WroteSlots(e, m, l.slots, u);
    } else {
      WroteConcat(e, t[0], t[1..], m, u);
      assert (t + u)[1..] == t[1..] + u;
    }
  }

  /******* The steps *******/

  /** What the steps before step `i` have left behind. */
  predicate Prepared(i: nat, l: Backup, e: Env) {
    && Working(i, l)
    && (i >= 2 ==> l.cr.status.snapClass == "" ==> l.vsc.value.snapClass == "")
    && (i >= 6 ==> SourceRead(e, l.cr.status.source))
    && (i >= 8 ==> PathRecorded(e, l) && PolicyRead(e, l))
    && (i >= 9 ==> l.pvc.value.bound)
  }

  /** The options in the controller's secret are those of the user's, for a known provider. */
  predicate PolicyRead(e: Env, l: Backup) {
    e.given.Some? && l.secret.Some?
    && (e.given.value.provider in {"aws", "azure", "gcp"} ==> PolicyFrom(l.secret.value.data, e.given.value.data))
  }

  lemma ValidateContents(l: Backup, e: Env)
    requires Prepared(0, l, e)
    ensures var o := ValidateStep(l, e);
            Wrote(e, l, o.trail) && (o.flow == Continue ==> Prepared(1, o.l, e))
  {
    hide Path, Linked, Layered, Consistent;
    ValidateKeeps(l, e);
    var o := ValidateStep(l, e);
    if o.trail != [] {
      WroteOne(e, l, o.l);
    }
  }

  lemma ContentContents(l: Backup, e: Env)
    requires Prepared(1, l, e)
    ensures var o := MirrorContentStep(l, e);
            Wrote(e, l, o.trail) && (o.flow == Continue ==> Prepared(2, o.l, e))
  {
    hide Path, Linked, Layered, Consistent;
    MirrorContentKeeps(l, e);
    var o := MirrorContentStep(l, e);
    if |o.trail| == 1 {
      WroteOne(e, l, o.l);
    } else if |o.trail| == 2 {
      WroteTwo(e, l, o.trail[0], o.l);
    }
  }

  lemma SnapshotContents(l: Backup, e: Env)
    requires Prepared(3, l, e)
    ensures var o := MirrorSnapshotStep(l, e);
            Wrote(e, l, o.trail) && (o.flow == Continue ==> Prepared(4, o.l, e))
  {
    hide Path, Linked, Layered, Consistent;
    MirrorSnapshotKeeps(l, e);
    var o := MirrorSnapshotStep(l, e);
    if o.trail != [] {
      WroteOne(e, l, o.l);
    }
  }

  lemma NewClaimMeans(l: Backup, e: Env)
    requires Good(l) && l.vsc.Some? && e.sourcePvc.Some?
    ensures var c := NewClaim(l, e.sourcePvc.value, e);
            && ClaimFrom(e, l, c) && c.owner == l.cr.name && !c.bound
            && c.dataSource == l.cr.spec.vscName + "-clone" + "-volumesnapshot"
  {
    hide ClaimOptions, SourceSide;
    ClaimOptionsMean(e.sourcePvc.value, l.cr.spec.protectedNs, e.configs);
  }

  lemma SourceRecordContents(l: Backup, d: PvcData, e: Env)
    requires SourceRead(e, d)
    ensures Writes(e, l, Status(l, l.cr.status.(source := d)))
  {
  }

  lemma NewClaimContents(l: Backup, c: PvcClone, e: Env)
    requires l.pvc.None? && ClaimWrites(e, l, c)
    ensures Writes(e, l, l.(pvc := Some(c)))
  {
    hide ClaimWrites;
  }

  lemma ClaimContents(l: Backup, e: Env)
    requires Prepared(5, l, e)
    ensures var o := MirrorPvcStep(l, e);
            Wrote(e, l, o.trail) && (o.flow == Continue ==> Prepared(6, o.l, e))
  {
    hide Path, Linked, Layered, Consistent, NewClaim, SourceSide, Writes;
    MirrorPvcKeeps(l, e);
    var o := MirrorPvcStep(l, e);
    if o.trail != [] {
      var p := e.sourcePvc.value;
      SourceRecordContents(l, PvcData(p.name, p.request, p.storageClass), e);
      WroteOne(e, l, o.trail[0]);
      if |o.trail| == 2 {
        NewClaimMeans(l, e);
        NewClaimContents(o.trail[0], o.l.pvc.value, e);
        WroteTwo(e, l, o.trail[0], o.l);
      }
    }
  }

  lemma PodContents(l: Backup, e: Env)
    requires Prepared(6, l, e)
    ensures var o := BindPodStep(l, e);
            Wrote(e, l, o.trail) && (o.flow == Continue ==> Prepared(7, o.l, e))
  {
    hide Path, Linked, Layered, Consistent;
    BindPodKeeps(l, e);
    var o := BindPodStep(l, e);
    if o.trail != [] {
      WroteOne(e, l, o.l);
    }
  }

  /** The secret as the mutate callback leaves it. */
  lemma BuiltMeans(l: Backup, e: Env)
    requires e.given.Some? && !SecretFor(l, e).Malformed?
    ensures var built := BuiltSecret(l.secret, l.cr.name, SecretFor(l, e));
            var given := e.given.value;
            && given.data != map[]
            && built.owner == (if l.secret.Some? then l.secret.value.owner else l.cr.name)
            && (if given.provider in {"aws", "azure", "gcp"} then
                  && "RESTIC_REPOSITORY" in built.data
                  && PathFrom(built.data["RESTIC_REPOSITORY"], given.data, e.base, l.cr.spec.protectedNs,
                              l.cr.spec.backupName, l.cr.spec.vscName + "-pvc")
                  && PolicyFrom(built.data, given.data)
                  && CredentialsFrom(given.provider, built.data, given.data, e.held)
                else built.data == if l.secret.Some? then l.secret.value.data else map[])
  {
    hide PathFrom, PolicyFrom, CredentialsFrom, DeriveBackup, WellFormed;
    WellFormedMeans(e.given.value);
    BackupSecretMeans(e.given.value, e.held, e.base, l.cr.spec.protectedNs, l.cr.spec.backupName, PvcName(l.cr.spec.vscName));
  }

  lemma SecretContents(l: Backup, e: Env)
    requires Prepared(7, l, e)
    ensures var o := CreateSecretStep(l, e);
            Wrote(e, l, o.trail) && (o.flow == Continue ==> Prepared(8, o.l, e))
  {
    hide Path, Linked, Layered, Consistent, SecretFor, BuiltSecret, PathFrom, PolicyFrom, CredentialsFrom;
    CreateSecretKeeps(l, e);
    var o := CreateSecretStep(l, e);
    if o.trail != [] {
      BuiltMeans(l, e);
    }
    if |o.trail| == 1 {
      WroteOne(e, l, o.l);
    } else if |o.trail| == 2 {
      WroteTwo(e, l, o.trail[0], o.l);
    }
  }

  /** Options that a secret carries on are asked for by both. */
  lemma CarriedOn(s: RepSource, name: string, data: map<string, string>, given: map<string, string>)
    requires AsksFor(s, name, data) && PolicyFrom(data, given)
    ensures AsksFor(s, name, given)
  {
  }

  /** A source built from scratch. */
  lemma NewSourceMeans(l: Backup, e: Env)
    requires l.pvc.Some? && l.secret.Some? && OptionsIn(l.secret.value.data).Some?
    requires SourceRead(e, l.cr.status.source) && PolicyRead(e, l)
    ensures var s := NewSource(l, OptionsIn(l.secret.value.data).value, e);
            && AsksFor(s, l.cr.name, l.secret.value.data)
            && SourceFrom(e, l.(src := Some(s)))
            && s.owner == l.cr.name && s.sourcePvc == l.cr.spec.vscName + "-pvc" && s.repository == l.cr.name + "-secret"
            && s.snapClass == l.cr.status.snapClass && !s.customCA && s.status.None?
  {
    hide OptionsIn, MoverOptions, CacheFor, ConfigFor, RetainAt, PolicyFrom, SourceSide, SetFrom;
    var ns, scName, data := l.cr.spec.protectedNs, l.cr.status.source.storageClass, l.secret.value.data;
    OptionsMean(data);
    MoverOptionsMean(scName, l.pvc.value.options.accessModes, ns, e.configs);
    SourceCacheMeans(scName, ns, e.configs);
    var s := NewSource(l, OptionsIn(data).value, e);
    if e.given.value.provider in {"aws", "azure", "gcp"} {
      CarriedOn(s, l.cr.name, data, e.given.value.data);
    }
  }

  lemma SourceContents(l: Backup, e: Env)
    requires Prepared(9, l, e)
    ensures var o := CreateSourceStep(l, e);
            Wrote(e, l, o.trail) && (o.flow == Continue ==> Prepared(10, o.l, e))
  {
    hide Path, OptionsIn, NewSource, RetainAt, SourceSide, SetFrom, PathFrom, PolicyFrom, Linked, Consistent;
    CreateSourceKeeps(l, e);
    var o := CreateSourceStep(l, e);
    if o.trail != [] {
      if l.src.None? {
        NewSourceMeans(l, e);
      }
      WroteOne(e, l, o.l);
    }
  }

  lemma WaitContents(i: nat, l: Backup, e: Env)
    requires i in {2, 4, 8} && Prepared(i, l, e)
    ensures var o := Run(CREATION[i], l, e);
            Wrote(e, l, o.trail) && (o.flow == Continue ==> Prepared(i + 1, o.l, e))
  {
    hide Path, Good;
    WaitKeeps(i, l, e);
  }

  lemma StepContents(i: nat, l: Backup, e: Env)
    requires i < |CREATION| && Prepared(i, l, e)
    ensures var o := Run(CREATION[i], l, e);
            && Wrote(e, l, o.trail) && (o.flow == Continue ==> Prepared(i + 1, o.l, e))
  {
    hide Prepared, Wrote, ValidateStep, MirrorContentStep, MirrorSnapshotStep, MirrorPvcStep, BindPodStep, CreateSecretStep,
         CreateSourceStep;
    match CREATION[i]
    case Validate => ValidateContents(l, e);
    case MirrorContent => ContentContents(l, e);
    case MirrorSnapshot => SnapshotContents(l, e);
    case MirrorPvc => ClaimContents(l, e);
    case BindPod => PodContents(l, e);
    case CreateSecret => SecretContents(l, e);
    case CreateSource => SourceContents(l, e);
    case _ => WaitContents(i, l, e);
  }

  lemma PhaseContents(l: Backup, phase: Phase, e: Env)
    requires phase in {Cleanup, Completed}
    ensures Writes(e, l, Status(l, l.cr.status.(phase := phase)))
  {
  }

  lemma EraseContents(l: Backup, kind: Kind, e: Env)
    ensures Writes(e, l, Erase(l, kind))
  {
  }

  lemma {:induction false} DeleteContents(l: Backup, kinds: seq<Kind>, e: Env)
    ensures var o := DeleteAll(l, kinds, e);
            Wrote(e, l, o.trail) && o.l == Last(l, o.trail)
    decreases |kinds|
  {
    hide Writes;
    if kinds != [] && Delete(kinds[0]) !in e.faults {
      EraseContents(l, kinds[0], e);
      var l1 := Erase(l, kinds[0]);
      DeleteContents(l1, kinds[1..], e);
      var rest := DeleteAll(l1, kinds[1..], e);
      WroteOne(e, l, l1);
      WroteConcat(e, l, [l1], l1, rest.trail);
    }
  }

  lemma CleanContents(l: Backup, e: Env)
    ensures var o := CleanStep(l, e);
            Wrote(e, l, o.trail) && o.l == Last(l, o.trail)
  {
    hide Writes, DeleteAll;
    var o := CleanStep(l, e);
    if o.trail != [] {
      var l1 := Status(l, l.cr.status.(phase := Cleanup));
      PhaseContents(l, Cleanup, e);
      WroteOne(e, l, l1);
      DeleteContents(l1, CLEANUP_KINDS, e);
      var gone := DeleteAll(l1, CLEANUP_KINDS, e);
      WroteConcat(e, l, [l1], l1, gone.trail);
      if o.flow == Continue && !l.cr.deleting {
        PhaseContents(gone.l, Completed, e);
        WroteOne(e, gone.l, o.l);
        WroteConcat(e, l, [l1] + gone.trail, gone.l, [o.l]);
      }
    }
  }

  lemma {:induction false} BatchContents(i: nat, l: Backup, e: Env)
    requires i < |BATCH| && Prepared(i, l, e)
    ensures var o := RunBatch(BATCH[i..], l, e);
            Wrote(e, l, o.trail)
    decreases |BATCH| - i
  {
    hide Writes, CleanStep, ValidateStep, MirrorContentStep, MirrorPvcStep, CreateSecretStep, CreateSourceStep, Working, Path;
    var o := Run(BATCH[i], l, e);
    BatchSuffix(i);
    if i < |CREATION| {
      StepContents(i, l, e);
      if o.flow == Continue {
        BatchContents(i + 1, o.l, e);
        StepKeeps(i, l, e);
        PathLast(e, l, o.trail, o.l);
        WroteConcat(e, l, o.trail, o.l, RunBatch(BATCH[i + 1..], o.l, e).trail);
      }
    } else {
      CleanContents(l, e);
      assert o.trail + [] == o.trail;
    }
  }

  /******* The rest of a pass *******/

  lemma OutOfQueueContents(l: Backup, e: Env)
    requires Finishing(e, l)
    ensures Writes(e, l, Status(l, l.cr.status.(batching := BatchDone)))
  {
    hide SyncFinished;
  }

  lemma SyncDoneContents(l: Backup, s: RepSource, e: Env)
    requires Finishing(e, l) && l.src == Some(s) && l.cr.status.phase in {NoPhase, InProgress, Cleanup}
    ensures var m := WithPhase(l, Some(s), VolSyncDone, e.now);
            Writes(e, l, m.(slots := m.slots - 1))
  {
  }

  lemma DoneContents(l: Backup, s: RepSource, e: Env)
    requires Linked(l) && l.src == Some(s) && SourceFinished(s) && e.velero == Running
    requires l.cr.status.phase in {NoPhase, InProgress, Cleanup}
    ensures Wrote(e, l, DoneWork(l, s, e).trail)
  {
    hide SyncFinished, Writes, WithPhase;
    FinishedMeans(l);
    var o := DoneWork(l, s, e);
    if o.trail != [] {
      OutOfQueueContents(l, e);
      WroteOne(e, l, o.trail[0]);
      if |o.trail| == 2 {
        SyncDoneContents(o.trail[0], s, e);
        WroteTwo(e, l, o.trail[0], o.l);
      }
    }
  }

  lemma ProgressContents(l: Backup, s: RepSource, e: Env)
    requires Linked(l) && l.src == Some(s) && s.status.Some? && e.velero == Running
    requires l.cr.status.phase !in {Failed, PartiallyFailed, VolSyncDone}
    requires !SourceFinished(s) || l.cr.status.phase == Completed
    ensures Wrote(e, l, StatusFromSource(l, s, e).trail)
  {
    hide LastFalse, Syncing, Linked;
    var o := StatusFromSource(l, s, e);
    SyncErrorNeverSeen(s.status.value.conditions);
    if o.trail != [] {
      SyncingMeans(l);
      WroteOne(e, l, o.l);
    }
  }

  lemma StatusContents(l: Backup, e: Env)
    requires Good(l)
    ensures Wrote(e, l, StatusStep(l, e).trail)
  {
    hide Good, StatusFromSource, DoneWork;
    var o := StatusStep(l, e);
    assert Linked(l) by { GoodLinked(l); }
    if e.velero == Running {
      if l.src.Some? && l.src.value.status.Some? && l.cr.status.phase !in {Failed, PartiallyFailed, VolSyncDone} {
        FromSourceContents(l, l.src.value, e);
      }
    } else if o.trail != [] {
      WroteOne(e, l, o.l);
    }
  }

  lemma GoodLinked(l: Backup)
    requires Good(l)
    ensures Linked(l)
  {
  }

  lemma FromSourceContents(l: Backup, s: RepSource, e: Env)
    requires Linked(l) && l.src == Some(s) && s.status.Some? && e.velero == Running
    requires l.cr.status.phase !in {Failed, PartiallyFailed, VolSyncDone}
    ensures Wrote(e, l, StatusFromSource(l, s, e).trail)
  {
    hide Linked, Writes, DoneWork, SourceFinished;
    if SourceFinished(s) && l.cr.status.phase != Completed {
      DoneContents(l, s, e);
    } else {
      ProgressContents(l, s, e);
    }
  }

  lemma WorkContents(l: Backup, copy: Vsb, batch: int, e: Env)
    requires Working(0, l) && copy.rv <= l.cr.rv && (copy.rv == l.cr.rv ==> copy == l.cr)
    ensures Wrote(e, l, WorkBranch(l, copy, batch, e).trail)
  {
    hide StatusStep, Advance, RunBatch, Linked, Layered, Writes;
    assert BATCH[0..] == BATCH;
    BatchContents(0, l, e);
    var work := RunBatch(BATCH, l, e);
    BatchFromStart(l, e);
    PathLast(e, l, work.trail, work.l);
    PathEnds(e, l, work.trail, work.l);
    var cond := ConditionStep(work.l, copy, work.flow != Fail, e);
    ConditionKeeps(work.l, copy, work.flow != Fail, e);
    ConditionContents(work.l, copy, work.flow != Fail, e);
    PathEnds(e, work.l, cond.trail, cond.l);
    StatusContents(cond.l, e);
    WroteConcat(e, l, work.trail, work.l, cond.trail);
    LastConcat(l, work.trail, cond.trail);
    WroteConcat(e, l, work.trail + cond.trail, cond.l, StatusStep(cond.l, e).trail);
  }

  lemma ConditionContents(l: Backup, copy: Vsb, ok: bool, e: Env)
    requires copy.rv == l.cr.rv ==> copy == l.cr
    ensures var o := ConditionStep(l, copy, ok, e);
            Wrote(e, l, o.trail) && o.l == Last(l, o.trail)
  {
    var o := ConditionStep(l, copy, ok, e);
    if o.trail != [] {
      WroteOne(e, l, o.l);
    }
  }

  lemma LastConcat(l: Backup, t: seq<Backup>, u: seq<Backup>)
    ensures u != [] ==> Last(l, t + u) == Last(l, u)
    ensures u == [] ==> t + u == t
  {
  }

  lemma QueueContents(l: Backup, processing: int, batch: int, e: Env)
    ensures var q := QueueStep(l, processing, batch, e);
            Wrote(e, l, q.trail) && q.l == Last(l, q.trail)
  {
    var q := QueueStep(l, processing, batch, e);
    if q.trail != [] {
      WroteOne(e, l, q.l);
    }
  }

  lemma DeletionContents(l: Backup, copy: Vsb, batch: int, e: Env)
    ensures Wrote(e, l, DeletionBranch(l, copy, batch, e).trail)
  {
    hide CleanStep, Writes;
    var l1 := l.(slots := l.slots - Freed(copy));
    CleanContents(l1, e);
    WroteSlots(e, l1, l.slots, CleanStep(l1, e).trail);
    assert l1.(slots := l.slots) == l;
  }

  /** All writes of every pass, whichever calls fail. */
  lemma PassContents(l: Backup, processing: int, batch0: int, e: Env)
    requires Good(l)
    ensures Wrote(e, l, Pass(l, processing, batch0, e).trail)
  {
    hide WorkBranch, DeletionBranch, Advance, Linked, Layered, Writes;
    var batch := BatchSize(batch0, e.batch).0;
    if Admits(l, batch0, e) {
      var q := QueueStep(l, processing, batch, e);
      QueueKeeps(l, processing, batch, e);
      QueueContents(l, processing, batch, e);
      PathEnds(e, l, q.trail, q.l);
      if q.flow == Continue {
        if l.cr.deleting {
          DeletionContents(q.l, l.cr, batch, e);
          WroteConcat(e, l, q.trail, q.l, DeletionBranch(q.l, l.cr, batch, e).trail);
        } else {
          WorkContents(q.l, l.cr, batch, e);
          WroteConcat(e, l, q.trail, q.l, WorkBranch(q.l, l.cr, batch, e).trail);
        }
      }
    } else {
      FinalizerContents(l, e);
    }
  }

  lemma FinalizerContents(l: Backup, e: Env)
    ensures Wrote(e, l, [l.(cr := WithFinalizer(l.cr, true))])
  {
    WroteOne(e, l, l.(cr := WithFinalizer(l.cr, true)));
  }

  lemma {:induction false} WroteAt(e: Env, l: Backup, trail: seq<Backup>, k: nat)
    requires Wrote(e, l, trail) && k < |trail|
    ensures Writes(e, Last(l, trail[..k]), trail[k])
    decreases k
  {
    hide Writes;
    if k > 0 {
      WroteAt(e, trail[0], trail[1..], k - 1);
      assert Last(trail[0], trail[1..][..k - 1]) == Last(l, trail[..k]);
    }
  }

  /** What the k-th write of any pass writes: a verdict with its reason and its time, a record of what the pass has
      read, or one object made of what the pass has read and of what is there already. */
  lemma EveryWriteIsRight(l: Backup, processing: int, batch: int, e: Env, k: nat)
    requires Good(l) && k < |Pass(l, processing, batch, e).trail|
    ensures var trail := Pass(l, processing, batch, e).trail;
            Writes(e, Last(l, trail[..k]), trail[k])
  {
    hide Pass, Writes;
    PassContents(l, processing, batch, e);
    WroteAt(e, l, Pass(l, processing, batch, e).trail, k);
  }

  /******* From the start of a pass to its end *******/

  /** Nothing but the status and the custom CA of a source ever changes. */
  predicate SameSource(a: RepSource, b: RepSource) {
    b == a.(customCA := b.customCA, status := b.status)
  }

  /** A source at the end was there at the start, with the same claim, or was built on the way. */
  predicate KeptOrBuilt(e: Env, l: Backup, m: Backup) {
    m.src.Some? ==> (l.src.Some? && SameSource(l.src.value, m.src.value) && m.pvc == l.pvc) || SourceFrom(e, m)
  }

  lemma OneSource(e: Env, l: Backup, t: Backup, m: Backup)
    requires Good(l) && Good(t) && Advance(e, l, t) && Writes(e, l, t) && KeptOrBuilt(e, t, m)
    requires m.cr.spec == t.cr.spec && m.cr.name == t.cr.name
    ensures KeptOrBuilt(e, l, m)
  {
    hide Linked, Consistent, PhaseEdge, Moved, ClaimFrom, VerdictWrites, SyncWrites, RecordWrites, ContentWrites, SnapshotWrites,
         ClaimWrites, PodWrites, SecretWrites, PathRecorded, RetainAt, SourceSide, SetFrom;
  }

  lemma {:induction false} TrailSource(e: Env, l: Backup, trail: seq<Backup>, m: Backup)
    requires Good(l) && Path(e, l, trail, m) && Wrote(e, l, trail)
    ensures KeptOrBuilt(e, l, m)
    decreases |trail|
  {
    hide Good, Advance, Writes, SourceFrom;
    if trail != [] {
      TrailSource(e, trail[0], trail[1..], m);
      PathEnds(e, trail[0], trail[1..], m);
      OneSource(e, l, trail[0], m);
    }
  }

  /** One of the writes has left the repository recorded, as the backup's secret had it at that point. */
  predicate RecordedIn(e: Env, spec: BackupSpec, trail: seq<Backup>, repository: string) {
    exists i :: 0 <= i < |trail| && trail[i].cr.spec == spec && trail[i].cr.status.repository == repository
                && PathRecorded(e, trail[i])
  }

  /** Whoever changes the repository or builds a source records the repository on the way. */
  lemma {:induction false} TrailRepository(e: Env, l: Backup, trail: seq<Backup>, m: Backup)
    requires Path(e, l, trail, m) && Wrote(e, l, trail)
    ensures || RecordedIn(e, l.cr.spec, trail, m.cr.status.repository)
            || (m.cr.status.repository == l.cr.status.repository && (m.src.Some? ==> l.src.Some?))
    decreases |trail|
  {
    hide Good, Advance, PathRecorded, VerdictWrites, SyncWrites, SourceFrom, OneThing;
    if trail != [] {
      TrailRepository(e, trail[0], trail[1..], m);
      if RecordedIn(e, l.cr.spec, trail[1..], m.cr.status.repository) {
        var i :| 0 <= i < |trail| - 1 && trail[1..][i].cr.spec == l.cr.spec
                 && trail[1..][i].cr.status.repository == m.cr.status.repository
                 && PathRecorded(e, trail[1..][i]);
        assert trail[i + 1] == trail[1..][i];
      } else if PathRecorded(e, trail[0]) {
        assert trail[0].cr.status.repository == m.cr.status.repository;
      }
    }
  }

  /** The class of a live source is the recorded one, and the class of a clone is recorded unless it is empty. */
  predicate ClassKept(l: Backup) {
    && (l.vsc.Some? && l.cr.status.snapClass == "" ==> l.vsc.value.snapClass == "")
    && (l.src.Some? ==> l.src.value.snapClass == l.cr.status.snapClass)
  }

  lemma {:induction false} TrailClass(e: Env, l: Backup, trail: seq<Backup>, m: Backup)
    requires Good(l) && Path(e, l, trail, m) && Wrote(e, l, trail) && ClassKept(l)
    ensures ClassKept(m)
    decreases |trail|
  {
    hide Linked, Consistent, PhaseEdge, Moved, VerdictWrites, SyncWrites, SourceFrom, PathRecorded, SnapshotWrites, ClaimWrites,
         PodWrites, SecretWrites, AsksFor, ReadsAs;
    if trail != [] {
      TrailClass(e, trail[0], trail[1..], m);
    }
  }

  /** A clone that is new at the end of a trail is of the class of the original as the pass read it. */
  lemma {:induction false} TrailOriginal(e: Env, l: Backup, trail: seq<Backup>, m: Backup)
    requires Path(e, l, trail, m) && Wrote(e, l, trail)
    ensures m.vsc.Some? ==> m.vsc == l.vsc || (e.original.Some? && m.vsc.value.snapClass == e.original.value.snapClass)
    decreases |trail|
  {
    hide Good, PhaseEdge, Moved, VerdictWrites, SyncWrites, SourceWrites, PathRecorded, SnapshotWrites, ClaimWrites, PodWrites,
         SecretWrites;
    if trail != [] {
      TrailOriginal(e, trail[0], trail[1..], m);
    }
  }

  /** What a pass leaves of the source, the repository and the class. */
  lemma PassLeaves(l: Backup, processing: int, batch: int, e: Env)
    requires Good(l) && Pass(l, processing, batch, e).l.Some?
    ensures var o := Pass(l, processing, batch, e);
            var m := o.l.value;
            && KeptOrBuilt(e, l, m)
            && (|| RecordedIn(e, l.cr.spec, o.trail, m.cr.status.repository)
                || (m.cr.status.repository == l.cr.status.repository && (m.src.Some? ==> l.src.Some?)))
            && (ClassKept(l) ==> ClassKept(m))
            && (m.vsc.Some? ==> m.vsc == l.vsc || (e.original.Some? && m.vsc.value.snapClass == e.original.value.snapClass))
  {
    hide Pass, Good, Path, Wrote, KeptOrBuilt, RecordedIn, ClassKept;
    var o := Pass(l, processing, batch, e);
    var m := o.l.value;
    PassIsSafe(l, processing, batch, e);
    PassContents(l, processing, batch, e);
    TrailSource(e, l, o.trail, m);
    TrailRepository(e, l, o.trail, m);
    TrailOriginal(e, l, o.trail, m);
    if ClassKept(l) {
      TrailClass(e, l, o.trail, m);
    }
  }

  /** Whenever the secret step returns true for a known provider, whatever was in the secret before, the stored
      secret is the one made of the user's secret, and the backup has recorded the path that is in it. */
  lemma SecretStepRecords(l: Backup, e: Env)
    requires l.cr.status.phase != Completed && CreateSecretStep(l, e).flow == Continue
    ensures var m := CreateSecretStep(l, e).l;
            && PathRecorded(e, m)
            && (e.given.value.provider in {"aws", "azure", "gcp"} ==>
                  && "RESTIC_REPOSITORY" in m.secret.value.data
                  && m.cr.status.repository == m.secret.value.data["RESTIC_REPOSITORY"]
                  && PolicyFrom(m.secret.value.data, e.given.value.data)
                  && CredentialsFrom(e.given.value.provider, m.secret.value.data, e.given.value.data, e.held))
  {
    hide SecretFor, BuiltSecret, PathFrom, PolicyFrom, CredentialsFrom;
    BuiltMeans(l, e);
  }
}
