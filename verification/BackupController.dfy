/** The backup reconciler in the form of the source: an object whose methods read copies of named objects
    from the API server and write them back. Each method is proved to do to the request's backup what the
    record-level step says, and nothing to any other backup. */
module BackupController {
  import opened Prelude
  import opened Api
  import opened Options
  import opened Secrets
  import opened BackupModel
  import opened BackupSafety
  import opened BackupPass
  import opened BackupSlots
  import opened BackupRuns
  import opened BackupStore

  class Reconciler {
    var api: Store

    // The package variables.
    var processingVSBs: int
    var vsbBatchNumber: int

    // The request of the running pass.
    var req: Id

    // Auxiliary history, as in BackupRuns.System.
    ghost var retired: int
    ghost var uids: nat

    /** A controller that starts up beside an empty cluster. */
    constructor ()
      ensures Valid(api) && Abs() == INIT && Sound(Abs())
    {
      api := Store(map[], map[], map[], map[], map[], map[], map[], map[]);
      processingVSBs, vsbBatchNumber, req := 0, 0, Id("", "");
      retired, uids := 0, 0;
      new;
      assert Views(api) == map[];
      assert Sum(INIT.vsbs, (l: Backup) => l.slots) == 0;
    }

    ghost predicate Ready()
      reads this
    {
      Valid(api) && req in api.vsbs
    }

    /** The request's backup. */
    ghost function Mine(): Backup
      requires Ready()
      reads this
    {
      View(api, req)
    }

    /** The request's backup is now `l`; every other backup is what it was. */
    twostate predicate Did(l: Backup)
      reads this
    {
      old(Ready()) && req == old(req) && Becomes(old(api), req, api, l)
    }

    lemma MineIs()
      requires Ready()
      ensures var vsb := api.vsbs[req];
              && vsb == Mine().cr && vsb.name == req.name && Linked(Mine())
              && Mine().vsc == Find(api.contents, ContentKey(vsb.spec))
              && Mine().snap == Find(api.snapshots, SnapshotKey(vsb.spec))
              && Mine().pvc == Find(api.claims, ClaimKey(vsb.spec))
              && Mine().pod == Find(api.pods, PodKey(vsb.spec, req.name))
              && Mine().secret == Find(api.secrets, SecretKey(vsb.spec, req.name))
              && Mine().src == Find(api.sources, SourceKey(vsb.spec, req.name))
    {
      ValidLinked(api, req);
    }

    /******* The embedded client *******/

    /** Status().Update: refused when the copy is stale; on success the copy is refreshed. */
    method UpdateStatus(copy: Vsb) returns (ok: bool, stored: Vsb)
      requires Ready()
      modifies `api
      ensures ok <==> copy.rv == old(api.vsbs[req]).rv
      ensures Did(if ok then Status(old(Mine()), copy.status) else old(Mine()))
      ensures req in api.vsbs && stored == api.vsbs[req]
    {
      hide Valid, Becomes, View, WithStatus;
      MineIs();
      stored := api.vsbs[req];
      ok := copy.rv == stored.rv;
      if ok {
        WithStatusKeeps(stored, copy.status);
        ResourceWrite(api, req, WithStatus(stored, copy.status));
        api := api.(vsbs := api.vsbs[req := WithStatus(stored, copy.status)]);
        stored := api.vsbs[req];
      } else {
        BecomesSelf(api, req);
      }
    }

    method PutContent(o: VscClone)
      requires Ready() && Linked(Mine().(vsc := Some(o)))
      modifies `api
      ensures Did(old(Mine()).(vsc := Some(o)))
    {
      hide Valid, Becomes, View, Linked, DeleteAllOf;
      ContentWrite(api, req, o);
      api := api.(contents := api.contents[ContentKey(api.vsbs[req].spec) := o]);
    }

    method PutSnapshot(o: VsClone)
      requires Ready() && Linked(Mine().(snap := Some(o)))
      modifies `api
      ensures Did(old(Mine()).(snap := Some(o)))
    {
      hide Valid, Becomes, View, Linked, DeleteAllOf;
      SnapshotWrite(api, req, o);
      api := api.(snapshots := api.snapshots[SnapshotKey(api.vsbs[req].spec) := o]);
    }

    method PutClaim(o: PvcClone)
      requires Ready() && Linked(Mine().(pvc := Some(o)))
      modifies `api
      ensures Did(old(Mine()).(pvc := Some(o)))
    {
      hide Valid, Becomes, View, Linked, DeleteAllOf;
      ClaimWrite(api, req, o);
      api := api.(claims := api.claims[ClaimKey(api.vsbs[req].spec) := o]);
    }

    method PutPod(o: Pod)
      requires Ready() && Linked(Mine().(pod := Some(o)))
      modifies `api
      ensures Did(old(Mine()).(pod := Some(o)))
    {
      hide Valid, Becomes, View, Linked, DeleteAllOf;
      PodWrite(api, req, o);
      api := api.(pods := api.pods[PodKey(api.vsbs[req].spec, req.name) := o]);
    }

    method PutSecret(o: Secret)
      requires Ready() && Linked(Mine().(secret := Some(o)))
      modifies `api
      ensures Did(old(Mine()).(secret := Some(o)))
    {
      hide Valid, Becomes, View, Linked, DeleteAllOf;
      SecretWrite(api, req, o);
      api := api.(secrets := api.secrets[SecretKey(api.vsbs[req].spec, req.name) := o]);
    }

    method PutSource(o: RepSource)
      requires Ready() && Linked(Mine().(src := Some(o)))
      modifies `api
      ensures Did(old(Mine()).(src := Some(o)))
    {
      hide Valid, Becomes, View, Linked, DeleteAllOf;
      RepSourceWrite(api, req, o);
      api := api.(sources := api.sources[SourceKey(api.vsbs[req].spec, req.name) := o]);
    }

    method DeleteAllOfKind(kind: Kind, name: string, ns: string)
      requires Ready() && name == req.name && ns == api.vsbs[req].spec.protectedNs
      modifies `api
      ensures Did(Erase(old(Mine()), kind))
    {
      hide Valid, Becomes, View, Linked, DeleteAllOf;
      DeleteWrite(api, req, kind);
      api := DeleteAllOf(api, kind, name, ns);
    }

    /******* Batch steps *******/

    /** What a step's contract says: it did to this backup what the record-level step does. */
    twostate predicate Performs(o: Out, flow: Flow)
      reads this
    {
      Did(o.l) && flow == o.flow
    }

    method ValidateVolumeSnapshotMoverBackup(e: Env) returns (flow: Flow)
      requires Ready()
      modifies `api
      ensures Performs(ValidateStep(old(Mine()), e), flow)
    {
      hide Valid, Becomes;
      MineIs();
      BecomesSelf(api, req);
      var statusUpdateNeeded := false;
      if Get(Validate) in e.faults { return Fail; }
      var vsb := api.vsbs[req];
      if vsb.spec.vscName == "" { statusUpdateNeeded := true; }
      if vsb.spec.protectedNs == "" { statusUpdateNeeded := true; }
      if Lookup(Validate) in e.faults || e.original.None? { return Fail; }
      if ListSnapClasses in e.faults || !e.oneSnapClass { statusUpdateNeeded := true; }
      if ListStorageClasses in e.faults || !e.oneStorageClass { statusUpdateNeeded := true; }
      if statusUpdateNeeded {
        if FailWrite in e.faults { return Fail; }
        var ok, _ := UpdateStatus(vsb.(status := vsb.status.(phase := Failed, completion := Some(e.now))));
        return Fail;
      }
      if vsb.status.start.None? {
        if StartWrite in e.faults { return Fail; }
        var ok, _ := UpdateStatus(vsb.(status := vsb.status.(start := Some(e.now))));
      }
      return Continue;
    }

    /** Records the snapshot class on the backup, once. */
    method RecordSnapshotClass(vsb: Vsb, snapClass: string, e: Env) returns (flow: Flow)
      requires Ready() && vsb == api.vsbs[req]
      modifies `api
      ensures flow == if vsb.status.snapClass == "" && ClassWrite in e.faults then Fail else Continue
      ensures Did(if flow == Continue && vsb.status.snapClass == ""
                  then Status(old(Mine()), vsb.status.(snapClass := snapClass)) else old(Mine()))
    {
      hide Valid, Becomes, View, Linked, Status;
      BecomesSelf(api, req);
      if vsb.status.snapClass == "" {
        if ClassWrite in e.faults { return Fail; }
        var ok, _ := UpdateStatus(vsb.(status := vsb.status.(snapClass := snapClass)));
      }
      return Continue;
    }

    method MirrorVolumeSnapshotContent(e: Env) returns (flow: Flow)
      requires Ready()
      modifies `api
      ensures Performs(MirrorContentStep(old(Mine()), e), flow)
    {
      hide Valid, Becomes, View, Linked;
      MineIs();
      BecomesSelf(api, req);
      if Get(MirrorContent) in e.faults { return Fail; }
      var vsb := api.vsbs[req];
      if vsb.status.phase == Completed { return Continue; }
      if Lookup(MirrorContent) in e.faults || e.original.None? { return Fail; }
      var inCluster := e.original.value;
      if inCluster.status.None? || inCluster.status.value.ready == Some(false) { return Wait; }
      var found := ContentKey(vsb.spec) in api.contents;
      var clone := VscClone(vsb.name, vsb.spec.protectedNs, SnapshotName(CloneName(vsb.spec.vscName)),
                            inCluster.status.value.handle, inCluster.snapClass, false, 0);
      if found { clone := api.contents[ContentKey(vsb.spec)]; }
      flow := RecordSnapshotClass(vsb, clone.snapClass, e);
      if flow != Continue { return Fail; }
      if !found {
        if Put(ContentKind) in e.faults { return Fail; }
        ghost var mid := api;
        ghost var l1 := MirrorContentStep(old(Mine()), e).trail[0];
        BecomesView(old(api), req, api, l1);
        LinkedContent(old(Mine()), l1, clone);
        PutContent(clone);
        BecomesTwice(old(api), req, mid, l1, api, l1.(vsc := Some(clone)));
      }
      return Continue;
    }

    method WaitForClonedVolumeSnapshotContentToBeReady(e: Env) returns (flow: Flow)
      requires Ready()
      modifies `api
      ensures Performs(WaitForContentStep(old(Mine()), e), flow)
    {
      hide Valid, Becomes;
      MineIs();
      BecomesSelf(api, req);
      if Get(WaitForContent) in e.faults { return Fail; }
      var vsb := api.vsbs[req];
      if vsb.status.phase == Completed { return Continue; }
      if Lookup(WaitForContent) in e.faults || ContentKey(vsb.spec) !in api.contents { return Fail; }
      if api.contents[ContentKey(vsb.spec)].ready { return Continue; }
      return Continue;
    }

    method MirrorVolumeSnapshot(e: Env) returns (flow: Flow)
      requires Ready()
      modifies `api
      ensures Performs(MirrorSnapshotStep(old(Mine()), e), flow)
    {
      hide Valid, Becomes;
      MineIs();
      BecomesSelf(api, req);
      if Get(MirrorSnapshot) in e.faults { return Fail; }
      var vsb := api.vsbs[req];
      if vsb.status.phase == Completed { return Continue; }
      if Lookup(MirrorSnapshot) in e.faults || ContentKey(vsb.spec) !in api.contents { return Fail; }
      var clone := api.contents[ContentKey(vsb.spec)];
      if !clone.ready { return Wait; }
      if Id(vsb.spec.protectedNs, clone.refName) !in api.snapshots {
        if Put(SnapshotKind) in e.faults { return Fail; }
        PutSnapshot(VsClone(vsb.name, CloneName(vsb.spec.vscName), false));
      }
      return Continue;
    }

    method WaitForClonedVolumeSnapshotToBeReady(e: Env) returns (flow: Flow)
      requires Ready()
      modifies `api
      ensures Performs(WaitForSnapshotStep(old(Mine()), e), flow)
    {
      hide Valid, Becomes;
      MineIs();
      BecomesSelf(api, req);
      if Get(WaitForSnapshot) in e.faults { return Fail; }
      var vsb := api.vsbs[req];
      if vsb.status.phase == Completed { return Continue; }
      if Lookup(WaitForSnapshot) in e.faults || ContentKey(vsb.spec) !in api.contents { return Fail; }
      var clone := api.contents[ContentKey(vsb.spec)];
      if LookupSnapshot(WaitForSnapshot) in e.faults { return Wait; }
      if Id(vsb.spec.protectedNs, clone.refName) !in api.snapshots { return Wait; }
      return Continue;
    }

    method MirrorPVC(e: Env) returns (flow: Flow)
      requires Ready()
      modifies `api
      ensures Performs(MirrorPvcStep(old(Mine()), e), flow)
    {
      hide Valid, Becomes, View;
      MineIs();
      BecomesSelf(api, req);
      if Get(MirrorPvc) in e.faults { return Fail; }
      var vsb := api.vsbs[req];
      if vsb.status.phase == Completed { return Continue; }
      if Lookup(MirrorPvc) in e.faults || ContentKey(vsb.spec) !in api.contents { return Fail; }
      var clone := api.contents[ContentKey(vsb.spec)];
      var snapKey := Id(vsb.spec.protectedNs, clone.refName);
      if LookupSnapshot(MirrorPvc) in e.faults || snapKey !in api.snapshots { return Wait; }
      if !api.snapshots[snapKey].ready { return Wait; }
      var found := ClaimKey(vsb.spec) in api.claims;

      // buildPVCClone, with getSourcePVC writing what it has read to the backup's status
      if e.sourcePvc.None? || SourceWrite in e.faults { return Fail; }
      var source := e.sourcePvc.value;
      var ok, _ := UpdateStatus(vsb.(status := vsb.status.(source := PvcData(source.name, source.request, source.storageClass))));
      if ReadConfig in e.faults { return Fail; }
      var options, size := BuildPVCClone(source, clone.restoreSize, vsb.spec.protectedNs, e.configs);
      if !found {
        if Put(PvcKind) in e.faults { return Fail; }
        ghost var mid, l1 := api, MirrorPvcStep(old(Mine()), e).trail[0];
        BecomesView(old(api), req, api, l1);
        var claim := PvcClone(vsb.name, clone.refName, options, size, false);
        PutClaim(claim);
        BecomesTwice(old(api), req, mid, l1, api, l1.(pvc := Some(claim)));
      }
      return Continue;
    }

    method BindPVCToDummyPod(e: Env) returns (flow: Flow)
      requires Ready()
      modifies `api
      ensures Performs(BindPodStep(old(Mine()), e), flow)
    {
      hide Valid, Becomes;
      MineIs();
      BecomesSelf(api, req);
      if Get(BindPod) in e.faults { return Fail; }
      var vsb := api.vsbs[req];
      if vsb.status.phase == Completed { return Continue; }
      if Lookup(BindPod) in e.faults || ClaimKey(vsb.spec) !in api.claims { return Fail; }
      if PodKey(vsb.spec, vsb.name) !in api.pods {
        if Put(PodKind) in e.faults { return Fail; }
        PutPod(Pod(vsb.name, PvcName(vsb.spec.vscName)));
      }
      return Continue;
    }

    /** Creates the secret, or updates it if its content changes. */
    method ApplySecret(vsb: Vsb, derived: Derived, e: Env) returns (ok: bool, secret: Secret)
      requires Ready() && vsb == api.vsbs[req] && !derived.Malformed?
      modifies `api
      ensures secret == BuiltSecret(old(Mine()).secret, vsb.name, derived)
      ensures ok <==> old(Mine()).secret == Some(secret) || Put(SecretKind) !in e.faults
      ensures Did(if ok then old(Mine()).(secret := Some(secret)) else old(Mine()))
    {
      hide Valid, Becomes, View;
      MineIs();
      BecomesSelf(api, req);
      var key := SecretKey(vsb.spec, vsb.name);
      secret := Secret(vsb.name, map[]);
      if key in api.secrets { secret := api.secrets[key]; }
      if derived.Derived? { secret := secret.(data := derived.data); }
      if key !in api.secrets || api.secrets[key] != secret {
        if Put(SecretKind) in e.faults { return false, secret; }
        PutSecret(secret);
      }
      return true, secret;
    }

    method CreateVSBResticSecret(e: Env) returns (flow: Flow)
      requires Ready()
      modifies `api
      ensures Performs(CreateSecretStep(old(Mine()), e), flow)
    {
      hide Valid, Becomes, View, Linked, BuiltSecret, WithStatus;
      MineIs();
      BecomesSelf(api, req);
      if Get(CreateSecret) in e.faults { return Fail; }
      var vsb := api.vsbs[req];
      if vsb.status.phase == Completed { return Continue; }
      if Lookup(CreateSecret) in e.faults || ClaimKey(vsb.spec) !in api.claims { return Fail; }
      if vsb.spec.resticSecret == "" || e.given.None? { return Fail; }
      var derived := DeriveBackup(e.given.value, e.held, e.base, vsb.spec.protectedNs, vsb.spec.backupName,
                                  PvcName(vsb.spec.vscName));
      if derived.Malformed? { return Fail; }
      var ok, secret := ApplySecret(vsb, derived, e);
      if !ok { return Fail; }
      ghost var l1 := old(Mine()).(secret := Some(secret));
      BecomesView(old(api), req, api, l1);
      ghost var mid := api;
      if RepositoryWrite in e.faults { return Fail; }
      var status := vsb.status.(repository := Field(secret.data, "RESTIC_REPOSITORY"));
      ok, vsb := UpdateStatus(vsb.(status := status));
      BecomesTwice(old(api), req, mid, l1, api, Status(l1, status));
      return Continue;
    }

    method IsPVCBound(e: Env) returns (flow: Flow)
      requires Ready()
      modifies `api
      ensures Performs(IsPvcBoundStep(old(Mine()), e), flow)
    {
      hide Valid, Becomes;
      MineIs();
      BecomesSelf(api, req);
      if Get(IsPvcBound) in e.faults { return Fail; }
      var vsb := api.vsbs[req];
      if vsb.status.phase == Completed { return Continue; }
      if Lookup(IsPvcBound) in e.faults || ClaimKey(vsb.spec) !in api.claims { return Fail; }
      if !api.claims[ClaimKey(vsb.spec)].bound { return Wait; }
      return Continue;
    }

    method CreateReplicationSource(e: Env) returns (flow: Flow)
      requires Ready()
      modifies `api
      ensures Performs(CreateSourceStep(old(Mine()), e), flow)
    {
      hide Valid, Becomes, View, WithStatus, OptionsIn, MoverOptions;
      MineIs();
      BecomesSelf(api, req);
      if Get(CreateSource) in e.faults { return Fail; }
      var vsb := api.vsbs[req];
      if vsb.status.phase == Completed { return Continue; }
      if Lookup(CreateSource) in e.faults || ClaimKey(vsb.spec) !in api.claims { return Fail; }
      if vsb.status.source.name == "" { return Wait; }
      var secretKey := SecretKey(vsb.spec, vsb.name);
      if ReadOptions in e.faults || secretKey !in api.secrets { return Fail; }
      var data := api.secrets[secretKey].data;
      var options := ReadSourceOptions(data);
      if options.None? { return Fail; }
      var volume := ConfigureRepSourceVolOptions(
        vsb.status.source.storageClass, api.claims[ClaimKey(vsb.spec)].options.accessModes, vsb.spec.protectedNs, e.configs);
      var cache := ConfigureCache(ConfigFor(e.configs, vsb.spec.protectedNs, vsb.status.source.storageClass), "Source");
      var key := SourceKey(vsb.spec, vsb.name);
      var source: RepSource;
      if key in api.sources {
        source := api.sources[key];
      } else {
        var cron := options.value.cron;
        var trigger := if cron != "" then Schedule(cron) else Manual(TriggerName(vsb.name));
        source := RepSource(vsb.name, PvcName(vsb.spec.vscName), SecretName(vsb.name), trigger, vsb.status.snapClass,
                            volume, cache, options.value.prune, options.value.retain, false, None);
      }
      if Field(data, "RESTIC_CUSTOM_CA") != "" { source := source.(customCA := true); }
      if key !in api.sources || api.sources[key] != source {
        if Put(SourceKind) in e.faults { return Fail; }
        PutSource(source);
      }
      return Continue;
    }

    /** The loop over the kinds, each deleted by label. */
    method DeleteOwned(e: Env) returns (flow: Flow)
      requires Ready()
      modifies `api
      ensures Performs(DeleteAll(old(Mine()), CLEANUP_KINDS, e), flow)
    {
      hide Valid, Becomes, Erase, Linked, View;
      MineIs();
      BecomesSelf(api, req);
      ghost var l := Mine();
      var name, ns := req.name, api.vsbs[req].spec.protectedNs;
      assert CLEANUP_KINDS[0..] == CLEANUP_KINDS;
      for i := 0 to |CLEANUP_KINDS|
        invariant Did(l) && Ready() && l == Mine() && req == old(req) && api.vsbs[req] == l.cr == old(api.vsbs[req])
        invariant DeleteAll(old(Mine()), CLEANUP_KINDS, e).l == DeleteAll(l, CLEANUP_KINDS[i..], e).l
        invariant DeleteAll(old(Mine()), CLEANUP_KINDS, e).flow == DeleteAll(l, CLEANUP_KINDS[i..], e).flow
      {
        var kind := CLEANUP_KINDS[i];
        assert CLEANUP_KINDS[i..][0] == kind && CLEANUP_KINDS[i..][1..] == CLEANUP_KINDS[i + 1..];
        if Call.Delete(kind) in e.faults { return Fail; }
        ghost var mid := api;
        DeleteAllOfKind(kind, name, ns);
        BecomesTwice(old(api), req, mid, l, api, Erase(l, kind));
        BecomesView(old(api), req, api, Erase(l, kind));
        EraseCr(l, kind);
        l := Erase(l, kind);
      }
      return Continue;
    }

    /** The last write of cleanup, unless the backup is being deleted. */
    method MarkCompleted(vsb: Vsb, e: Env) returns (flow: Flow)
      requires Ready() && vsb == api.vsbs[req]
      modifies `api
      ensures flow == if !vsb.deleting && CompletedWrite in e.faults then Fail else Continue
      ensures Did(if flow == Continue && !vsb.deleting then Status(old(Mine()), vsb.status.(phase := Completed))
                  else old(Mine()))
    {
      hide Valid, Becomes, View, Status;
      BecomesSelf(api, req);
      if !vsb.deleting {
        if CompletedWrite in e.faults { return Fail; }
        var ok, _ := UpdateStatus(vsb.(status := vsb.status.(phase := Completed)));
      }
      return Continue;
    }

    method RunCleanup(vsb: Vsb, e: Env) returns (flow: Flow)
      requires Ready() && vsb == api.vsbs[req]
      modifies `api
      ensures Performs(CleanupWork(old(Mine()), e), flow)
    {
      hide Valid, Becomes, DeleteAll, Linked, View;
      MineIs();
      BecomesSelf(api, req);
      if CleanupWrite in e.faults { return Fail; }
      ghost var l1 := Status(Mine(), vsb.status.(phase := Cleanup));
      var ok, stored := UpdateStatus(vsb.(status := vsb.status.(phase := Cleanup)));
      BecomesView(old(api), req, api, l1);
      ghost var mid := api;
      flow := DeleteOwned(e);
      ghost var gone := DeleteAll(l1, CLEANUP_KINDS, e);
      BecomesTwice(old(api), req, mid, l1, api, gone.l);
      BecomesView(old(api), req, api, gone.l);
      DeleteAllAdmission(l1, CLEANUP_KINDS, e);
      if flow != Continue { return Fail; }
      mid := api;
      flow := MarkCompleted(stored, e);
      BecomesTwice(old(api), req, mid, gone.l, api, CleanupWork(old(Mine()), e).l);
    }

    method CleanBackupResources(e: Env) returns (flow: Flow)
      requires Ready()
      modifies `api
      ensures Performs(CleanStep(old(Mine()), e), flow)
    {
      hide Valid, Becomes, View, CleanupWork;
      MineIs();
      BecomesSelf(api, req);
      if Get(Clean) in e.faults { return Fail; }
      var vsb := api.vsbs[req];
      if vsb.status.phase != VolSyncDone && vsb.status.phase != Failed && vsb.status.phase != PartiallyFailed && !vsb.deleting {
        return Wait;
      }
      if vsb.status.phase == Completed { return Continue; }
      flow := RunCleanup(vsb, e);
    }

    /******* The batch *******/

    method RunStep(step: Step, e: Env) returns (flow: Flow)
      requires Ready()
      modifies `api
      ensures Performs(Run(step, old(Mine()), e), flow)
    {
      match step
      case Validate => flow := ValidateVolumeSnapshotMoverBackup(e);
      case MirrorContent => flow := MirrorVolumeSnapshotContent(e);
      case WaitForContent => flow := WaitForClonedVolumeSnapshotContentToBeReady(e);
      case MirrorSnapshot => flow := MirrorVolumeSnapshot(e);
      case WaitForSnapshot => flow := WaitForClonedVolumeSnapshotToBeReady(e);
      case MirrorPvc => flow := MirrorPVC(e);
      case BindPod => flow := BindPVCToDummyPod(e);
      case CreateSecret => flow := CreateVSBResticSecret(e);
      case IsPvcBound => flow := IsPVCBound(e);
      case CreateSource => flow := CreateReplicationSource(e);
      case Clean => flow := CleanBackupResources(e);
    }

    /** Steps through the list until one does not return true. */
    method ReconcileBatch(steps: seq<Step>, e: Env) returns (flow: Flow)
      requires Ready()
      modifies `api
      ensures Performs(RunBatch(steps, old(Mine()), e), flow)
    {
      hide Valid, Becomes, Run, View;
      BecomesSelf(api, req);
      ghost var l := Mine();
      assert steps[0..] == steps;
      for i := 0 to |steps|
        invariant Did(l) && Ready() && l == Mine() && req == old(req)
        invariant RunBatch(steps, old(Mine()), e).l == RunBatch(steps[i..], l, e).l
        invariant RunBatch(steps, old(Mine()), e).flow == RunBatch(steps[i..], l, e).flow
      {
        assert steps[i..][0] == steps[i] && steps[i..][1..] == steps[i + 1..];
        ghost var mid := api;
        ghost var next := Run(steps[i], l, e).l;
        flow := RunStep(steps[i], e);
        BecomesTwice(old(api), req, mid, l, api, next);
        if flow != Continue { return; }
        BecomesView(old(api), req, api, next);
        l := next;
      }
      return Continue;
    }

    /******* The queue *******/

    /** Auxiliary: the slots that this backup's passes have taken. */
    method CountSlot(n: int)
      requires Ready()
      modifies `api
      ensures Did(old(Mine()).(slots := n))
    {
      hide Valid, Becomes, View;
      SlotsWrite(api, req, n);
      api := api.(slots := api.slots[req := n]);
    }

    method UpdateVSBBatchingStatus(batching: Batching) returns (ok: bool)
      requires Ready()
      modifies `api
      ensures ok && Did(Status(old(Mine()), old(Mine()).cr.status.(batching := batching)))
    {
      hide Valid, Becomes, View, Status;
      MineIs();
      var vsb := api.vsbs[req];
      ok, vsb := UpdateStatus(vsb.(status := vsb.status.(batching := batching)));
    }

    /** Takes a slot: the status, the auxiliary history and the count. */
    method TakeSlot()
      requires Ready() && req in api.slots
      modifies `api, `processingVSBs
      ensures Did(Status(old(Mine()), old(Mine()).cr.status.(batching := Processing)).(slots := old(Mine()).slots + 1))
      ensures processingVSBs == old(processingVSBs) + 1
    {
      hide Valid, Becomes, View, WithStatus, Linked;
      MineIs();
      ghost var l1 := Status(Mine(), Mine().cr.status.(batching := Processing));
      var ok := UpdateVSBBatchingStatus(Processing);
      BecomesView(old(api), req, api, l1);
      ghost var mid := api;
      SlotsKnown(api, req);
      CountSlot(api.slots[req] + 1);
      BecomesTwice(old(api), req, mid, l1, api, l1.(slots := l1.slots + 1));
      processingVSBs := processingVSBs + 1;
    }

    /** Admission, judged on the copy read at the start of the pass. */
    method SetVSBQueue(vsb: Vsb, e: Env) returns (flow: Flow)
      requires Ready() && vsb == api.vsbs[req] && req in api.slots
      modifies `api, `processingVSBs
      ensures Performs(QueueStep(old(Mine()), old(processingVSBs), vsbBatchNumber, e), flow)
      ensures processingVSBs == old(processingVSBs)
              + QueueStep(old(Mine()), old(processingVSBs), vsbBatchNumber, e).l.slots - old(Mine()).slots
    {
      hide Valid, Becomes, View, WithStatus, Linked;
      MineIs();
      BecomesSelf(api, req);
      var batching := vsb.status.batching;
      if processingVSBs >= vsbBatchNumber && batching == NotBatched {
        if QueueWrite in e.faults { return Fail; }
        var ok := UpdateVSBBatchingStatus(Queued);
      } else if processingVSBs >= vsbBatchNumber && batching == Queued {
        return Wait;
      } else if processingVSBs < vsbBatchNumber && (batching == NotBatched || batching == Queued) {
        if QueueWrite in e.faults { return Fail; }
        TakeSlot();
      }
      return Continue;
    }

    /******* Status *******/

    method UpdateVSBStatusPhase(source: Option<RepSource>, phase: Phase, now: nat) returns (ok: bool)
      requires Ready() && (source.Some? ==> source.value.status.Some?)
      modifies `api
      ensures ok && Did(WithPhase(old(Mine()), source, phase, now))
    {
      hide Valid, Becomes, View, Status;
      MineIs();
      var vsb := api.vsbs[req];
      var status := vsb.status.(phase := phase, completion := Some(now));
      if source.Some? && source.value.status.value.lastSync.Some? {
        status := status.(sync := status.sync.(completion := source.value.status.value.lastSync));
      }
      ok, vsb := UpdateStatus(vsb.(status := status));
    }

    /** Reads the source again: its manual trigger echoed, or a scheduled sync done. */
    method IsRepSourceCompleted(e: Env) returns (done: bool, ok: bool)
      requires Ready() && Mine().src.Some? && Mine().src.value.status.Some?
      ensures ok <==> GetSourceAgain !in e.faults
      ensures ok ==> (done <==> SourceDone(Mine().src.value))
      ensures ok && Mine().src.value.trigger.Schedule? ==>
                (done <==> Mine().src.value.status.value.lastSync.Some? && Mine().src.value.status.value.nextSync.Some?)
      ensures ok && Mine().src.value.trigger.Manual? ==>
                (done <==> Mine().src.value.trigger.tag != ""
                           && Mine().src.value.status.value.lastManualSync == Mine().src.value.trigger.tag)
    {
      hide Valid, View;
      MineIs();
      if GetSourceAgain in e.faults { return false, false; }
      var s := api.sources[SourceKey(api.vsbs[req].spec, req.name)];
      var status := s.status.value;
      if status.lastManualSync != "" && s.trigger.Manual? && s.trigger.tag != "" {
        if status.lastManualSync == s.trigger.tag { return true, true; }
      }
      if s.trigger.Schedule? && status.nextSync.Some? && status.lastSync.Some? {
        return true, true;
      }
      return false, true;
    }

    /** The completion branch. */
    method MarkDone(s: RepSource, e: Env) returns (flow: Flow)
      requires Ready() && s.status.Some? && req in api.slots
      modifies `api, `processingVSBs
      ensures Performs(DoneWork(old(Mine()), s, e), flow)
      ensures processingVSBs == old(processingVSBs) + DoneWork(old(Mine()), s, e).l.slots - old(Mine()).slots
    {
      hide Valid, Becomes, View;
      MineIs();
      BecomesSelf(api, req);
      if DoneBatchingWrite in e.faults { return Fail; }
      ghost var l1 := Status(Mine(), Mine().cr.status.(batching := BatchDone));
      var ok := UpdateVSBBatchingStatus(BatchDone);
      BecomesView(old(api), req, api, l1);
      if DonePhaseWrite in e.faults { return Fail; }
      ghost var l2 := WithPhase(l1, Some(s), VolSyncDone, e.now);
      ghost var mid := api;
      ok := UpdateVSBStatusPhase(Some(s), VolSyncDone, e.now);
      BecomesTwice(old(api), req, mid, l1, api, l2);
      BecomesView(old(api), req, api, l2);
      mid := api;
      SlotsKnown(api, req);
      CountSlot(api.slots[req] - 1);
      BecomesTwice(old(api), req, mid, l2, api, l2.(slots := l2.slots - 1));
      processingVSBs := processingVSBs - 1;
      return Wait;
    }

    /** The write of a status that is not a completion. */
    method SetProgress(copy: Vsb, e: Env) returns (flow: Flow)
      requires Ready() && copy.rv == api.vsbs[req].rv
      modifies `api
      ensures flow == if ProgressWrite in e.faults then Fail else Wait
      ensures Did(if flow == Fail then old(Mine()) else Status(old(Mine()), copy.status))
    {
      hide Valid, Becomes, View, Status;
      BecomesSelf(api, req);
      if ProgressWrite in e.faults { return Fail; }
      var ok, _ := UpdateStatus(copy);
      return Wait;
    }

    method SetStatusFromRepSource(vsb: Vsb, s: RepSource, e: Env) returns (flow: Flow)
      requires Ready() && vsb == api.vsbs[req] && Mine().src == Some(s) && s.status.Some? && req in api.slots
      modifies `api, `processingVSBs
      ensures Performs(StatusFromSource(old(Mine()), s, e), flow)
      ensures processingVSBs == old(processingVSBs) + StatusFromSource(old(Mine()), s, e).l.slots - old(Mine()).slots
    {
      hide Valid, Becomes, View, DoneWork, Linked, LastSync, LastFalse, WithStatus, StatusFromSource;
      MineIs();
      BecomesSelf(api, req);
      StatusCases(Mine(), s, e);
      var status := vsb.status;
      if status.sync.name == "" {
        status := status.(sync := status.sync.(name := SourceName(vsb.name)));
      }
      var done, read := IsRepSourceCompleted(e);
      if !read { return Fail; }
      var completed, progress := ScanConditions(s.status.value.conditions);
      if (s.trigger.Manual? && s.trigger.tag != "" && done && completed.synchronizing && vsb.status.phase != Completed)
         || (s.trigger.Schedule? && done && vsb.status.phase != Completed) {
        assert SourceFinished(s);
        flow := MarkDone(s, e);
      } else if !done && progress.status == True {
        status := status.(phase := InProgress, sync := status.sync.(start := s.status.value.lastSyncStart));
        flow := SetProgress(vsb.(status := status), e);
      } else if progress.reason == SyncError {
        status := status.(phase := Failed, completion := Some(e.now));
        flow := SetProgress(vsb.(status := status), e);
      } else {
        return Wait;
      }
    }

    method SetVSBStatus(e: Env) returns (flow: Flow)
      requires Ready() && req in api.slots
      modifies `api, `processingVSBs
      ensures Performs(StatusStep(old(Mine()), e), flow)
      ensures processingVSBs == old(processingVSBs) + StatusStep(old(Mine()), e).l.slots - old(Mine()).slots
    {
      hide Valid, Becomes, View, StatusFromSource;
      MineIs();
      BecomesSelf(api, req);
      if GetStatus in e.faults { return Fail; }
      var vsb := api.vsbs[req];
      if GetVeleroBackup in e.faults || e.velero == Missing { return Fail; }
      if e.velero == Broken {
        if PartialWrite in e.faults { return Fail; }
        var ok, _ := UpdateStatus(vsb.(status := vsb.status.(phase := PartiallyFailed, completion := Some(e.now))));
        return Fail;
      }
      if vsb.status.phase == Failed || vsb.status.phase == PartiallyFailed { return Fail; }
      var key := SourceKey(vsb.spec, vsb.name);
      if GetSource in e.faults { return Fail; }
      if key !in api.sources { return Wait; }
      var s := api.sources[key];
      if s.status.None? { return Wait; }
      if vsb.status.phase == VolSyncDone { return Continue; }
      flow := SetStatusFromRepSource(vsb, s, e);
    }

    /******* A whole pass *******/

    ghost function Abs(): System
      reads this
    {
      System(Views(api), processingVSBs, vsbBatchNumber, retired, uids)
    }

    /** What the contract of a pass, or of its rest, says: it has done what the record-level pass does. */
    twostate predicate Finishes(o: PassOut, result: Result)
      reads this
    {
      && old(Ready()) && Valid(api) && result == o.result && vsbBatchNumber == o.batch && uids == old(uids)
      && Views(api) == (if o.l.Some? then old(Views(api))[old(req) := o.l.value] else old(Views(api)) - {old(req)})
      && processingVSBs == old(processingVSBs) + o.slots - old(Mine()).slots
      && retired == old(retired) + (if o.l.Some? then 0 else o.slots)
    }

    /** The last status write: the copy read at the start of the pass, with its condition set. */
    method SetCondition(copy: Vsb, ok: bool, e: Env)
      requires Ready()
      modifies `api
      ensures Did(ConditionStep(old(Mine()), copy, ok, e).l)
    {
      hide Valid, Becomes, View, Status;
      MineIs();
      BecomesSelf(api, req);
      if ConditionWrite !in e.faults {
        var done, _ := UpdateStatus(copy.(status := copy.status.(reconciled := Some(ok))));
      }
    }

    method ReconcileLive(copy: Vsb, e: Env) returns (result: Result)
      requires Ready()
      modifies `api, `processingVSBs
      ensures Finishes(WorkBranch(old(Mine()), copy, vsbBatchNumber, e), result)
    {
      hide Valid, View, RunBatch, StatusStep, ConditionStep;
      ghost var l := Mine();
      var flow := ReconcileBatch(BATCH, e);
      ghost var work := RunBatch(BATCH, l, e);
      BatchAdmission(BATCH, l, e);
      BecomesView(old(api), req, api, work.l);
      ghost var mid := api;
      SetCondition(copy, flow != Fail, e);
      ghost var cond := ConditionStep(work.l, copy, flow != Fail, e);
      ConditionSlots(work.l, copy, flow != Fail, e);
      BecomesTwice(old(api), req, mid, work.l, api, cond.l);
      BecomesView(old(api), req, api, cond.l);
      mid := api;
      SlotsKnown(api, req);
      var status := SetVSBStatus(e);
      BecomesTwice(old(api), req, mid, cond.l, api, StatusStep(cond.l, e).l);
      if status != Continue {
        return if status == Fail then Retry else Requeue;
      }
      return if flow != Continue then Requeue else Quiet;
    }

    /** The write of a copy without the finalizer, after which the object is gone. */
    method RemoveFinalizerFrom(copy: Vsb, e: Env) returns (removed: bool)
      requires Ready() && (copy.rv == api.vsbs[req].rv ==> OwnsNothing(Mine()))
      modifies `api, `retired
      ensures removed <==> Call.RemoveFinalizer !in e.faults && copy.rv == old(api.vsbs[req]).rv
      ensures if removed then Valid(api) && Views(api) == old(Views(api)) - {req} && retired == old(retired) + old(Mine()).slots
              else api == old(api) && retired == old(retired)
    {
      hide Valid, View, Views;
      if Call.RemoveFinalizer in e.faults || copy.rv != api.vsbs[req].rv { return false; }
      RemoveWrite(api, req);
      retired := retired + Mine().slots;
      api := Without(api, req);
      return true;
    }

    method ReconcileDeleted(copy: Vsb, e: Env) returns (result: Result)
      requires Ready() && Good(Mine()) && Mine().cr.deleting && req in api.slots
      modifies `api, `processingVSBs, `retired
      ensures Finishes(DeletionBranch(old(Mine()), copy, vsbBatchNumber, e), result)
    {
      hide Valid, View, CleanStep, Good, OwnsNothing;
      ghost var l := Mine();
      ghost var l1 := l.(slots := l.slots - Freed(copy));
      SlotsKnown(api, req);
      if copy.status.batching != NotBatched && copy.status.batching != BatchDone {
        processingVSBs := processingVSBs - 1;
        CountSlot(api.slots[req] - 1);
      } else {
        BecomesSelf(api, req);
      }
      BecomesView(old(api), req, api, l1);
      ghost var mid := api;
      var flow := CleanBackupResources(e);
      ghost var c := CleanStep(l1, e);
      CleanupOutcome(l, l1.slots, e);
      BecomesTwice(old(api), req, mid, l1, api, c.l);
      BecomesView(old(api), req, api, c.l);
      if flow == Fail { return Retry; }
      var removed := RemoveFinalizerFrom(copy, e);
      return if removed then Quiet else Retry;
    }

    /** The pass once the backup is known to be admitted to the queue. */
    method ReconcileAdmitted(vsb: Vsb, e: Env) returns (result: Result)
      requires Ready() && vsb == api.vsbs[req] && Good(Mine()) && vsb.finalizer && req in api.slots
      modifies `api, `processingVSBs, `retired
      ensures Finishes(Admitted(old(Mine()), old(processingVSBs), vsbBatchNumber, e), result)
    {
      hide Valid, View, QueueStep, DeletionBranch, WorkBranch, Good;
      MineIs();
      ghost var l := Mine();
      ghost var q := QueueStep(l, processingVSBs, vsbBatchNumber, e);
      QueueOutcome(l, processingVSBs, vsbBatchNumber, e);
      var flow := SetVSBQueue(vsb, e);
      BecomesView(old(api), req, api, q.l);
      if flow == Fail { return Retry; }
      if flow == Wait { return Requeue; }
      SlotsKnown(api, req);
      if vsb.deleting {
        result := ReconcileDeleted(vsb, e);
      } else {
        result := ReconcileLive(vsb, e);
      }
    }

    /** The pass over a backup that exists. */
    method ReconcileFound(e: Env) returns (result: Result)
      requires Ready() && Good(Mine()) && Fetch !in e.faults
      modifies `api, `processingVSBs, `vsbBatchNumber, `retired
      ensures Finishes(Pass(old(Mine()), old(processingVSBs), old(vsbBatchNumber), e), result)
    {
      hide Valid, View, Good, Admitted;
      MineIs();
      BecomesSelf(api, req);
      var vsb := api.vsbs[req];
      if vsbBatchNumber == 0 {
        match e.batch {
          case Unreadable => return Retry;
          case Value(n) => vsbBatchNumber := n;
          case BadValue(n) => vsbBatchNumber := n; return Retry;
        }
      }
      if (vsb.status.phase == Completed || vsb.status.phase == Failed || vsb.status.phase == PartiallyFailed) && !vsb.deleting {
        return Quiet;
      }
      if !vsb.finalizer {
        if Call.AddFinalizer in e.faults { return Retry; }
        ResourceWrite(api, req, WithFinalizer(vsb, true));
        api := api.(vsbs := api.vsbs[req := WithFinalizer(vsb, true)]);
        return Requeue;
      }
      SlotsKnown(api, req);
      result := ReconcileAdmitted(vsb, e);
    }

    /** One pass. The request is stored for the methods that read the backup again. */
    method Reconcile(request: Id, e: Env) returns (result: Result)
      requires Valid(api) && Sound(Abs())
      modifies this
      ensures Valid(api) && Sound(Abs()) && Abs() == Next(old(Abs()), Event.Reconcile(request, e))
      ensures result == if request in old(api.vsbs)
                        then Pass(old(Views(api))[request], old(processingVSBs), old(vsbBatchNumber), e).result
                        else if Fetch in e.faults then Retry else Quiet
    {
      hide Valid, View, Sound, Good, Admitted;
      ghost var before := Abs();
      NextSound(before, Event.Reconcile(request, e));
      req := request;
      if Fetch in e.faults { return Retry; }
      if request !in api.vsbs { return Quiet; }
      SoundGood(before, request);
      assert before.vsbs[request] == Mine();
      result := ReconcileFound(e);
    }
  }

  lemma ConditionSlots(l: Backup, copy: Vsb, ok: bool, e: Env)
    ensures ConditionStep(l, copy, ok, e).l.slots == l.slots
  {
  }

  lemma CleanupOutcome(l: Backup, slots: int, e: Env)
    requires Good(l) && l.cr.deleting
    ensures var c := CleanStep(l.(slots := slots), e);
            c.flow != Wait && c.l.slots == slots && (c.flow == Continue ==> OwnsNothing(c.l))
  {
    CleanKeeps(l.(slots := slots), e);
  }

  lemma SoundGood(s: System, id: Id)
    requires Sound(s) && id in s.vsbs
    ensures Good(s.vsbs[id])
  {
  }

  lemma QueueOutcome(l: Backup, processing: int, batch: int, e: Env)
    requires Good(l) && l.cr.finalizer
    ensures var q := QueueStep(l, processing, batch, e);
            Good(q.l) && q.l.cr.deleting == l.cr.deleting && q.l.cr.finalizer
  {
  }

  lemma WithStatusKeeps(stored: Vsb, status: BackupStatus)
    ensures var cr := WithStatus(stored, status);
            cr == stored.(status := status, rv := cr.rv)
  {
  }

  lemma SlotsKnown(s: Store, id: Id)
    requires Valid(s) && id in s.vsbs
    ensures id in s.slots && s.slots[id] == View(s, id).slots
  {
    hide NoStrays, Linked;
  }

  /** The cases of the status step, told apart as the source tells them apart. */
  lemma StatusCases(l: Backup, s: RepSource, e: Env)
    requires s.status.Some?
    ensures var st := l.cr.status;
            var named := if st.sync.name == "" then st.(sync := st.sync.(name := SourceName(l.cr.name))) else st;
            var progress := LastSync(s.status.value.conditions);
            var o := StatusFromSource(l, s, e);
            if GetSourceAgain in e.faults then o == Stay(l, Fail)
            else if SourceFinished(s) && st.phase != Completed then o == DoneWork(l, s, e)
            else
              var next := if !SourceDone(s) && progress.status == True
                          then Some(named.(phase := InProgress, sync := named.sync.(start := s.status.value.lastSyncStart)))
                          else if progress.reason == SyncError then Some(named.(phase := Failed, completion := Some(e.now)))
                          else None;
              && o.l.slots == l.slots
              && o.flow == (if next.Some? && ProgressWrite in e.faults then Fail else Wait)
              && o.l == (if next.Some? && o.flow == Wait then Status(l, next.value) else l)
  {
    hide DoneWork;
  }

  lemma LinkedContent(l: Backup, l1: Backup, c: VscClone)
    requires Linked(l) && l1 == l.(cr := l1.cr) && l1.cr.name == l.cr.name && l1.cr.spec == l.cr.spec
    requires c.owner == l.cr.name && c.refNs == l.cr.spec.protectedNs
    requires c.refName == SnapshotName(CloneName(l.cr.spec.vscName))
    ensures Linked(l1.(vsc := Some(c)))
  {
  }

  lemma EraseCr(l: Backup, kind: Kind)
    ensures Erase(l, kind).cr == l.cr
  {
  }
}
