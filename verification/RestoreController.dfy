/** The restore reconciler in the form of the source, proved to do to the request's restore what the
    record-level pass says, and nothing to any other restore. */
module RestoreController {
  import opened Prelude
  import opened Api
  import opened Options
  import opened Secrets
  import opened RestoreModel
  import opened RestoreSafety
  import opened RestoreRuns
  import opened RestoreStore

  class Reconciler {
    var api: Store

    // The package variables.
    var processingVSRs: int
    var vsrBatchNumber: int

    // The request of the running pass.
    var req: Id

    // Auxiliary history, as in RestoreRuns.System.
    ghost var retired: int
    ghost var uids: nat

    /** A controller that starts up beside an empty cluster. */
    constructor ()
      ensures Valid(api) && Abs() == INIT && Sound(Abs())
    {
      api := Store(map[], map[], map[], map[]);
      processingVSRs, vsrBatchNumber, req := 0, 0, Id("", "");
      retired, uids := 0, 0;
      new;
      assert Views(api) == map[];
      assert Sum(INIT.vsrs, (l: Restore) => l.slots) == 0;
    }

    ghost predicate Ready()
      reads this
    {
      Valid(api) && req in api.vsrs
    }

    /** The request's restore. */
    ghost function Mine(): Restore
      requires Ready()
      reads this
    {
      View(api, req)
    }

    /** The request's restore is now `l`; every other restore is what it was. */
    twostate predicate Did(l: Restore)
      reads this
    {
      old(Ready()) && req == old(req) && Becomes(old(api), req, api, l)
    }

    lemma MineIs()
      requires Ready()
      ensures var vsr := api.vsrs[req];
              && vsr == Mine().cr && vsr.name == req.name && Linked(Mine())
              && Mine().secret == Find(api.secrets, SecretKey(vsr.spec, req.name))
              && Mine().dest == Find(api.dests, DestKey(vsr.spec, req.name))
              && req in api.slots && api.slots[req] == Mine().slots
    {
      hide Valid;
      ValidParts(api, req);
    }

    /******* The embedded client *******/

    /** Status().Update: refused when the copy is stale. */
    method UpdateStatus(copy: Vsr) returns (ok: bool)
      requires Ready()
      modifies `api
      ensures ok <==> copy.rv == old(api.vsrs[req]).rv
      ensures Did(if ok then Status(old(Mine()), copy.status) else old(Mine()))
      ensures req in api.vsrs
    {
      hide Valid, Becomes, View, WithStatus;
      MineIs();
      var stored := api.vsrs[req];
      ok := copy.rv == stored.rv;
      if ok {
        WithStatusKeeps(stored, copy.status);
        ResourceWrite(api, req, WithStatus(stored, copy.status));
        api := api.(vsrs := api.vsrs[req := WithStatus(stored, copy.status)]);
      } else {
        BecomesSelf(api, req);
      }
    }

    method PutSecret(o: Secret)
      requires Ready() && Linked(Mine().(secret := Some(o)))
      modifies `api
      ensures Did(old(Mine()).(secret := Some(o)))
    {
      hide Valid, Becomes, View, Linked;
      SecretWrite(api, req, o);
      api := api.(secrets := api.secrets[SecretKey(api.vsrs[req].spec, req.name) := o]);
    }

    method PutDest(o: RepDest)
      requires Ready() && Linked(Mine().(dest := Some(o)))
      modifies `api
      ensures Did(old(Mine()).(dest := Some(o)))
    {
      hide Valid, Becomes, View, Linked;
      DestWrite(api, req, o);
      api := api.(dests := api.dests[DestKey(api.vsrs[req].spec, req.name) := o]);
    }

    method DeleteAllOfKind(kind: Kind, name: string, ns: string)
      requires Ready() && name == req.name && ns == api.vsrs[req].spec.protectedNs
      modifies `api
      ensures Did(Erase(old(Mine()), kind))
    {
      hide Valid, Becomes, View, Linked, DeleteAllOf;
      DeleteWrite(api, req, kind);
      api := DeleteAllOf(api, kind, name, ns);
    }

    /******* Batch steps *******/

    /** What a step's contract says: it did to this restore what the record-level step does. */
    twostate predicate Performs(o: Out, flow: Flow)
      reads this
    {
      Did(o.l) && flow == o.flow
    }

    /** The write that marks the restore failed. */
    method SetFailed(e: Env) returns (flow: Flow)
      requires Ready()
      modifies `api
      ensures Performs(MarkFailed(old(Mine()), e), flow)
    {
      hide Valid, Becomes, View;
      MineIs();
      BecomesSelf(api, req);
      if FailWrite in e.faults { return Fail; }
      var vsr := api.vsrs[req];
      var ok := UpdateStatus(vsr.(status := vsr.status.(phase := Failed, completion := Some(e.now))));
      return Fail;
    }

    method ValidateVolumeSnapshotMoverRestore(e: Env) returns (flow: Flow)
      requires Ready()
      modifies `api
      ensures Performs(ValidateStep(old(Mine()), e), flow)
    {
      hide Valid, Becomes, View, MarkFailed;
      MineIs();
      BecomesSelf(api, req);
      var statusUpdateNeeded := false;
      if Get(Validate) in e.faults { return Fail; }
      var vsr := api.vsrs[req];
      if vsr.spec.resticSecret == "" { statusUpdateNeeded := true; }
      if vsr.spec.repository == "" { statusUpdateNeeded := true; }
      if vsr.spec.pvcName == "" { statusUpdateNeeded := true; }
      if vsr.spec.pvcSize == "" { statusUpdateNeeded := true; }
      if vsr.spec.protectedNs == "" { statusUpdateNeeded := true; }
      if ListSnapClasses in e.faults || !e.oneSnapClass { statusUpdateNeeded := true; }
      if ListStorageClasses in e.faults || !e.oneStorageClass { statusUpdateNeeded := true; }
      if statusUpdateNeeded {
        flow := SetFailed(e);
        return;
      }
      if vsr.status.start.None? {
        if StartWrite in e.faults { return Fail; }
        var ok := UpdateStatus(vsr.(status := vsr.status.(start := Some(e.now))));
      }
      return Continue;
    }

    method CreateVSRResticSecret(e: Env) returns (flow: Flow)
      requires Ready()
      modifies `api
      ensures Performs(CreateSecretStep(old(Mine()), e), flow)
    {
      hide Valid, Becomes, View, MarkFailed;
      MineIs();
      BecomesSelf(api, req);
      if Get(CreateSecret) in e.faults { return Fail; }
      var vsr := api.vsrs[req];
      if vsr.spec.resticSecret == "" {
        flow := SetFailed(e);
        return;
      }
      if Lookup(CreateSecret) in e.faults || e.given.None? { return Fail; }
      var derived := DeriveRestore(e.given.value, e.held, vsr.spec.repository);
      if derived.Malformed? { return Fail; }
      var key := SecretKey(vsr.spec, vsr.name);
      var secret := Secret(vsr.name, map[]);
      if key in api.secrets { secret := api.secrets[key]; }
      if derived.Derived? { secret := secret.(data := derived.data); }
      if key !in api.secrets || api.secrets[key] != secret {
        if Put(SecretKind) in e.faults { return Fail; }
        PutSecret(secret);
      }
      return Continue;
    }

    method CreateReplicationDestination(e: Env) returns (flow: Flow)
      requires Ready()
      modifies `api
      ensures Performs(CreateDestStep(old(Mine()), e), flow)
    {
      hide Valid, Becomes, View;
      MineIs();
      BecomesSelf(api, req);
      if Get(CreateDest) in e.faults || Lookup(CreateDest) in e.faults { return Fail; }
      var vsr := api.vsrs[req];
      var secretKey := SecretKey(vsr.spec, vsr.name);
      if secretKey !in api.secrets { return Wait; }
      if ReadOptions in e.faults { return Fail; }
      var key := DestKey(vsr.spec, vsr.name);
      var volume := ConfigureRepDestVolOptions(vsr.spec.storageClass, vsr.spec.protectedNs, e.configs);
      var cache := ConfigureCache(ConfigFor(e.configs, vsr.spec.protectedNs, vsr.spec.storageClass), "Destination");
      var dest := RepDest(vsr.name, SecretName(vsr.name), TriggerName(vsr.name), vsr.spec.pvcSize, vsr.spec.snapClass,
                          volume, cache, false, None);
      if key in api.dests { dest := api.dests[key]; }
      if Field(api.secrets[secretKey].data, "RESTIC_CUSTOM_CA") != "" { dest := dest.(customCA := true); }
      if key !in api.dests || api.dests[key] != dest {
        if Put(DestKind) in e.faults { return Fail; }
        PutDest(dest);
      }
      return Continue;
    }

    /** The content reached from the destination; `found` is false for a destination that is missing or has
        not finished a sync. */
    method GetVolSyncSnapshotContent(vsr: Vsr, e: Env) returns (found: bool, ok: bool, name: string)
      requires Ready() && vsr == api.vsrs[req]
      ensures ok && found ==> Mine().dest.Some? && BoundContent(Mine().dest.value, vsr.spec.protectedNs, e) == Some(name)
      ensures found <==> Mine().dest.Some? && Mine().dest.value.status.Some? && Mine().dest.value.status.value.lastSync.Some?
      ensures !ok <==> found && BoundContent(Mine().dest.value, vsr.spec.protectedNs, e).None?
    {
      hide Valid, View;
      MineIs();
      var key := DestKey(vsr.spec, vsr.name);
      if key !in api.dests { return false, true, ""; }
      var dest := api.dests[key];
      if dest.status.None? || dest.status.value.lastSync.None? { return false, true, ""; }
      var snapshot := Id(vsr.spec.protectedNs, dest.status.value.image);
      if snapshot !in e.images || e.images[snapshot] !in e.contents { return true, false, ""; }
      return true, true, e.images[snapshot];
    }

    method WaitForVolSyncSnapshotContentToBeReady(e: Env) returns (flow: Flow)
      requires Ready()
      modifies `api
      ensures Performs(WaitForContentStep(old(Mine()), e), flow)
    {
      hide Valid, Becomes, View, BoundContent, WithStatus;
      MineIs();
      BecomesSelf(api, req);
      if Get(WaitForContent) in e.faults || Lookup(WaitForContent) in e.faults { return Fail; }
      var vsr := api.vsrs[req];
      var found, ok, name := GetVolSyncSnapshotContent(vsr, e);
      if !ok { return Fail; }
      if !found { return Wait; }
      BoundIsThere(Mine().dest.value, vsr.spec.protectedNs, e);
      var content := e.contents[name];
      if content.None? { return Wait; }
      if content.value.ready && content.value.handle.Some? {
        if RecordWrite in e.faults { return Fail; }
        ok := UpdateStatus(vsr.(status := vsr.status.(handle := content.value.handle.value, vscName := name)));
        return Continue;
      }
      return Wait;
    }

    /** The loop over the kinds, each deleted by label. */
    method DeleteOwned(e: Env) returns (flow: Flow)
      requires Ready()
      modifies `api
      ensures Performs(DeleteAll(old(Mine()), CLEANUP_KINDS, e), flow)
    {
      hide Valid, Becomes, Erase, Linked, View;
      MineIs();
      BecomesSelf(api, req);
      ghost var l := Mine();
      var name, ns := req.name, api.vsrs[req].spec.protectedNs;
      assert CLEANUP_KINDS[0..] == CLEANUP_KINDS;
      for i := 0 to |CLEANUP_KINDS|
        invariant Did(l) && Ready() && l == Mine() && req == old(req) && api.vsrs[req] == l.cr == old(api.vsrs[req])
        invariant DeleteAll(old(Mine()), CLEANUP_KINDS, e).l == DeleteAll(l, CLEANUP_KINDS[i..], e).l
        invariant DeleteAll(old(Mine()), CLEANUP_KINDS, e).flow == DeleteAll(l, CLEANUP_KINDS[i..], e).flow
      {
        var kind := CLEANUP_KINDS[i];
        assert CLEANUP_KINDS[i..][0] == kind && CLEANUP_KINDS[i..][1..] == CLEANUP_KINDS[i + 1..];
        if Call.Delete(kind) in e.faults { return Fail; }
        ghost var mid := api;
        DeleteAllOfKind(kind, name, ns);
        BecomesTwice(old(api), req, mid, l, api, Erase(l, kind));
        BecomesView(old(api), req, api, Erase(l, kind));
        EraseCr(l, kind);
        l := Erase(l, kind);
      }
      return Continue;
    }

    /** The last write of cleanup, on a fresh copy, unless the restore is being deleted. */
    method MarkCompleted(e: Env) returns (flow: Flow)
      requires Ready()
      modifies `api
      ensures var l := old(Mine());
              && flow == (if GetAgain in e.faults || (!l.cr.deleting && CompletedWrite in e.faults) then Fail else Continue)
              && Did(if flow == Continue && !l.cr.deleting then Status(l, l.cr.status.(phase := Completed)) else l)
    {
      hide Valid, Becomes, View, WithStatus;
      MineIs();
      BecomesSelf(api, req);
      if GetAgain in e.faults { return Fail; }
      var vsr := api.vsrs[req];
      if !vsr.deleting {
        if CompletedWrite in e.faults { return Fail; }
        var ok := UpdateStatus(vsr.(status := vsr.status.(phase := Completed)));
      }
      return Continue;
    }

    method CleanRestoreResources(e: Env) returns (flow: Flow)
      requires Ready()
      modifies `api
      ensures Performs(CleanStep(old(Mine()), e), flow)
    {
      hide Valid, Becomes, View, DeleteAll, Linked, WithStatus;
      MineIs();
      BecomesSelf(api, req);
      if Get(Clean) in e.faults { return Fail; }
      var vsr := api.vsrs[req];
      if vsr.status.phase != VolSyncDone && vsr.status.phase != Failed && vsr.status.phase != PartiallyFailed && !vsr.deleting {
        return Wait;
      }
      if CleanupWrite in e.faults { return Fail; }
      ghost var l1 := Status(Mine(), vsr.status.(phase := Cleanup));
      var ok := UpdateStatus(vsr.(status := vsr.status.(phase := Cleanup)));
      BecomesView(old(api), req, api, l1);
      ghost var mid := api;
      flow := DeleteOwned(e);
      ghost var gone := DeleteAll(l1, CLEANUP_KINDS, e);
      BecomesTwice(old(api), req, mid, l1, api, gone.l);
      BecomesView(old(api), req, api, gone.l);
      DeleteAllCr(l1, CLEANUP_KINDS, e);
      WithStatusKeeps(vsr, vsr.status.(phase := Cleanup));
      if flow != Continue { return Fail; }
      mid := api;
      flow := MarkCompleted(e);
      BecomesTwice(old(api), req, mid, gone.l, api, CleanStep(old(Mine()), e).l);
    }

    /******* The batch *******/

    method RunStep(step: Step, e: Env) returns (flow: Flow)
      requires Ready()
      modifies `api
      ensures Performs(Run(step, old(Mine()), e), flow)
    {
      match step
      case Validate => flow := ValidateVolumeSnapshotMoverRestore(e);
      case CreateSecret => flow := CreateVSRResticSecret(e);
      case CreateDest => flow := CreateReplicationDestination(e);
      case WaitForContent => flow := WaitForVolSyncSnapshotContentToBeReady(e);
      case Clean => flow := CleanRestoreResources(e);
    }

    /** Steps through the list until one does not return true. */
    method ReconcileBatch(steps: seq<Step>, e: Env) returns (flow: Flow)
      requires Ready()
      modifies `api
      ensures Performs(RunBatch(steps, old(Mine()), e), flow)
    {
      hide Valid, Becomes, Run, View;
      BecomesSelf(api, req);
      ghost var l := Mine();
      assert steps[0..] == steps;
      for i := 0 to |steps|
        invariant Did(l) && Ready() && l == Mine() && req == old(req)
        invariant RunBatch(steps, old(Mine()), e).l == RunBatch(steps[i..], l, e).l
        invariant RunBatch(steps, old(Mine()), e).flow == RunBatch(steps[i..], l, e).flow
      {
        assert steps[i..][0] == steps[i] && steps[i..][1..] == steps[i + 1..];
        ghost var mid := api;
        ghost var next := Run(steps[i], l, e).l;
        flow := RunStep(steps[i], e);
        BecomesTwice(old(api), req, mid, l, api, next);
        if flow != Continue { return; }
        BecomesView(old(api), req, api, next);
        l := next;
      }
      return Continue;
    }

    /******* The queue *******/

    /** Auxiliary: the slots that this restore's passes have taken. */
    method CountSlot(n: int)
      requires Ready()
      modifies `api
      ensures Did(old(Mine()).(slots := n))
    {
      hide Valid, Becomes, View;
      SlotsWrite(api, req, n);
      api := api.(slots := api.slots[req := n]);
    }

    method UpdateVSRBatchingStatus(batching: Batching) returns (ok: bool)
      requires Ready()
      modifies `api
      ensures ok && Did(Status(old(Mine()), old(Mine()).cr.status.(batching := batching)))
    {
      hide Valid, Becomes, View, Status;
      MineIs();
      var vsr := api.vsrs[req];
      ok := UpdateStatus(vsr.(status := vsr.status.(batching := batching)));
    }

    /** Admission, which returns the caller's copy as it leaves it. */
    method SetVSRQueue(vsr: Vsr, e: Env) returns (flow: Flow, copy: Vsr)
      requires Ready() && vsr == api.vsrs[req]
      modifies `api, `processingVSRs
      ensures Performs(QueueStep(old(Mine()), old(processingVSRs), vsrBatchNumber, e), flow)
      ensures processingVSRs == old(processingVSRs)
              + QueueStep(old(Mine()), old(processingVSRs), vsrBatchNumber, e).l.slots - old(Mine()).slots
      ensures flow == Continue ==> copy == QueuedCopy(vsr, old(processingVSRs), vsrBatchNumber)
    {
      hide Valid, Becomes, View, WithStatus, Linked;
      MineIs();
      BecomesSelf(api, req);
      copy := vsr;
      var batching := vsr.status.batching;
      if processingVSRs >= vsrBatchNumber && batching == NotBatched {
        if QueueWrite in e.faults { return Fail, copy; }
        var ok := UpdateVSRBatchingStatus(Queued);
      } else if processingVSRs >= vsrBatchNumber && batching == Queued {
        return Wait, copy;
      } else if processingVSRs < vsrBatchNumber && (batching == NotBatched || batching == Queued) {
        copy := copy.(status := copy.status.(batching := Processing));
        if QueueWrite in e.faults { return Fail, copy; }
        ghost var l1 := Status(Mine(), vsr.status.(batching := Processing));
        var ok := UpdateVSRBatchingStatus(Processing);
        BecomesView(old(api), req, api, l1);
        ghost var mid := api;
        CountSlot(api.slots[req] + 1);
        BecomesTwice(old(api), req, mid, l1, api, l1.(slots := l1.slots + 1));
        processingVSRs := processingVSRs + 1;
      }
      return Continue, copy;
    }

    /******* Status *******/

    method UpdateVSRStatusPhase(dest: RepDest, phase: Phase, now: nat) returns (ok: bool)
      requires Ready() && dest.status.Some?
      modifies `api
      ensures ok && Did(WithPhase(old(Mine()), dest, phase, now))
    {
      hide Valid, Becomes, View, Status;
      MineIs();
      var vsr := api.vsrs[req];
      var status := vsr.status.(phase := phase, completion := Some(now));
      if dest.status.value.lastSync.Some? {
        status := status.(sync := status.sync.(completion := dest.status.value.lastSync));
      }
      ok := UpdateStatus(vsr.(status := status));
    }

    /** The completion branch. */
    method MarkDone(d: RepDest, e: Env) returns (flow: Flow)
      requires Ready() && d.status.Some?
      modifies `api, `processingVSRs
      ensures Performs(DoneWork(old(Mine()), d, e), flow)
      ensures processingVSRs == old(processingVSRs) + DoneWork(old(Mine()), d, e).l.slots - old(Mine()).slots
    {
      hide Valid, Becomes, View, WithStatus, Linked;
      MineIs();
      BecomesSelf(api, req);
      if DoneBatchingWrite in e.faults { return Fail; }
      ghost var l1 := Status(Mine(), Mine().cr.status.(batching := BatchDone));
      var ok := UpdateVSRBatchingStatus(BatchDone);
      BecomesView(old(api), req, api, l1);
      if DonePhaseWrite in e.faults { return Fail; }
      ghost var l2 := WithPhase(l1, d, VolSyncDone, e.now);
      ghost var mid := api;
      ok := UpdateVSRStatusPhase(d, VolSyncDone, e.now);
      BecomesTwice(old(api), req, mid, l1, api, l2);
      BecomesView(old(api), req, api, l2);
      mid := api;
      CountSlot(api.slots[req] - 1);
      BecomesTwice(old(api), req, mid, l2, api, l2.(slots := l2.slots - 1));
      processingVSRs := processingVSRs - 1;
      return Continue;
    }

    /** The write of a status that is not a completion. */
    method SetProgress(copy: Vsr, e: Env) returns (flow: Flow)
      requires Ready() && copy.rv == api.vsrs[req].rv
      modifies `api
      ensures flow == if ProgressWrite in e.faults then Fail else Wait
      ensures Did(if flow == Fail then old(Mine()) else Status(old(Mine()), copy.status))
    {
      hide Valid, Becomes, View, Status;
      BecomesSelf(api, req);
      if ProgressWrite in e.faults { return Fail; }
      var ok := UpdateStatus(copy);
      return Wait;
    }

    method SetStatusFromRepDest(vsr: Vsr, d: RepDest, e: Env) returns (flow: Flow)
      requires Ready() && vsr == api.vsrs[req] && d.status.Some?
      modifies `api, `processingVSRs
      ensures Performs(StatusFromDest(old(Mine()), d, e), flow)
      ensures processingVSRs == old(processingVSRs) + StatusFromDest(old(Mine()), d, e).l.slots - old(Mine()).slots
    {
      hide Valid, Becomes, View, DoneWork, Linked, LastSync, LastFalse, WithStatus;
      MineIs();
      BecomesSelf(api, req);
      var status := vsr.status;
      if status.sync.name == "" {
        status := status.(sync := status.sync.(name := DestName(vsr.name)));
      }
      var _, progress := ScanConditions(d.status.value.conditions);
      if d.status.value.lastManualSync != "" && d.tag != "" {
        if d.status.value.lastManualSync == d.tag {
          flow := MarkDone(d, e);
          return;
        }
      } else if progress.status == True && progress.reason == SyncInProgress {
        status := status.(phase := InProgress, sync := status.sync.(start := d.status.value.lastSyncStart));
        flow := SetProgress(vsr.(status := status), e);
        return;
      } else if progress.reason == SyncError {
        status := status.(phase := Failed, completion := Some(e.now));
        flow := SetProgress(vsr.(status := status), e);
        return;
      }
      return Wait;
    }

    method SetVSRStatus(e: Env) returns (flow: Flow)
      requires Ready()
      modifies `api, `processingVSRs
      ensures Performs(StatusStep(old(Mine()), e), flow)
      ensures processingVSRs == old(processingVSRs) + StatusStep(old(Mine()), e).l.slots - old(Mine()).slots
    {
      hide Valid, Becomes, View, StatusFromDest, Linked;
      MineIs();
      BecomesSelf(api, req);
      if GetStatus in e.faults { return Fail; }
      var vsr := api.vsrs[req];
      if GetVeleroRestore in e.faults || e.velero == Missing { return Fail; }
      if e.velero == Broken {
        if PartialWrite in e.faults { return Fail; }
        var ok := UpdateStatus(vsr.(status := vsr.status.(phase := PartiallyFailed, completion := Some(e.now))));
        return Fail;
      }
      if vsr.status.phase == Failed || vsr.status.phase == PartiallyFailed { return Fail; }
      if vsr.status.phase == VolSyncDone { return Continue; }
      var key := DestKey(vsr.spec, vsr.name);
      if GetDest in e.faults { return Fail; }
      if key !in api.dests { return Wait; }
      var d := api.dests[key];
      if d.status.None? { return Wait; }
      flow := SetStatusFromRepDest(vsr, d, e);
    }

    /******* A whole pass *******/

    ghost function Abs(): System
      reads this
    {
      System(Views(api), processingVSRs, vsrBatchNumber, retired, uids)
    }

    /** What the contract of a pass, or of its rest, says: it has done what the record-level pass does. */
    twostate predicate Finishes(o: PassOut, result: Result)
      reads this
    {
      && old(Ready()) && Valid(api) && result == o.result && vsrBatchNumber == o.batch && uids == old(uids)
      && Views(api) == (if o.l.Some? then old(Views(api))[old(req) := o.l.value] else old(Views(api)) - {old(req)})
      && processingVSRs == old(processingVSRs) + o.slots - old(Mine()).slots
      && retired == old(retired) + (if o.l.Some? then 0 else o.slots)
    }

    /** The last status write: the copy that the pass has carried along, with its condition set. */
    method SetCondition(copy: Vsr, ok: bool, e: Env)
      requires Ready()
      modifies `api
      ensures Did(ConditionStep(old(Mine()), copy, ok, e).l)
    {
      hide Valid, Becomes, View, Status;
      MineIs();
      BecomesSelf(api, req);
      if ConditionWrite !in e.faults {
        var done := UpdateStatus(copy.(status := copy.status.(reconciled := Some(ok))));
      }
    }

    method ReconcileLive(copy: Vsr, e: Env) returns (result: Result)
      requires Ready() && Good(Mine()) && Working(0, Mine(), e)
      modifies `api, `processingVSRs
      ensures Finishes(WorkBranch(old(Mine()), copy, vsrBatchNumber, e), result)
    {
      hide Valid, View, RunBatch, StatusStep, ConditionStep, Working, Good;
      ghost var l := Mine();
      var flow := ReconcileBatch(BATCH, e);
      ghost var work := RunBatch(BATCH, l, e);
      WholeBatchKeeps(l, e);
      BecomesView(old(api), req, api, work.l);
      ghost var mid := api;
      SetCondition(copy, flow != Fail, e);
      ghost var cond := ConditionStep(work.l, copy, flow != Fail, e);
      ConditionSlots(work.l, copy, flow != Fail, e);
      BecomesTwice(old(api), req, mid, work.l, api, cond.l);
      BecomesView(old(api), req, api, cond.l);
      mid := api;
      var status := SetVSRStatus(e);
      BecomesTwice(old(api), req, mid, cond.l, api, StatusStep(cond.l, e).l);
      if status != Continue {
        return if status == Fail then Retry else Requeue;
      }
      return if flow != Continue then Requeue else Quiet;
    }

    /** The write of a copy without the finalizer, after which the object is gone. */
    method RemoveFinalizerFrom(copy: Vsr, e: Env) returns (removed: bool)
      requires Ready() && (copy.rv == api.vsrs[req].rv ==> OwnsNothing(Mine()))
      modifies `api, `retired
      ensures removed <==> Call.RemoveFinalizer !in e.faults && copy.rv == old(api.vsrs[req]).rv
      ensures if removed then Valid(api) && Views(api) == old(Views(api)) - {req} && retired == old(retired) + old(Mine()).slots
              else api == old(api) && retired == old(retired)
    {
      hide Valid, View, Views;
      if Call.RemoveFinalizer in e.faults || copy.rv != api.vsrs[req].rv { return false; }
      RemoveWrite(api, req);
      retired := retired + Mine().slots;
      api := Without(api, req);
      return true;
    }

    method ReconcileDeleted(copy: Vsr, e: Env) returns (result: Result)
      requires Ready() && Good(Mine()) && Mine().cr.deleting
      modifies `api, `processingVSRs, `retired
      ensures Finishes(DeletionBranch(old(Mine()), copy, vsrBatchNumber, e), result)
    {
      hide Valid, View, CleanStep, Good, OwnsNothing, Linked;
      ghost var l := Mine();
      ghost var l1 := l.(slots := l.slots - Freed(copy));
      MineIs();
      if copy.status.batching != NotBatched && copy.status.batching != BatchDone {
        processingVSRs := processingVSRs - 1;
        CountSlot(api.slots[req] - 1);
      } else {
        BecomesSelf(api, req);
      }
      BecomesView(old(api), req, api, l1);
      ghost var mid := api;
      var flow := CleanRestoreResources(e);
      ghost var c := CleanStep(l1, e);
      CleanupOutcome(l, l1.slots, e);
      BecomesTwice(old(api), req, mid, l1, api, c.l);
      BecomesView(old(api), req, api, c.l);
      if flow == Fail { return Retry; }
      var removed := RemoveFinalizerFrom(copy, e);
      return if removed then Quiet else Retry;
    }

    /** The pass once the restore is known to go to the queue. */
    method ReconcileAdmitted(vsr: Vsr, e: Env) returns (result: Result)
      requires Ready() && vsr == api.vsrs[req] && Good(Mine()) && vsr.finalizer
      requires vsr.deleting || !Terminal(vsr.status.phase)
      modifies `api, `processingVSRs, `retired
      ensures Finishes(Admitted(old(Mine()), old(processingVSRs), vsrBatchNumber, e), result)
    {
      hide Valid, View, QueueStep, DeletionBranch, WorkBranch, Good, Working, QueuedCopy;
      MineIs();
      ghost var l := Mine();
      ghost var q := QueueStep(l, processingVSRs, vsrBatchNumber, e);
      QueueOutcome(l, processingVSRs, vsrBatchNumber, e);
      var flow, copy := SetVSRQueue(vsr, e);
      BecomesView(old(api), req, api, q.l);
      if flow == Fail { return Retry; }
      if flow == Wait { return Requeue; }
      if vsr.deleting {
        result := ReconcileDeleted(copy, e);
      } else {
        result := ReconcileLive(copy, e);
      }
    }

    /** The pass over a restore that exists. */
    method ReconcileFound(e: Env) returns (result: Result)
      requires Ready() && Good(Mine()) && Fetch !in e.faults
      modifies `api, `processingVSRs, `vsrBatchNumber, `retired
      ensures Finishes(Pass(old(Mine()), old(processingVSRs), old(vsrBatchNumber), e), result)
    {
      hide Valid, View, Good, Admitted;
      MineIs();
      BecomesSelf(api, req);
      var vsr := api.vsrs[req];
      if vsrBatchNumber == 0 {
        match e.batch {
          case Unreadable => return Retry;
          case Value(n) => vsrBatchNumber := n;
          case BadValue(n) => vsrBatchNumber := n; return Retry;
        }
      }
      if (vsr.status.phase == Completed || vsr.status.phase == Failed || vsr.status.phase == PartiallyFailed) && !vsr.deleting {
        return Quiet;
      }
      if !vsr.finalizer {
        if Call.AddFinalizer in e.faults { return Retry; }
        ResourceWrite(api, req, WithFinalizer(vsr, true));
        api := api.(vsrs := api.vsrs[req := WithFinalizer(vsr, true)]);
        return Requeue;
      }
      result := ReconcileAdmitted(vsr, e);
    }

    /** One pass. The request is stored for the methods that read the restore again. */
    method Reconcile(request: Id, e: Env) returns (result: Result)
      requires Valid(api) && Sound(Abs())
      modifies this
      ensures Valid(api) && Sound(Abs()) && Abs() == Next(old(Abs()), Event.Reconcile(request, e))
      ensures result == if request in old(api.vsrs)
                        then Pass(old(Views(api))[request], old(processingVSRs), old(vsrBatchNumber), e).result
                        else if Fetch in e.faults then Retry else Quiet
    {
      hide Valid, View, Sound, Good, Admitted;
      ghost var before := Abs();
      NextSound(before, Event.Reconcile(request, e));
      req := request;
      if Fetch in e.faults { return Retry; }
      if request !in api.vsrs { return Quiet; }
      SoundGood(before);
      assert before.vsrs[request] == Mine();
      result := ReconcileFound(e);
    }
  }

  lemma WithStatusKeeps(stored: Vsr, status: RestoreStatus)
    ensures var cr := WithStatus(stored, status);
            cr == stored.(status := status, rv := cr.rv)
  {
  }

  lemma BoundIsThere(d: RepDest, ns: string, e: Env)
    ensures BoundContent(d, ns, e).Some? ==> BoundContent(d, ns, e).value in e.contents
  {
  }

  lemma ConditionSlots(l: Restore, copy: Vsr, ok: bool, e: Env)
    ensures ConditionStep(l, copy, ok, e).l.slots == l.slots
  {
  }

  lemma WholeBatchKeeps(l: Restore, e: Env)
    requires Working(0, l, e)
    ensures RunBatch(BATCH, l, e).l.slots == l.slots
  {
    assert BATCH[0..] == BATCH;
    BatchKeeps(0, l, e);
  }

  lemma CleanupOutcome(l: Restore, slots: int, e: Env)
    requires Good(l) && l.cr.deleting
    ensures var c := CleanStep(l.(slots := slots), e);
            c.flow != Wait && c.l.slots == slots && (c.flow == Continue ==> OwnsNothing(c.l))
  {
    CleanKeeps(l.(slots := slots), e);
  }

  lemma QueueOutcome(l: Restore, processing: int, batch: int, e: Env)
    requires Good(l) && l.cr.finalizer
    ensures var q := QueueStep(l, processing, batch, e);
            && Good(q.l) && q.l.cr.deleting == l.cr.deleting
            && (q.flow == Continue && !l.cr.deleting && !Terminal(l.cr.status.phase) ==> Working(0, q.l, e))
  {
    QueueKeeps(l, processing, batch, e);
    PathEnds(e, l, QueueStep(l, processing, batch, e).trail, QueueStep(l, processing, batch, e).l);
  }

  lemma EraseCr(l: Restore, kind: Kind)
    ensures Erase(l, kind).cr == l.cr
  {
  }
}
