/** One VolumeSnapshotRestore with the objects it owns, and what each step of a Reconcile pass does to
    them, in the manner of BackupModel. */
module RestoreModel {
  import opened Prelude
  import opened Api
  import opened Options
  import opened Secrets

  function DestName(vsr: string): string { vsr + "-rep-dest" }

  /******* The custom resource *******/

  /** `repository` to `snapClass` are what the backup recorded. */
  datatype RestoreSpec = RestoreSpec(protectedNs: string, resticSecret: string, repository: string, pvcName: string,
                                     pvcSize: string, storageClass: string, snapClass: string)

  datatype RestoreStatus = RestoreStatus(
    phase: Phase, batching: Batching, start: Option<nat>, completion: Option<nat>, handle: string, vscName: string,
    sync: SyncData, reconciled: Option<bool>)
  const NEW_STATUS := RestoreStatus(NoPhase, NotBatched, None, None, "", "", NO_SYNC_DATA, None)

  type Vsr = Resource<RestoreSpec, RestoreStatus>

  /******* Owned objects; `owner` is the value of the controller's label *******/

  /** `image` names the snapshot that VolSync took of the restored volume. */
  datatype DestStatus = DestStatus(conditions: seq<Condition>, lastManualSync: string, lastSync: Option<nat>,
                                   lastSyncStart: Option<nat>, image: string)
  datatype RepDest = RepDest(owner: string, repository: string, tag: string, capacity: string, snapClass: string,
                             volume: VolumeOptions, cache: CacheOptions, customCA: bool, status: Option<DestStatus>)

  datatype Kind = SecretKind | DestKind

  /** The kinds in the order in which cleanup deletes them. */
  const CLEANUP_KINDS := [SecretKind, DestKind]

  /** A restore and the objects it owns. `slots` is auxiliary history, as for a backup. */
  datatype Restore = Restore(cr: Vsr, secret: Option<Secret>, dest: Option<RepDest>, slots: int)

  function NewRestore(name: string, uid: nat, spec: RestoreSpec): Restore {
    Restore(Resource(name, uid, 0, false, false, spec, NEW_STATUS), None, None, 0)
  }

  function Erase(l: Restore, k: Kind): Restore {
    match k
    case SecretKind => l.(secret := None)
    case DestKind => l.(dest := None)
  }

  /******* What a pass reads, and which of its calls fail *******/

  datatype Step = Validate | CreateSecret | CreateDest | WaitForContent | Clean

  datatype Call =
    | Fetch | AddFinalizer | RemoveFinalizer | QueueWrite
    | Get(step: Step)      // the step's own read of the restore
    | Lookup(step: Step)   // the reads that follow it
    | ListSnapClasses | ListStorageClasses
    | FailWrite | StartWrite
    | ReadOptions          // config map and service account, read for the destination
    | Put(kind: Kind)      // create or update of an owned object
    | RecordWrite
    | CleanupWrite | Delete(kind: Kind) | GetAgain | CompletedWrite
    | ConditionWrite
    | GetStatus | GetVeleroRestore | PartialWrite | GetDest
    | DoneBatchingWrite | DonePhaseWrite | ProgressWrite

  datatype ContentStatus = ContentStatus(ready: bool, handle: Option<string>)

  /** The cluster as one pass sees it. `given` is the user's secret, `held` what the package variables
      hold when the pass comes to build the controller's, and `images` maps a snapshot to the content bound to it. */
  datatype Env = Env(
    now: nat, batch: BatchRead, oneSnapClass: bool, oneStorageClass: bool, given: Option<UserSecret>, held: Held,
    configs: ConfigMaps, images: map<Id, string>, contents: map<string, Option<ContentStatus>>, velero: Velero, faults: set<Call>)

  /******* Steps *******/

  datatype Out = Out(l: Restore, trail: seq<Restore>, flow: Flow)

  function Stay(l: Restore, flow: Flow): Out { Out(l, [], flow) }

  function Status(l: Restore, status: RestoreStatus): Restore { l.(cr := WithStatus(l.cr, status)) }

  /** The write that marks a restore failed, after which the pass ends with an error. */
  function MarkFailed(l: Restore, e: Env): Out {
    if FailWrite in e.faults then Stay(l, Fail)
    else
      var l' := Status(l, l.cr.status.(phase := Failed, completion := Some(e.now)));
      Out(l', [l'], Fail)
  }

  predicate ValidSpec(spec: RestoreSpec) {
    "" !in [spec.resticSecret, spec.repository, spec.pvcName, spec.pvcSize, spec.protectedNs]
  }

  function ValidateStep(l: Restore, e: Env): Out {
    var st := l.cr.status;
    if Get(Validate) in e.faults then Stay(l, Fail)
    else if
      || !ValidSpec(l.cr.spec) || ListSnapClasses in e.faults || !e.oneSnapClass
      || ListStorageClasses in e.faults || !e.oneStorageClass
    then MarkFailed(l, e)
    else if st.start.Some? then Stay(l, Continue)
    else if StartWrite in e.faults then Stay(l, Fail)
    else
      var l' := Status(l, st.(start := Some(e.now)));
      Out(l', [l'], Continue)
  }

  /** What the user's secret comes to for this restore. */
  function SecretFor(l: Restore, e: Env): Derived
    requires e.given.Some?
  {
    DeriveRestore(e.given.value, e.held, l.cr.spec.repository)
  }

  function CreateSecretStep(l: Restore, e: Env): Out {
    if Get(CreateSecret) in e.faults then Stay(l, Fail)
    else if l.cr.spec.resticSecret == "" then MarkFailed(l, e)
    else if Lookup(CreateSecret) in e.faults || e.given.None? || SecretFor(l, e).Malformed? then Stay(l, Fail)
    else
      var built := BuiltSecret(l.secret, l.cr.name, SecretFor(l, e));
      if l.secret != Some(built) && Put(SecretKind) in e.faults then Stay(l, Fail)
      else
        var l' := l.(secret := Some(built));
        Out(l', [l'], Continue)
  }

  function NewDest(l: Restore, e: Env): RepDest {
    var spec := l.cr.spec;
    RepDest(l.cr.name, SecretName(l.cr.name), TriggerName(l.cr.name), spec.pvcSize, spec.snapClass,
            DestinationOptions(spec.storageClass, spec.protectedNs, e.configs),
            CacheFor(ConfigFor(e.configs, spec.protectedNs, spec.storageClass), "Destination"), false, None)
  }

  function CreateDestStep(l: Restore, e: Env): Out {
    if Get(CreateDest) in e.faults || Lookup(CreateDest) in e.faults then Stay(l, Fail)
    else if l.secret.None? then Stay(l, Wait)
    else if ReadOptions in e.faults then Stay(l, Fail)
    else
      var found := l.dest.GetOr(NewDest(l, e));
      var built := if Field(l.secret.value.data, "RESTIC_CUSTOM_CA") != "" then found.(customCA := true) else found;
      if l.dest != Some(built) && Put(DestKind) in e.faults then Stay(l, Fail)
      else
        var l' := l.(dest := Some(built));
        Out(l', [l'], Continue)
  }

  /** The content that VolSync's snapshot of the restored volume is bound to; None if VolSync has not
      finished a sync or the snapshot or content is missing. */
  function BoundContent(d: RepDest, ns: string, e: Env): Option<string> {
    if d.status.None? || d.status.value.lastSync.None? then None
    else
      var image := Id(ns, d.status.value.image);
      if image in e.images && e.images[image] in e.contents then Some(e.images[image]) else None
  }

  /** Records the handle of a ready content. A missing snapshot or content is an error, but a missing
      destination, or one without a finished sync, is waited for. */
  function WaitForContentStep(l: Restore, e: Env): Out {
    if Get(WaitForContent) in e.faults || Lookup(WaitForContent) in e.faults then Stay(l, Fail)
    else if l.dest.None? || l.dest.value.status.None? || l.dest.value.status.value.lastSync.None? then Stay(l, Wait)
    else
      var bound := BoundContent(l.dest.value, l.cr.spec.protectedNs, e);
      if bound.None? then Stay(l, Fail)
      else
        var content := e.contents[bound.value];
        if content.None? || !content.value.ready || content.value.handle.None? then Stay(l, Wait)
        else if RecordWrite in e.faults then Stay(l, Fail)
        else
          var l' := Status(l, l.cr.status.(handle := content.value.handle.value, vscName := bound.value));
          Out(l', [l'], Continue)
  }

  function DeleteAll(l: Restore, kinds: seq<Kind>, e: Env): Out
    decreases |kinds|
  {
    if kinds == [] then Stay(l, Continue)
    else if Delete(kinds[0]) in e.faults then Stay(l, Fail)
    else
      var l1 := Erase(l, kinds[0]);
      var rest := DeleteAll(l1, kinds[1..], e);
      Out(rest.l, [l1] + rest.trail, rest.flow)
  }

  /** Cleanup, which reads the restore again before it marks it Completed. A Completed restore under
      deletion is cleaned up once more. */
  function CleanStep(l: Restore, e: Env): Out {
    if Get(Clean) in e.faults then Stay(l, Fail)
    else if l.cr.status.phase !in {VolSyncDone, Failed, PartiallyFailed} && !l.cr.deleting then Stay(l, Wait)
    else if CleanupWrite in e.faults then Stay(l, Fail)
    else
      var l1 := Status(l, l.cr.status.(phase := Cleanup));
      var gone := DeleteAll(l1, CLEANUP_KINDS, e);
      if gone.flow != Continue || GetAgain in e.faults then Out(gone.l, [l1] + gone.trail, Fail)
      else if l.cr.deleting then Out(gone.l, [l1] + gone.trail, Continue)
      else if CompletedWrite in e.faults then Out(gone.l, [l1] + gone.trail, Fail)
      else
        var l2 := Status(gone.l, gone.l.cr.status.(phase := Completed));
        Out(l2, [l1] + gone.trail + [l2], Continue)
  }

  function Run(step: Step, l: Restore, e: Env): Out {
    match step
    case Validate => ValidateStep(l, e)
    case CreateSecret => CreateSecretStep(l, e)
    case CreateDest => CreateDestStep(l, e)
    case WaitForContent => WaitForContentStep(l, e)
    case Clean => CleanStep(l, e)
  }

  const CREATION := [Validate, CreateSecret, CreateDest, WaitForContent]
  const BATCH := CREATION + [Clean]

  function RunBatch(steps: seq<Step>, l: Restore, e: Env): Out
    decreases |steps|
  {
    if steps == [] then Stay(l, Continue)
    else
      var first := Run(steps[0], l, e);
      if first.flow != Continue then first
      else
        var rest := RunBatch(steps[1..], first.l, e);
        Out(rest.l, first.trail + rest.trail, rest.flow)
  }

  /******* Status after the batch *******/

  /** The destination echoes its manual trigger. */
  predicate DestDone(d: RepDest) {
    d.status.Some? && d.tag != "" && d.status.value.lastManualSync == d.tag
  }

  /** The phase write, which copies the destination's sync time when there is one. */
  function WithPhase(l: Restore, dest: RepDest, phase: Phase, now: nat): Restore
    requires dest.status.Some?
  {
    var st := l.cr.status.(phase := phase, completion := Some(now));
    Status(l, if dest.status.value.lastSync.Some?
              then st.(sync := st.sync.(completion := dest.status.value.lastSync)) else st)
  }

  /** The completion branch; unlike a backup's it reports that the restore is complete. */
  function DoneWork(l: Restore, d: RepDest, e: Env): Out
    requires d.status.Some?
  {
    if DoneBatchingWrite in e.faults then Stay(l, Fail)
    else
      var l1 := Status(l, l.cr.status.(batching := BatchDone));
      if DonePhaseWrite in e.faults then Out(l1, [l1], Fail)
      else
        var l2 := WithPhase(l1, d, VolSyncDone, e.now);
        Out(l2.(slots := l2.slots - 1), [l1, l2.(slots := l2.slots - 1)], Continue)
  }

  /** A destination that carries another echo than its own is only waited for. */
  function StatusFromDest(l: Restore, d: RepDest, e: Env): Out
    requires d.status.Some?
  {
    var st := l.cr.status;
    var name := if st.sync.name == "" then DestName(l.cr.name) else st.sync.name;
    var progress := LastSync(d.status.value.conditions);
    if d.status.value.lastManualSync != "" && d.tag != "" then
      if DestDone(d) then DoneWork(l, d, e) else Stay(l, Wait)
    else if progress.status == True && progress.reason == SyncInProgress then
      if ProgressWrite in e.faults then Stay(l, Fail)
      else
        var l' := Status(l, st.(phase := InProgress, sync := st.sync.(name := name, start := d.status.value.lastSyncStart)));
        Out(l', [l'], Wait)
    else if progress.reason == SyncError then
      if ProgressWrite in e.faults then Stay(l, Fail)
      else
        var l' := Status(l, st.(phase := Failed, completion := Some(e.now), sync := st.sync.(name := name)));
        Out(l', [l'], Wait)
    else Stay(l, Wait)
  }

  function StatusStep(l: Restore, e: Env): Out {
    var st := l.cr.status;
    if GetStatus in e.faults then Stay(l, Fail)
    else if GetVeleroRestore in e.faults || e.velero == Missing then Stay(l, Fail)
    else if e.velero == Broken then
      if PartialWrite in e.faults then Stay(l, Fail)
      else
        var l' := Status(l, st.(phase := PartiallyFailed, completion := Some(e.now)));
        Out(l', [l'], Fail)
    else if st.phase == Failed || st.phase == PartiallyFailed then Stay(l, Fail)
    else if st.phase == VolSyncDone then Stay(l, Continue)
    else if GetDest in e.faults then Stay(l, Fail)
    else if l.dest.None? || l.dest.value.status.None? then Stay(l, Wait)
    else StatusFromDest(l, l.dest.value, e)
  }

  /******* A whole pass *******/

  datatype PassOut = PassOut(l: Option<Restore>, slots: int, trail: seq<Restore>, batch: int, result: Result)

  function Kept(l: Restore, trail: seq<Restore>, batch: int, result: Result): PassOut {
    PassOut(Some(l), l.slots, trail, batch, result)
  }

  predicate Admits(b: Batching, processing: int, batch: int) {
    processing < batch && (b == NotBatched || b == Queued)
  }

  function QueueStep(l: Restore, processing: int, batch: int, e: Env): Out {
    var b := l.cr.status.batching;
    if processing >= batch && b == NotBatched then
      if QueueWrite in e.faults then Stay(l, Fail)
      else
        var l' := Status(l, l.cr.status.(batching := Queued));
        Out(l', [l'], Continue)
    else if processing >= batch && b == Queued then Stay(l, Wait)
    else if Admits(b, processing, batch) then
      if QueueWrite in e.faults then Stay(l, Fail)
      else
        var l' := Status(l, l.cr.status.(batching := Processing)).(slots := l.slots + 1);
        Out(l', [l'], Continue)
    else Stay(l, Continue)
  }

  /** Admission changes the batching status of the caller's copy, not only of the stored restore. */
  function QueuedCopy(copy: Vsr, processing: int, batch: int): Vsr {
    if Admits(copy.status.batching, processing, batch)
    then copy.(status := copy.status.(batching := Processing)) else copy
  }

  function ConditionStep(l: Restore, copy: Vsr, ok: bool, e: Env): Out {
    if ConditionWrite in e.faults || copy.rv != l.cr.rv then Stay(l, Fail)
    else
      var l' := Status(l, copy.status.(reconciled := Some(ok)));
      Out(l', [l'], Continue)
  }

  /** What deletion takes from the count, judged on the copy that admission has changed. */
  function Freed(copy: Vsr): int {
    if copy.status.batching in {Queued, Processing} then 1 else 0
  }

  function FinishDeletion(o: Out, copy: Vsr, batch: int, e: Env): PassOut {
    if o.flow == Fail || RemoveFinalizer in e.faults || copy.rv != o.l.cr.rv
    then Kept(o.l, o.trail, batch, Retry)
    else PassOut(None, o.l.slots, o.trail, batch, Quiet)
  }

  function DeletionBranch(l: Restore, copy: Vsr, batch: int, e: Env): PassOut {
    FinishDeletion(CleanStep(l.(slots := l.slots - Freed(copy)), e), copy, batch, e)
  }

  function WorkBranch(l: Restore, copy: Vsr, batch: int, e: Env): PassOut {
    var work := RunBatch(BATCH, l, e);
    var cond := ConditionStep(work.l, copy, work.flow != Fail, e);
    var status := StatusStep(cond.l, e);
    var result :=
      if status.flow == Fail then Retry
      else if status.flow == Wait || work.flow != Continue then Requeue
      else Quiet;
    Kept(status.l, work.trail + cond.trail + status.trail, batch, result)
  }

  function Admitted(l: Restore, processing: int, batch: int, e: Env): PassOut {
    var q := QueueStep(l, processing, batch, e);
    if q.flow == Fail then Kept(q.l, q.trail, batch, Retry)
    else if q.flow == Wait then Kept(q.l, q.trail, batch, Requeue)
    else
      var copy := QueuedCopy(l.cr, processing, batch);
      var rest := if l.cr.deleting then DeletionBranch(q.l, copy, batch, e) else WorkBranch(q.l, copy, batch, e);
      rest.(trail := q.trail + rest.trail)
  }

  /** One Reconcile pass over an existing restore. */
  function Pass(l: Restore, processing: int, batch0: int, e: Env): PassOut {
    var (batch, known) := BatchSize(batch0, e.batch);
    if Fetch in e.faults then Kept(l, [], batch0, Retry)
    else if !known then Kept(l, [], batch, Retry)
    else if Terminal(l.cr.status.phase) && !l.cr.deleting then Kept(l, [], batch, Quiet)
    else if !l.cr.finalizer then
      if AddFinalizer in e.faults then Kept(l, [], batch, Retry)
      else
        var l' := l.(cr := WithFinalizer(l.cr, true));
        Kept(l', [l'], batch, Requeue)
    else Admitted(l, processing, batch, e)
  }

  lemma RunIsClean(l: Restore, e: Env)
    ensures Run(Clean, l, e) == CleanStep(l, e)
  {
  }

  lemma {:induction false} DeleteAllCr(l: Restore, kinds: seq<Kind>, e: Env)
    ensures DeleteAll(l, kinds, e).l.cr == l.cr && DeleteAll(l, kinds, e).flow != Wait
    decreases |kinds|
  {
    if kinds != [] {
      DeleteAllCr(Erase(l, kinds[0]), kinds[1..], e);
    }
  }
}
