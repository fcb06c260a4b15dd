/** One VolumeSnapshotBackup with the objects it owns, and what each step of a Reconcile pass does to
    them. Every step returns the record after it, the record after each of its API writes in order,
    and how it ended. */
module BackupModel {
  import opened Prelude
  import opened Api
  import opened Options
  import opened Secrets

  /******* Names of owned objects *******/

  function CloneName(vsc: string): string { vsc + "-clone" }
  function SnapshotName(clone: string): string { clone + "-volumesnapshot" }
  function PvcName(vsc: string): string { vsc + "-pvc" }
  function PodName(vsb: string): string { vsb + "-pod" }
  function SourceName(vsb: string): string { vsb + "-rep-src" }

  /******* The custom resource *******/

  datatype BackupSpec = BackupSpec(vscName: string, protectedNs: string, resticSecret: string, backupName: string)

  datatype PvcData = PvcData(name: string, size: nat, storageClass: string)
  const NO_PVC_DATA := PvcData("", 0, "")

  datatype BackupStatus = BackupStatus(
    phase: Phase, batching: Batching, start: Option<nat>, completion: Option<nat>, source: PvcData,
    snapClass: string, repository: string, sync: SyncData, reconciled: Option<bool>)
  const NEW_STATUS := BackupStatus(NoPhase, NotBatched, None, None, NO_PVC_DATA, "", "", NO_SYNC_DATA, None)

  type Vsb = Resource<BackupSpec, BackupStatus>

  /******* Owned objects; `owner` is the value of the controller's label *******/

  datatype VscClone = VscClone(owner: string, refNs: string, refName: string, handle: string, snapClass: string,
                               ready: bool, restoreSize: nat)
  datatype VsClone = VsClone(owner: string, content: string, ready: bool)
  datatype PvcClone = PvcClone(owner: string, dataSource: string, options: VolumeOptions, size: nat, bound: bool)
  datatype Pod = Pod(owner: string, claim: string)

  datatype Trigger = Manual(tag: string) | Schedule(cron: string)
  datatype SyncStatus = SyncStatus(conditions: seq<Condition>, lastManualSync: string, lastSync: Option<nat>,
                                   nextSync: Option<nat>, lastSyncStart: Option<nat>)
  datatype RepSource = RepSource(owner: string, sourcePvc: string, repository: string, trigger: Trigger, snapClass: string,
                                 volume: VolumeOptions, cache: CacheOptions, prune: Option<int>, retain: Retain,
                                 customCA: bool, status: Option<SyncStatus>)

  datatype Kind = SourceKind | PvcKind | PodKind | SnapshotKind | ContentKind | SecretKind

  /** The kinds in the order in which cleanup deletes them. */
  const CLEANUP_KINDS := [SourceKind, PvcKind, PodKind, SnapshotKind, ContentKind, SecretKind]

  /** A backup and the objects it owns. `slots` is auxiliary history: how often its passes added to the
      count of processing backups, minus how often they took from it. */
  datatype Backup = Backup(cr: Vsb, vsc: Option<VscClone>, snap: Option<VsClone>, pvc: Option<PvcClone>,
                           pod: Option<Pod>, secret: Option<Secret>, src: Option<RepSource>, slots: int)

  function NewBackup(name: string, uid: nat, spec: BackupSpec): Backup {
    Backup(Resource(name, uid, 0, false, false, spec, NEW_STATUS), None, None, None, None, None, None, 0)
  }

  function Erase(l: Backup, k: Kind): Backup {
    match k
    case SourceKind => l.(src := None)
    case PvcKind => l.(pvc := None)
    case PodKind => l.(pod := None)
    case SnapshotKind => l.(snap := None)
    case ContentKind => l.(vsc := None)
    case SecretKind => l.(secret := None)
  }

  /******* What a pass reads, and which of its calls fail *******/

  datatype Step =
    | Validate | MirrorContent | WaitForContent | MirrorSnapshot | WaitForSnapshot | MirrorPvc
    | BindPod | CreateSecret | IsPvcBound | CreateSource | Clean

  datatype Call =
    | Fetch | AddFinalizer | RemoveFinalizer | QueueWrite
    | Get(step: Step)            // the step's own read of the backup
    | Lookup(step: Step)         // the reads that follow it
    | LookupSnapshot(step: Step) // the read of the snapshot clone, whose failure only makes the step wait
    | ListSnapClasses | ListStorageClasses
    | FailWrite | StartWrite | ClassWrite | SourceWrite | RepositoryWrite
    | ReadConfig                 // the config map read that follows SourceWrite
    | ReadOptions                // config map, service account, secret and source, read for a new source
    | Put(kind: Kind)            // create or update of an owned object
    | CleanupWrite | Delete(kind: Kind) | CompletedWrite
    | ConditionWrite
    | GetStatus | GetVeleroBackup | PartialWrite | GetSource | GetSourceAgain
    | DoneBatchingWrite | DonePhaseWrite | ProgressWrite

  datatype OriginalStatus = OriginalStatus(ready: Option<bool>, handle: string)
  datatype Original = Original(snapClass: string, status: Option<OriginalStatus>)

  /** The cluster as one pass sees it; environment steps happen between passes. `given` is the user's secret,
      `held` and `base` are what the package variables hold when the pass comes to build the controller's. */
  datatype Env = Env(
    now: nat, batch: BatchRead, original: Option<Original>, oneSnapClass: bool, oneStorageClass: bool,
    sourcePvc: Option<SourcePvc>, configs: ConfigMaps, given: Option<UserSecret>, held: Held, base: string,
    velero: Velero, faults: set<Call>)

  /******* Steps *******/

  datatype Out = Out(l: Backup, trail: seq<Backup>, flow: Flow)

  function Stay(l: Backup, flow: Flow): Out { Out(l, [], flow) }

  function Status(l: Backup, status: BackupStatus): Backup { l.(cr := WithStatus(l.cr, status)) }

  /** Validation: a read error is not a verdict, but an error from listing the classes is. */
  function ValidateStep(l: Backup, e: Env): Out {
    var st := l.cr.status;
    if Get(Validate) in e.faults || Lookup(Validate) in e.faults || e.original.None? then Stay(l, Fail)
    else if
      || l.cr.spec.vscName == "" || l.cr.spec.protectedNs == ""
      || ListSnapClasses in e.faults || !e.oneSnapClass
      || ListStorageClasses in e.faults || !e.oneStorageClass
    then
      if FailWrite in e.faults then Stay(l, Fail)
      else
        var l' := Status(l, st.(phase := Failed, completion := Some(e.now)));
        Out(l', [l'], Fail)
    else if st.start.Some? then Stay(l, Continue)
    else if StartWrite in e.faults then Stay(l, Fail)
    else
      var l' := Status(l, st.(start := Some(e.now)));
      Out(l', [l'], Continue)
  }

  function NewContent(l: Backup, o: Original, handle: string): VscClone {
    VscClone(l.cr.name, l.cr.spec.protectedNs, SnapshotName(CloneName(l.cr.spec.vscName)), handle, o.snapClass, false, 0)
  }

  function MirrorContentStep(l: Backup, e: Env): Out {
    var st := l.cr.status;
    if Get(MirrorContent) in e.faults then Stay(l, Fail)
    else if st.phase == Completed then Stay(l, Continue)
    else if Lookup(MirrorContent) in e.faults || e.original.None? then Stay(l, Fail)
    else if e.original.value.status.None? then Stay(l, Wait)
    else if e.original.value.status.value.ready == Some(false) then Stay(l, Wait)
    else
      var clone := l.vsc.GetOr(NewContent(l, e.original.value, e.original.value.status.value.handle));
      if st.snapClass == "" && ClassWrite in e.faults then Stay(l, Fail)
      else
        var l1 := if st.snapClass == "" then Status(l, st.(snapClass := clone.snapClass)) else l;
        if l.vsc.Some? then Out(l1, [l1], Continue)
        else if Put(ContentKind) in e.faults then Out(l1, [l1], Fail)
        else
          var l2 := l1.(vsc := Some(clone));
          Out(l2, [l1, l2], Continue)
  }

  /** Returns true whether or not the clone is ready. */
  function WaitForContentStep(l: Backup, e: Env): Out {
    if Get(WaitForContent) in e.faults then Stay(l, Fail)
    else if l.cr.status.phase == Completed then Stay(l, Continue)
    else if Lookup(WaitForContent) in e.faults || l.vsc.None? then Stay(l, Fail)
    else Stay(l, Continue)
  }

  function MirrorSnapshotStep(l: Backup, e: Env): Out {
    if Get(MirrorSnapshot) in e.faults then Stay(l, Fail)
    else if l.cr.status.phase == Completed then Stay(l, Continue)
    else if Lookup(MirrorSnapshot) in e.faults || l.vsc.None? then Stay(l, Fail)
    else if !l.vsc.value.ready then Stay(l, Wait)
    else if l.snap.Some? then Stay(l, Continue)
    else if Put(SnapshotKind) in e.faults then Stay(l, Fail)
    else
      var l' := l.(snap := Some(VsClone(l.cr.name, CloneName(l.cr.spec.vscName), false)));
      Out(l', [l'], Continue)
  }

  /** Returns true whether or not the clone is ready. */
  function WaitForSnapshotStep(l: Backup, e: Env): Out {
    if Get(WaitForSnapshot) in e.faults then Stay(l, Fail)
    else if l.cr.status.phase == Completed then Stay(l, Continue)
    else if Lookup(WaitForSnapshot) in e.faults || l.vsc.None? then Stay(l, Fail)
    else if LookupSnapshot(WaitForSnapshot) in e.faults || l.snap.None? then Stay(l, Wait)
    else Stay(l, Continue)
  }

  function NewClaim(l: Backup, p: SourcePvc, e: Env): PvcClone
    requires l.vsc.Some?
  {
    PvcClone(l.cr.name, l.vsc.value.refName, ClaimOptions(p, l.cr.spec.protectedNs, e.configs),
             CloneSize(p.request, l.vsc.value.restoreSize), false)
  }

  function MirrorPvcStep(l: Backup, e: Env): Out {
    var st := l.cr.status;
    if Get(MirrorPvc) in e.faults then Stay(l, Fail)
    else if st.phase == Completed then Stay(l, Continue)
    else if Lookup(MirrorPvc) in e.faults || l.vsc.None? then Stay(l, Fail)
    else if LookupSnapshot(MirrorPvc) in e.faults || l.snap.None? then Stay(l, Wait)
    else if !l.snap.value.ready then Stay(l, Wait)
    else if e.sourcePvc.None? || SourceWrite in e.faults then Stay(l, Fail)
    else
      var p := e.sourcePvc.value;
      var l1 := Status(l, st.(source := PvcData(p.name, p.request, p.storageClass)));
      if ReadConfig in e.faults then Out(l1, [l1], Fail)
      else if l.pvc.Some? then Out(l1, [l1], Continue)
      else if Put(PvcKind) in e.faults then Out(l1, [l1], Fail)
      else
        var l2 := l1.(pvc := Some(NewClaim(l, p, e)));
        Out(l2, [l1, l2], Continue)
  }

  function BindPodStep(l: Backup, e: Env): Out {
    if Get(BindPod) in e.faults then Stay(l, Fail)
    else if l.cr.status.phase == Completed then Stay(l, Continue)
    else if Lookup(BindPod) in e.faults || l.pvc.None? then Stay(l, Fail)
    else if l.pod.Some? then Stay(l, Continue)
    else if Put(PodKind) in e.faults then Stay(l, Fail)
    else
      var l' := l.(pod := Some(Pod(l.cr.name, PvcName(l.cr.spec.vscName))));
      Out(l', [l'], Continue)
  }

  /** What the user's secret comes to for this backup. */
  function SecretFor(l: Backup, e: Env): Derived
    requires e.given.Some?
  {
    DeriveBackup(e.given.value, e.held, e.base, l.cr.spec.protectedNs, l.cr.spec.backupName, PvcName(l.cr.spec.vscName))
  }

  function CreateSecretStep(l: Backup, e: Env): Out {
    if Get(CreateSecret) in e.faults then Stay(l, Fail)
    else if l.cr.status.phase == Completed then Stay(l, Continue)
    else if Lookup(CreateSecret) in e.faults || l.pvc.None? then Stay(l, Fail)
    else if l.cr.spec.resticSecret == "" || e.given.None? || SecretFor(l, e).Malformed? then Stay(l, Fail)
    else
      var built := BuiltSecret(l.secret, l.cr.name, SecretFor(l, e));
      if l.secret != Some(built) && Put(SecretKind) in e.faults then Stay(l, Fail)
      else
        var l1 := l.(secret := Some(built));
        if RepositoryWrite in e.faults then Out(l1, [l1], Fail)
        else
          var l2 := Status(l1, l.cr.status.(repository := Field(built.data, "RESTIC_REPOSITORY")));
          Out(l2, [l1, l2], Continue)
  }

  function IsPvcBoundStep(l: Backup, e: Env): Out {
    if Get(IsPvcBound) in e.faults then Stay(l, Fail)
    else if l.cr.status.phase == Completed then Stay(l, Continue)
    else if Lookup(IsPvcBound) in e.faults || l.pvc.None? then Stay(l, Fail)
    else if !l.pvc.value.bound then Stay(l, Wait)
    else Stay(l, Continue)
  }

  function NewSource(l: Backup, options: SourceOptions, e: Env): RepSource
    requires l.pvc.Some?
  {
    RepSource(
      l.cr.name, PvcName(l.cr.spec.vscName), SecretName(l.cr.name),
      if options.cron != "" then Schedule(options.cron) else Manual(TriggerName(l.cr.name)), l.cr.status.snapClass,
      MoverOptions(l.cr.status.source.storageClass, l.pvc.value.options.accessModes, l.cr.spec.protectedNs, e.configs),
      CacheFor(ConfigFor(e.configs, l.cr.spec.protectedNs, l.cr.status.source.storageClass), "Source"),
      options.prune, options.retain, false, None)
  }

  function CreateSourceStep(l: Backup, e: Env): Out {
    if Get(CreateSource) in e.faults then Stay(l, Fail)
    else if l.cr.status.phase == Completed then Stay(l, Continue)
    else if Lookup(CreateSource) in e.faults || l.pvc.None? then Stay(l, Fail)
    else if l.cr.status.source.name == "" then Stay(l, Wait)
    else if ReadOptions in e.faults || l.secret.None? || OptionsIn(l.secret.value.data).None? then Stay(l, Fail)
    else
      var data := l.secret.value.data;
      var found := l.src.GetOr(NewSource(l, OptionsIn(data).value, e));
      var built := if Field(data, "RESTIC_CUSTOM_CA") != "" then found.(customCA := true) else found;
      if l.src != Some(built) && Put(SourceKind) in e.faults then Stay(l, Fail)
      else
        var l' := l.(src := Some(built));
        Out(l', [l'], Continue)
  }

  /** The loop over the kinds to delete. */
  function DeleteAll(l: Backup, kinds: seq<Kind>, e: Env): Out
    decreases |kinds|
  {
    if kinds == [] then Stay(l, Continue)
    else if Delete(kinds[0]) in e.faults then Stay(l, Fail)
    else
      var l1 := Erase(l, kinds[0]);
      var rest := DeleteAll(l1, kinds[1..], e);
      Out(rest.l, [l1] + rest.trail, rest.flow)
  }

  /** The writes of cleanup: the phase Cleanup, each kind in turn, and Completed unless deleting. */
  function CleanupWork(l: Backup, e: Env): Out {
    if CleanupWrite in e.faults then Stay(l, Fail)
    else
      var l1 := Status(l, l.cr.status.(phase := Cleanup));
      var gone := DeleteAll(l1, CLEANUP_KINDS, e);
      if gone.flow != Continue then Out(gone.l, [l1] + gone.trail, Fail)
      else if l.cr.deleting then Out(gone.l, [l1] + gone.trail, Continue)
      else if CompletedWrite in e.faults then Out(gone.l, [l1] + gone.trail, Fail)
      else
        var l2 := Status(gone.l, gone.l.cr.status.(phase := Completed));
        Out(l2, [l1] + gone.trail + [l2], Continue)
  }

  function CleanStep(l: Backup, e: Env): Out {
    var phase := l.cr.status.phase;
    if Get(Clean) in e.faults then Stay(l, Fail)
    else if phase !in {VolSyncDone, Failed, PartiallyFailed} && !l.cr.deleting then Stay(l, Wait)
    else if phase == Completed then Stay(l, Continue)
    else CleanupWork(l, e)
  }

  function Run(step: Step, l: Backup, e: Env): Out {
    match step
    case Validate => ValidateStep(l, e)
    case MirrorContent => MirrorContentStep(l, e)
    case WaitForContent => WaitForContentStep(l, e)
    case MirrorSnapshot => MirrorSnapshotStep(l, e)
    case WaitForSnapshot => WaitForSnapshotStep(l, e)
    case MirrorPvc => MirrorPvcStep(l, e)
    case BindPod => BindPodStep(l, e)
    case CreateSecret => CreateSecretStep(l, e)
    case IsPvcBound => IsPvcBoundStep(l, e)
    case CreateSource => CreateSourceStep(l, e)
    case Clean => CleanStep(l, e)
  }

  /** The steps that create what a backup owns, and the whole batch. */
  const CREATION := [Validate, MirrorContent, WaitForContent, MirrorSnapshot, WaitForSnapshot, MirrorPvc,
                     BindPod, CreateSecret, IsPvcBound, CreateSource]
  const BATCH := CREATION + [Clean]

  /** Steps run in order until one does not return true. */
  function RunBatch(steps: seq<Step>, l: Backup, e: Env): Out
    decreases |steps|
  {
    if steps == [] then Stay(l, Continue)
    else
      var first := Run(steps[0], l, e);
      if first.flow != Continue then first
      else
        var rest := RunBatch(steps[1..], first.l, e);
        Out(rest.l, first.trail + rest.trail, rest.flow)
  }

  /******* Status after the batch *******/

  /** Whether the ReplicationSource reports a finished sync: its manual trigger echoed, or a scheduled one done. */
  predicate SourceDone(s: RepSource) {
    s.status.Some? &&
    match s.trigger
    case Manual(tag) => tag != "" && s.status.value.lastManualSync == tag
    case Schedule(_) => s.status.value.nextSync.Some? && s.status.value.lastSync.Some?
  }

  /** Whether the status step will mark the backup done, given that it gets that far. */
  predicate SourceFinished(s: RepSource) {
    && SourceDone(s)
    && (s.trigger.Manual? ==> LastFalse(s.status.value.conditions).synchronizing)
  }

  /** The phase write, which copies the source's sync time when there is one. */
  function WithPhase(l: Backup, source: Option<RepSource>, phase: Phase, now: nat): Backup
    requires source.Some? ==> source.value.status.Some?
  {
    var st := l.cr.status.(phase := phase, completion := Some(now));
    Status(l, if source.Some? && source.value.status.value.lastSync.Some?
              then st.(sync := st.sync.(completion := source.value.status.value.lastSync)) else st)
  }

  /** The completion branch: out of the queue, then VolSync-done, then off the count. */
  function DoneWork(l: Backup, s: RepSource, e: Env): Out
    requires s.status.Some?
  {
    if DoneBatchingWrite in e.faults then Stay(l, Fail)
    else
      var l1 := Status(l, l.cr.status.(batching := BatchDone));
      if DonePhaseWrite in e.faults then Out(l1, [l1], Fail)
      else
        var l2 := WithPhase(l1, Some(s), VolSyncDone, e.now);
        Out(l2.(slots := l2.slots - 1), [l1, l2.(slots := l2.slots - 1)], Wait)
  }

  function StatusFromSource(l: Backup, s: RepSource, e: Env): Out
    requires s.status.Some?
  {
    var st := l.cr.status;
    var name := if st.sync.name == "" then SourceName(l.cr.name) else st.sync.name;
    var progress := LastSync(s.status.value.conditions);
    if GetSourceAgain in e.faults then Stay(l, Fail)
    else if SourceFinished(s) && st.phase != Completed then DoneWork(l, s, e)
    else if !SourceDone(s) && progress.status == True then
      if ProgressWrite in e.faults then Stay(l, Fail)
      else
        var l' := Status(l, st.(phase := InProgress, sync := st.sync.(name := name, start := s.status.value.lastSyncStart)));
        Out(l', [l'], Wait)
    else if progress.reason == SyncError then
      if ProgressWrite in e.faults then Stay(l, Fail)
      else
        var l' := Status(l, st.(phase := Failed, completion := Some(e.now), sync := st.sync.(name := name)));
        Out(l', [l'], Wait)
    else Stay(l, Wait)
  }

  /** Continue stands for a complete backup; marking it done still reports that it is not. */
  function StatusStep(l: Backup, e: Env): Out {
    var st := l.cr.status;
    if GetStatus in e.faults then Stay(l, Fail)
    else if GetVeleroBackup in e.faults || e.velero == Missing then Stay(l, Fail)
    else if e.velero == Broken then
      if PartialWrite in e.faults then Stay(l, Fail)
      else
        var l' := Status(l, st.(phase := PartiallyFailed, completion := Some(e.now)));
        Out(l', [l'], Fail)
    else if st.phase == Failed || st.phase == PartiallyFailed then Stay(l, Fail)
    else if GetSource in e.faults then Stay(l, Fail)
    else if l.src.None? || l.src.value.status.None? then Stay(l, Wait)
    else if st.phase == VolSyncDone then Stay(l, Continue)
    else StatusFromSource(l, l.src.value, e)
  }

  /******* A whole pass *******/

  /** `l` is None once the finalizer is gone; `slots` is the auxiliary count after the pass. */
  datatype PassOut = PassOut(l: Option<Backup>, slots: int, trail: seq<Backup>, batch: int, result: Result)

  function Kept(l: Backup, trail: seq<Backup>, batch: int, result: Result): PassOut {
    PassOut(Some(l), l.slots, trail, batch, result)
  }

  /** Admission, judged on the copy read at the start of the pass. Continue is true, Wait is false. */
  function QueueStep(l: Backup, processing: int, batch: int, e: Env): Out {
    var b := l.cr.status.batching;
    if processing >= batch && b == NotBatched then
      if QueueWrite in e.faults then Stay(l, Fail)
      else
        var l' := Status(l, l.cr.status.(batching := Queued));
        Out(l', [l'], Continue)
    else if processing >= batch && b == Queued then Stay(l, Wait)
    else if processing < batch && (b == NotBatched || b == Queued) then
      if QueueWrite in e.faults then Stay(l, Fail)
      else
        var l' := Status(l, l.cr.status.(batching := Processing)).(slots := l.slots + 1);
        Out(l', [l'], Continue)
    else Stay(l, Continue)
  }

  /** The last write of a pass: the copy read at its start, with a fresh condition, if no other write of
      the pass has changed the stored version. */
  function ConditionStep(l: Backup, copy: Vsb, ok: bool, e: Env): Out {
    if ConditionWrite in e.faults || copy.rv != l.cr.rv then Stay(l, Fail)
    else
      var l' := Status(l, copy.status.(reconciled := Some(ok)));
      Out(l', [l'], Continue)
  }

  /** What deletion takes from the count, judged on the copy read at the start of the pass. */
  function Freed(copy: Vsb): int {
    if copy.status.batching in {Queued, Processing} then 1 else 0
  }

  /** After cleanup, the finalizer goes if the copy read at the start of the pass is still current. */
  function FinishDeletion(o: Out, copy: Vsb, batch: int, e: Env): PassOut {
    if o.flow == Fail || RemoveFinalizer in e.faults || copy.rv != o.l.cr.rv
    then Kept(o.l, o.trail, batch, Retry)
    else PassOut(None, o.l.slots, o.trail, batch, Quiet)
  }

  /** The branch for a backup under deletion, after admission. */
  function DeletionBranch(l: Backup, copy: Vsb, batch: int, e: Env): PassOut {
    FinishDeletion(CleanStep(l.(slots := l.slots - Freed(copy)), e), copy, batch, e)
  }

  /** The branch for a live backup, after admission. */
  function WorkBranch(l: Backup, copy: Vsb, batch: int, e: Env): PassOut {
    var work := RunBatch(BATCH, l, e);
    var cond := ConditionStep(work.l, copy, work.flow != Fail, e);
    var status := StatusStep(cond.l, e);
    var result :=
      if status.flow == Fail then Retry
      else if status.flow == Wait || work.flow != Continue then Requeue
      else Quiet;
    Kept(status.l, work.trail + cond.trail + status.trail, batch, result)
  }

  function Admitted(l: Backup, processing: int, batch: int, e: Env): PassOut {
    var q := QueueStep(l, processing, batch, e);
    if q.flow == Fail then Kept(q.l, q.trail, batch, Retry)
    else if q.flow == Wait then Kept(q.l, q.trail, batch, Requeue)
    else
      var rest := if l.cr.deleting then DeletionBranch(q.l, l.cr, batch, e) else WorkBranch(q.l, l.cr, batch, e);
      rest.(trail := q.trail + rest.trail)
  }

  /** One Reconcile pass over an existing backup. */
  function Pass(l: Backup, processing: int, batch0: int, e: Env): PassOut {
    var (batch, known) := BatchSize(batch0, e.batch);
    if Fetch in e.faults then Kept(l, [], batch0, Retry)
    else if !known then Kept(l, [], batch, Retry)
    else if Terminal(l.cr.status.phase) && !l.cr.deleting then Kept(l, [], batch, Quiet)
    else if !l.cr.finalizer then
      if AddFinalizer in e.faults then Kept(l, [], batch, Retry)
      else
        var l' := l.(cr := WithFinalizer(l.cr, true));
        Kept(l', [l'], batch, Requeue)
    else Admitted(l, processing, batch, e)
  }

  lemma RunIsClean(l: Backup, e: Env)
    ensures Run(Clean, l, e) == CleanStep(l, e)
  {
  }
}
