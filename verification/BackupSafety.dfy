/** What every API write of a backup's pass keeps: the shape of what it owns, and the only ways in which
    the record may change. Both hold at every write, so also where a failing call cuts a pass short. */
module BackupSafety {
  import opened Prelude
  import opened Api
  import opened Options
  import opened Secrets
  import opened BackupModel

  predicate OwnsNothing(l: Backup) {
    l.vsc.None? && l.snap.None? && l.pvc.None? && l.pod.None? && l.secret.None? && l.src.None?
  }

  /** Owned objects carry the backup's name, and each one refers to the next by name. */
  predicate Linked(l: Backup) {
    var vsc := l.cr.spec.vscName;
    && (l.vsc.Some? ==> l.vsc.value.owner == l.cr.name && l.vsc.value.refNs == l.cr.spec.protectedNs
                        && l.vsc.value.refName == SnapshotName(CloneName(vsc)))
    && (l.snap.Some? ==> l.snap.value.owner == l.cr.name && l.snap.value.content == CloneName(vsc))
    && (l.pvc.Some? ==> l.pvc.value.owner == l.cr.name && l.pvc.value.dataSource == SnapshotName(CloneName(vsc)))
    && (l.pod.Some? ==> l.pod.value.owner == l.cr.name && l.pod.value.claim == PvcName(vsc))
    && (l.secret.Some? ==> l.secret.value.owner == l.cr.name)
    && (l.src.Some? ==> l.src.value.owner == l.cr.name && l.src.value.sourcePvc == PvcName(vsc)
                        && l.src.value.repository == SecretName(l.cr.name)
                        && (l.src.value.trigger.Manual? ==> l.src.value.trigger.tag == TriggerName(l.cr.name)))
  }

  /** A ReplicationSource never dangles; nor does any link of the chain below it. */
  predicate Layered(l: Backup) {
    && (l.snap.Some? ==> l.vsc.Some?)
    && (l.pvc.Some? ==> l.snap.Some?)
    && (l.src.Some? ==> l.pvc.Some? && l.pod.Some? && l.secret.Some?)
  }

  /** How status and ownership fit together. */
  predicate Consistent(l: Backup) {
    var st := l.cr.status;
    && (!l.cr.finalizer ==> !l.cr.deleting && st.phase == NoPhase && st.batching == NotBatched)
    && (st.batching == NotBatched ==> OwnsNothing(l))
    && (st.batching == Queued ==> OwnsNothing(l.(vsc := None)))
    && (st.phase == Completed ==> OwnsNothing(l))
    && (st.phase == Completed || (!l.cr.deleting && st.phase in {VolSyncDone, Cleanup}) ==> st.batching == BatchDone)
  }

  predicate Good(l: Backup) {
    Linked(l) && Layered(l) && Consistent(l)
  }

  /** The backup's own ReplicationSource reports a finished sync. */
  predicate Moved(l: Backup) {
    l.src.Some? && SourceFinished(l.src.value)
  }

  /** A scheduled source has synced and has its next sync planned; a manual one has echoed the trigger of the
      backup `name`, and its last false condition is the synchronizing one. */
  ghost predicate SyncFinished(s: RepSource, name: string) {
    s.status.Some? &&
    match s.trigger
    case Schedule(_) => s.status.value.lastSync.Some? && s.status.value.nextSync.Some?
    case Manual(_) =>
      && s.status.value.lastManualSync == name + "-trigger"
      && exists i: nat :: LastFalseAt(s.status.value.conditions, i) && s.status.value.conditions[i].synchronizing
  }

  /** What the reconciler takes for a finished sync is one. */
  lemma FinishedMeans(l: Backup)
    requires Linked(l)
    ensures Moved(l) <==> l.src.Some? && SyncFinished(l.src.value, l.cr.name)
  {
    if l.src.Some? && l.src.value.status.Some? {
      LastFalseMeans(l.src.value.status.value.conditions);
    }
  }

  /** A claim clone built from what pass `e` has read: as large as the source claim's request and the restore
      size of the snapshot, no larger than both, and with the options configured for the source claim's class. */
  predicate ClaimFrom(e: Env, l: Backup, claim: PvcClone) {
    && l.vsc.Some? && e.sourcePvc.Some?
    && l.vsc.value.restoreSize <= claim.size && e.sourcePvc.value.request <= claim.size
    && claim.size in {l.vsc.value.restoreSize, e.sourcePvc.value.request}
    && SourceSide(claim.options, e.sourcePvc.value.storageClass, e.sourcePvc.value.accessModes, l.cr.spec.protectedNs, e.configs)
  }

  /** Objects that stay keep their specification; new ones are built from what the pass has read. */
  predicate ObjectsAdvance(e: Env, l: Backup, m: Backup) {
    && (l.vsc.Some? && m.vsc.Some? ==> m.vsc == l.vsc)
    && (l.vsc.None? && m.vsc.Some? ==> e.original.Some? && e.original.value.status.Some?
                                       && m.vsc.value.handle == e.original.value.status.value.handle)
    && (l.snap.Some? && m.snap.Some? ==> m.snap == l.snap)
    && (l.pvc.Some? && m.pvc.Some? ==> m.pvc == l.pvc)
    && (l.pvc.None? && m.pvc.Some? ==> ClaimFrom(e, l, m.pvc.value))
    && (l.pod.Some? && m.pod.Some? ==> m.pod == l.pod)
    && (l.src.Some? && m.src.Some? ==> m.src.value == l.src.value.(customCA := m.src.value.customCA))
    && (l.src.None? && m.src.Some? ==> m.src.value.status.None?)
  }

  /** One API write made on behalf of a backup. */
  predicate Advance(e: Env, l: Backup, m: Backup) {
    var a := l.cr.status;
    var b := m.cr.status;
    && m.cr.name == l.cr.name && m.cr.uid == l.cr.uid && m.cr.spec == l.cr.spec && m.cr.deleting == l.cr.deleting
    && (l.cr.finalizer ==> m.cr.finalizer)
    && m.cr.rv >= l.cr.rv && (m.cr.rv == l.cr.rv ==> m.cr == l.cr)
    && Rank(a.batching) <= Rank(b.batching)
    && (a.start.Some? ==> b.start == a.start)
    && (a.snapClass != "" ==> b.snapClass == a.snapClass)
    && PhaseEdge(l.cr.deleting, a.phase, b.phase)
    && (l.cr.deleting && a.phase == Completed ==> b.phase == Completed)
    && (b.batching == BatchDone && a.batching != BatchDone ==> Moved(l))
    && (b.phase == VolSyncDone && a.phase != VolSyncDone ==> Moved(l))
    && ObjectsAdvance(e, l, m)
  }

  /** A list of writes that leads from `l` to `m`, good and advancing at every point. */
  predicate Path(e: Env, l: Backup, trail: seq<Backup>, m: Backup)
    decreases |trail|
  {
    if trail == [] then m == l.(slots := m.slots)
    else Advance(e, l, trail[0]) && Good(trail[0]) && Path(e, trail[0], trail[1..], m)
  }

  lemma PathOne(e: Env, l: Backup, m: Backup)
    requires Advance(e, l, m) && Good(m)
    ensures Path(e, l, [m], m)
  {
    assert Path(e, m, [m][1..], m);
  }

  lemma PathTwo(e: Env, l: Backup, m: Backup, n: Backup)
    requires Advance(e, l, m) && Good(m) && Advance(e, m, n) && Good(n)
    ensures Path(e, l, [m, n], n)
  {
    PathOne(e, m, n);
    assert [m, n][1..] == [n];
  }

  /** Slots are not part of the cluster, so a path may start from any count of them. */
  lemma {:induction false} PathSlots(e: Env, l: Backup, trail: seq<Backup>, m: Backup, slots: int)
    requires Path(e, l, trail, m)
    ensures Path(e, l.(slots := slots), trail, m)
  {
  }

  lemma {:induction false} PathConcat(e: Env, l: Backup, t: seq<Backup>, m: Backup, u: seq<Backup>, n: Backup)
    requires Path(e, l, t, m) && Path(e, m, u, n)
    ensures Path(e, l, t + u, n)
    decreases |t|
  {
    if t == [] {
      assert t + u == u;
    } else {
      PathConcat(e, t[0], t[1..], m, u, n);
      assert (t + u)[1..] == t[1..] + u;
    }
  }

  /** What a whole path keeps. */
  lemma {:induction false} PathEnds(e: Env, l: Backup, trail: seq<Backup>, m: Backup)
    requires Good(l) && Path(e, l, trail, m)
    ensures Good(m)
    ensures m.cr.name == l.cr.name && m.cr.uid == l.cr.uid && m.cr.spec == l.cr.spec && m.cr.deleting == l.cr.deleting
    ensures l.cr.finalizer ==> m.cr.finalizer
    ensures m.cr.rv >= l.cr.rv && (m.cr.rv == l.cr.rv ==> m.cr == l.cr)
    ensures Rank(l.cr.status.batching) <= Rank(m.cr.status.batching)
    ensures l.cr.status.start.Some? ==> m.cr.status.start == l.cr.status.start
    ensures l.cr.status.snapClass != "" ==> m.cr.status.snapClass == l.cr.status.snapClass
    ensures Moved(m) ==> Moved(l)
    ensures m.cr.status.batching == BatchDone && l.cr.status.batching != BatchDone ==> Moved(l)
    ensures m.cr.status.phase == VolSyncDone && l.cr.status.phase != VolSyncDone ==> Moved(l)
    decreases |trail|
  {
    if trail != [] {
      PathEnds(e, trail[0], trail[1..], m);
    }
  }

  /******* The steps *******/

  /** The state of a batch before step `i`: what the earlier steps have left behind. */
  predicate Working(i: nat, l: Backup) {
    && Good(l) && l.cr.finalizer && !l.cr.deleting && !Terminal(l.cr.status.phase)
    && l.cr.status.batching != NotBatched
    && (l.cr.status.batching == Queued && l.vsc.Some? ==> !l.vsc.value.ready)
    && (i >= 2 ==> l.vsc.Some?)
    && (i >= 4 ==> l.snap.Some?)
    && (i >= 6 ==> l.pvc.Some?)
    && (i >= 7 ==> l.pod.Some?)
    && (i >= 8 ==> l.secret.Some?)
    && (i >= 10 ==> l.src.Some?)
  }

  lemma ValidateKeeps(l: Backup, e: Env)
    requires Working(0, l)
    ensures var o := ValidateStep(l, e);
            Path(e, l, o.trail, o.l) && (o.flow == Continue ==> Working(1, o.l))
  {
    var o := ValidateStep(l, e);
    if o.trail != [] {
      PathOne(e, l, o.l);
    }
  }

  lemma MirrorContentKeeps(l: Backup, e: Env)
    requires Working(1, l)
    ensures var o := MirrorContentStep(l, e);
            Path(e, l, o.trail, o.l) && (o.flow == Continue ==> Working(2, o.l))
  {
    var o := MirrorContentStep(l, e);
    if o.trail != [] {
      ClassKeeps(l, o.trail[0], e);
      if |o.trail| == 1 {
        PathOne(e, l, o.l);
      } else {
        ContentKeeps(o.trail[0], o.l, e);
        PathTwo(e, l, o.trail[0], o.l);
      }
    }
  }

  lemma ClassKeeps(l: Backup, m: Backup, e: Env)
    requires Working(1, l)
    requires m == l || (l.cr.status.snapClass == "" && m == Status(l, l.cr.status.(snapClass := m.cr.status.snapClass)))
    ensures Advance(e, l, m) && Working(1, m)
  {
  }

  lemma ContentKeeps(l: Backup, m: Backup, e: Env)
    requires Working(1, l) && l.vsc.None? && e.original.Some? && e.original.value.status.Some? && m.vsc.Some?
    requires m == l.(vsc := m.vsc) && m.vsc.value == NewContent(l, e.original.value, e.original.value.status.value.handle)
    ensures Advance(e, l, m) && Working(2, m)
  {
  }

  lemma MirrorSnapshotKeeps(l: Backup, e: Env)
    requires Working(3, l)
    ensures var o := MirrorSnapshotStep(l, e);
            Path(e, l, o.trail, o.l) && (o.flow == Continue ==> Working(4, o.l))
  {
  }

  lemma SourceRecorded(l: Backup, e: Env, p: SourcePvc)
    requires Working(5, l) && l.snap.Some? && l.snap.value.ready
    ensures var l1 := Status(l, l.cr.status.(source := PvcData(p.name, p.request, p.storageClass)));
            Advance(e, l, l1) && Working(5, l1)
  {
  }

  lemma PvcAdded(l: Backup, e: Env)
    requires Working(5, l) && l.snap.Some? && l.snap.value.ready && l.pvc.None? && e.sourcePvc.Some?
    ensures var clone := NewClaim(l, e.sourcePvc.value, e);
            var l2 := l.(pvc := Some(clone));
            l.cr.status.batching != Queued ==> Advance(e, l, l2) && Working(6, l2)
  {
  }

  lemma MirrorPvcKeeps(l: Backup, e: Env)
    requires Working(5, l)
    ensures var o := MirrorPvcStep(l, e);
            Path(e, l, o.trail, o.l) && (o.flow == Continue ==> Working(6, o.l))
  {
    var o := MirrorPvcStep(l, e);
    if o.trail != [] {
      SourceRecorded(l, e, e.sourcePvc.value);
      if |o.trail| == 1 {
        PathOne(e, l, o.l);
      } else {
        PvcAdded(o.trail[0], e);
        PathTwo(e, l, o.trail[0], o.l);
      }
    }
  }

  lemma BindPodKeeps(l: Backup, e: Env)
    requires Working(6, l)
    ensures var o := BindPodStep(l, e);
            Path(e, l, o.trail, o.l) && (o.flow == Continue ==> Working(7, o.l))
  {
  }

  lemma CreateSecretKeeps(l: Backup, e: Env)
    requires Working(7, l)
    ensures var o := CreateSecretStep(l, e);
            Path(e, l, o.trail, o.l) && (o.flow == Continue ==> Working(8, o.l))
  {
    hide SecretFor;
    var o := CreateSecretStep(l, e);
    if |o.trail| == 1 {
      PathOne(e, l, o.l);
    } else if |o.trail| == 2 {
      PathTwo(e, l, o.trail[0], o.l);
    }
  }

  lemma CreateSourceKeeps(l: Backup, e: Env)
    requires Working(9, l)
    ensures var o := CreateSourceStep(l, e);
            Path(e, l, o.trail, o.l) && (o.flow == Continue ==> Working(10, o.l))
  {
    hide OptionsIn, MoverOptions;
    var o := CreateSourceStep(l, e);
    if o.trail != [] {
      PathOne(e, l, o.l);
    }
  }

  /** The part of the cleanup order that is still to come once `k` kinds are gone. */
  predicate Erased(k: nat, l: Backup) {
    && (k >= 1 ==> l.src.None?) && (k >= 2 ==> l.pvc.None?) && (k >= 3 ==> l.pod.None?)
    && (k >= 4 ==> l.snap.None?) && (k >= 5 ==> l.vsc.None?) && (k >= 6 ==> l.secret.None?)
  }

  lemma EraseKeeps(l: Backup, k: nat, e: Env)
    requires Good(l) && l.cr.status.phase == Cleanup && k < |CLEANUP_KINDS| && Erased(k, l)
    ensures var l1 := Erase(l, CLEANUP_KINDS[k]);
            Good(l1) && Advance(e, l, l1) && Erased(k + 1, l1) && l1.cr == l.cr && l1.slots == l.slots
  {
  }

  lemma {:induction false} DeleteAllKeeps(l: Backup, k: nat, e: Env)
    requires Good(l) && l.cr.status.phase == Cleanup && k <= |CLEANUP_KINDS| && Erased(k, l)
    ensures var o := DeleteAll(l, CLEANUP_KINDS[k..], e);
            && Path(e, l, o.trail, o.l) && o.l.cr == l.cr && o.l.slots == l.slots
            && (o.flow == Continue ==> Erased(|CLEANUP_KINDS|, o.l))
            && o.flow != Wait
    decreases |CLEANUP_KINDS| - k
  {
    hide Linked, Layered, Consistent, Advance, Erase;
    if k < |CLEANUP_KINDS| {
      var kind := CLEANUP_KINDS[k];
      assert CLEANUP_KINDS[k..][0] == kind;
      assert CLEANUP_KINDS[k..][1..] == CLEANUP_KINDS[k + 1..];
      if Delete(kind) !in e.faults {
        var l1 := Erase(l, kind);
        EraseKeeps(l, k, e);
        PathOne(e, l, l1);
        DeleteAllKeeps(l1, k + 1, e);
        var rest := DeleteAll(l1, CLEANUP_KINDS[k + 1..], e);
        PathConcat(e, l, [l1], l1, rest.trail, rest.l);
      }
    }
  }

  /** Cleanup, in a batch or under deletion: when it succeeds, nothing is owned any more. */
  lemma CleanKeeps(l: Backup, e: Env)
    requires Good(l) && (l.cr.deleting || !Terminal(l.cr.status.phase))
    ensures var o := CleanStep(l, e);
            && Path(e, l, o.trail, o.l) && o.l.slots == l.slots
            && (o.flow == Continue ==> OwnsNothing(o.l))
            && (o.flow == Wait ==> o.l == l && !l.cr.deleting)
            && o.l.cr.status.batching == l.cr.status.batching
            && (l.cr.deleting ==> o.l.cr.status.phase in {l.cr.status.phase, Cleanup})
  {
    var st := l.cr.status;
    if Get(Clean) in e.faults || (st.phase !in {VolSyncDone, Failed, PartiallyFailed} && !l.cr.deleting)
       || st.phase == Completed || CleanupWrite in e.faults {
    } else {
      var l1 := Status(l, st.(phase := Cleanup));
      assert Advance(e, l, l1) && Good(l1);
      PathOne(e, l, l1);
      assert CLEANUP_KINDS[0..] == CLEANUP_KINDS;
      DeleteAllKeeps(l1, 0, e);
      var gone := DeleteAll(l1, CLEANUP_KINDS, e);
      PathConcat(e, l, [l1], l1, gone.trail, gone.l);
      PathEnds(e, l1, gone.trail, gone.l);
      if gone.flow == Continue && !l.cr.deleting && CompletedWrite !in e.faults {
        var l2 := Status(gone.l, gone.l.cr.status.(phase := Completed));
        assert Advance(e, gone.l, l2) && Good(l2);
        PathOne(e, gone.l, l2);
        PathConcat(e, l, [l1] + gone.trail, gone.l, [l2], l2);
      }
    }
  }

  lemma WaitKeeps(i: nat, l: Backup, e: Env)
    requires i in {2, 4, 8} && Working(i, l)
    ensures var o := Run(CREATION[i], l, e);
            Path(e, l, o.trail, o.l) && (o.flow == Continue ==> Working(i + 1, o.l))
  {
  }

  lemma StepKeeps(i: nat, l: Backup, e: Env)
    requires i < |CREATION| && Working(i, l)
    ensures var o := Run(CREATION[i], l, e);
            Path(e, l, o.trail, o.l) && (o.flow == Continue ==> Working(i + 1, o.l))
  {
    hide Working, Path, ValidateStep, MirrorContentStep, MirrorSnapshotStep, MirrorPvcStep, BindPodStep, CreateSecretStep,
         CreateSourceStep;
    match CREATION[i]
    case Validate => ValidateKeeps(l, e);
    case MirrorContent => MirrorContentKeeps(l, e);
    case MirrorSnapshot => MirrorSnapshotKeeps(l, e);
    case MirrorPvc => MirrorPvcKeeps(l, e);
    case BindPod => BindPodKeeps(l, e);
    case CreateSecret => CreateSecretKeeps(l, e);
    case CreateSource => CreateSourceKeeps(l, e);
    case _ => WaitKeeps(i, l, e);
  }

  lemma BatchSuffix(i: nat)
    requires i < |BATCH|
    ensures BATCH[i..] != [] && BATCH[i..][0] == BATCH[i] && BATCH[i..][1..] == BATCH[i + 1..]
    ensures if i < |CREATION| then BATCH[i] == CREATION[i] else BATCH[i] == Clean && BATCH[i + 1..] == []
  {
  }

  lemma {:induction false} BatchKeeps(i: nat, l: Backup, e: Env)
    requires i < |BATCH| && Working(i, l)
    ensures var o := RunBatch(BATCH[i..], l, e);
            Path(e, l, o.trail, o.l)
    decreases |BATCH| - i
  {
    hide Advance, Linked, Layered, CleanStep, ValidateStep, MirrorContentStep, MirrorPvcStep, CreateSecretStep, CreateSourceStep;
    var o := Run(BATCH[i], l, e);
    BatchSuffix(i);
    if i < |CREATION| {
      StepKeeps(i, l, e);
      if o.flow == Continue {
        BatchKeeps(i + 1, o.l, e);
        var rest := RunBatch(BATCH[i + 1..], o.l, e);
        PathConcat(e, l, o.trail, o.l, rest.trail, rest.l);
      }
    } else {
      CleanKeeps(l, e);
      assert o.trail + [] == o.trail;
    }
  }
}
