/** What every API write of a restore's pass keeps, step by step, and what a whole pass keeps. */
module RestoreSafety {
  import opened Prelude
  import opened Api
  import opened Options
  import opened RestoreModel

  predicate OwnsNothing(l: Restore) {
    l.secret.None? && l.dest.None?
  }

  /** Owned objects carry the restore's name, and the destination reads the restore's own secret. */
  predicate Linked(l: Restore) {
    && (l.secret.Some? ==> l.secret.value.owner == l.cr.name)
    && (l.dest.Some? ==> l.dest.value.owner == l.cr.name && l.dest.value.repository == SecretName(l.cr.name)
                         && l.dest.value.tag == TriggerName(l.cr.name)
                         && l.dest.value.capacity == l.cr.spec.pvcSize && l.dest.value.snapClass == l.cr.spec.snapClass)
  }

  /** How status and ownership fit together. The secret is deleted before the destination, so a destination
      can be without it, but only once its data has moved or the restore is being deleted. */
  predicate Consistent(l: Restore) {
    var st := l.cr.status;
    && (!l.cr.finalizer ==> !l.cr.deleting && st.phase == NoPhase && st.batching == NotBatched)
    && (st.batching == NotBatched ==> OwnsNothing(l))
    && (st.phase == Completed ==> OwnsNothing(l))
    && (st.phase == Completed || (!l.cr.deleting && st.phase in {VolSyncDone, Cleanup}) ==> st.batching == BatchDone)
    && (l.dest.Some? && l.secret.None? ==> l.cr.deleting || st.batching == BatchDone)
  }

  predicate Good(l: Restore) {
    Linked(l) && Consistent(l)
  }

  /** The restore's own ReplicationDestination reports a finished sync. */
  predicate Moved(l: Restore) {
    l.dest.Some? && DestDone(l.dest.value)
  }

  /** The handle and content name on the status were read from a ready content, reached through the
      destination by way of the snapshot that VolSync took. */
  predicate RecordedFrom(e: Env, d: Option<RepDest>, ns: string, st: RestoreStatus) {
    && d.Some? && d.value.status.Some? && d.value.status.value.lastSync.Some?
    && Id(ns, d.value.status.value.image) in e.images && e.images[Id(ns, d.value.status.value.image)] == st.vscName
    && st.vscName in e.contents && e.contents[st.vscName] == Some(ContentStatus(true, Some(st.handle)))
  }

  /** One API write made on behalf of a restore. */
  predicate Advance(e: Env, l: Restore, m: Restore) {
    var a := l.cr.status;
    var b := m.cr.status;
    && m.cr.name == l.cr.name && m.cr.uid == l.cr.uid && m.cr.spec == l.cr.spec && m.cr.deleting == l.cr.deleting
    && (l.cr.finalizer ==> m.cr.finalizer)
    && m.cr.rv >= l.cr.rv && (m.cr.rv == l.cr.rv ==> m.cr == l.cr)
    && Rank(a.batching) <= Rank(b.batching)
    && (a.start.Some? ==> b.start == a.start)
    && PhaseEdge(l.cr.deleting, a.phase, b.phase)
    && (b.batching == BatchDone && a.batching != BatchDone ==> Moved(l))
    && (b.phase == VolSyncDone && a.phase != VolSyncDone ==> Moved(l))
    && ((b.handle == a.handle && b.vscName == a.vscName) || RecordedFrom(e, l.dest, l.cr.spec.protectedNs, b))
    && DestAdvance(l.dest, m.dest)
    && (l.dest.None? && m.dest.Some? ==>
          DestinationSide(m.dest.value.volume, l.cr.spec.storageClass, l.cr.spec.protectedNs, e.configs))
  }

  /** A destination that stays keeps its specification and status; a new one has no status. */
  predicate DestAdvance(d: Option<RepDest>, f: Option<RepDest>) {
    f.Some? ==> if d.Some? then f.value == d.value.(customCA := f.value.customCA) else f.value.status.None?
  }

  predicate Path(e: Env, l: Restore, trail: seq<Restore>, m: Restore)
    decreases |trail|
  {
    if trail == [] then m == l.(slots := m.slots)
    else Advance(e, l, trail[0]) && Good(trail[0]) && Path(e, trail[0], trail[1..], m)
  }

  lemma PathOne(e: Env, l: Restore, m: Restore)
    requires Advance(e, l, m) && Good(m)
    ensures Path(e, l, [m], m)
  {
    assert Path(e, m, [m][1..], m);
  }

  lemma PathTwo(e: Env, l: Restore, m: Restore, n: Restore)
    requires Advance(e, l, m) && Good(m) && Advance(e, m, n) && Good(n)
    ensures Path(e, l, [m, n], n)
  {
    PathOne(e, m, n);
    assert [m, n][1..] == [n];
  }

  lemma {:induction false} PathSlots(e: Env, l: Restore, trail: seq<Restore>, m: Restore, slots: int)
    requires Path(e, l, trail, m)
    ensures Path(e, l.(slots := slots), trail, m)
  {
  }

  lemma {:induction false} PathConcat(e: Env, l: Restore, t: seq<Restore>, m: Restore, u: seq<Restore>, n: Restore)
    requires Path(e, l, t, m) && Path(e, m, u, n)
    ensures Path(e, l, t + u, n)
    decreases |t|
  {
    if t == [] {
      assert t + u == u;
    } else {
      PathConcat(e, t[0], t[1..], m, u, n);
      assert (t + u)[1..] == t[1..] + u;
    }
  }

  /** What a whole path keeps. */
  lemma {:induction false} PathEnds(e: Env, l: Restore, trail: seq<Restore>, m: Restore)
    requires Good(l) && Path(e, l, trail, m)
    ensures Good(m)
    ensures m.cr.name == l.cr.name && m.cr.uid == l.cr.uid && m.cr.spec == l.cr.spec && m.cr.deleting == l.cr.deleting
    ensures l.cr.finalizer ==> m.cr.finalizer
    ensures m.cr.rv >= l.cr.rv && (m.cr.rv == l.cr.rv ==> m.cr == l.cr)
    ensures Rank(l.cr.status.batching) <= Rank(m.cr.status.batching)
    ensures l.cr.status.start.Some? ==> m.cr.status.start == l.cr.status.start
    ensures Moved(m) ==> Moved(l)
    ensures m.cr.status.batching == BatchDone && l.cr.status.batching != BatchDone ==> Moved(l)
    ensures m.dest.Some? ==> DestAdvance(l.dest, m.dest) || m.dest.value.status.None?
    decreases |trail|
  {
    if trail != [] {
      PathEnds(e, trail[0], trail[1..], m);
    }
  }

  /** The record as the last write leaves it. */
  function Last(l: Restore, trail: seq<Restore>): Restore {
    if trail == [] then l else trail[|trail| - 1]
  }

  lemma {:induction false} PathToLast(e: Env, l: Restore, trail: seq<Restore>, m: Restore)
    requires Path(e, l, trail, m)
    ensures Path(e, l, trail, Last(l, trail)) && m.(slots := 0) == Last(l, trail).(slots := 0)
    decreases |trail|
  {
    if trail != [] {
      PathToLast(e, trail[0], trail[1..], m);
      assert Last(trail[0], trail[1..]) == Last(l, trail);
    }
  }

  /******* The steps *******/

  /** The state of a batch before step `i`. A restore that is only Queued has just been marked so; what it
      owns is new. */
  predicate Working(i: nat, l: Restore, e: Env) {
    && Good(l) && l.cr.finalizer && !l.cr.deleting && !Terminal(l.cr.status.phase)
    && l.cr.status.batching != NotBatched
    && (l.cr.status.batching == Queued && l.dest.Some? ==> l.dest.value.status.None?)
    && (i >= 2 ==> l.secret.Some?)
    && (i >= 3 ==> l.dest.Some?)
    && (i >= 4 ==> RecordedFrom(e, l.dest, l.cr.spec.protectedNs, l.cr.status))
  }

  lemma ValidateKeeps(l: Restore, e: Env)
    requires Working(0, l, e)
    ensures var o := ValidateStep(l, e);
            && Path(e, l, o.trail, o.l) && o.l.slots == l.slots && DestAdvance(l.dest, o.l.dest)
            && (o.flow == Continue ==> Working(1, o.l, e))
  {
    var o := ValidateStep(l, e);
    if o.trail != [] {
      PathOne(e, l, o.l);
    }
  }

  lemma CreateSecretKeeps(l: Restore, e: Env)
    requires Working(1, l, e)
    ensures var o := CreateSecretStep(l, e);
            && Path(e, l, o.trail, o.l) && o.l.slots == l.slots && DestAdvance(l.dest, o.l.dest)
            && (o.flow == Continue ==> Working(2, o.l, e))
  {
    var o := CreateSecretStep(l, e);
    if o.trail != [] {
      PathOne(e, l, o.l);
    }
  }

  lemma CreateDestKeeps(l: Restore, e: Env)
    requires Working(2, l, e)
    ensures var o := CreateDestStep(l, e);
            && Path(e, l, o.trail, o.l) && o.l.slots == l.slots && DestAdvance(l.dest, o.l.dest)
            && (o.flow == Continue ==> Working(3, o.l, e))
  {
    var o := CreateDestStep(l, e);
    if o.trail != [] {
      PathOne(e, l, o.l);
    }
  }

  lemma WaitForContentKeeps(l: Restore, e: Env)
    requires Working(3, l, e)
    ensures var o := WaitForContentStep(l, e);
            && Path(e, l, o.trail, o.l) && o.l.slots == l.slots && DestAdvance(l.dest, o.l.dest)
            && (o.flow == Continue ==> Working(4, o.l, e))
  {
    var o := WaitForContentStep(l, e);
    if o.trail != [] {
      PathOne(e, l, o.l);
    }
  }

  lemma StepKeeps(i: nat, l: Restore, e: Env)
    requires i < |CREATION| && Working(i, l, e)
    ensures var o := Run(CREATION[i], l, e);
            && Path(e, l, o.trail, o.l) && o.l.slots == l.slots && DestAdvance(l.dest, o.l.dest)
            && (o.flow == Continue ==> Working(i + 1, o.l, e))
  {
    hide Working, ValidateStep, CreateSecretStep, CreateDestStep, WaitForContentStep;
    match CREATION[i]
    case Validate => ValidateKeeps(l, e);
    case CreateSecret => CreateSecretKeeps(l, e);
    case CreateDest => CreateDestKeeps(l, e);
    case WaitForContent => WaitForContentKeeps(l, e);
  }

  /** The part of cleanup that is done once `k` kinds are gone. */
  predicate Erased(k: nat, l: Restore) {
    (k >= 1 ==> l.secret.None?) && (k >= 2 ==> l.dest.None?)
  }

  lemma {:induction false} DeleteAllKeeps(l: Restore, k: nat, e: Env)
    requires Good(l) && l.cr.status.phase == Cleanup && k <= |CLEANUP_KINDS| && Erased(k, l)
    ensures var o := DeleteAll(l, CLEANUP_KINDS[k..], e);
            && Path(e, l, o.trail, o.l) && o.l.cr == l.cr && o.l.slots == l.slots
            && (o.flow == Continue ==> OwnsNothing(o.l))
            && o.flow != Wait
            && (Delete(SecretKind) !in e.faults && Delete(DestKind) !in e.faults ==> o.flow == Continue)
    decreases |CLEANUP_KINDS| - k
  {
    if k < |CLEANUP_KINDS| {
      var kind := CLEANUP_KINDS[k];
      assert CLEANUP_KINDS[k..][0] == kind;
      assert CLEANUP_KINDS[k..][1..] == CLEANUP_KINDS[k + 1..];
      if Delete(kind) !in e.faults {
        var l1 := Erase(l, kind);
        assert Good(l1) && Advance(e, l, l1) && Erased(k + 1, l1);
        PathOne(e, l, l1);
        DeleteAllKeeps(l1, k + 1, e);
        var rest := DeleteAll(l1, CLEANUP_KINDS[k + 1..], e);
        PathConcat(e, l, [l1], l1, rest.trail, rest.l);
      }
    }
  }

  /** Cleanup, in a batch or under deletion: when it succeeds, nothing is owned any more. */
  lemma CleanKeeps(l: Restore, e: Env)
    requires Good(l) && (l.cr.deleting || !Terminal(l.cr.status.phase))
    ensures var o := CleanStep(l, e);
            && Path(e, l, o.trail, o.l) && o.l.slots == l.slots
            && (o.flow == Continue ==> OwnsNothing(o.l) && o.l.cr.status.phase == if l.cr.deleting then Cleanup else Completed)
            && (o.flow == Wait ==> o.l == l && !l.cr.deleting)
            && o.l.cr.status == l.cr.status.(phase := o.l.cr.status.phase)
            && (l.cr.deleting ==> o.l.cr.status.phase in {l.cr.status.phase, Cleanup})
            && (o.l.cr.status.phase == Completed && l.cr.status.phase != Completed ==> o.flow == Continue)
  {
    var st := l.cr.status;
    if Get(Clean) in e.faults || (st.phase !in {VolSyncDone, Failed, PartiallyFailed} && !l.cr.deleting)
       || CleanupWrite in e.faults {
    } else {
      var l1 := Status(l, st.(phase := Cleanup));
      assert Advance(e, l, l1) && Good(l1);
      PathOne(e, l, l1);
      assert CLEANUP_KINDS[0..] == CLEANUP_KINDS;
      DeleteAllKeeps(l1, 0, e);
      var gone := DeleteAll(l1, CLEANUP_KINDS, e);
      PathConcat(e, l, [l1], l1, gone.trail, gone.l);
      PathEnds(e, l1, gone.trail, gone.l);
      if gone.flow == Continue && GetAgain !in e.faults && !l.cr.deleting && CompletedWrite !in e.faults {
        var l2 := Status(gone.l, gone.l.cr.status.(phase := Completed));
        assert Advance(e, gone.l, l2) && Good(l2);
        PathOne(e, gone.l, l2);
        PathConcat(e, l, [l1] + gone.trail, gone.l, [l2], l2);
      }
    }
  }

  lemma BatchSuffix(i: nat)
    requires i < |BATCH|
    ensures BATCH[i..] != [] && BATCH[i..][0] == BATCH[i] && BATCH[i..][1..] == BATCH[i + 1..]
    ensures if i < |CREATION| then BATCH[i] == CREATION[i] else i == 4 && BATCH[i] == Clean && BATCH[i + 1..] == []
  {
  }

  /** A batch that completes a restore has recorded where its data is, through the destination that was
      there when the batch began. */
  lemma {:induction false} BatchKeeps(i: nat, l: Restore, e: Env)
    requires i < |BATCH| && Working(i, l, e)
    ensures var o := RunBatch(BATCH[i..], l, e);
            && Path(e, l, o.trail, o.l) && o.l.slots == l.slots
            && o.l.cr.status.batching == l.cr.status.batching
            && (o.l.cr.status.phase == Completed <==> o.flow == Continue)
            && (o.flow == Continue ==> OwnsNothing(o.l) && RecordedFrom(e, l.dest, l.cr.spec.protectedNs, o.l.cr.status))
            && (o.l.cr.status.batching == Queued && o.l.dest.Some? ==> o.l.dest.value.status.None?)
    decreases |BATCH| - i
  {
    hide CleanStep;
    var o := Run(BATCH[i], l, e);
    BatchSuffix(i);
    if i < |CREATION| {
      StepKeeps(i, l, e);
      StepPhase(i, l, e);
      if o.flow == Continue {
        BatchKeeps(i + 1, o.l, e);
        var rest := RunBatch(BATCH[i + 1..], o.l, e);
        PathConcat(e, l, o.trail, o.l, rest.trail, rest.l);
      }
    } else {
      CleanKeeps(l, e);
      assert o.trail + [] == o.trail;
      PathEnds(e, l, o.trail, o.l);
    }
  }

  lemma StepPhase(i: nat, l: Restore, e: Env)
    requires i < |CREATION| && Working(i, l, e)
    ensures var o := Run(CREATION[i], l, e);
            && o.l.cr.spec == l.cr.spec
            && o.l.cr.status.batching == l.cr.status.batching
            && o.l.cr.status.phase in {l.cr.status.phase, Failed}
  {
  }

  /******* The rest of a pass *******/

  lemma QueueKeeps(l: Restore, processing: int, batch: int, e: Env)
    requires Good(l) && l.cr.finalizer
    ensures var q := QueueStep(l, processing, batch, e);
            && Path(e, l, q.trail, q.l)
            && q.l.cr.status.phase == l.cr.status.phase && q.l.dest == l.dest && q.l.cr.spec == l.cr.spec && SameRecord(l, q.l)
            && (q.flow == Continue && !l.cr.deleting && !Terminal(l.cr.status.phase) ==> Working(0, q.l, e))
  {
  }

  /** The copy that a pass has changed but not stored is always stale: admission has moved the version. */
  lemma QueuedCopyIsStale(l: Restore, processing: int, batch: int, e: Env)
    requires Good(l) && l.cr.finalizer
    ensures var q := QueueStep(l, processing, batch, e);
            var copy := QueuedCopy(l.cr, processing, batch);
            q.flow == Continue ==> copy.rv == l.cr.rv <= q.l.cr.rv && (copy.rv == q.l.cr.rv ==> copy == q.l.cr)
  {
  }

  lemma ConditionKeeps(l: Restore, copy: Vsr, ok: bool, e: Env)
    requires Good(l) && (copy.rv == l.cr.rv ==> copy == l.cr)
    ensures var o := ConditionStep(l, copy, ok, e);
            && Path(e, l, o.trail, o.l)
            && o.l.cr.status == l.cr.status.(reconciled := o.l.cr.status.reconciled)
            && o.l == l.(cr := o.l.cr)
  {
  }

  lemma StatusKeeps(l: Restore, e: Env)
    requires Good(l) && l.cr.finalizer && !l.cr.deleting
    requires l.cr.status.batching == Queued && l.dest.Some? ==> l.dest.value.status.None?
    ensures var o := StatusStep(l, e);
            && Path(e, l, o.trail, o.l)
            && (o.flow == Continue ==> l.cr.status.phase != Completed)
            && (o.l.cr.status.phase == Completed ==> o.l == l)
  {
    hide Advance, Good;
    var o := StatusStep(l, e);
    if GetStatus in e.faults || GetVeleroRestore in e.faults || e.velero == Missing {
    } else if e.velero == Broken {
      if o.trail != [] {
        BrokenKeeps(l, e);
        PathOne(e, l, o.l);
      }
    } else if l.cr.status.phase in {Failed, PartiallyFailed, VolSyncDone} || GetDest in e.faults
              || l.dest.None? || l.dest.value.status.None? {
    } else {
      StatusFromDestKeeps(l, l.dest.value, e);
    }
  }

  lemma BrokenKeeps(l: Restore, e: Env)
    requires Good(l) && l.cr.finalizer && !l.cr.deleting && e.velero == Broken && StatusStep(l, e).trail != []
    ensures var o := StatusStep(l, e);
            && o.trail == [o.l] && Good(o.l) && Advance(e, l, o.l) && o.l.cr.status.phase == PartiallyFailed
            && o.flow == Fail
  {
  }

  lemma StatusFromDestKeeps(l: Restore, d: RepDest, e: Env)
    requires Good(l) && l.cr.finalizer && !l.cr.deleting && l.dest == Some(d) && d.status.Some?
    requires l.cr.status.phase !in {VolSyncDone, Failed, PartiallyFailed} && l.cr.status.batching != Queued
    ensures var o := StatusFromDest(l, d, e);
            && Path(e, l, o.trail, o.l)
            && l.cr.status.phase != Completed && o.l.cr.status.phase != Completed
  {
    var o := StatusFromDest(l, d, e);
    SyncErrorNeverSeen(d.status.value.conditions);
    if |o.trail| == 1 {
      PathOne(e, l, o.l);
    } else if |o.trail| == 2 {
      PathTwo(e, l, o.trail[0], o.l);
    }
  }

  lemma WorkKeeps(l: Restore, copy: Vsr, batch: int, e: Env)
    requires Working(0, l, e) && copy.rv <= l.cr.rv && (copy.rv == l.cr.rv ==> copy == l.cr)
    ensures var o := WorkBranch(l, copy, batch, e);
            && o.l.Some? && Path(e, l, o.trail, o.l.value) && o.result != Quiet
            && (o.l.value.cr.status.phase == Completed ==> RecordedFrom(e, l.dest, l.cr.spec.protectedNs, o.l.value.cr.status))
  {
    hide StatusStep, RunBatch, Advance, Good, RecordedFrom;
    assert BATCH[0..] == BATCH;
    var work := RunBatch(BATCH, l, e);
    BatchKeeps(0, l, e);
    PathEnds(e, l, work.trail, work.l);
    var cond := ConditionStep(work.l, copy, work.flow != Fail, e);
    ConditionKeeps(work.l, copy, work.flow != Fail, e);
    PathEnds(e, work.l, cond.trail, cond.l);
    StatusKeeps(cond.l, e);
    var status := StatusStep(cond.l, e);
    PathConcat(e, l, work.trail, work.l, cond.trail, cond.l);
    PathConcat(e, l, work.trail + cond.trail, cond.l, status.trail, status.l);
  }

  predicate SameRecord(l: Restore, m: Restore) {
    m.cr.status.handle == l.cr.status.handle && m.cr.status.vscName == l.cr.status.vscName
  }

  lemma DeletionKeeps(l: Restore, copy: Vsr, batch: int, e: Env)
    requires Good(l) && l.cr.finalizer && l.cr.deleting
    ensures var o := DeletionBranch(l, copy, batch, e);
            && (o.l.Some? ==> Path(e, l, o.trail, o.l.value) && o.result == Retry && SameRecord(l, o.l.value)
                              && (o.l.value.cr.status.phase == Completed ==> l.cr.status.phase == Completed))
            && (o.l.None? ==> Path(e, l, o.trail, Last(l, o.trail)) && OwnsNothing(Last(l, o.trail)) && o.result == Quiet)
  {
    hide CleanStep, Advance;
    var l1 := l.(slots := l.slots - Freed(copy));
    CleanKeeps(l1, e);
    var c := CleanStep(l1, e);
    PathSlots(e, l1, c.trail, c.l, l.slots);
    assert l1.(slots := l.slots) == l;
    PathToLast(e, l, c.trail, c.l);
  }

  lemma AdmittedKeeps(l: Restore, processing: int, batch: int, e: Env)
    requires Good(l) && l.cr.finalizer && (l.cr.deleting || !Terminal(l.cr.status.phase))
    ensures var o := Admitted(l, processing, batch, e);
            && (o.l.Some? ==> Path(e, l, o.trail, o.l.value) && o.result != Quiet
                              && (l.cr.deleting ==> SameRecord(l, o.l.value))
                              && (l.cr.deleting && o.l.value.cr.status.phase == Completed ==> l.cr.status.phase == Completed)
                              && (o.l.value.cr.status.phase == Completed && l.cr.status.phase != Completed ==>
                                    RecordedFrom(e, l.dest, l.cr.spec.protectedNs, o.l.value.cr.status)))
            && (o.l.None? ==> Path(e, l, o.trail, Last(l, o.trail)) && OwnsNothing(Last(l, o.trail))
                              && l.cr.deleting && o.result == Quiet)
  {
    hide DeletionBranch, WorkBranch, Advance, Good;
    var q := QueueStep(l, processing, batch, e);
    var copy := QueuedCopy(l.cr, processing, batch);
    QueueKeeps(l, processing, batch, e);
    PathEnds(e, l, q.trail, q.l);
    if q.flow == Continue {
      QueuedCopyIsStale(l, processing, batch, e);
      if l.cr.deleting {
        DeletionKeeps(q.l, copy, batch, e);
        var rest := DeletionBranch(q.l, copy, batch, e);
        var m := if rest.l.Some? then rest.l.value else Last(q.l, rest.trail);
        PathConcat(e, l, q.trail, q.l, rest.trail, m);
        if rest.l.None? {
          PathToLast(e, l, q.trail + rest.trail, m);
        }
      } else {
        WorkKeeps(q.l, copy, batch, e);
        var rest := WorkBranch(q.l, copy, batch, e);
        PathConcat(e, l, q.trail, q.l, rest.trail, rest.l.value);
      }
    }
  }

  /** Every write of a pass advances the restore and keeps it good, whichever calls fail, under deletion or
      not; a restore leaves the cluster only when it owns nothing; and one that becomes Completed carries
      the name and handle of a ready content reached through its own destination. */
  lemma PassIsSafe(l: Restore, processing: int, batch: int, e: Env)
    requires Good(l)
    ensures var o := Pass(l, processing, batch, e);
            && (o.l.Some? ==>
                  && Path(e, l, o.trail, o.l.value)
                  && (l.cr.deleting || Terminal(l.cr.status.phase) ==> SameRecord(l, o.l.value))
                  && (l.cr.deleting && o.l.value.cr.status.phase == Completed ==> l.cr.status.phase == Completed)
                  && (o.l.value.cr.status.phase == Completed && l.cr.status.phase != Completed ==>
                        RecordedFrom(e, l.dest, l.cr.spec.protectedNs, o.l.value.cr.status)))
            && (o.l.None? ==> Path(e, l, o.trail, Last(l, o.trail)) && OwnsNothing(Last(l, o.trail)))
  {
    hide Admitted;
    var (size, known) := BatchSize(batch, e.batch);
    if Fetch in e.faults || !known || (Terminal(l.cr.status.phase) && !l.cr.deleting) {
    } else if !l.cr.finalizer {
      var o := Pass(l, processing, batch, e);
      if o.trail != [] {
        PathOne(e, l, o.l.value);
      }
    } else {
      AdmittedKeeps(l, processing, size, e);
    }
  }

  lemma {:induction false} PathAt(e: Env, l: Restore, trail: seq<Restore>, m: Restore, k: nat)
    requires Path(e, l, trail, m) && k < |trail|
    ensures Good(trail[k]) && Advance(e, Last(l, trail[..k]), trail[k])
    ensures Last(l, trail[..k]).cr.deleting == l.cr.deleting
    decreases k
  {
    if k > 0 {
      PathAt(e, trail[0], trail[1..], m, k - 1);
      assert Last(trail[0], trail[1..][..k - 1]) == Last(l, trail[..k]);
    }
  }

  /** The same, write by write: the k-th write of a pass follows an edge of the phase automaton and reverts
      nothing; and a destination lacks its secret only once its data has moved or under deletion. */
  lemma EveryWrite(l: Restore, processing: int, batch: int, e: Env, k: nat)
    requires Good(l) && k < |Pass(l, processing, batch, e).trail|
    ensures var trail := Pass(l, processing, batch, e).trail;
            && Advance(e, Last(l, trail[..k]), trail[k])
            && PhaseEdge(l.cr.deleting, Last(l, trail[..k]).cr.status.phase, trail[k].cr.status.phase)
            && (trail[k].dest.Some? && trail[k].secret.None? ==> l.cr.deleting || trail[k].cr.status.batching == BatchDone)
  {
    hide Pass;
    var o := Pass(l, processing, batch, e);
    PassIsSafe(l, processing, batch, e);
    PathAt(e, l, o.trail, if o.l.Some? then o.l.value else Last(l, o.trail), k);
  }

  /** No wake-up is lost: a pass asks for no further one exactly when the restore is gone, or when it
      found it in a terminal phase, not deleted, and left it alone. */
  lemma NoLostWakeUp(l: Restore, processing: int, batch: int, e: Env)
    requires Good(l)
    ensures var o := Pass(l, processing, batch, e);
            o.result == Quiet <==>
            || o.l.None?
            || (Fetch !in e.faults && BatchSize(batch, e.batch).1
                && Terminal(l.cr.status.phase) && !l.cr.deleting)
    ensures var o := Pass(l, processing, batch, e);
            o.result == Quiet && o.l.Some? ==> o.l.value == l && Terminal(l.cr.status.phase) && !l.cr.deleting
  {
    hide Admitted;
    var (size, known) := BatchSize(batch, e.batch);
    if Fetch in e.faults || !known || (Terminal(l.cr.status.phase) && !l.cr.deleting) || !l.cr.finalizer {
    } else {
      AdmittedKeeps(l, processing, size, e);
    }
  }
}
