/** Whole Reconcile passes over one backup: safety at every write, wake-ups, and the slot count. */
module BackupPass {
  import opened Prelude
  import opened Api
  import opened BackupModel
  import opened BackupSafety

  /** The record as the last write of a pass leaves it. */
  function Last(l: Backup, trail: seq<Backup>): Backup {
    if trail == [] then l else trail[|trail| - 1]
  }

  lemma {:induction false} PathLast(e: Env, l: Backup, trail: seq<Backup>, m: Backup)
    requires Path(e, l, trail, m)
    ensures m.(slots := 0) == Last(l, trail).(slots := 0)
    decreases |trail|
  {
    if trail != [] {
      PathLast(e, trail[0], trail[1..], m);
    }
  }

  lemma QueueKeeps(l: Backup, processing: int, batch: int, e: Env)
    requires Good(l) && l.cr.finalizer
    ensures var q := QueueStep(l, processing, batch, e);
            && Path(e, l, q.trail, q.l)
            && q.l.cr.status.phase == l.cr.status.phase
            && (q.flow == Continue && !l.cr.deleting && !Terminal(l.cr.status.phase) ==> Working(0, q.l))
  {
    hide Advance;
    var q := QueueStep(l, processing, batch, e);
    if q.trail != [] {
      QueuePath(l, q.l, e);
    }
  }

  lemma QueuePath(l: Backup, m: Backup, e: Env)
    requires Good(l) && l.cr.finalizer && l.cr.status.batching in {NotBatched, Queued}
    requires m.cr.status.batching in {Queued, Processing} && m.cr.status.batching != l.cr.status.batching
    requires m == Status(l, l.cr.status.(batching := m.cr.status.batching)).(slots := m.slots)
    ensures Good(m) && Path(e, l, [m], m)
  {
    PathOne(e, l, m);
  }

  /** The stale copy of a backup can only be written when it is not stale, and then it changes nothing
      but the condition: whatever the steps in between wrote stays. */
  lemma ConditionKeeps(l: Backup, copy: Vsb, ok: bool, e: Env)
    requires Good(l) && (copy.rv == l.cr.rv ==> copy == l.cr)
    ensures var o := ConditionStep(l, copy, ok, e);
            && Path(e, l, o.trail, o.l)
            && o.l.cr.status == l.cr.status.(reconciled := o.l.cr.status.reconciled)
            && o.l == l.(cr := o.l.cr)
  {
  }

  lemma StatusFromSourceKeeps(l: Backup, s: RepSource, e: Env)
    requires Good(l) && l.cr.finalizer && !l.cr.deleting && l.src == Some(s) && s.status.Some?
    requires l.cr.status.phase !in {VolSyncDone, Failed, PartiallyFailed}
    ensures var o := StatusFromSource(l, s, e);
            Path(e, l, o.trail, o.l) && o.flow != Continue
  {
    hide DoneWork, LastFalse;
    var o := StatusFromSource(l, s, e);
    SyncErrorNeverSeen(s.status.value.conditions);
    if SourceFinished(s) && l.cr.status.phase != Completed {
      DoneKeeps(l, s, e);
    } else if |o.trail| == 1 {
      PathOne(e, l, o.l);
    }
  }

  lemma DoneKeeps(l: Backup, s: RepSource, e: Env)
    requires Good(l) && l.cr.finalizer && !l.cr.deleting && l.src == Some(s) && SourceFinished(s)
    requires l.cr.status.phase in {NoPhase, InProgress, Cleanup}
    ensures var o := DoneWork(l, s, e);
            Path(e, l, o.trail, o.l) && o.flow != Continue
  {
    var o := DoneWork(l, s, e);
    if |o.trail| == 1 {
      PathOne(e, l, o.l);
    } else if |o.trail| == 2 {
      PathTwo(e, l, o.trail[0], o.l);
    }
  }

  lemma StatusKeeps(l: Backup, e: Env)
    requires Good(l) && l.cr.finalizer && !l.cr.deleting
    ensures var o := StatusStep(l, e);
            && Path(e, l, o.trail, o.l)
            && (o.flow == Continue ==> l.cr.status.phase == VolSyncDone && l.src.Some?)
  {
    var o := StatusStep(l, e);
    if GetStatus in e.faults || GetVeleroBackup in e.faults || e.velero == Missing {
    } else if e.velero == Broken {
      if o.trail != [] {
        PathOne(e, l, o.l);
      }
    } else if l.cr.status.phase in {Failed, PartiallyFailed, VolSyncDone} || GetSource in e.faults
              || l.src.None? || l.src.value.status.None? {
    } else {
      StatusFromSourceKeeps(l, l.src.value, e);
    }
  }

  /** When the batch returns true its last step has cleaned up, and the phase is Completed. */
  lemma {:induction false} BatchDoneMeansClean(i: nat, l: Backup, e: Env)
    requires i < |BATCH| && Working(i, l)
    ensures var o := RunBatch(BATCH[i..], l, e);
            o.flow == Continue ==> o.l.cr.status.phase == Completed && OwnsNothing(o.l)
    decreases |BATCH| - i
  {
    hide Path, Linked, Layered, ValidateStep, MirrorContentStep, MirrorPvcStep, CreateSecretStep, CreateSourceStep;
    var o := Run(BATCH[i], l, e);
    BatchSuffix(i);
    if i < |CREATION| {
      StepKeeps(i, l, e);
      if o.flow == Continue {
        BatchDoneMeansClean(i + 1, o.l, e);
      }
    } else {
      CleanKeeps(l, e);
    }
  }

  lemma BatchFromStart(l: Backup, e: Env)
    requires Working(0, l)
    ensures var o := RunBatch(BATCH, l, e);
            && Path(e, l, o.trail, o.l)
            && (o.flow == Continue ==> o.l.cr.status.phase == Completed && OwnsNothing(o.l))
  {
    assert BATCH[0..] == BATCH;
    BatchKeeps(0, l, e);
    BatchDoneMeansClean(0, l, e);
  }

  lemma WorkKeeps(l: Backup, copy: Vsb, batch: int, e: Env)
    requires Working(0, l) && copy.rv <= l.cr.rv && (copy.rv == l.cr.rv ==> copy == l.cr)
    ensures var o := WorkBranch(l, copy, batch, e);
            o.l.Some? && Path(e, l, o.trail, o.l.value) && o.result != Quiet
  {
    hide StatusStep, Advance, RunBatch, Linked, Layered;
    var work := RunBatch(BATCH, l, e);
    BatchFromStart(l, e);
    PathEnds(e, l, work.trail, work.l);
    var cond := ConditionStep(work.l, copy, work.flow != Fail, e);
    ConditionKeeps(work.l, copy, work.flow != Fail, e);
    PathEnds(e, work.l, cond.trail, cond.l);
    StatusKeeps(cond.l, e);
    var status := StatusStep(cond.l, e);
    PathConcat(e, l, work.trail, work.l, cond.trail, cond.l);
    PathConcat(e, l, work.trail + cond.trail, cond.l, status.trail, status.l);
  }

  lemma CleanKeepsAnySlots(l: Backup, slots: int, e: Env)
    requires Good(l) && l.cr.deleting
    ensures var c := CleanStep(l.(slots := slots), e);
            && Path(e, l, c.trail, c.l) && c.flow != Wait
            && Path(e, l, c.trail, Last(l, c.trail))
            && (c.flow == Continue ==> OwnsNothing(Last(l, c.trail)))
  {
    var l1 := l.(slots := slots);
    CleanKeeps(l1, e);
    var c := CleanStep(l1, e);
    PathSlots(e, l1, c.trail, c.l, l.slots);
    assert l1.(slots := l.slots) == l;
    PathToLast(e, l, c.trail, c.l);
    PathLast(e, l, c.trail, c.l);
  }

  lemma FinishKeeps(l: Backup, c: Out, copy: Vsb, batch: int, e: Env)
    requires Path(e, l, c.trail, c.l) && Path(e, l, c.trail, Last(l, c.trail)) && c.flow != Wait
    requires c.flow == Continue ==> OwnsNothing(Last(l, c.trail))
    ensures var o := FinishDeletion(c, copy, batch, e);
            && (o.l.Some? ==> Path(e, l, o.trail, o.l.value) && o.result == Retry)
            && (o.l.None? ==> Path(e, l, o.trail, Last(l, o.trail)) && OwnsNothing(Last(l, o.trail)) && o.result == Quiet)
  {
  }

  lemma DeletionKeeps(l: Backup, copy: Vsb, batch: int, e: Env)
    requires Good(l) && l.cr.finalizer && l.cr.deleting
    ensures var o := DeletionBranch(l, copy, batch, e);
            && (o.l.Some? ==> Path(e, l, o.trail, o.l.value) && o.result == Retry)
            && (o.l.None? ==> Path(e, l, o.trail, Last(l, o.trail)) && OwnsNothing(Last(l, o.trail)) && o.result == Quiet)
  {
    hide CleanStep;
    CleanKeepsAnySlots(l, l.slots - Freed(copy), e);
    FinishKeeps(l, CleanStep(l.(slots := l.slots - Freed(copy)), e), copy, batch, e);
  }

  lemma {:induction false} PathToLast(e: Env, l: Backup, trail: seq<Backup>, m: Backup)
    requires Path(e, l, trail, m)
    ensures Path(e, l, trail, Last(l, trail))
    decreases |trail|
  {
    if trail != [] {
      PathToLast(e, trail[0], trail[1..], m);
      assert Last(trail[0], trail[1..]) == Last(l, trail);
    }
  }

  /** Every write of a pass advances the backup and keeps it good, whichever calls fail, under deletion
      or not; and a backup leaves the cluster only when it owns nothing. */
  lemma PassIsSafe(l: Backup, processing: int, batch: int, e: Env)
    requires Good(l)
    ensures var o := Pass(l, processing, batch, e);
            && (o.l.Some? ==> Path(e, l, o.trail, o.l.value))
            && (o.l.None? ==> Path(e, l, o.trail, Last(l, o.trail)) && OwnsNothing(Last(l, o.trail)))
  {
    var (size, known) := BatchSize(batch, e.batch);
    if Fetch in e.faults || !known || (Terminal(l.cr.status.phase) && !l.cr.deleting) {
    } else if !l.cr.finalizer {
      var o := Pass(l, processing, batch, e);
      if o.trail != [] {
        PathOne(e, l, o.l.value);
      }
    } else {
      AdmittedKeeps(l, processing, size, e);
    }
  }

  lemma AdmittedKeeps(l: Backup, processing: int, batch: int, e: Env)
    requires Good(l) && l.cr.finalizer && (l.cr.deleting || !Terminal(l.cr.status.phase))
    ensures var o := Admitted(l, processing, batch, e);
            && (o.l.Some? ==> Path(e, l, o.trail, o.l.value) && o.result != Quiet)
            && (o.l.None? ==> Path(e, l, o.trail, Last(l, o.trail)) && OwnsNothing(Last(l, o.trail))
                              && l.cr.deleting && o.result == Quiet)
  {
    hide DeletionBranch, WorkBranch, Advance, Linked, Layered;
    var q := QueueStep(l, processing, batch, e);
    QueueKeeps(l, processing, batch, e);
    PathEnds(e, l, q.trail, q.l);
    if q.flow == Continue {
      if l.cr.deleting {
        DeletionKeeps(q.l, l.cr, batch, e);
        var rest := DeletionBranch(q.l, l.cr, batch, e);
        var m := if rest.l.Some? then rest.l.value else Last(q.l, rest.trail);
        PathConcat(e, l, q.trail, q.l, rest.trail, m);
        if rest.l.None? {
          PathToLast(e, l, q.trail + rest.trail, m);
          PathLast(e, l, q.trail + rest.trail, m);
        }
      } else {
        WorkKeeps(q.l, l.cr, batch, e);
        var rest := WorkBranch(q.l, l.cr, batch, e);
        PathConcat(e, l, q.trail, q.l, rest.trail, rest.l.value);
      }
    }
  }

  lemma {:induction false} PathAt(e: Env, l: Backup, trail: seq<Backup>, m: Backup, k: nat)
    requires Path(e, l, trail, m) && k < |trail|
    ensures Good(trail[k]) && Advance(e, Last(l, trail[..k]), trail[k])
    ensures Last(l, trail[..k]).cr.deleting == l.cr.deleting
    decreases k
  {
    if k > 0 {
      PathAt(e, trail[0], trail[1..], m, k - 1);
      assert Last(trail[0], trail[1..][..k - 1]) == Last(l, trail[..k]);
    }
  }

  /** The same, write by write: the k-th write of a pass follows an edge of the phase automaton, reverts
      nothing, and leaves nothing dangling, also where the call after it fails. */
  lemma EveryWrite(l: Backup, processing: int, batch: int, e: Env, k: nat)
    requires Good(l) && k < |Pass(l, processing, batch, e).trail|
    ensures var trail := Pass(l, processing, batch, e).trail;
            && Advance(e, Last(l, trail[..k]), trail[k])
            && PhaseEdge(l.cr.deleting, Last(l, trail[..k]).cr.status.phase, trail[k].cr.status.phase)
            && (trail[k].src.Some? ==> trail[k].pvc.Some? && trail[k].pod.Some? && trail[k].snap.Some?
                                       && trail[k].vsc.Some? && trail[k].secret.Some?)
  {
    hide Pass;
    var o := Pass(l, processing, batch, e);
    PassIsSafe(l, processing, batch, e);
    var m := if o.l.Some? then o.l.value else Last(l, o.trail);
    PathAt(e, l, o.trail, m, k);
  }

  /** No wake-up is lost: a pass asks for no further one exactly when the backup is gone, or when it
      found it in a terminal phase, not deleted, and left it alone. */
  lemma NoLostWakeUp(l: Backup, processing: int, batch: int, e: Env)
    requires Good(l)
    ensures var o := Pass(l, processing, batch, e);
            o.result == Quiet <==>
            || o.l.None?
            || (Fetch !in e.faults && BatchSize(batch, e.batch).1
                && Terminal(l.cr.status.phase) && !l.cr.deleting)
    ensures var o := Pass(l, processing, batch, e);
            o.result == Quiet && o.l.Some? ==> o.l.value == l && Terminal(l.cr.status.phase) && !l.cr.deleting
  {
    var (size, known) := BatchSize(batch, e.batch);
    if Fetch in e.faults || !known || (Terminal(l.cr.status.phase) && !l.cr.deleting) || !l.cr.finalizer {
    } else {
      AdmittedKeeps(l, processing, size, e);
    }
  }
}
