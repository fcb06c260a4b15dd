/** What failing calls leave behind: a cleanup that stops halfway, and a batch size that does not parse. */
module BackupFailures {
  import opened Prelude
  import opened Api
  import opened Fairness
  import opened BackupModel
  import opened BackupSafety
  import opened BackupPass
  import opened BackupSlots
  import opened BackupRuns
  import opened BackupVerdict
  import opened BackupProgress
  import opened BackupOwing
  import opened BackupThrough

  /******* Cleanup that stops halfway *******/

  lemma {:induction false} DeleteAllEnds(l: Backup, kinds: seq<Kind>, e: Env)
    ensures var o := DeleteAll(l, kinds, e);
            && (o.flow == Continue <==> forall k :: k in kinds ==> Call.Delete(k) !in e.faults)
            && (l.src.None? ==> o.l.src.None?) && o.l.cr == l.cr
    decreases |kinds|
  {
    if kinds != [] {
      DeleteAllEnds(Erase(l, kinds[0]), kinds[1..], e);
      assert forall k :: k in kinds <==> k == kinds[0] || k in kinds[1..];
    }
  }

  /** Some call after the deletion of the ReplicationSource fails. */
  predicate LaterCleanupFails(e: Env) {
    CompletedWrite in e.faults || exists k: Kind :: k != SourceKind && Call.Delete(k) in e.faults
  }

  lemma CleanStops(l: Backup, e: Env)
    requires l.cr.status.phase == VolSyncDone && !l.cr.deleting && l.src.Some?
    ensures var m := CleanStep(l, e).l;
            m.cr.status.phase == Cleanup && m.src.None? <==>
              {Get(Clean), CleanupWrite, Call.Delete(SourceKind)} !! e.faults && LaterCleanupFails(e)
  {
    var l1 := Status(l, l.cr.status.(phase := Cleanup));
    var rest := CLEANUP_KINDS[1..];
    assert CLEANUP_KINDS[0] == SourceKind && rest == [PvcKind, PodKind, SnapshotKind, ContentKind, SecretKind];
    assert forall k: Kind :: k in rest <==> k != SourceKind;
    DeleteAllEnds(Erase(l1, SourceKind), rest, e);
  }

  lemma {:induction false} CreationThenClean(i: nat, l: Backup, e: Env)
    requires i <= |CREATION| && RunBatch(CREATION[i..], l, e).flow == Continue
    ensures RunBatch(BATCH[i..], l, e).l == CleanStep(RunBatch(CREATION[i..], l, e).l, e).l
    decreases |CREATION| - i
  {
    hide Run, CleanStep;
    BatchSuffix(i);
    if i < |CREATION| {
      assert CREATION[i..][0] == CREATION[i] && CREATION[i..][1..] == CREATION[i + 1..];
      CreationThenClean(i + 1, Run(CREATION[i], l, e).l, e);
    } else {
      RunIsClean(l, e);
    }
  }

  lemma {:induction false} CreationKeeps(i: nat, l: Backup, e: Env)
    requires i <= |CREATION| && Working(i, l) && RunBatch(CREATION[i..], l, e).flow == Continue
    ensures var m := RunBatch(CREATION[i..], l, e).l;
            Good(m) && m.cr.status.phase == l.cr.status.phase && m.cr.deleting == l.cr.deleting && m.src.Some?
    decreases |CREATION| - i
  {
    hide Run;
    if i < |CREATION| {
      assert CREATION[i..][0] == CREATION[i] && CREATION[i..][1..] == CREATION[i + 1..];
      var o := Run(CREATION[i], l, e);
      StepKeeps(i, l, e);
      StepStaysLive(CREATION[i], l, e);
      PathEnds(e, l, o.trail, o.l);
      CreationKeeps(i + 1, o.l, e);
    }
  }

  lemma StepStaysLive(step: Step, l: Backup, e: Env)
    requires step != Clean && Run(step, l, e).flow == Continue
    ensures Run(step, l, e).l.cr.status.phase == l.cr.status.phase
  {
    if step != Validate {
      StepPhase(step, l, e);
    }
  }

  lemma StatusAfterClean(l: Backup, e: Env)
    requires l.cr.status.phase in {VolSyncDone, Cleanup, Completed}
    ensures var m := StatusStep(l, e).l;
            && m.src == l.src
            && (m.cr.status.phase == Cleanup && m.src.None?
                <==> l.cr.status.phase == Cleanup && l.src.None? && !PartiallyFails(e))
  {
    if l.src.Some? && l.src.value.status.Some? {
      SyncErrorNeverSeen(l.src.value.status.value.conditions);
    }
  }

  /** A batch that stops before cleanup leaves the phase, unless validation has failed the backup. */
  lemma {:induction false} StoppedBatch(i: nat, l: Backup, e: Env)
    requires i <= |CREATION| && RunBatch(CREATION[i..], l, e).flow != Continue
    ensures RunBatch(BATCH[i..], l, e).l.cr.status.phase in {l.cr.status.phase, Failed}
    decreases |CREATION| - i
  {
    hide Run;
    if i < |CREATION| {
      assert CREATION[i..][0] == CREATION[i] && CREATION[i..][1..] == CREATION[i + 1..];
      BatchSuffix(i);
      var o := Run(CREATION[i], l, e);
      NotClean(i);
      StepOutline(CREATION[i], l, e);
      if o.flow == Continue {
        StepStaysLive(CREATION[i], l, e);
        StoppedBatch(i + 1, o.l, e);
      }
    }
  }

  lemma StatusAfterStop(l: Backup, e: Env)
    requires l.cr.status.phase in {VolSyncDone, Failed}
    ensures StatusStep(l, e).l.cr.status.phase != Cleanup
  {
  }

  lemma HasObjects(l: Backup)
    requires Good(l) && l.src.Some?
    ensures Equipped(l)
  {
  }

  /** The calls of cleanup fail in such a way as to leave the backup without its ReplicationSource. */
  predicate StopsHalfway(e: Env) {
    && {Get(Clean), CleanupWrite, Call.Delete(SourceKind)} !! e.faults && LaterCleanupFails(e)
    && !PartiallyFails(e)
  }

  lemma HalfwayAfterCreation(l: Backup, processing: int, batch0: int, e: Env)
    requires Good(l) && Admits(l, batch0, e) && !l.cr.deleting && l.cr.status.phase == VolSyncDone && l.src.Some?
    ensures var o := Pass(l, processing, batch0, e);
            && o.l.Some?
            && (o.l.value.cr.status.phase == Cleanup && o.l.value.src.None? <==>
                  RunBatch(CREATION, l, e).flow == Continue && StopsHalfway(e))
  {
    hide StatusStep, RunBatch, CleanStep, Advance, Linked, Layered, LaterCleanupFails;
    var batch := BatchSize(batch0, e.batch).0;
    var q := QueueStep(l, processing, batch, e);
    QueueKeeps(l, processing, batch, e);
    assert q.l == l;
    assert CREATION[0..] == CREATION && BATCH[0..] == BATCH;
    var work := RunBatch(BATCH, l, e);
    BatchFromStart(l, e);
    PathEnds(e, l, work.trail, work.l);
    ConditionKeeps(work.l, l.cr, work.flow != Fail, e);
    var cond := ConditionStep(work.l, l.cr, work.flow != Fail, e).l;
    if RunBatch(CREATION, l, e).flow == Continue {
      CreationThenClean(0, l, e);
      CreationKeeps(0, l, e);
      var built := RunBatch(CREATION, l, e).l;
      CleanStops(built, e);
      CleanPhases(built, e);
      StatusAfterClean(cond, e);
    } else {
      StoppedBatch(0, l, e);
      StatusAfterStop(cond, e);
    }
  }

  /** In every run, a pass that is admitted over a backup whose data has moved leaves it in the phase Cleanup
      with its ReplicationSource gone, so that later passes have to build it again, if and only if the creation
      steps go through, the first two calls of cleanup do, a later one fails, and the Velero Backup has not
      failed. */
  lemma CleanupStopsHalfway(run: seq<Event>, id: Id, e: Env)
    requires id in Exec(run).vsbs && Exec(run).vsbs[id].cr.status.phase == VolSyncDone && !Exec(run).vsbs[id].cr.deleting
    requires Admits(Exec(run).vsbs[id], Exec(run).batch, e)
    ensures Equipped(Exec(run).vsbs[id])
    ensures var l, t := Exec(run).vsbs[id], Next(Exec(run), Reconcile(id, e));
            && id in t.vsbs
            && (t.vsbs[id].cr.status.phase == Cleanup && t.vsbs[id].src.None? <==> GoesThrough(l, e) && StopsHalfway(e))
  {
    hide Exec, Pass, GoesThrough, StopsHalfway, RunBatch, Admits;
    var s := Exec(run);
    var l := s.vsbs[id];
    ExecSound(run);
    RunOwing(run);
    DoneIsEquipped(s, id);
    CreationGoes(l, e);
    HalfwayAfterCreation(l, s.processing, s.batch, e);
  }

  lemma DoneIsEquipped(s: System, id: Id)
    requires Sound(s) && AllOwing(s) && id in s.vsbs && s.vsbs[id].cr.status.phase == VolSyncDone && !s.vsbs[id].cr.deleting
    ensures Good(s.vsbs[id]) && s.vsbs[id].src.Some? && Equipped(s.vsbs[id])
  {
    HasObjects(s.vsbs[id]);
  }

  lemma CleanPhases(l: Backup, e: Env)
    requires l.cr.status.phase == VolSyncDone
    ensures CleanStep(l, e).l.cr.status.phase in {VolSyncDone, Cleanup, Completed}
  {
    DeleteAllEnds(Status(l, l.cr.status.(phase := Cleanup)), CLEANUP_KINDS, e);
  }

  lemma StatusCompletes(l: Backup, e: Env)
    ensures var m := StatusStep(l, e).l;
            && (l.cr.status.phase != VolSyncDone && m.cr.status.phase == VolSyncDone ==> m.slots == l.slots - 1)
            && (m.cr.status.phase == Completed ==> l.cr.status.phase == Completed)
            && m.slots <= l.slots
  {
  }

  /** A batch that starts before the data has moved does not finish it. */
  lemma {:induction false} BatchNeverDone(i: nat, l: Backup, e: Env)
    requires i < |BATCH| && Working(i, l) && l.cr.status.phase != VolSyncDone
    ensures RunBatch(BATCH[i..], l, e).l.cr.status.phase in {l.cr.status.phase, Failed}
    decreases |BATCH| - i
  {
    hide Run, CleanStep;
    BatchSuffix(i);
    if i < |CREATION| {
      var o := Run(CREATION[i], l, e);
      StepKeeps(i, l, e);
      NotClean(i);
      StepOutline(CREATION[i], l, e);
      if o.flow == Continue {
        StepStaysLive(CREATION[i], l, e);
        BatchNeverDone(i + 1, o.l, e);
      }
    } else {
      RunIsClean(l, e);
      CleanWaits(l, e);
    }
  }

  lemma CleanWaits(l: Backup, e: Env)
    requires l.cr.status.phase !in {VolSyncDone, Failed, PartiallyFailed} && !l.cr.deleting
    ensures CleanStep(l, e).l == l
  {
  }

  /** Every completion takes one from the count, also that of a backup which gave its slot back long ago; and
      no pass gives one to a backup that is done. */
  lemma CompletionTakesOne(l: Backup, processing: int, batch0: int, e: Env)
    requires Good(l) && !l.cr.deleting && l.cr.status.batching == BatchDone
    ensures var o := Pass(l, processing, batch0, e);
            && o.l.Some? && o.slots == o.l.value.slots <= l.slots && o.l.value.cr.status.batching == BatchDone
            && !o.l.value.cr.deleting
            && (l.cr.status.phase != VolSyncDone ==>
                  && (o.l.value.cr.status.phase == VolSyncDone ==> o.slots == l.slots - 1 && Moved(l))
                  && (o.l.value.cr.status.phase == Completed ==> l.cr.status.phase == Completed))
  {
    hide StatusStep, RunBatch, Advance, Linked, Layered;
    var batch := BatchSize(batch0, e.batch).0;
    PassIsSafe(l, processing, batch0, e);
    PassStays(l, processing, batch0, e);
    var o := Pass(l, processing, batch0, e);
    PathEnds(e, l, o.trail, o.l.value);
    if Admits(l, batch0, e) {
      QueueKeeps(l, processing, batch, e);
      assert BATCH[0..] == BATCH;
      if l.cr.status.phase != VolSyncDone {
        BatchNeverDone(0, l, e);
      }
      BatchAdmission(BATCH, l, e);
      BatchFromStart(l, e);
      var work := RunBatch(BATCH, l, e);
      PathEnds(e, l, work.trail, work.l);
      ConditionKeeps(work.l, l.cr, work.flow != Fail, e);
      StatusCompletes(ConditionStep(work.l, l.cr, work.flow != Fail, e).l, e);
    }
  }

  /** After a cleanup that stopped halfway in any run, the second completion takes from the count again,
      although the backup holds nothing: the counter falls below the number of Processing backups by one more. */
  lemma SecondCompletion(run: seq<Event>, id: Id, e: Env)
    requires id in Exec(run).vsbs && Exec(run).vsbs[id].cr.status.phase == Cleanup && !Exec(run).vsbs[id].cr.deleting
    ensures var s, t := Exec(run), Next(Exec(run), Reconcile(id, e));
            && s.vsbs[id].slots <= 0 && id in t.vsbs
            && (t.vsbs[id].cr.status.phase == VolSyncDone ==>
                  t.processing == s.processing - 1 && Gap(t) == Gap(s) - 1 && t.vsbs[id].slots < 0)
  {
    hide Exec, Pass, Good, Linked, Layered;
    var s := Exec(run);
    ExecSound(run);
    RunOwing(run);
    CleanupIsDone(s, id);
    CompletionTakesOne(s.vsbs[id], s.processing, s.batch, e);
    PassDriftLaw(s.vsbs[id], s.processing, s.batch, e);
    Recount(s, Next(s, Reconcile(id, e)), id);
  }

  lemma CleanupIsDone(s: System, id: Id)
    requires Sound(s) && AllOwing(s) && id in s.vsbs && s.vsbs[id].cr.status.phase == Cleanup && !s.vsbs[id].cr.deleting
    ensures Good(s.vsbs[id]) && s.vsbs[id].cr.status.batching == BatchDone && s.vsbs[id].slots <= 0
  {
  }

  /******* A batch size that does not parse *******/

  lemma {:induction false} BatchSizeStays(s: System, events: seq<Event>)
    requires s.batch != 0
    ensures After(Next, s, events).batch == s.batch
    decreases |events|
  {
    if events != [] {
      BatchStays(s, events[0]);
      BatchSizeStays(Next(s, events[0]), events[1..]);
    }
  }

  /** A pass that reads a batch size which does not parse ends with an error and touches no backup, but the
      number that the parser returned stays: unless it is zero, every later pass works with it. */
  lemma BadBatchSizeStays(s: System, id: Id, e: Env, n: int, later: seq<Event>)
    requires id in s.vsbs && s.batch == 0 && Fetch !in e.faults && e.batch == BadValue(n)
    ensures Pass(s.vsbs[id], s.processing, s.batch, e).result == Retry
    ensures var t := Next(s, Reconcile(id, e));
            && t == s.(batch := n)
            && (n != 0 ==> After(Next, t, later).batch == n)
  {
    assert Next(s, Reconcile(id, e)).vsbs == s.vsbs;
    if n != 0 {
      BatchSizeStays(Next(s, Reconcile(id, e)), later);
    }
  }
}
