/** From which states the termination theorem starts: from every state of every run without deletions, however
    many calls have failed on the way, in which those backups that have failed leave a slot free. */
module BackupOwing {
  import opened Prelude
  import opened Api
  import opened Secrets
  import opened BackupModel
  import opened BackupSafety
  import opened BackupPass
  import opened BackupSlots
  import opened BackupRuns
  import opened BackupVerdict
  import opened BackupProgress
  import opened BackupTermination

  lemma StepOwing(step: Step, l: Backup, e: Env)
    requires step != Clean && Owing(l)
    ensures Owing(Run(step, l, e).l)
  {
    hide CleanStep;
    StepAdmission(step, l, e);
    StepOutline(step, l, e);
  }

  lemma StepOutline(step: Step, l: Backup, e: Env)
    requires step != Clean
    ensures var m := Run(step, l, e).l;
            && m.cr.deleting == l.cr.deleting && m.cr.status.phase in {l.cr.status.phase, Failed}
            && (l.src.Some? ==> m.src.Some?)
  {
    hide CleanStep, SecretFor, BuiltSecret, NewSource, NewClaim, OptionsIn;
    if step != Validate {
      StepPhase(step, l, e);
    }
  }

  lemma CleanOwing(l: Backup, e: Env)
    requires Owing(l) && Good(l) && !Terminal(l.cr.status.phase)
    ensures Owing(CleanStep(l, e).l)
  {
    DeleteAllAdmission(Status(l, l.cr.status.(phase := Cleanup)), CLEANUP_KINDS, e);
  }

  lemma {:induction false} BatchOwing(i: nat, l: Backup, e: Env)
    requires i < |BATCH| && Working(i, l) && Owing(l)
    ensures Owing(RunBatch(BATCH[i..], l, e).l)
    decreases |BATCH| - i
  {
    hide Run, Owing, CleanStep;
    BatchSuffix(i);
    if i < |CREATION| {
      var o := Run(CREATION[i], l, e);
      StepKeeps(i, l, e);
      NotClean(i);
      StepOwing(CREATION[i], l, e);
      if o.flow == Continue {
        BatchOwing(i + 1, o.l, e);
      }
    } else {
      RunIsClean(l, e);
      CleanOwing(l, e);
    }
  }

  lemma NotClean(i: nat)
    requires i < |CREATION|
    ensures CREATION[i] != Clean
  {
  }

  lemma StatusOwing(l: Backup, e: Env)
    requires Good(l) && Owing(l) && !l.cr.deleting
    ensures Owing(StatusStep(l, e).l)
  {
    if l.src.Some? && l.src.value.status.Some? {
      SyncErrorNeverSeen(l.src.value.status.value.conditions);
    }
  }

  lemma QueueOwing(l: Backup, processing: int, batch: int, e: Env)
    requires Good(l) && Owing(l)
    ensures Owing(QueueStep(l, processing, batch, e).l)
  {
    hide Linked, Layered;
  }

  lemma WorkOwing(l: Backup, copy: Vsb, batch: int, e: Env)
    requires Working(0, l) && Owing(l) && copy.rv <= l.cr.rv && (copy.rv == l.cr.rv ==> copy == l.cr)
    ensures var o := WorkBranch(l, copy, batch, e);
            o.l.Some? && Owing(o.l.value)
  {
    hide StatusStep, RunBatch, Good, Advance;
    RunWhole(l, e);
    BatchOwing(0, l, e);
    BatchFromStart(l, e);
    var work := RunBatch(BATCH, l, e);
    PathEnds(e, l, work.trail, work.l);
    ConditionKeeps(work.l, copy, work.flow != Fail, e);
    var cond := ConditionStep(work.l, copy, work.flow != Fail, e);
    PathEnds(e, work.l, cond.trail, cond.l);
    StatusOwing(cond.l, e);
  }

  /** A pass keeps the bounds on slots, whichever of its calls fail. */
  lemma PassOwing(l: Backup, processing: int, batch0: int, e: Env)
    requires Good(l) && Owing(l)
    ensures var o := Pass(l, processing, batch0, e);
            o.l.Some? ==> Owing(o.l.value)
  {
    hide WorkBranch, DeletionBranch, Advance, Linked, Layered, QueueStep;
    PassIsSafe(l, processing, batch0, e);
    var o := Pass(l, processing, batch0, e);
    if o.l.Some? {
      PathEnds(e, l, o.trail, o.l.value);
    }
    var batch := BatchSize(batch0, e.batch).0;
    if Admits(l, batch0, e) && !l.cr.deleting {
      var q := QueueStep(l, processing, batch, e);
      QueueKeeps(l, processing, batch, e);
      QueueOwing(l, processing, batch, e);
      PathEnds(e, l, q.trail, q.l);
      if q.flow == Continue {
        WorkOwing(q.l, l.cr, batch, e);
      }
    }
  }

  ghost predicate AllOwing(s: System) {
    forall id :: id in s.vsbs ==> Owing(s.vsbs[id])
  }

  lemma NextOwing(s: System, ev: Event)
    requires Sound(s) && AllOwing(s)
    ensures AllOwing(Next(s, ev))
  {
    hide Pass, Good, Fresh;
    match ev
    case Reconcile(id, e) =>
      if id in s.vsbs {
        assert Good(s.vsbs[id]);
        PassOwing(s.vsbs[id], s.processing, s.batch, e);
      }
    case _ =>
  }

  /** In every run a backup that is not deleted holds no slot before admission and none after its data moved. */
  lemma {:induction false} RunOwing(run: seq<Event>)
    ensures AllOwing(Exec(run))
    decreases |run|
  {
    hide Next, AllOwing;
    if run == [] {
      NoneOwing();
    } else {
      RunOwing(run[..|run| - 1]);
      ExecSound(run[..|run| - 1]);
      NextOwing(Exec(run[..|run| - 1]), run[|run| - 1]);
    }
  }

  lemma NoneOwing()
    ensures AllOwing(INIT)
  {
  }

  ghost predicate Undeleted(s: System) {
    s.retired == 0 && forall id :: id in s.vsbs ==> !s.vsbs[id].cr.deleting
  }

  lemma NextUndeleted(s: System, ev: Event)
    requires Sound(s) && Undeleted(s) && !ev.Delete?
    ensures Undeleted(Next(s, ev))
  {
    hide Pass, Good, Fresh;
    match ev
    case Reconcile(id, e) =>
      if id in s.vsbs {
        StaysUndeleted(s, id, e);
      }
    case _ =>
  }

  lemma StaysUndeleted(s: System, id: Id, e: Env)
    requires Sound(s) && id in s.vsbs && !s.vsbs[id].cr.deleting
    ensures var o := Pass(s.vsbs[id], s.processing, s.batch, e);
            o.l.Some? && !o.l.value.cr.deleting
  {
    hide Pass;
    var l := s.vsbs[id];
    assert Good(l);
    PassIsSafe(l, s.processing, s.batch, e);
    PassStays(l, s.processing, s.batch, e);
    var o := Pass(l, s.processing, s.batch, e);
    PathEnds(e, l, o.trail, o.l.value);
  }

  lemma PassStays(l: Backup, processing: int, batch0: int, e: Env)
    requires !l.cr.deleting
    ensures Pass(l, processing, batch0, e).l.Some?
  {
    hide RunBatch, StatusStep, QueueStep;
  }

  lemma {:induction false} RunUndeleted(run: seq<Event>)
    requires forall k :: 0 <= k < |run| ==> !run[k].Delete?
    ensures Undeleted(Exec(run))
    decreases |run|
  {
    hide Next, Undeleted;
    if run == [] {
      NoneDeleted();
    } else {
      var before := run[..|run| - 1];
      forall k | 0 <= k < |before| ensures !before[k].Delete? {
        assert before[k] == run[k];
      }
      RunUndeleted(before);
      ExecSound(before);
      NextUndeleted(Exec(before), run[|run| - 1]);
    }
  }

  lemma NoneDeleted()
    ensures Undeleted(INIT)
  {
  }

  /** Where termination starts: any run without deletions, with any calls failing, has led to a live system if
      its backups have valid inputs or have failed, those that have failed leave a slot free, and the batch size
      is not negative. */
  lemma UndeletedRunIsLive(run: seq<Event>)
    requires forall k :: 0 <= k < |run| ==> !run[k].Delete?
    requires Exec(run).batch >= 0 && Room(Exec(run))
    requires forall id :: id in Exec(run).vsbs ==> ValidSpec(Exec(run).vsbs[id].cr.spec) || Lost(Exec(run).vsbs[id])
    ensures LiveSystem(Exec(run))
  {
    hide Exec, Owing, Good, Room;
    RunUndeleted(run);
    RunOwing(run);
    ExecSound(run);
  }

  /** Where nothing has failed there is room. */
  lemma NoneLostLeavesRoom(run: seq<Event>)
    requires forall k :: 0 <= k < |run| ==> !run[k].Delete?
    requires forall id :: id in Exec(run).vsbs ==> !Lost(Exec(run).vsbs[id])
    ensures Room(Exec(run))
  {
    hide Exec, Lost;
    RunUndeleted(run);
    var zero, lost := (l: Backup) => 0, (l: Backup) => if Lost(l) then l.slots else 0;
    SumZero(Exec(run).vsbs, zero);
    SumOrder(Exec(run).vsbs, lost, zero);
  }
}
