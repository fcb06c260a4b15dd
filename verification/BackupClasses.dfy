/** The snapshot class, over runs: that of the content clone, the one that the backup records for its restore, and
    the one that a live ReplicationSource has. */
module BackupClasses {
  import opened Prelude
  import opened Api
  import opened BackupModel
  import opened BackupSafety
  import opened BackupPass
  import opened BackupSlots
  import opened BackupRuns
  import opened BackupContents
  import opened BackupChain
  import opened BackupSources
  import BackupQueue

  /******* One pass *******/

  lemma StepKeepsContent(step: Step, l: Backup, e: Env)
    requires step != Clean && l.vsc.Some?
    ensures Run(step, l, e).l.vsc == l.vsc
  {
    hide SecretFor, BuiltSecret, NewSource, CleanStep;
  }

  lemma {:induction false} DeleteKeepsContent(l: Backup, kinds: seq<Kind>, e: Env)
    ensures DeleteAll(l, kinds, e).l.vsc in {None, l.vsc}
    decreases |kinds|
  {
    if kinds != [] {
      DeleteKeepsContent(Erase(l, kinds[0]), kinds[1..], e);
    }
  }

  lemma CleanKeepsContent(l: Backup, e: Env)
    ensures CleanStep(l, e).l.vsc in {None, l.vsc}
  {
    DeleteKeepsContent(Status(l, l.cr.status.(phase := Cleanup)), CLEANUP_KINDS, e);
  }

  lemma {:induction false} BatchKeepsContent(i: nat, l: Backup, e: Env)
    requires i < |BATCH| && l.vsc.Some?
    ensures RunBatch(BATCH[i..], l, e).l.vsc in {None, l.vsc}
    decreases |BATCH| - i
  {
    hide Run, CleanStep;
    BatchSuffix(i);
    if i < |CREATION| {
      StepKeepsContent(BATCH[i], l, e);
      if Run(BATCH[i], l, e).flow == Continue {
        BatchKeepsContent(i + 1, Run(BATCH[i], l, e).l, e);
      }
    } else {
      RunIsClean(l, e);
      CleanKeepsContent(l, e);
    }
  }

  /** A pass never puts another content clone in the place of one that is there. */
  lemma PassKeepsContent(l: Backup, processing: int, batch: int, e: Env)
    requires l.vsc.Some?
    ensures var o := Pass(l, processing, batch, e);
            o.l.Some? ==> o.l.value.vsc in {None, l.vsc}
  {
    hide RunBatch, StatusStep, CleanStep;
    var q := QueueStep(l, processing, BatchSize(batch, e.batch).0, e);
    assert q.l.vsc == l.vsc;
    assert BATCH[0..] == BATCH;
    BatchKeepsContent(0, q.l, e);
    CleanKeepsContent(q.l.(slots := q.l.slots - Freed(l.cr)), e);
    forall m: Backup ensures StatusStep(m, e).l.vsc == m.vsc {
      StatusKeepsContent(m, e);
    }
  }

  lemma StatusKeepsContent(l: Backup, e: Env)
    ensures StatusStep(l, e).l.vsc == l.vsc
  {
  }

  lemma StepKeepsClass(step: Step, l: Backup, e: Env)
    requires step !in {MirrorContent, Clean}
    ensures Run(step, l, e).l.cr.status.snapClass == l.cr.status.snapClass && Run(step, l, e).l.vsc.Some? == l.vsc.Some?
  {
    hide SecretFor, BuiltSecret, NewSource, CleanStep, MirrorContentStep;
  }

  lemma CleanKeepsClass(l: Backup, e: Env)
    ensures CleanStep(l, e).l.cr.status.snapClass == l.cr.status.snapClass
  {
    DeleteAllAdmission(Status(l, l.cr.status.(phase := Cleanup)), CLEANUP_KINDS, e);
  }

  lemma {:induction false} BatchKeepsClass(i: nat, l: Backup, e: Env)
    requires 2 <= i < |BATCH|
    ensures RunBatch(BATCH[i..], l, e).l.cr.status.snapClass == l.cr.status.snapClass
    decreases |BATCH| - i
  {
    hide Run, CleanStep;
    BatchSuffix(i);
    if i < |CREATION| {
      StepKeepsClass(BATCH[i], l, e);
      if Run(BATCH[i], l, e).flow == Continue {
        BatchKeepsClass(i + 1, Run(BATCH[i], l, e).l, e);
      }
    } else {
      RunIsClean(l, e);
      CleanKeepsClass(l, e);
    }
  }

  /** The class as it is recorded: once, from the clone that is there, or from the original about to be cloned. */
  predicate ClassWritten(e: Env, l: Backup, m: Backup) {
    m.cr.status.snapClass != l.cr.status.snapClass ==>
      && l.cr.status.snapClass == "" && e.original.Some?
      && m.cr.status.snapClass == if l.vsc.Some? then l.vsc.value.snapClass else e.original.value.snapClass
  }

  lemma BatchClass(l: Backup, e: Env)
    ensures ClassWritten(e, l, RunBatch(BATCH, l, e).l)
  {
    hide Run, MirrorContentStep, CleanStep;
    assert BATCH[0..] == BATCH;
    BatchSuffix(0);
    BatchSuffix(1);
    var o := Run(Validate, l, e);
    StepKeepsClass(Validate, l, e);
    if l.vsc.Some? {
      StepKeepsContent(Validate, l, e);
    }
    if o.flow == Continue {
      ContentClass(o.l, e);
      var p := Run(MirrorContent, o.l, e);
      if p.flow == Continue {
        BatchKeepsClass(2, p.l, e);
      }
    }
  }

  lemma ContentClass(l: Backup, e: Env)
    ensures ClassWritten(e, l, Run(MirrorContent, l, e).l)
  {
  }

  lemma WorkClass(l: Backup, copy: Vsb, batch: int, e: Env)
    requires Working(0, l) && copy.rv <= l.cr.rv && (copy.rv == l.cr.rv ==> copy == l.cr)
    ensures var o := WorkBranch(l, copy, batch, e);
            o.l.Some? && ClassWritten(e, l, o.l.value)
  {
    hide RunBatch, StatusStep, Good, Advance;
    var work := RunBatch(BATCH, l, e);
    BatchFromStart(l, e);
    assert Good(l) by { WorkingGood(l); }
    PathEnds(e, l, work.trail, work.l);
    BatchClass(l, e);
    ConditionKeeps(work.l, copy, work.flow != Fail, e);
    StatusKeepsClass(ConditionStep(work.l, copy, work.flow != Fail, e).l, e);
  }

  lemma WorkingGood(l: Backup)
    requires Working(0, l)
    ensures Good(l)
  {
  }

  lemma QueueKeepsClass(l: Backup, processing: int, batch: int, e: Env)
    ensures var q := QueueStep(l, processing, batch, e);
            q.l.cr.status.snapClass == l.cr.status.snapClass && q.l.vsc == l.vsc
  {
  }

  /** What a whole pass does to the recorded class. */
  lemma PassClass(l: Backup, processing: int, batch0: int, e: Env)
    requires Good(l)
    ensures var o := Pass(l, processing, batch0, e);
            o.l.Some? ==> ClassWritten(e, l, o.l.value)
  {
    hide WorkBranch, CleanStep, QueueStep, Good, Advance, Path, Working;
    var batch := BatchSize(batch0, e.batch).0;
    if Admits(l, batch0, e) {
      var q := QueueStep(l, processing, batch, e);
      QueueKeepsClass(l, processing, batch, e);
      QueueKeeps(l, processing, batch, e);
      PathEnds(e, l, q.trail, q.l);
      if q.flow == Continue {
        if l.cr.deleting {
          CleanKeepsClass(q.l.(slots := q.l.slots - Freed(l.cr)), e);
        } else {
          WorkClass(q.l, l.cr, batch, e);
        }
      }
    }
  }

  lemma StatusKeepsClass(l: Backup, e: Env)
    ensures StatusStep(l, e).l.cr.status.snapClass == l.cr.status.snapClass
  {
  }

  /******* Runs *******/

  /** One event: the clone stays, and the record with it unless it is still to be made; or this pass clones the
      original, of the class it reads, and records that class unless one is recorded already. */
  predicate ClassStep(e: Env, l: Backup, m: Backup) {
    && ClassKept(m) && ClassWritten(e, l, m)
    && (m.vsc.Some? ==>
          if l.vsc.Some? then m.vsc.value.snapClass == l.vsc.value.snapClass
          else e.original.Some? && m.vsc.value.snapClass == e.original.value.snapClass)
  }

  lemma PassClassStep(l: Backup, processing: int, batch: int, e: Env)
    requires Good(l) && ClassKept(l) && Pass(l, processing, batch, e).l.Some?
    ensures ClassStep(e, l, Pass(l, processing, batch, e).l.value)
  {
    hide Pass, Good, KeptOrBuilt, RecordedIn, ClassKept, ClassWritten;
    PassLeaves(l, processing, batch, e);
    PassClass(l, processing, batch, e);
    if l.vsc.Some? {
      PassKeepsContent(l, processing, batch, e);
    }
  }

  /** Nothing but a pass touches the record or makes a clone. */
  predicate SameClasses(l: Backup, m: Backup) {
    && m.cr.status.snapClass == l.cr.status.snapClass && (m.vsc.Some? <==> l.vsc.Some?)
    && (m.vsc.Some? ==> m.vsc.value.snapClass == l.vsc.value.snapClass)
  }

  lemma EventClasses(s: System, ev: Event, id: Id)
    requires Sound(s) && id in s.vsbs && id in Next(s, ev).vsbs && ClassKept(s.vsbs[id])
    ensures var l, m := s.vsbs[id], Next(s, ev).vsbs[id];
            ClassKept(m) && (SameClasses(l, m) || (ev.Reconcile? && ev.id == id && ClassStep(ev.e, l, m)))
  {
    hide Pass, Good;
    match ev
    case Reconcile(other, e) =>
      if other == id {
        SoundBackup(s, id);
        PassClassStep(s.vsbs[id], s.processing, s.batch, e);
      }
    case _ =>
  }

  /** In every run: a live ReplicationSource has the recorded class, and a clone with a class has one recorded. */
  lemma {:induction false} SourceHasRecordedClass(run: seq<Event>, n: nat, id: Id)
    requires At(run, n, id)
    ensures ClassKept(State(run, n, id))
    decreases n
  {
    hide Next, Exec, Sound, ClassKept;
    NoneAtStart(run);
    var s := Exec(run[..n - 1]);
    ExecSound(run[..n - 1]);
    ExecStep(run, n - 1);
    if id in s.vsbs {
      SourceHasRecordedClass(run, n - 1, id);
      EventClasses(s, run[n - 1], id);
    } else {
      NewKept(s, run[n - 1], id);
    }
  }

  lemma NewKept(s: System, ev: Event, id: Id)
    requires id !in s.vsbs && id in Next(s, ev).vsbs
    ensures ClassKept(Next(s, ev).vsbs[id])
  {
    hide Pass;
  }

  /** Pass `k` cloned an original of class `scName`; the clone has kept the class, and the record is from then on
      what it was before, or the class of the clone if it was empty. */
  ghost predicate ClassClonedBy(run: seq<Event>, k: nat, n: nat, id: Id, uid: nat, scName: string) {
    && k < n <= |run| && PassOver(run, k, id, uid)
    && run[k].e.original.Some? && run[k].e.original.value.snapClass == scName
    && forall j: nat :: k < j <= n ==>
         && At(run, j, id) && State(run, j, id).cr.uid == uid
         && State(run, j, id).vsc.Some? && State(run, j, id).vsc.value.snapClass == scName
         && State(run, j, id).cr.status.snapClass
            == if State(run, k, id).cr.status.snapClass == "" then scName else State(run, k, id).cr.status.snapClass
  }

  lemma {:induction false} ClassSinceCloning(run: seq<Event>, n: nat, id: Id)
    requires At(run, n, id) && State(run, n, id).vsc.Some?
    ensures exists k :: ClassClonedBy(run, k, n, id, State(run, n, id).cr.uid, State(run, n, id).vsc.value.snapClass)
    decreases n
  {
    hide Next, Exec, Sound;
    NoneAtStart(run);
    var m := State(run, n, id);
    var s := Exec(run[..n - 1]);
    ExecSound(run[..n - 1]);
    ExecStep(run, n - 1);
    EventBuilt(s, run[n - 1], id);
    EventKeeps(s, run[n - 1], id);
    SourceHasRecordedClass(run, n - 1, id);
    EventClasses(s, run[n - 1], id);
    if s.vsbs[id].vsc.Some? {
      ClassSinceCloning(run, n - 1, id);
      var k :| ClassClonedBy(run, k, n - 1, id, m.cr.uid, m.vsc.value.snapClass);
      assert ClassClonedBy(run, k, n, id, m.cr.uid, m.vsc.value.snapClass);
    } else {
      assert ClassClonedBy(run, n - 1, n, id, m.cr.uid, m.vsc.value.snapClass);
    }
  }

  /** Pass `k` recorded the class, of the clone that was there or of the original that it read, and it has stayed. */
  ghost predicate ClassRecordedBy(run: seq<Event>, k: nat, n: nat, id: Id, uid: nat, scName: string) {
    && k < n <= |run| && PassOver(run, k, id, uid) && State(run, k, id).cr.status.snapClass == ""
    && run[k].e.original.Some?
    && scName == (if State(run, k, id).vsc.Some? then State(run, k, id).vsc.value.snapClass
                  else run[k].e.original.value.snapClass)
    && forall j: nat :: k < j <= n ==>
         At(run, j, id) && State(run, j, id).cr.uid == uid && State(run, j, id).cr.status.snapClass == scName
  }

  lemma {:induction false} ClassSinceRecording(run: seq<Event>, n: nat, id: Id)
    requires At(run, n, id) && State(run, n, id).cr.status.snapClass != ""
    ensures exists k :: ClassRecordedBy(run, k, n, id, State(run, n, id).cr.uid, State(run, n, id).cr.status.snapClass)
    decreases n
  {
    hide Next, Exec, Sound;
    NoneAtStart(run);
    var m := State(run, n, id);
    var s := Exec(run[..n - 1]);
    ExecSound(run[..n - 1]);
    ExecStep(run, n - 1);
    RecordedBefore(s, run[n - 1], id);
    EventKeeps(s, run[n - 1], id);
    SourceHasRecordedClass(run, n - 1, id);
    EventClasses(s, run[n - 1], id);
    if s.vsbs[id].cr.status.snapClass == m.cr.status.snapClass {
      ClassSinceRecording(run, n - 1, id);
      var k :| ClassRecordedBy(run, k, n - 1, id, m.cr.uid, m.cr.status.snapClass);
      assert ClassRecordedBy(run, k, n, id, m.cr.uid, m.cr.status.snapClass);
    } else {
      assert ClassRecordedBy(run, n - 1, n, id, m.cr.uid, m.cr.status.snapClass);
    }
  }

  lemma RecordedBefore(s: System, ev: Event, id: Id)
    requires id in Next(s, ev).vsbs && Next(s, ev).vsbs[id].cr.status.snapClass != ""
    ensures id in s.vsbs
  {
    hide Pass;
  }

  /** The recorded class: in every run, the content clone is of the class of the original as the cloning pass read
      it; the recorded class is the clone's exactly when, before that pass, none was recorded or the same one
      was; and a live ReplicationSource has the recorded class. */
  lemma RecordedClass(run: seq<Event>, id: Id) returns (k: nat)
    requires At(run, |run|, id) && State(run, |run|, id).vsc.Some?
    ensures var l := State(run, |run|, id);
            && PassOver(run, k, id, l.cr.uid)
            && run[k].e.original.Some? && l.vsc.value.snapClass == run[k].e.original.value.snapClass
            && (l.cr.status.snapClass == l.vsc.value.snapClass
                <==> State(run, k, id).cr.status.snapClass in {"", run[k].e.original.value.snapClass})
            && (l.src.Some? ==> l.src.value.snapClass == l.cr.status.snapClass)
  {
    hide Exec;
    var l := State(run, |run|, id);
    SourceHasRecordedClass(run, |run|, id);
    ClassSinceCloning(run, |run|, id);
    k :| ClassClonedBy(run, k, |run|, id, l.cr.uid, l.vsc.value.snapClass);
  }

  /** So, if every pass over a backup that reads the original reads the same class, then its clone, its record and
      its ReplicationSource all have that class. */
  lemma ClassesAgree(run: seq<Event>, id: Id, scName: string)
    requires At(run, |run|, id) && State(run, |run|, id).vsc.Some?
    requires forall k: nat :: PassOver(run, k, id, State(run, |run|, id).cr.uid) && run[k].e.original.Some? ==>
               run[k].e.original.value.snapClass == scName
    ensures var l := State(run, |run|, id);
            && l.vsc.value.snapClass == l.cr.status.snapClass == scName
            && (l.src.Some? ==> l.src.value.snapClass == scName)
  {
    hide Exec;
    var l := State(run, |run|, id);
    var k := RecordedClass(run, id);
    if l.cr.status.snapClass != "" {
      ClassSinceRecording(run, |run|, id);
      var i :| ClassRecordedBy(run, i, |run|, id, l.cr.uid, l.cr.status.snapClass);
      if State(run, i, id).vsc.Some? {
        ClassSinceCloning(run, i, id);
        var j :| ClassClonedBy(run, j, i, id, l.cr.uid, State(run, i, id).vsc.value.snapClass);
      }
    } else {
      SourceHasRecordedClass(run, |run|, id);
    }
  }

  /******* Where they differ *******/

  /** Nothing fails, and the original is there to be cloned, of class `scName`. */
  predicate Clones(e: Env, scName: string) {
    && e.faults == {} && e.oneSnapClass && e.oneStorageClass && e.velero == Running && e.batch == Value(1)
    && e.original.Some? && e.original.value.snapClass == scName
    && e.original.value.status.Some? && e.original.value.status.value.ready == Some(true)
  }

  /** The pass that admits a backup records the class of the original, and then fails to clone it. */
  lemma RecordsThenFails(name: string, uid: nat, spec: BackupSpec, e: Env, scName: string)
    requires Clones(e, scName) && scName != "" && spec.vscName != "" && spec.protectedNs != ""
    ensures var l := BackupQueue.WithoutStatus(name, uid, spec);
            var o := Pass(l, 0, 1, e.(faults := {Put(ContentKind)}));
            && o.l.Some? && o.slots == 1 && o.batch == 1
            && o.l.value.cr.status == NEW_STATUS.(batching := Processing, start := Some(e.now), snapClass := scName)
            && o.l.value == l.(cr := o.l.value.cr, slots := 1) && o.l.value.cr.spec == spec
            && o.l.value.cr.finalizer && !o.l.value.cr.deleting
  {
    hide RunBatch, CleanStep;
    var f := e.(faults := {Put(ContentKind)});
    var q := QueueStep(BackupQueue.WithoutStatus(name, uid, spec), 0, 1, f).l;
    var v := ValidateStep(q, f);
    var c := MirrorContentStep(v.l, f);
    FirstTwo(q, f);
  }

  lemma FirstTwo(l: Backup, e: Env)
    requires ValidateStep(l, e).flow == Continue
    requires MirrorContentStep(ValidateStep(l, e).l, e).flow == Fail
    ensures RunBatch(BATCH, l, e).l == MirrorContentStep(ValidateStep(l, e).l, e).l
    ensures RunBatch(BATCH, l, e).flow == Fail
  {
    assert BATCH[0..] == BATCH;
    BatchSuffix(0);
    BatchSuffix(1);
  }

  /** The next one finds a class recorded, and clones the original as it is by then. */
  lemma ClonesAnother(l: Backup, e: Env, scName: string)
    requires Clones(e, scName) && l.cr.spec.vscName != "" && l.cr.spec.protectedNs != "" && l.vsc.None? && l.src.None?
    requires l.cr.status.batching == Processing && l.cr.status.start.Some? && l.cr.status.snapClass != ""
    requires l.cr.status.phase == NoPhase && l.cr.finalizer && !l.cr.deleting
    ensures var o := Pass(l, 1, 1, e);
            && o.l.Some? && o.l.value.cr.status.snapClass == l.cr.status.snapClass
            && o.l.value.vsc.Some? && o.l.value.vsc.value.snapClass == scName
  {
    hide RunBatch, CleanStep;
    FirstFour(l, e);
  }

  lemma FirstFour(l: Backup, e: Env)
    requires ValidateStep(l, e).flow == Continue && ValidateStep(l, e).l == l
    requires var c := MirrorContentStep(l, e);
             && c.flow == Continue && WaitForContentStep(c.l, e) == Stay(c.l, Continue)
             && MirrorSnapshotStep(c.l, e) == Stay(c.l, Wait)
    ensures RunBatch(BATCH, l, e).l == MirrorContentStep(l, e).l
    ensures RunBatch(BATCH, l, e).flow == Wait
  {
    assert BATCH[0..] == BATCH;
    BatchSuffix(0);
    BatchSuffix(1);
    BatchSuffix(2);
    BatchSuffix(3);
    var c := MirrorContentStep(l, e);
    assert RunBatch(BATCH[3..], c.l, e) == Stay(c.l, Wait);
    assert RunBatch(BATCH[2..], c.l, e).l == c.l && RunBatch(BATCH[2..], c.l, e).flow == Wait;
    assert RunBatch(BATCH[1..], l, e).l == c.l && RunBatch(BATCH[1..], l, e).flow == Wait;
  }

  /** The two classes can differ: a pass records one and fails to clone, the class of the original changes, and the
      next pass clones it as it is by then. */
  lemma ClassesDiffer(id: Id, spec: BackupSpec, e: Env, before: string, after: string) returns (run: seq<Event>)
    requires Clones(e, before) && before != "" && before != after && spec.vscName != "" && spec.protectedNs != ""
    ensures At(run, |run|, id)
    ensures var l := State(run, |run|, id);
            l.cr.status.snapClass == before && l.vsc.Some? && l.vsc.value.snapClass == after
  {
    hide Pass;
    var f, g := e.(faults := {Put(ContentKind)}), e.(original := Some(e.original.value.(snapClass := after)));
    run := [Create(id, spec), Reconcile(id, e), Reconcile(id, f), Reconcile(id, g)];
    var s1 := Next(INIT, run[0]);
    AddsFinalizer(s1.vsbs[id], e);
    var s2 := Next(s1, run[1]);
    RecordsThenFails(id.name, 0, spec, e, before);
    var s3 := Next(s2, run[2]);
    ClonesAnother(s3.vsbs[id], g, after);
    var s4 := Next(s3, run[3]);
    ExecFour(run, s1, s2, s3, s4);
    assert run[..|run|] == run;
  }

  lemma AddsFinalizer(l: Backup, e: Env)
    requires e.faults == {} && e.batch == Value(1) && l.cr.status == NEW_STATUS && !l.cr.finalizer
    ensures var o := Pass(l, 0, 0, e);
            o.l == Some(l.(cr := WithFinalizer(l.cr, true))) && o.slots == l.slots && o.batch == 1
  {
  }

  lemma ExecFour(run: seq<Event>, s1: System, s2: System, s3: System, s4: System)
    requires |run| == 4 && s1 == Next(INIT, run[0]) && s2 == Next(s1, run[1])
    requires s3 == Next(s2, run[2]) && s4 == Next(s3, run[3])
    ensures Exec(run) == s4
  {
    hide Next;
    assert run[..0] == [] && run[..4] == run;
    ExecStep(run, 0);
    ExecStep(run, 1);
    ExecStep(run, 2);
    ExecStep(run, 3);
  }
}
