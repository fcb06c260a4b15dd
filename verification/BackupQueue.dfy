/** Deletion behind a full queue: when it ends, and that it need not. */
module BackupQueue {
  import opened Prelude
  import opened Api
  import opened Fairness
  import opened BackupModel
  import opened BackupSafety
  import opened BackupPass
  import opened BackupSlots
  import opened BackupRuns
  import opened BackupVerdict
  import opened BackupDeletion

  /** Under deletion, and not yet past admission. */
  predicate Waiting(l: Backup) {
    l.cr.deleting && l.cr.status.batching in {NotBatched, Queued}
  }

  /** A pass that does not get past admission leaves a deleted backup where it is, whichever calls fail. */
  lemma WaitingPass(l: Backup, processing: int, batch: int, e: Env)
    requires Good(l) && Waiting(l) && batch != 0 && !PastAdmission(l, processing, batch)
    ensures var o := Pass(l, processing, batch, e);
            && o.l.Some? && Waiting(o.l.value) && o.slots == o.l.value.slots == l.slots && o.batch == batch
  {
    hide CleanStep, Linked, Layered, Advance, WorkBranch;
    if Admits(l, batch, e) {
      var q := QueueStep(l, processing, batch, e);
      QueueKeeps(l, processing, batch, e);
      PathEnds(e, l, q.trail, q.l);
      if q.flow == Continue {
        CleanKeeps(q.l, e);
        var c := CleanStep(q.l, e);
        PathEnds(e, q.l, c.trail, c.l);
        assert q.l.(slots := q.l.slots - Freed(l.cr)) == q.l;
      }
    }
  }

  /******* When a deletion ends *******/

  ghost predicate WaitsIn(s: System, id: Id) {
    Sound(s) && s.batch != 0 && id in s.vsbs && Waiting(s.vsbs[id])
  }

  /** Past admission and cleaned up, so that the next pass takes the finalizer off. */
  ghost predicate LeavesIn(s: System, id: Id) {
    Sound(s) && s.batch != 0 && id in s.vsbs && Doomed(s.vsbs[id]) && CleanedBefore(s.vsbs[id])
  }

  /** Passes over the backup do not fail, and nobody creates another one in its place. */
  predicate FailureFree(id: Id, ev: Event) {
    match ev
    case Reconcile(other, e) => other == id ==> e.faults == {}
    case Create(other, _) => other != id
    case _ => true
  }

  /** An event that finds room for the backup, or finds it past admission. */
  predicate LetsIn(s: System, id: Id, ev: Event) {
    ev.Reconcile? && ev.id == id && id in s.vsbs && PastAdmission(s.vsbs[id], s.processing, s.batch)
  }

  predicate LetIn(s: System, id: Id, events: seq<Event>)
    decreases |events|
  {
    events != [] && (LetsIn(s, id, events[0]) || LetIn(Next(s, events[0]), id, events[1..]))
  }

  lemma WaitingEvent(s: System, id: Id, ev: Event)
    requires WaitsIn(s, id) && FailureFree(id, ev)
    ensures if LetsIn(s, id, ev) then LeavesIn(Next(s, ev), id) else WaitsIn(Next(s, ev), id)
  {
    hide Pass, Good, Doomed, Fresh, Later, Follows, PastAdmission;
    NextSound(s, ev);
    BatchStays(s, ev);
    SoundWaiting(s, id);
    match ev
    case Reconcile(other, e) =>
      if other == id {
        if LetsIn(s, id, ev) {
          DoomedPass(s.vsbs[id], s.processing, s.batch, e);
        } else {
          WaitingPass(s.vsbs[id], s.processing, s.batch, e);
        }
      }
    case Cluster(other, m) => ClusterWaits(s.vsbs[id], m);
    case _ =>
  }

  lemma SoundWaiting(s: System, id: Id)
    requires Sound(s) && id in s.vsbs
    ensures Good(s.vsbs[id]) && (s.vsbs[id].cr.deleting ==> s.vsbs[id].cr.finalizer && Marked(s.vsbs[id]) == s.vsbs[id])
  {
  }

  lemma ClusterWaits(l: Backup, m: Backup)
    ensures ClusterMove(l, m) ==> (Waiting(l) ==> Waiting(m))
    ensures ClusterMove(l, m) && Doomed(l) && CleanedBefore(l) ==> Doomed(m) && CleanedBefore(m)
  {
    hide Linked;
    if ClusterMove(l, m) && Good(l) {
      ClusterKeeps(l, m);
    }
  }

  lemma LeavingEvent(s: System, id: Id, ev: Event)
    requires LeavesIn(s, id) && FailureFree(id, ev)
    ensures id in Next(s, ev).vsbs ==> LeavesIn(Next(s, ev), id)
    ensures ev.Reconcile? && ev.id == id ==> id !in Next(s, ev).vsbs
  {
    hide Pass, Good, Fresh, Later, Follows;
    NextSound(s, ev);
    BatchStays(s, ev);
    SoundWaiting(s, id);
    match ev
    case Reconcile(other, e) =>
      if other == id {
        DoomedPass(s.vsbs[id], s.processing, s.batch, e);
      }
    case Cluster(other, m) => ClusterWaits(s.vsbs[id], m);
    case _ =>
  }

  lemma {:induction false} GoneStays(s: System, id: Id, events: seq<Event>)
    requires id !in s.vsbs && forall k :: 0 <= k < |events| ==> FailureFree(id, events[k])
    ensures id !in After(Next, s, events).vsbs
    decreases |events|
  {
    hide Pass, Fresh;
    if events != [] {
      GoneStays(Next(s, events[0]), id, events[1..]);
    }
  }

  lemma {:induction false} LeavingLeaves(s: System, id: Id, events: seq<Event>, e: Env)
    requires LeavesIn(s, id) && e.faults == {} && forall k :: 0 <= k < |events| ==> FailureFree(id, events[k])
    ensures id !in After(Next, s, events + [Reconcile(id, e)]).vsbs
    decreases |events|
  {
    hide Next, LeavesIn;
    if events == [] {
      LeavingEvent(s, id, Reconcile(id, e));
      var t := After(Next, Next(s, Reconcile(id, e)), []);
    } else {
      var all := events + [Reconcile(id, e)];
      assert all[1..] == events[1..] + [Reconcile(id, e)];
      LeavingEvent(s, id, events[0]);
      var t := Next(s, events[0]);
      if id in t.vsbs {
        LeavingLeaves(t, id, events[1..], e);
      } else {
        LastFailureFree(id, events[1..], e);
        GoneStays(t, id, all[1..]);
      }
    }
  }

  lemma LastFailureFree(id: Id, events: seq<Event>, e: Env)
    requires e.faults == {} && forall k :: 0 <= k < |events| ==> FailureFree(id, events[k])
    ensures var all := events + [Reconcile(id, e)];
            forall k :: 0 <= k < |all| ==> FailureFree(id, all[k])
  {
  }

  /** A failure-free deletion of a backup that is not past admission has ended by its next pass if and only if
      some pass before found room for it, whatever else happens in between. */
  lemma {:induction false} DeletionEnds(s: System, id: Id, events: seq<Event>, e: Env)
    requires WaitsIn(s, id) && e.faults == {} && forall k :: 0 <= k < |events| ==> FailureFree(id, events[k])
    ensures id !in After(Next, s, events + [Reconcile(id, e)]).vsbs <==> LetIn(s, id, events)
    decreases |events|
  {
    hide Next, WaitsIn, LeavesIn, LetsIn;
    if events == [] {
      WaitingEvent(s, id, Reconcile(id, e));
      assert [] + [Reconcile(id, e)] == [Reconcile(id, e)];
      var t := Next(s, Reconcile(id, e));
      assert After(Next, t, []) == t;
      assert id in t.vsbs by { StillThere(t, id); }
    } else {
      var all := events + [Reconcile(id, e)];
      assert all[1..] == events[1..] + [Reconcile(id, e)];
      WaitingEvent(s, id, events[0]);
      if LetsIn(s, id, events[0]) {
        LeavingLeaves(Next(s, events[0]), id, events[1..], e);
      } else {
        DeletionEnds(Next(s, events[0]), id, events[1..], e);
      }
    }
  }

  lemma StillThere(s: System, id: Id)
    requires WaitsIn(s, id) || LeavesIn(s, id)
    ensures id in s.vsbs
  {
  }

  /******* A queue that stays full *******/

  /** A failed backup that was admitted keeps its slot. */
  predicate HoldsOn(l: Backup) {
    Settled(l) && l.cr.status.phase == Failed && l.cr.status.batching == Processing
  }

  /** As many failed backups as there are slots, and a backup being deleted that has none. */
  ghost predicate Jammed(s: System, id: Id, stuck: set<Id>) {
    && WaitsIn(s, id) && s.vsbs[id].slots == 0 && s.batch > 0 && s.retired == 0
    && stuck <= s.vsbs.Keys && id !in stuck && |stuck| >= s.batch
    && (forall o :: o in stuck ==> HoldsOn(s.vsbs[o]))
    && (forall o :: o in s.vsbs && o != id ==> Settled(s.vsbs[o]))
  }

  /** No other backup is deleted, and no cleanup call of another backup fails. */
  ghost predicate CalmBut(id: Id, ev: Event) {
    match ev
    case Reconcile(other, e) => other == id || NoFailingCleanup(e)
    case Delete(other) => other == id
    case _ => true
  }

  lemma {:induction false} JamIsFull(s: System, id: Id, stuck: set<Id>)
    requires Jammed(s, id, stuck)
    ensures s.processing >= s.batch && !PastAdmission(s.vsbs[id], s.processing, s.batch)
  {
    hide Good;
    forall o | o in s.vsbs
      ensures s.vsbs[o].slots >= if o in stuck then 1 else 0
    {
      if o != id {
        assert Settled(s.vsbs[o]);
      }
    }
    SumAtLeast(s.vsbs, stuck);
  }

  lemma {:induction false} SumAtLeast(vsbs: map<Id, Backup>, some: set<Id>)
    requires some <= vsbs.Keys && forall o :: o in vsbs ==> vsbs[o].slots >= if o in some then 1 else 0
    ensures Sum(vsbs, (l: Backup) => l.slots) >= |some|
    decreases |vsbs|
  {
    if vsbs != map[] {
      assert vsbs.Keys != {};
      var o :| o in vsbs;
      SumRemove(vsbs, (l: Backup) => l.slots, o);
      SumAtLeast(vsbs - {o}, some - {o});
    }
  }

  lemma FailedStays(l: Backup, processing: int, batch: int, e: Env)
    requires HoldsOn(l) && batch != 0
    ensures Pass(l, processing, batch, e).l == Some(l)
  {
  }

  lemma ClusterHolds(l: Backup, m: Backup)
    requires ClusterMove(l, m)
    ensures (HoldsOn(l) ==> HoldsOn(m)) && (Settled(l) ==> Settled(m)) && m.slots == l.slots
  {
  }

  lemma JamStays(s: System, id: Id, stuck: set<Id>, ev: Event)
    requires Jammed(s, id, stuck) && CalmBut(id, ev)
    ensures Jammed(Next(s, ev), id, stuck)
  {
    hide Pass, Good, Settled, HoldsOn, Waiting, Fresh, Later, Follows, ClusterMove, PastAdmission, NoFailingCleanup;
    NextSound(s, ev);
    BatchStays(s, ev);
    JamIsFull(s, id, stuck);
    SoundWaiting(s, id);
    WaitingDeleted(s.vsbs[id]);
    match ev
    case Reconcile(other, e) =>
      if other == id {
        WaitingPass(s.vsbs[id], s.processing, s.batch, e);
      } else if other in s.vsbs {
        SoundWaiting(s, other);
        PassSettled(s.vsbs[other], s.processing, s.batch, e);
        if other in stuck {
          FailedStays(s.vsbs[other], s.processing, s.batch, e);
        }
      }
    case Cluster(other, m) =>
      if other in s.vsbs && ClusterMove(s.vsbs[other], m) {
        ClusterHolds(s.vsbs[other], m);
        ClusterWaits(s.vsbs[other], m);
      }
    case Create(other, spec) => NewSettled(other, s.uids, spec);
    case Delete(_) =>
  }

  lemma WaitingDeleted(l: Backup)
    requires Waiting(l)
    ensures l.cr.deleting
  {
  }

  /** A deletion that never ends: as long as the failed backups are left alone, no number of passes, failing or
      not, takes the finalizer off a backup that was deleted before it was admitted. */
  lemma {:induction false} DeletionNeverEnds(s: System, id: Id, stuck: set<Id>, events: seq<Event>)
    requires Jammed(s, id, stuck) && forall k :: 0 <= k < |events| ==> CalmBut(id, events[k])
    ensures Jammed(After(Next, s, events), id, stuck) && id in After(Next, s, events).vsbs
    decreases |events|
  {
    hide Next, Jammed, CalmBut;
    if events == [] {
      JamHas(s, id, stuck);
    } else {
      JamStays(s, id, stuck, events[0]);
      DeletionNeverEnds(Next(s, events[0]), id, stuck, events[1..]);
    }
  }

  lemma JamHas(s: System, id: Id, stuck: set<Id>)
    requires Jammed(s, id, stuck)
    ensures id in s.vsbs
  {
  }

  /******* How a queue jams *******/

  /** Nothing fails but the validation: there is more than one default snapshot class. */
  predicate Ambiguous(e: Env) {
    e.faults == {} && e.original.Some? && !e.oneSnapClass && e.velero == Running && e.batch == Value(1)
  }

  function WithoutStatus(name: string, uid: nat, spec: BackupSpec): Backup {
    var l := NewBackup(name, uid, spec);
    l.(cr := WithFinalizer(l.cr, true))
  }

  lemma FirstPass(l: Backup, processing: int, batch: int, e: Env)
    requires Ambiguous(e) && batch in {0, 1} && l.cr.status == NEW_STATUS && !l.cr.finalizer
    ensures var o := Pass(l, processing, batch, e);
            o.l == Some(l.(cr := WithFinalizer(l.cr, true))) && o.slots == l.slots && o.batch == 1
  {
  }

  /** A backup that validation rejects in the pass that admits it is Failed and keeps its slot. */
  lemma FailsHolding(name: string, uid: nat, spec: BackupSpec, e: Env)
    requires Ambiguous(e)
    ensures var o := Pass(WithoutStatus(name, uid, spec), 0, 1, e);
            o.l.Some? && HoldsOn(o.l.value) && o.slots == 1 && o.batch == 1
  {
    hide Pass, Advance, Linked, Rejects;
    var l := WithoutStatus(name, uid, spec);
    assert Settled(l) && Good(l) by { NewIsSettled(name, uid, spec); }
    PassSettled(l, 0, 1, e);
    FailedByValidation(l, 0, 1, e);
    assert Rejects(l, e) by { AmbiguousRejects(l, e); }
    PassLater(l, 0, 1, e);
    AdmitsFirst(l, e);
  }

  lemma NewIsSettled(name: string, uid: nat, spec: BackupSpec)
    ensures var l := WithoutStatus(name, uid, spec);
            Settled(l) && Good(l)
  {
  }

  lemma AmbiguousRejects(l: Backup, e: Env)
    requires Ambiguous(e)
    ensures Rejects(l, e)
  {
  }

  lemma AdmitsFirst(l: Backup, e: Env)
    requires Good(l) && l.cr.status == NEW_STATUS && l.cr.finalizer && !l.cr.deleting && Ambiguous(e)
    ensures var o := Pass(l, 0, 1, e);
            o.l.Some? ==> Rank(o.l.value.cr.status.batching) >= 2
  {
    hide RunBatch, StatusStep, Advance, Linked, Layered;
    var q := QueueStep(l, 0, 1, e);
    QueueKeeps(l, 0, 1, e);
    PathEnds(e, l, q.trail, q.l);
    WorkKeeps(q.l, l.cr, 1, e);
    var o := WorkBranch(q.l, l.cr, 1, e);
    PathEnds(e, q.l, o.trail, o.l.value);
  }

  /** The queue of batch size one jams: a first backup that fails validation, a second one deleted before it
      is admitted. */
  lemma QueueJams(a: Id, b: Id, specA: BackupSpec, specB: BackupSpec, e: Env) returns (run: seq<Event>)
    requires Ambiguous(e) && a.name != b.name && specA.vscName != specB.vscName
    ensures Jammed(Exec(run), b, {a})
  {
    hide Pass, HoldsOn, Settled, Good;
    run := [Create(a, specA), Reconcile(a, e), Reconcile(a, e), Create(b, specB), Reconcile(b, e), Event.Delete(b)];
    var s0 := INIT;
    var s1 := Next(s0, run[0]);
    FirstPass(s1.vsbs[a], 0, 0, e);
    var s2 := Next(s1, run[1]);
    assert s2.vsbs[a] == WithoutStatus(a.name, 0, specA);
    FailsHolding(a.name, 0, specA, e);
    var s3 := Next(s2, run[2]);
    HoldingKeepsSpec(WithoutStatus(a.name, 0, specA), e);
    assert Fresh(s3.vsbs, b, specB);
    var s4 := Next(s3, run[3]);
    FirstPass(s4.vsbs[b], s4.processing, 1, e);
    var s5 := Next(s4, run[4]);
    var s6 := Next(s5, run[5]);
    ExecSix(run, s1, s2, s3, s4, s5, s6);
    ExecSound(run);
    HoldsIsSettled(s6.vsbs[a]);
  }

  lemma HoldingKeepsSpec(l: Backup, e: Env)
    requires l == WithoutStatus(l.cr.name, l.cr.uid, l.cr.spec)
    ensures var o := Pass(l, 0, 1, e);
            o.l.Some? ==> o.l.value.cr.spec == l.cr.spec
  {
    hide Pass, Advance, Linked;
    NewIsSettled(l.cr.name, l.cr.uid, l.cr.spec);
    PassLater(l, 0, 1, e);
  }

  lemma HoldsIsSettled(l: Backup)
    requires HoldsOn(l)
    ensures Settled(l) && l.slots == 1
  {
  }

  lemma ExecSix(run: seq<Event>, s1: System, s2: System, s3: System, s4: System, s5: System, s6: System)
    requires |run| == 6 && s1 == Next(INIT, run[0]) && s2 == Next(s1, run[1]) && s3 == Next(s2, run[2])
    requires s4 == Next(s3, run[3]) && s5 == Next(s4, run[4]) && s6 == Next(s5, run[5])
    ensures Exec(run) == s6
  {
    hide Next;
    assert run[..0] == [] && run[..6] == run;
    ExecStep(run, 0);
    ExecStep(run, 1);
    ExecStep(run, 2);
    ExecStep(run, 3);
    ExecStep(run, 4);
    ExecStep(run, 5);
  }
}
