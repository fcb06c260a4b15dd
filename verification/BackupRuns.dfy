/** Any number of backups under one controller: runs of passes, cluster changes, creations and deletions,
    in any order and with any calls failing. */
module BackupRuns {
  import opened Prelude
  import opened Api
  import opened BackupModel
  import opened BackupSafety
  import opened BackupPass
  import opened BackupSlots

  /** `processing` and `batch` are the controller's variables. `retired` is auxiliary: the slots of the
      backups that are gone. */
  datatype System = System(vsbs: map<Id, Backup>, processing: int, batch: int, retired: int, uids: nat)

  const INIT := System(map[], 0, 0, 0, 0)

  datatype Event =
    | Reconcile(id: Id, e: Env)
    | Cluster(id: Id, after: Backup)
    | Create(id: Id, spec: BackupSpec)
    | Delete(id: Id)

  /** What CSI and VolSync may change of a backup's objects: readiness, binding and sync status. A sync
      that is done stays done. */
  predicate ClusterMove(l: Backup, m: Backup) {
    && m == l.(vsc := m.vsc, snap := m.snap, pvc := m.pvc, src := m.src)
    && (if l.vsc.None? then m.vsc.None?
        else m.vsc.Some? && m.vsc.value == l.vsc.value.(ready := m.vsc.value.ready, restoreSize := m.vsc.value.restoreSize))
    && (if l.snap.None? then m.snap.None?
        else m.snap.Some? && m.snap.value == l.snap.value.(ready := m.snap.value.ready))
    && (if l.pvc.None? then m.pvc.None?
        else m.pvc.Some? && m.pvc.value == l.pvc.value.(bound := m.pvc.value.bound))
    && (if l.src.None? then m.src.None?
        else m.src.Some? && m.src.value == l.src.value.(status := m.src.value.status)
             && (SourceDone(l.src.value) ==> SourceDone(m.src.value)))
  }

  /** A user's deletion: without the finalizer the object goes at once, otherwise it is marked. */
  function Marked(l: Backup): Backup {
    if l.cr.deleting then l else l.(cr := l.cr.(deleting := true, rv := l.cr.rv + 1))
  }

  /** The standing assumption on names: cleanup selects cluster-scoped clones by backup name alone. */
  predicate Fresh(vsbs: map<Id, Backup>, id: Id, spec: BackupSpec) {
    forall other :: other in vsbs ==> other.name != id.name && vsbs[other].cr.spec.vscName != spec.vscName
  }

  function AfterPass(s: System, id: Id, o: PassOut): System
    requires id in s.vsbs
  {
    var l := s.vsbs[id];
    System(if o.l.Some? then s.vsbs[id := o.l.value] else s.vsbs - {id},
           s.processing + o.slots - l.slots, o.batch,
           if o.l.Some? then s.retired else s.retired + o.slots, s.uids)
  }

  function Next(s: System, ev: Event): System {
    match ev
    case Reconcile(id, e) =>
      if id !in s.vsbs then s else AfterPass(s, id, Pass(s.vsbs[id], s.processing, s.batch, e))
    case Cluster(id, m) =>
      if id in s.vsbs && ClusterMove(s.vsbs[id], m) then s.(vsbs := s.vsbs[id := m]) else s
    case Create(id, spec) =>
      if id in s.vsbs || !Fresh(s.vsbs, id, spec) then s
      else s.(vsbs := s.vsbs[id := NewBackup(id.name, s.uids, spec)], uids := s.uids + 1)
    case Delete(id) =>
      if id !in s.vsbs then s
      else if s.vsbs[id].cr.finalizer then s.(vsbs := s.vsbs[id := Marked(s.vsbs[id])])
      else s.(vsbs := s.vsbs - {id}, retired := s.retired + s.vsbs[id].slots)
  }

  function Exec(run: seq<Event>): System
    decreases |run|
  {
    if run == [] then INIT else Next(Exec(run[..|run| - 1]), run[|run| - 1])
  }

  /******* Invariants of every run *******/

  ghost predicate Sound(s: System) {
    && (forall id :: id in s.vsbs ==> Good(s.vsbs[id]) && s.vsbs[id].cr.name == id.name && s.vsbs[id].cr.uid < s.uids)
    && s.processing == Sum(s.vsbs, (l: Backup) => l.slots) + s.retired
  }

  /** How one backup may look later in a run. */
  predicate Later(l: Backup, m: Backup) {
    && m.cr.name == l.cr.name && m.cr.uid == l.cr.uid && m.cr.spec == l.cr.spec
    && m.cr.rv >= l.cr.rv && (l.cr.finalizer ==> m.cr.finalizer) && (l.cr.deleting ==> m.cr.deleting)
    && Rank(l.cr.status.batching) <= Rank(m.cr.status.batching)
    && (l.cr.status.start.Some? ==> m.cr.status.start == l.cr.status.start)
    && (l.cr.status.snapClass != "" ==> m.cr.status.snapClass == l.cr.status.snapClass)
    && (Terminal(l.cr.status.phase) && !m.cr.deleting ==> m.cr.status == l.cr.status)
  }

  lemma ClusterKeeps(l: Backup, m: Backup)
    requires Good(l) && ClusterMove(l, m)
    ensures Good(m) && Later(l, m) && m.slots == l.slots
  {
  }

  lemma PassLater(l: Backup, processing: int, batch: int, e: Env)
    requires Good(l)
    ensures var o := Pass(l, processing, batch, e);
            o.l.Some? ==> Good(o.l.value) && Later(l, o.l.value)
    ensures var o := Pass(l, processing, batch, e);
            o.l.Some? && o.l.value.cr.status.batching == BatchDone && l.cr.status.batching != BatchDone ==> Moved(l)
  {
    PassIsSafe(l, processing, batch, e);
    var o := Pass(l, processing, batch, e);
    if o.l.Some? {
      PathEnds(e, l, o.trail, o.l.value);
      if Terminal(l.cr.status.phase) && !l.cr.deleting {
      }
    }
  }

  /** What one event may do to any backup. */
  ghost predicate Follows(s: System, t: System) {
    && t.uids >= s.uids
    && (forall id :: id in s.vsbs && id in t.vsbs ==> Later(s.vsbs[id], t.vsbs[id]))
    && (forall id :: id in s.vsbs && id in t.vsbs
          && t.vsbs[id].cr.status.batching == BatchDone && s.vsbs[id].cr.status.batching != BatchDone
          ==> Moved(s.vsbs[id]))
    && (forall id :: id !in s.vsbs && id in t.vsbs ==>
          t.vsbs[id] == NewBackup(id.name, s.uids, t.vsbs[id].cr.spec))
  }

  lemma FollowsSelf(s: System)
    requires Sound(s)
    ensures Follows(s, s)
  {
  }

  /** One backup replaced by a later state of itself. */
  lemma ReplaceSound(s: System, id: Id, m: Backup, t: System)
    requires Sound(s) && id in s.vsbs && Good(m) && Later(s.vsbs[id], m)
    requires m.cr.status.batching == BatchDone && s.vsbs[id].cr.status.batching != BatchDone ==> Moved(s.vsbs[id])
    requires t == s.(vsbs := s.vsbs[id := m], processing := s.processing + m.slots - s.vsbs[id].slots, batch := t.batch)
    ensures Sound(t) && Follows(s, t)
  {
    hide Good, Moved;
    SumUpdate(s.vsbs, (l: Backup) => l.slots, id, m);
  }

  lemma RemoveSound(s: System, id: Id, slots: int, t: System)
    requires Sound(s) && id in s.vsbs
    requires t == s.(vsbs := s.vsbs - {id}, processing := s.processing + slots - s.vsbs[id].slots,
                     retired := s.retired + slots, batch := t.batch)
    ensures Sound(t) && Follows(s, t)
  {
    hide Good, Moved;
    SumRemove(s.vsbs, (l: Backup) => l.slots, id);
  }

  lemma NewGood(name: string, uid: nat, spec: BackupSpec)
    ensures Good(NewBackup(name, uid, spec))
  {
  }

  lemma CreateSound(s: System, id: Id, spec: BackupSpec)
    requires Sound(s)
    ensures Sound(Next(s, Create(id, spec))) && Follows(s, Next(s, Create(id, spec)))
  {
    hide Good, Follows, Fresh;
    CreateFollows(s, id, spec);
    NewGood(id.name, s.uids, spec);
    if id !in s.vsbs && Fresh(s.vsbs, id, spec) {
      SumInsert(s.vsbs, (l: Backup) => l.slots, id, NewBackup(id.name, s.uids, spec));
    }
  }

  lemma CreateFollows(s: System, id: Id, spec: BackupSpec)
    requires Sound(s)
    ensures Follows(s, Next(s, Create(id, spec)))
  {
    hide Good, Later, Moved, Fresh;
    FollowsSelf(s);
  }

  lemma MarkedKeeps(l: Backup)
    requires Good(l) && l.cr.finalizer
    ensures Good(Marked(l)) && Later(l, Marked(l))
  {
  }

  lemma NextSound(s: System, ev: Event)
    requires Sound(s)
    ensures Sound(Next(s, ev)) && Follows(s, Next(s, ev))
  {
    hide Pass, Good, Later, Moved, Follows;
    FollowsSelf(s);
    match ev
    case Reconcile(id, e) =>
      if id in s.vsbs {
        var o := Pass(s.vsbs[id], s.processing, s.batch, e);
        PassLater(s.vsbs[id], s.processing, s.batch, e);
        PassDriftLaw(s.vsbs[id], s.processing, s.batch, e);
        if o.l.Some? {
          ReplaceSound(s, id, o.l.value, Next(s, ev));
        } else {
          RemoveSound(s, id, o.slots, Next(s, ev));
        }
      }
    case Cluster(id, m) =>
      if id in s.vsbs && ClusterMove(s.vsbs[id], m) {
        ClusterKeeps(s.vsbs[id], m);
        ReplaceSound(s, id, m, Next(s, ev));
      }
    case Create(id, spec) => CreateSound(s, id, spec);
    case Delete(id) =>
      if id in s.vsbs {
        if s.vsbs[id].cr.finalizer {
          MarkedKeeps(s.vsbs[id]);
          ReplaceSound(s, id, Marked(s.vsbs[id]), Next(s, ev));
        } else {
          RemoveSound(s, id, s.vsbs[id].slots, Next(s, ev));
        }
      }
  }

  /** A batch size that is known stays. */
  lemma BatchStays(s: System, ev: Event)
    requires s.batch != 0
    ensures Next(s, ev).batch == s.batch
  {
    hide RunBatch, StatusStep, CleanStep, QueueStep;
  }

  lemma {:induction false} ExecSound(run: seq<Event>)
    ensures Sound(Exec(run))
    decreases |run|
  {
    hide Next;
    if run != [] {
      ExecSound(run[..|run| - 1]);
      NextSound(Exec(run[..|run| - 1]), run[|run| - 1]);
    } else {
      assert Sum(INIT.vsbs, (l: Backup) => l.slots) == 0;
    }
  }

  lemma ExecStep(run: seq<Event>, k: nat)
    requires k < |run|
    ensures Exec(run[..k + 1]) == Next(Exec(run[..k]), run[k])
  {
    assert run[..k + 1][..k] == run[..k];
  }

  lemma {:induction false} UidsGrow(run: seq<Event>, i: nat, j: nat)
    requires i <= j <= |run|
    ensures Exec(run[..i]).uids <= Exec(run[..j]).uids
    decreases j
  {
    hide Next, Exec, Sound, Good, Later;
    if i < j {
      UidsGrow(run, i, j - 1);
      ExecSound(run[..j - 1]);
      ExecStep(run, j - 1);
      NextSound(Exec(run[..j - 1]), run[j - 1]);
    }
  }

  /** No update is lost: between any two points of any run, one backup's batching status only moves
      forward, its start time and snapshot class are written once, and a terminal phase stays, with the
      whole status, until the backup is deleted. */
  lemma {:induction false} NoLostUpdates(run: seq<Event>, i: nat, j: nat, id: Id)
    requires i <= j <= |run| && id in Exec(run[..i]).vsbs && id in Exec(run[..j]).vsbs
    requires Exec(run[..i]).vsbs[id].cr.uid == Exec(run[..j]).vsbs[id].cr.uid
    ensures Later(Exec(run[..i]).vsbs[id], Exec(run[..j]).vsbs[id])
    decreases j
  {
    hide Next, Good;
    if i < j {
      var s := Exec(run[..j - 1]);
      ExecSound(run[..j - 1]);
      ExecSound(run[..i]);
      ExecStep(run, j - 1);
      UidsGrow(run, i, j - 1);
      NextSound(s, run[j - 1]);
      if id in s.vsbs {
        NoLostUpdates(run, i, j - 1, id);
      }
    }
  }

  /** At point `k` of the run the backup `uid` had its own ReplicationSource with a finished sync: its own
      manual trigger echoed, or a scheduled sync done. */
  ghost predicate ObservedMoved(run: seq<Event>, k: nat, id: Id, uid: nat)
    requires k <= |run|
  {
    var s := Exec(run[..k]);
    && id in s.vsbs && s.vsbs[id].cr.uid == uid && s.vsbs[id].src.Some?
    && s.vsbs[id].src.value.owner == id.name && SyncFinished(s.vsbs[id].src.value, id.name)
  }

  /** Completed means moved: in any run, a backup marked done, so also a Completed one, had its own
      ReplicationSource finish at an earlier point. */
  lemma {:induction false} CompletedMeansMoved(run: seq<Event>, id: Id)
    requires id in Exec(run).vsbs
    requires Exec(run).vsbs[id].cr.status.phase == Completed || Exec(run).vsbs[id].cr.status.batching == BatchDone
    ensures exists k: nat :: k < |run| && ObservedMoved(run, k, id, Exec(run).vsbs[id].cr.uid)
    decreases |run|
  {
    ExecSound(run);
    var n := |run| - 1;
    var s := Exec(run[..n]);
    ExecSound(run[..n]);
    NextSound(s, run[n]);
    assert id in s.vsbs;
    if s.vsbs[id].cr.status.batching == BatchDone {
      CompletedMeansMoved(run[..n], id);
      var k: nat :| k < n && ObservedMoved(run[..n], k, id, s.vsbs[id].cr.uid);
      assert run[..n][..k] == run[..k];
      assert ObservedMoved(run, k, id, s.vsbs[id].cr.uid);
    } else {
      FinishedMeans(s.vsbs[id]);
      assert ObservedMoved(run, n, id, s.vsbs[id].cr.uid);
    }
  }

  /** The backup as an event leaves it, or last saw it. */
  ghost function LastSeen(s: System, ev: Event, id: Id): Backup
    requires id in s.vsbs
  {
    var l := s.vsbs[id];
    if id in Next(s, ev).vsbs then Next(s, ev).vsbs[id]
    else if ev.Reconcile? then Last(l, Pass(l, s.processing, s.batch, ev.e).trail)
    else l
  }

  /** No orphans: whatever has been deleted and whichever calls have failed, in any run, a backup that
      goes owns nothing when it is last seen, and so does every backup without the finalizer. */
  lemma NoOrphans(run: seq<Event>, ev: Event, id: Id)
    requires id in Exec(run).vsbs
    ensures id !in Next(Exec(run), ev).vsbs ==> OwnsNothing(LastSeen(Exec(run), ev, id))
    ensures !Exec(run).vsbs[id].cr.finalizer ==> OwnsNothing(Exec(run).vsbs[id])
  {
    hide Pass, Exec;
    var s := Exec(run);
    ExecSound(run);
    assert Good(s.vsbs[id]);
    if ev.Reconcile? && ev.id == id {
      PassIsSafe(s.vsbs[id], s.processing, s.batch, ev.e);
    }
  }

  /******* The count of processing backups *******/

  function ProcessingIds(s: System): set<Id> {
    set id | id in s.vsbs && s.vsbs[id].cr.status.batching == Processing
  }

  /** Marked done, but not yet taken from the count. */
  function PendingIds(s: System): set<Id> {
    set id | id in s.vsbs && s.vsbs[id].cr.status.batching == BatchDone && s.vsbs[id].slots == 1
  }

  /** Backups whose ReplicationSource exists and has not finished. */
  function UnfinishedIds(s: System): set<Id> {
    set id | id in s.vsbs && s.vsbs[id].src.Some? && !SourceDone(s.vsbs[id].src.value)
  }

  /** Nobody deletes a backup, and no cleanup call fails once cleanup has begun. */
  ghost predicate Calm(ev: Event) {
    match ev
    case Reconcile(_, e) => NoFailingCleanup(e)
    case Delete(_) => false
    case _ => true
  }

  ghost predicate Bounded(s: System) {
    && Sound(s) && s.retired == 0
    && (forall id :: id in s.vsbs ==> Settled(s.vsbs[id]))
    && s.processing <= Max(0, s.batch)
  }

  lemma {:induction false} SlotsCounted(s: System)
    requires Bounded(s)
    ensures s.processing == |ProcessingIds(s)| + |PendingIds(s)|
  {
    var held := ProcessingIds(s) + PendingIds(s);
    assert ProcessingIds(s) !! PendingIds(s);
    SumIsCount(s.vsbs, (l: Backup) => l.slots, held);
  }

  lemma ClusterSettled(l: Backup, m: Backup)
    requires Settled(l) && ClusterMove(l, m)
    ensures Settled(m)
  {
  }

  lemma NewSettled(id: Id, uid: nat, spec: BackupSpec)
    ensures Settled(NewBackup(id.name, uid, spec))
  {
  }

  lemma CalmNext(s: System, ev: Event)
    requires Bounded(s) && Calm(ev)
    ensures Bounded(Next(s, ev))
  {
    hide Pass, Good, Settled, Follows;
    NextSound(s, ev);
    match ev
    case Reconcile(id, e) =>
      if id in s.vsbs {
        PassSettled(s.vsbs[id], s.processing, s.batch, e);
        SlotsCounted(s);
      }
    case Cluster(id, m) =>
      if id in s.vsbs && ClusterMove(s.vsbs[id], m) {
        ClusterSettled(s.vsbs[id], m);
      }
    case Create(id, spec) => NewSettled(id, s.uids, spec);
    case Delete(_) =>
  }

  lemma {:induction false} CalmBounded(run: seq<Event>)
    requires forall k :: 0 <= k < |run| ==> Calm(run[k])
    ensures Bounded(Exec(run))
    decreases |run|
  {
    hide Next, Bounded, Calm;
    if run != [] {
      var before := run[..|run| - 1];
      forall k | 0 <= k < |before| ensures Calm(before[k]) {
        assert before[k] == run[k];
      }
      CalmBounded(before);
      CalmNext(Exec(before), run[|run| - 1]);
    } else {
      CalmInit();
    }
  }

  lemma CalmInit()
    ensures Bounded(INIT)
  {
    hide Good, Settled;
    assert Sum(INIT.vsbs, (l: Backup) => l.slots) == 0;
  }

  /** Slot accounting: in every calm run the controller's counter is the number of Processing backups plus
      those marked done whose decrement has not run; the latter include every one whose phase is still
      unset or InProgress and none that got on to VolSync-done or Completed. So the batch size bounds the
      Processing backups, and the ReplicationSources that are still moving data. */
  lemma SlotAccounting(run: seq<Event>)
    requires forall k :: 0 <= k < |run| ==> Calm(run[k])
    ensures var s := Exec(run);
            && s.processing == |ProcessingIds(s)| + |PendingIds(s)|
            && |ProcessingIds(s)| <= Max(0, s.batch)
            && UnfinishedIds(s) <= ProcessingIds(s) && |UnfinishedIds(s)| <= Max(0, s.batch)
    ensures forall id :: id in Exec(run).vsbs && Exec(run).vsbs[id].cr.status.batching == BatchDone ==>
              var phase := Exec(run).vsbs[id].cr.status.phase;
              && (phase in {NoPhase, InProgress} ==> id in PendingIds(Exec(run)))
              && (phase in {VolSyncDone, Completed} ==> id !in PendingIds(Exec(run)))
  {
    var s := Exec(run);
    CalmBounded(run);
    SlotsCounted(s);
    forall id | id in UnfinishedIds(s)
      ensures id in ProcessingIds(s)
    {
      assert Good(s.vsbs[id]) && Settled(s.vsbs[id]);
    }
    SubsetSize(UnfinishedIds(s), ProcessingIds(s));
  }

  /** The gap between the counter and the number of Processing backups. */
  function Gap(s: System): int {
    s.processing - |ProcessingIds(s)|
  }

  /** The drift law over a whole system: the gap changes only in a pass that runs the deletion or the
      completion branch, by what `PassDrift` says, plus one when a Processing backup disappears. */
  lemma DriftLaw(s: System, ev: Event)
    requires Sound(s)
    ensures Gap(Next(s, ev)) - Gap(s) ==
      (match ev
       case Reconcile(id, e) =>
         if id !in s.vsbs then 0
         else PassDrift(s.vsbs[id], s.processing, s.batch, e)
              + (if id in Next(s, ev).vsbs then 0 else Due(s.vsbs[id]))
       case _ => 0)
  {
    hide Pass, PassDrift, Good, Fresh;
    var t := Next(s, ev);
    match ev
    case Reconcile(id, e) =>
      if id in s.vsbs {
        var l := s.vsbs[id];
        PassDriftLaw(l, s.processing, s.batch, e);
        Recount(s, t, id);
      }
    case Cluster(id, m) =>
      if id in s.vsbs {
        Recount(s, t, id);
      }
    case Create(id, spec) =>
      assert ProcessingIds(t) == ProcessingIds(s);
    case Delete(id) =>
      if id in s.vsbs {
        UnbatchedWithoutFinalizer(s.vsbs[id]);
        Recount(s, t, id);
      }
  }

  lemma UnbatchedWithoutFinalizer(l: Backup)
    requires Good(l)
    ensures !l.cr.finalizer ==> Due(l) == 0
  {
  }

  lemma Recount(s: System, t: System, id: Id)
    requires id in s.vsbs && t.vsbs - {id} == s.vsbs - {id}
    ensures |ProcessingIds(t)| - |ProcessingIds(s)| ==
            (if id in t.vsbs then Due(t.vsbs[id]) else 0) - Due(s.vsbs[id])
  {
    var rest := ProcessingIds(s) - {id};
    forall other | other != id
      ensures other in ProcessingIds(t) <==> other in rest
    {
      assert other in t.vsbs <==> other in t.vsbs - {id};
      assert other in s.vsbs <==> other in s.vsbs - {id};
      if other in s.vsbs {
        assert (s.vsbs - {id})[other] == s.vsbs[other];
        assert (t.vsbs - {id})[other] == t.vsbs[other];
      }
    }
    assert ProcessingIds(s) == if Due(s.vsbs[id]) == 1 then rest + {id} else rest;
    assert ProcessingIds(t) == if id in t.vsbs && Due(t.vsbs[id]) == 1 then rest + {id} else rest;
  }
}
