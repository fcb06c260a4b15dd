/** Any number of restores under one controller: runs of passes, cluster changes, creations and deletions,
    in any order and with any calls failing. */
module RestoreRuns {
  import opened Prelude
  import opened Api
  import opened RestoreModel
  import opened RestoreSafety
  import opened RestoreSlots

  /** `processing` and `batch` are the controller's variables. `retired` is auxiliary: the slots of the
      restores that are gone. */
  datatype System = System(vsrs: map<Id, Restore>, processing: int, batch: int, retired: int, uids: nat)

  const INIT := System(map[], 0, 0, 0, 0)

  datatype Event =
    | Reconcile(id: Id, e: Env)
    | Cluster(id: Id, after: Restore)
    | Create(id: Id, spec: RestoreSpec)
    | Delete(id: Id)

  /** What VolSync may change of a restore's destination: its status. A sync that is done stays done. */
  predicate ClusterMove(l: Restore, m: Restore) {
    && m == l.(dest := m.dest)
    && (if l.dest.None? then m.dest.None?
        else m.dest.Some? && m.dest.value == l.dest.value.(status := m.dest.value.status)
             && (DestDone(l.dest.value) ==> DestDone(m.dest.value)))
  }

  /** A user's deletion: without the finalizer the object goes at once, otherwise it is marked. */
  function Marked(l: Restore): Restore {
    if l.cr.deleting then l else l.(cr := l.cr.(deleting := true, rv := l.cr.rv + 1))
  }

  /** The standing assumption on names: owned objects are named after the restore, in its protected namespace. */
  predicate Fresh(vsrs: map<Id, Restore>, id: Id, spec: RestoreSpec) {
    forall other :: other in vsrs ==> other.name != id.name || vsrs[other].cr.spec.protectedNs != spec.protectedNs
  }

  function AfterPass(s: System, id: Id, o: PassOut): System
    requires id in s.vsrs
  {
    var l := s.vsrs[id];
    System(if o.l.Some? then s.vsrs[id := o.l.value] else s.vsrs - {id},
           s.processing + o.slots - l.slots, o.batch,
           if o.l.Some? then s.retired else s.retired + o.slots, s.uids)
  }

  function Next(s: System, ev: Event): System {
    match ev
    case Reconcile(id, e) =>
      if id !in s.vsrs then s else AfterPass(s, id, Pass(s.vsrs[id], s.processing, s.batch, e))
    case Cluster(id, m) =>
      if id in s.vsrs && ClusterMove(s.vsrs[id], m) then s.(vsrs := s.vsrs[id := m]) else s
    case Create(id, spec) =>
      if id in s.vsrs || !Fresh(s.vsrs, id, spec) then s
      else s.(vsrs := s.vsrs[id := NewRestore(id.name, s.uids, spec)], uids := s.uids + 1)
    case Delete(id) =>
      if id !in s.vsrs then s
      else if s.vsrs[id].cr.finalizer then s.(vsrs := s.vsrs[id := Marked(s.vsrs[id])])
      else s.(vsrs := s.vsrs - {id}, retired := s.retired + s.vsrs[id].slots)
  }

  function Exec(run: seq<Event>): System
    decreases |run|
  {
    if run == [] then INIT else Next(Exec(run[..|run| - 1]), run[|run| - 1])
  }

  /******* Invariants of every run *******/

  ghost predicate Sound(s: System) {
    && (forall id :: id in s.vsrs ==> Good(s.vsrs[id]) && s.vsrs[id].cr.name == id.name && s.vsrs[id].cr.uid < s.uids)
    && s.processing == Sum(s.vsrs, (l: Restore) => l.slots) + s.retired
  }

  /** How one restore may look later in a run. */
  predicate Later(l: Restore, m: Restore) {
    && m.cr.name == l.cr.name && m.cr.uid == l.cr.uid && m.cr.spec == l.cr.spec
    && m.cr.rv >= l.cr.rv && (l.cr.finalizer ==> m.cr.finalizer) && (l.cr.deleting ==> m.cr.deleting)
    && Rank(l.cr.status.batching) <= Rank(m.cr.status.batching)
    && (l.cr.status.start.Some? ==> m.cr.status.start == l.cr.status.start)
    && (l.cr.status.phase == Completed && m.cr.status.phase == Completed ==> SameRecord(l, m))
    && (l.cr.deleting && m.cr.status.phase == Completed ==> l.cr.status.phase == Completed)
    && (Terminal(l.cr.status.phase) && !m.cr.deleting ==> m.cr.status == l.cr.status)
  }

  lemma ClusterKeeps(l: Restore, m: Restore)
    requires Good(l) && ClusterMove(l, m)
    ensures Good(m) && Later(l, m) && m.slots == l.slots
  {
  }

  lemma PassLater(l: Restore, processing: int, batch: int, e: Env)
    requires Good(l)
    ensures var o := Pass(l, processing, batch, e);
            o.l.Some? ==> Good(o.l.value) && Later(l, o.l.value)
    ensures var o := Pass(l, processing, batch, e);
            o.l.Some? && o.l.value.cr.status.batching == BatchDone && l.cr.status.batching != BatchDone ==> Moved(l)
    ensures var o := Pass(l, processing, batch, e);
            o.l.Some? && o.l.value.cr.status.phase == Completed && l.cr.status.phase != Completed ==>
              RecordedFrom(e, l.dest, l.cr.spec.protectedNs, o.l.value.cr.status)
  {
    hide Admitted;
    PassIsSafe(l, processing, batch, e);
    var o := Pass(l, processing, batch, e);
    if o.l.Some? {
      PathEnds(e, l, o.trail, o.l.value);
      if Terminal(l.cr.status.phase) && !l.cr.deleting {
      }
    }
  }

  /** What one event may do to any restore. */
  ghost predicate Follows(s: System, t: System) {
    && t.uids >= s.uids
    && (forall id :: id in s.vsrs && id in t.vsrs ==> Later(s.vsrs[id], t.vsrs[id]))
    && (forall id :: id in s.vsrs && id in t.vsrs
          && t.vsrs[id].cr.status.batching == BatchDone && s.vsrs[id].cr.status.batching != BatchDone
          ==> Moved(s.vsrs[id]))
    && (forall id :: id !in s.vsrs && id in t.vsrs ==>
          t.vsrs[id] == NewRestore(id.name, s.uids, t.vsrs[id].cr.spec))
  }

  lemma FollowsSelf(s: System)
    requires Sound(s)
    ensures Follows(s, s)
  {
  }

  /** One restore replaced by a later state of itself. */
  lemma ReplaceSound(s: System, id: Id, m: Restore, t: System)
    requires Sound(s) && id in s.vsrs && Good(m) && Later(s.vsrs[id], m)
    requires m.cr.status.batching == BatchDone && s.vsrs[id].cr.status.batching != BatchDone ==> Moved(s.vsrs[id])
    requires t == s.(vsrs := s.vsrs[id := m], processing := s.processing + m.slots - s.vsrs[id].slots, batch := t.batch)
    ensures Sound(t) && Follows(s, t)
  {
    hide Good, Moved;
    SumUpdate(s.vsrs, (l: Restore) => l.slots, id, m);
  }

  lemma RemoveSound(s: System, id: Id, slots: int, t: System)
    requires Sound(s) && id in s.vsrs
    requires t == s.(vsrs := s.vsrs - {id}, processing := s.processing + slots - s.vsrs[id].slots,
                     retired := s.retired + slots, batch := t.batch)
    ensures Sound(t) && Follows(s, t)
  {
    hide Good, Moved;
    SumRemove(s.vsrs, (l: Restore) => l.slots, id);
  }

  lemma NewGood(name: string, uid: nat, spec: RestoreSpec)
    ensures Good(NewRestore(name, uid, spec))
  {
  }

  lemma CreateSound(s: System, id: Id, spec: RestoreSpec)
    requires Sound(s)
    ensures Sound(Next(s, Create(id, spec))) && Follows(s, Next(s, Create(id, spec)))
  {
    hide Good, Follows, Fresh;
    CreateFollows(s, id, spec);
    NewGood(id.name, s.uids, spec);
    if id !in s.vsrs && Fresh(s.vsrs, id, spec) {
      SumInsert(s.vsrs, (l: Restore) => l.slots, id, NewRestore(id.name, s.uids, spec));
    }
  }

  lemma CreateFollows(s: System, id: Id, spec: RestoreSpec)
    requires Sound(s)
    ensures Follows(s, Next(s, Create(id, spec)))
  {
    hide Good, Later, Moved, Fresh;
    FollowsSelf(s);
  }

  lemma MarkedKeeps(l: Restore)
    requires Good(l) && l.cr.finalizer
    ensures Good(Marked(l)) && Later(l, Marked(l))
  {
  }

  lemma NextSound(s: System, ev: Event)
    requires Sound(s)
    ensures Sound(Next(s, ev)) && Follows(s, Next(s, ev))
  {
    hide Pass, Good, Later, Moved, Follows;
    FollowsSelf(s);
    match ev
    case Reconcile(id, e) =>
      if id in s.vsrs {
        var o := Pass(s.vsrs[id], s.processing, s.batch, e);
        PassLater(s.vsrs[id], s.processing, s.batch, e);
        PassDriftLaw(s.vsrs[id], s.processing, s.batch, e);
        if o.l.Some? {
          ReplaceSound(s, id, o.l.value, Next(s, ev));
        } else {
          RemoveSound(s, id, o.slots, Next(s, ev));
        }
      }
    case Cluster(id, m) =>
      if id in s.vsrs && ClusterMove(s.vsrs[id], m) {
        ClusterKeeps(s.vsrs[id], m);
        ReplaceSound(s, id, m, Next(s, ev));
      }
    case Create(id, spec) => CreateSound(s, id, spec);
    case Delete(id) =>
      if id in s.vsrs {
        if s.vsrs[id].cr.finalizer {
          MarkedKeeps(s.vsrs[id]);
          ReplaceSound(s, id, Marked(s.vsrs[id]), Next(s, ev));
        } else {
          RemoveSound(s, id, s.vsrs[id].slots, Next(s, ev));
        }
      }
  }

  lemma {:induction false} ExecSound(run: seq<Event>)
    ensures Sound(Exec(run))
    decreases |run|
  {
    hide Next;
    if run != [] {
      ExecSound(run[..|run| - 1]);
      NextSound(Exec(run[..|run| - 1]), run[|run| - 1]);
    } else {
      assert Sum(INIT.vsrs, (l: Restore) => l.slots) == 0;
    }
  }

  lemma ExecStep(run: seq<Event>, k: nat)
    requires k < |run|
    ensures Exec(run[..k + 1]) == Next(Exec(run[..k]), run[k])
  {
    assert run[..k + 1][..k] == run[..k];
  }

  lemma {:induction false} UidsGrow(run: seq<Event>, i: nat, j: nat)
    requires i <= j <= |run|
    ensures Exec(run[..i]).uids <= Exec(run[..j]).uids
    decreases j
  {
    hide Next, Exec, Sound, Good, Later;
    if i < j {
      UidsGrow(run, i, j - 1);
      ExecSound(run[..j - 1]);
      ExecStep(run, j - 1);
      NextSound(Exec(run[..j - 1]), run[j - 1]);
    }
  }

  /** No update is lost: between any two points of any run, one restore's batching status only moves
      forward, its start time is written once, and a terminal phase stays, with the whole
      status, until the restore is deleted. */
  lemma {:induction false} NoLostUpdates(run: seq<Event>, i: nat, j: nat, id: Id)
    requires i <= j <= |run| && id in Exec(run[..i]).vsrs && id in Exec(run[..j]).vsrs
    requires Exec(run[..i]).vsrs[id].cr.uid == Exec(run[..j]).vsrs[id].cr.uid
    ensures Later(Exec(run[..i]).vsrs[id], Exec(run[..j]).vsrs[id])
    decreases j
  {
    hide Next, Good;
    if i < j {
      var s := Exec(run[..j - 1]);
      ExecSound(run[..j - 1]);
      ExecSound(run[..i]);
      ExecStep(run, j - 1);
      UidsGrow(run, i, j - 1);
      NextSound(s, run[j - 1]);
      if id in s.vsrs {
        NoLostUpdates(run, i, j - 1, id);
      }
    }
  }

  /** At point `k` of the run the restore `uid` had its own ReplicationDestination with a finished sync:
      its own manual trigger echoed. */
  ghost predicate ObservedMoved(run: seq<Event>, k: nat, id: Id, uid: nat)
    requires k <= |run|
  {
    var s := Exec(run[..k]);
    && id in s.vsrs && s.vsrs[id].cr.uid == uid && s.vsrs[id].dest.Some?
    && s.vsrs[id].dest.value.owner == id.name
    && s.vsrs[id].dest.value.status.Some? && s.vsrs[id].dest.value.status.value.lastManualSync == id.name + "-trigger"
  }

  /** Completed means moved: in any run, a restore marked done, so also a Completed one, had its own
      ReplicationDestination finish at an earlier point. */
  lemma {:induction false} CompletedMeansMoved(run: seq<Event>, id: Id)
    requires id in Exec(run).vsrs
    requires Exec(run).vsrs[id].cr.status.phase == Completed || Exec(run).vsrs[id].cr.status.batching == BatchDone
    ensures exists k: nat :: k < |run| && ObservedMoved(run, k, id, Exec(run).vsrs[id].cr.uid)
    decreases |run|
  {
    ExecSound(run);
    var n := |run| - 1;
    var s := Exec(run[..n]);
    ExecSound(run[..n]);
    NextSound(s, run[n]);
    assert id in s.vsrs;
    if s.vsrs[id].cr.status.batching == BatchDone {
      CompletedMeansMoved(run[..n], id);
      var k: nat :| k < n && ObservedMoved(run[..n], k, id, s.vsrs[id].cr.uid);
      assert run[..n][..k] == run[..k];
      assert ObservedMoved(run, k, id, s.vsrs[id].cr.uid);
    } else {
      assert Moved(s.vsrs[id]);
      assert ObservedMoved(run, n, id, s.vsrs[id].cr.uid);
    }
  }

  /** The restore as an event leaves it, or last saw it. */
  ghost function LastSeen(s: System, ev: Event, id: Id): Restore
    requires id in s.vsrs
  {
    var l := s.vsrs[id];
    if id in Next(s, ev).vsrs then Next(s, ev).vsrs[id]
    else if ev.Reconcile? then Last(l, Pass(l, s.processing, s.batch, ev.e).trail)
    else l
  }

  /** No orphans: whatever has been deleted and whichever calls have failed, in any run, a restore that
      goes owns nothing when it is last seen, and so does every restore without the finalizer. */
  lemma NoOrphans(run: seq<Event>, ev: Event, id: Id)
    requires id in Exec(run).vsrs
    ensures id !in Next(Exec(run), ev).vsrs ==> OwnsNothing(LastSeen(Exec(run), ev, id))
    ensures !Exec(run).vsrs[id].cr.finalizer ==> OwnsNothing(Exec(run).vsrs[id])
  {
    hide Pass, Exec;
    var s := Exec(run);
    ExecSound(run);
    assert Good(s.vsrs[id]);
    if ev.Reconcile? && ev.id == id {
      PassIsSafe(s.vsrs[id], s.processing, s.batch, ev.e);
    }
  }

  /******* The count of processing restores *******/

  function ProcessingIds(s: System): set<Id> {
    set id | id in s.vsrs && s.vsrs[id].cr.status.batching == Processing
  }

  /** Marked done, but not yet taken from the count. */
  function PendingIds(s: System): set<Id> {
    set id | id in s.vsrs && s.vsrs[id].cr.status.batching == BatchDone && s.vsrs[id].slots == 1
  }

  /** Restores whose ReplicationDestination exists and has not finished. */
  function UnfinishedIds(s: System): set<Id> {
    set id | id in s.vsrs && s.vsrs[id].dest.Some? && !DestDone(s.vsrs[id].dest.value)
  }

  /** Nobody deletes a restore, and no cleanup call fails once cleanup has begun. */
  ghost predicate Calm(ev: Event) {
    match ev
    case Reconcile(_, e) => NoFailingCleanup(e)
    case Delete(_) => false
    case _ => true
  }

  ghost predicate Bounded(s: System) {
    && Sound(s) && s.retired == 0
    && (forall id :: id in s.vsrs ==> Settled(s.vsrs[id]))
    && s.processing <= Max(0, s.batch)
  }

  lemma {:induction false} SlotsCounted(s: System)
    requires Bounded(s)
    ensures s.processing == |ProcessingIds(s)| + |PendingIds(s)|
  {
    var held := ProcessingIds(s) + PendingIds(s);
    assert ProcessingIds(s) !! PendingIds(s);
    SumIsCount(s.vsrs, (l: Restore) => l.slots, held);
  }

  lemma ClusterSettled(l: Restore, m: Restore)
    requires Settled(l) && ClusterMove(l, m)
    ensures Settled(m)
  {
  }

  lemma NewSettled(id: Id, uid: nat, spec: RestoreSpec)
    ensures Settled(NewRestore(id.name, uid, spec))
  {
  }

  lemma CalmNext(s: System, ev: Event)
    requires Bounded(s) && Calm(ev)
    ensures Bounded(Next(s, ev))
  {
    hide Pass, Good, Settled, Follows;
    NextSound(s, ev);
    match ev
    case Reconcile(id, e) =>
      if id in s.vsrs {
        PassSettled(s.vsrs[id], s.processing, s.batch, e);
        SlotsCounted(s);
      }
    case Cluster(id, m) =>
      if id in s.vsrs && ClusterMove(s.vsrs[id], m) {
        ClusterSettled(s.vsrs[id], m);
      }
    case Create(id, spec) => NewSettled(id, s.uids, spec);
    case Delete(_) =>
  }

  lemma {:induction false} CalmBounded(run: seq<Event>)
    requires forall k :: 0 <= k < |run| ==> Calm(run[k])
    ensures Bounded(Exec(run))
    decreases |run|
  {
    hide Next, Bounded, Calm;
    if run != [] {
      var before := run[..|run| - 1];
      forall k | 0 <= k < |before| ensures Calm(before[k]) {
        assert before[k] == run[k];
      }
      CalmBounded(before);
      CalmNext(Exec(before), run[|run| - 1]);
    } else {
      CalmInit();
    }
  }

  lemma CalmInit()
    ensures Bounded(INIT)
  {
    hide Good, Settled;
    assert Sum(INIT.vsrs, (l: Restore) => l.slots) == 0;
  }

  function QueuedIds(s: System): set<Id> {
    set id | id in s.vsrs && s.vsrs[id].cr.status.batching == Queued
  }

  /** Slot accounting: in every calm run the controller's counter is the number of Processing restores plus
      those marked done whose decrement has not run; the latter include every one whose phase is still
      unset or InProgress and none that got on to VolSync-done or Completed. So the batch size bounds the
      Processing restores. It does not bound the ReplicationDestinations that are still moving data: those
      of Queued restores are among them (see NewRestoreStarts). */
  lemma SlotAccounting(run: seq<Event>)
    requires forall k :: 0 <= k < |run| ==> Calm(run[k])
    ensures var s := Exec(run);
            && s.processing == |ProcessingIds(s)| + |PendingIds(s)|
            && |ProcessingIds(s)| <= Max(0, s.batch)
            && UnfinishedIds(s) <= ProcessingIds(s) + QueuedIds(s)
    ensures forall id :: id in Exec(run).vsrs && Exec(run).vsrs[id].cr.status.batching == BatchDone ==>
              var phase := Exec(run).vsrs[id].cr.status.phase;
              && (phase in {NoPhase, InProgress} ==> id in PendingIds(Exec(run)))
              && (phase in {VolSyncDone, Completed} ==> id !in PendingIds(Exec(run)))
  {
    hide Exec;
    var s := Exec(run);
    CalmBounded(run);
    SlotsCounted(s);
    forall id | id in s.vsrs
      ensures id in UnfinishedIds(s) ==> id in ProcessingIds(s) + QueuedIds(s)
      ensures Settled(s.vsrs[id])
    {
      assert Good(s.vsrs[id]) && Settled(s.vsrs[id]);
    }
  }

  /** Pass `k` of the run recorded the content that `l` names, ready and reached through the destination. */
  ghost predicate RecordedBy(run: seq<Event>, k: nat, id: Id, l: Restore) {
    && k < |run| && run[k].Reconcile? && run[k].id == id
    && var s := Exec(run[..k]);
       && id in s.vsrs && s.vsrs[id].cr.uid == l.cr.uid
       && RecordedFrom(run[k].e, s.vsrs[id].dest, s.vsrs[id].cr.spec.protectedNs, l.cr.status)
  }

  lemma SoundGood(s: System)
    requires Sound(s)
    ensures forall id :: id in s.vsrs ==> Good(s.vsrs[id])
  {
  }

  /** One event: a Completed restore was Completed before, with the same record, or this pass recorded it. */
  lemma RecordStep(s: System, ev: Event, id: Id)
    requires Sound(s) && id in Next(s, ev).vsrs && Next(s, ev).vsrs[id].cr.status.phase == Completed
    ensures id in s.vsrs && s.vsrs[id].cr.uid == Next(s, ev).vsrs[id].cr.uid
    ensures var l, m := s.vsrs[id], Next(s, ev).vsrs[id];
            || (l.cr.status.phase == Completed && SameRecord(l, m))
            || (ev.Reconcile? && ev.id == id && RecordedFrom(ev.e, l.dest, l.cr.spec.protectedNs, m.cr.status))
  {
    hide Pass, Good, RecordedFrom, Sound, SameRecord, Moved, Linked, Consistent;
    NextSound(s, ev);
    SoundGood(s);
    match ev
    case Reconcile(other, e) =>
      if other == id {
        PassLater(s.vsrs[id], s.processing, s.batch, e);
      }
    case _ =>
  }

  /** Completed means recorded: in any run, a Completed restore carries the handle and name of a content
      that an earlier pass found ready through the restore's own destination. */
  lemma {:induction false} CompletedMeansRecorded(run: seq<Event>, id: Id)
    requires id in Exec(run).vsrs && Exec(run).vsrs[id].cr.status.phase == Completed
    ensures exists k: nat :: RecordedBy(run, k, id, Exec(run).vsrs[id])
    decreases |run|
  {
    hide Next, Sound, Later;
    assert run != [];
    var n := |run| - 1;
    var s := Exec(run[..n]);
    ExecSound(run[..n]);
    RecordStep(s, run[n], id);
    if s.vsrs[id].cr.status.phase == Completed && SameRecord(s.vsrs[id], Exec(run).vsrs[id]) {
      CompletedMeansRecorded(run[..n], id);
      var k: nat :| RecordedBy(run[..n], k, id, s.vsrs[id]);
      assert run[..n][..k] == run[..k];
      assert RecordedBy(run, k, id, Exec(run).vsrs[id]);
    } else {
      assert RecordedBy(run, n, id, Exec(run).vsrs[id]);
    }
  }

  /** The gap between the counter and the number of Processing restores. */
  function Gap(s: System): int {
    s.processing - |ProcessingIds(s)|
  }

  /** The drift law over a whole system: the gap changes only in a pass that runs the deletion or the
      completion branch, by what `PassDrift` says, plus one when a Processing restore disappears. */
  lemma DriftLaw(s: System, ev: Event)
    requires Sound(s)
    ensures Gap(Next(s, ev)) - Gap(s) ==
      (match ev
       case Reconcile(id, e) =>
         if id !in s.vsrs then 0
         else PassDrift(s.vsrs[id], s.processing, s.batch, e)
              + (if id in Next(s, ev).vsrs then 0 else Due(s.vsrs[id]))
       case _ => 0)
  {
    hide Pass, PassDrift, Good, Fresh;
    var t := Next(s, ev);
    match ev
    case Reconcile(id, e) =>
      if id in s.vsrs {
        var l := s.vsrs[id];
        PassDriftLaw(l, s.processing, s.batch, e);
        Recount(s, t, id);
      }
    case Cluster(id, m) =>
      if id in s.vsrs {
        Recount(s, t, id);
      }
    case Create(id, spec) =>
      assert ProcessingIds(t) == ProcessingIds(s);
    case Delete(id) =>
      if id in s.vsrs {
        UnbatchedWithoutFinalizer(s.vsrs[id]);
        Recount(s, t, id);
      }
  }

  lemma UnbatchedWithoutFinalizer(l: Restore)
    requires Good(l)
    ensures !l.cr.finalizer ==> Due(l) == 0
  {
  }

  lemma Recount(s: System, t: System, id: Id)
    requires id in s.vsrs && t.vsrs - {id} == s.vsrs - {id}
    ensures |ProcessingIds(t)| - |ProcessingIds(s)| ==
            (if id in t.vsrs then Due(t.vsrs[id]) else 0) - Due(s.vsrs[id])
  {
    var rest := ProcessingIds(s) - {id};
    forall other | other != id
      ensures other in ProcessingIds(t) <==> other in rest
    {
      assert other in t.vsrs <==> other in t.vsrs - {id};
      assert other in s.vsrs <==> other in s.vsrs - {id};
      if other in s.vsrs {
        assert (s.vsrs - {id})[other] == s.vsrs[other];
        assert (t.vsrs - {id})[other] == t.vsrs[other];
      }
    }
    assert ProcessingIds(s) == if Due(s.vsrs[id]) == 1 then rest + {id} else rest;
    assert ProcessingIds(t) == if id in t.vsrs && Due(t.vsrs[id]) == 1 then rest + {id} else rest;
  }
}
