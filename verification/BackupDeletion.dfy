/** Deleting a backup: how often its slot is given back. */
module BackupDeletion {
  import opened Prelude
  import opened Api
  import opened BackupModel
  import opened BackupSafety
  import opened BackupPass
  import opened BackupSlots
  import opened BackupRuns

  /** Under deletion, and past admission. */
  predicate Doomed(l: Backup) {
    Good(l) && l.cr.deleting && l.cr.status.batching in {Processing, BatchDone}
  }

  predicate CleanedBefore(l: Backup) {
    l.cr.status.phase in {Cleanup, Completed}
  }

  /** Without a failing call, cleanup under deletion leaves nothing owned, and writes nothing if it or a
      completion has been there before. */
  lemma DoomedClean(l: Backup, e: Env)
    requires Doomed(l) && e.faults == {}
    ensures var o := CleanStep(l, e);
            && o.flow == Continue && OwnsNothing(o.l) && o.l.slots == l.slots && Doomed(o.l) && CleanedBefore(o.l)
            && o.l.cr.rv >= l.cr.rv && (CleanedBefore(l) <==> o.l.cr.rv == l.cr.rv)
            && o.l.cr.status.batching == l.cr.status.batching
  {
    hide Linked, Layered, Advance;
    DeleteAllAdmission(Status(l, l.cr.status.(phase := Cleanup)), CLEANUP_KINDS, e);
    CleanKeeps(l, e);
    var o := CleanStep(l, e);
    PathEnds(e, l, o.trail, o.l);
  }

  lemma DoomedSlots(l: Backup, slots: int)
    requires Doomed(l)
    ensures Doomed(l.(slots := slots))
  {
  }

  lemma DoomedBranch(l: Backup, copy: Vsb, batch: int, e: Env)
    requires Doomed(l) && copy.rv <= l.cr.rv && e.faults == {}
    ensures var o := DeletionBranch(l, copy, batch, e);
            && o.slots == l.slots - Freed(copy) && o.batch == batch
            && (if copy.rv == l.cr.rv && CleanedBefore(l) then o.l.None?
                else o.l.Some? && Doomed(o.l.value) && CleanedBefore(o.l.value) && o.l.value.slots == o.slots
                     && o.l.value.cr.status.batching == l.cr.status.batching)
  {
    hide CleanStep, Doomed, Freed;
    DoomedSlots(l, l.slots - Freed(copy));
    DoomedClean(l.(slots := l.slots - Freed(copy)), e);
  }

  /** Whether a deleting pass gets past admission. */
  predicate PastAdmission(l: Backup, processing: int, batch: int) {
    l.cr.status.batching in {Processing, BatchDone} || processing < batch
  }

  lemma DoomedQueue(l: Backup, processing: int, batch: int, e: Env)
    requires Good(l) && l.cr.deleting && l.cr.finalizer && e.faults == {} && PastAdmission(l, processing, batch)
    ensures var q := QueueStep(l, processing, batch, e);
            && q.flow == Continue && Doomed(q.l) && q.l.cr.rv >= l.cr.rv
            && q.l.slots == l.slots + Indicator(l.cr.status.batching in {NotBatched, Queued})
            && (q.l.cr.rv == l.cr.rv <==> l.cr.status.batching in {Processing, BatchDone})
            && (q.l.cr.rv == l.cr.rv ==> q.l == l)
            && (q.l.cr.status.batching == BatchDone <==> l.cr.status.batching == BatchDone)
  {
  }

  lemma DoomedPass(l: Backup, processing: int, batch: int, e: Env)
    requires Good(l) && l.cr.deleting && l.cr.finalizer && e.faults == {} && batch != 0 && PastAdmission(l, processing, batch)
    ensures var o := Pass(l, processing, batch, e);
            var b := l.cr.status.batching;
            && o.slots == l.slots + Indicator(b in {NotBatched, Queued}) - Freed(l.cr) && o.batch == batch
            && (if b in {Processing, BatchDone} && CleanedBefore(l) then o.l.None?
                else o.l.Some? && Doomed(o.l.value) && CleanedBefore(o.l.value) && o.l.value.slots == o.slots
                     && (o.l.value.cr.status.batching == BatchDone <==> b == BatchDone))
  {
    hide DeletionBranch, WorkBranch, QueueStep, Doomed;
    var q := QueueStep(l, processing, batch, e);
    DoomedQueue(l, processing, batch, e);
    DoomedBranch(q.l, l.cr, batch, e);
  }

  /** A failure-free deletion that gets past admission removes the backup in two passes, and the count comes
      out right, less the slot that the backup held, if and only if it was done, or was not batched, or was
      Processing and already in the phase Cleanup. In every other case the first pass's own status writes
      make its finalizer write stale, and the retry gives a slot back that is not held. */
  lemma SlotGivenBack(s: System, id: Id, e1: Env, e2: Env)
    requires Sound(s) && id in s.vsbs && s.vsbs[id].cr.deleting && s.batch != 0 && e1.faults == {} && e2.faults == {}
    requires PastAdmission(s.vsbs[id], s.processing, s.batch)
    ensures var l := s.vsbs[id];
            var b := l.cr.status.batching;
            var s2 := Next(Next(s, Reconcile(id, e1)), Reconcile(id, e2));
            && id !in s2.vsbs
            && (s2.processing == s.processing - Due(l)
                <==> b in {NotBatched, BatchDone} || (b == Processing && l.cr.status.phase == Cleanup))
            && (s2.processing != s.processing - Due(l) ==> s2.processing == s.processing - Due(l) - 1)
  {
    hide Pass, Good;
    var l := s.vsbs[id];
    DeletingHasFinalizer(s, id);
    DoomedPass(l, s.processing, s.batch, e1);
    var s1 := Next(s, Reconcile(id, e1));
    if id in s1.vsbs {
      DoomedSecond(s1, id, e2);
    }
  }

  lemma DeletingHasFinalizer(s: System, id: Id)
    requires Sound(s) && id in s.vsbs && s.vsbs[id].cr.deleting
    ensures Good(s.vsbs[id]) && s.vsbs[id].cr.finalizer
    ensures CleanedBefore(s.vsbs[id]) && s.vsbs[id].cr.status.batching == Processing ==> s.vsbs[id].cr.status.phase == Cleanup
  {
  }

  lemma DoomedSecond(s: System, id: Id, e: Env)
    requires id in s.vsbs && Doomed(s.vsbs[id]) && CleanedBefore(s.vsbs[id]) && s.batch != 0 && e.faults == {}
    ensures var t := Next(s, Reconcile(id, e));
            id !in t.vsbs && t.processing == s.processing - Indicator(s.vsbs[id].cr.status.batching == Processing)
  {
    hide Pass;
    assert s.vsbs[id].cr.finalizer;
    DoomedPass(s.vsbs[id], s.processing, s.batch, e);
  }
}
