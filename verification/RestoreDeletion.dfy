/** Deleting a restore: how often its slot is given back. */
module RestoreDeletion {
  import opened Prelude
  import opened Api
  import opened RestoreModel
  import opened RestoreSafety
  import opened RestoreSlots
  import opened RestoreRuns

  /** Under deletion, and past admission. */
  predicate Doomed(l: Restore) {
    Good(l) && l.cr.deleting && l.cr.status.batching in {Processing, BatchDone}
  }

  predicate CleanedBefore(l: Restore) {
    l.cr.status.phase == Cleanup
  }

  /** Without a failing call, cleanup under deletion leaves nothing owned, and writes nothing if it has
      been there before; a Completed restore is cleaned up once more. */
  lemma DoomedClean(l: Restore, e: Env)
    requires Doomed(l) && e.faults == {}
    ensures var o := CleanStep(l, e);
            && o.flow == Continue && OwnsNothing(o.l) && o.l.slots == l.slots && Doomed(o.l) && CleanedBefore(o.l)
            && o.l.cr.rv >= l.cr.rv && (CleanedBefore(l) <==> o.l.cr.rv == l.cr.rv)
            && o.l.cr.status.batching == l.cr.status.batching
  {
    hide Advance;
    CleanKeeps(l, e);
    assert CLEANUP_KINDS[0..] == CLEANUP_KINDS;
    DeleteAllKeeps(Status(l, l.cr.status.(phase := Cleanup)), 0, e);
    var o := CleanStep(l, e);
    PathEnds(e, l, o.trail, o.l);
  }

  lemma DoomedSlots(l: Restore, slots: int)
    requires Doomed(l)
    ensures Doomed(l.(slots := slots))
  {
  }

  lemma DoomedBranch(l: Restore, copy: Vsr, batch: int, e: Env)
    requires Doomed(l) && copy.rv <= l.cr.rv && e.faults == {}
    ensures var o := DeletionBranch(l, copy, batch, e);
            && o.slots == l.slots - Freed(copy) && o.batch == batch
            && (if copy.rv == l.cr.rv && CleanedBefore(l) then o.l.None?
                else o.l.Some? && Doomed(o.l.value) && CleanedBefore(o.l.value) && o.l.value.slots == o.slots
                     && o.l.value.cr.status.batching == l.cr.status.batching)
  {
    hide CleanStep, Doomed, Freed;
    DoomedSlots(l, l.slots - Freed(copy));
    DoomedClean(l.(slots := l.slots - Freed(copy)), e);
  }

  /** Whether a deleting pass gets past admission. */
  predicate PastAdmission(l: Restore, processing: int, batch: int) {
    l.cr.status.batching in {Processing, BatchDone} || processing < batch
  }

  /** The copy that admission has changed takes its slot back in the same pass. */
  lemma DoomedQueue(l: Restore, processing: int, batch: int, e: Env)
    requires Good(l) && l.cr.deleting && l.cr.finalizer && e.faults == {} && PastAdmission(l, processing, batch)
    ensures var q := QueueStep(l, processing, batch, e);
            && q.flow == Continue && Doomed(q.l) && q.l.cr.rv >= l.cr.rv
            && q.l.slots == l.slots + Indicator(l.cr.status.batching in {NotBatched, Queued})
            && (q.l.cr.rv == l.cr.rv <==> l.cr.status.batching in {Processing, BatchDone})
            && (q.l.cr.rv == l.cr.rv ==> q.l == l)
            && (q.l.cr.status.batching == BatchDone <==> l.cr.status.batching == BatchDone)
            && Freed(QueuedCopy(l.cr, processing, batch)) == Indicator(l.cr.status.batching != BatchDone)
            && QueuedCopy(l.cr, processing, batch).rv == l.cr.rv
  {
  }

  lemma DoomedPass(l: Restore, processing: int, batch: int, e: Env)
    requires Good(l) && l.cr.deleting && l.cr.finalizer && e.faults == {} && batch != 0 && PastAdmission(l, processing, batch)
    ensures var o := Pass(l, processing, batch, e);
            var b := l.cr.status.batching;
            && o.slots == l.slots - Indicator(b == Processing) && o.batch == batch
            && (if b in {Processing, BatchDone} && CleanedBefore(l) then o.l.None?
                else o.l.Some? && Doomed(o.l.value) && CleanedBefore(o.l.value) && o.l.value.slots == o.slots
                     && (o.l.value.cr.status.batching == BatchDone <==> b == BatchDone))
  {
    hide DeletionBranch, WorkBranch, QueueStep, QueuedCopy, Doomed;
    var q := QueueStep(l, processing, batch, e);
    DoomedQueue(l, processing, batch, e);
    DoomedBranch(q.l, QueuedCopy(l.cr, processing, batch), batch, e);
  }

  /** A failure-free deletion that gets past admission removes the restore in two passes, and the count comes
      out right, less the slot that the restore held, if and only if it was done, or was Processing and already
      in the phase Cleanup. In every other case, so also for a restore that the first pass admits, that pass's
      own status writes make its finalizer write stale, and the retry gives a slot back that is not held. */
  lemma SlotGivenBack(s: System, id: Id, e1: Env, e2: Env)
    requires Sound(s) && id in s.vsrs && s.vsrs[id].cr.deleting && s.batch != 0 && e1.faults == {} && e2.faults == {}
    requires PastAdmission(s.vsrs[id], s.processing, s.batch)
    ensures var l := s.vsrs[id];
            var b := l.cr.status.batching;
            var s2 := Next(Next(s, Reconcile(id, e1)), Reconcile(id, e2));
            && id !in s2.vsrs
            && (s2.processing == s.processing - Due(l)
                <==> b == BatchDone || (b == Processing && l.cr.status.phase == Cleanup))
            && (s2.processing != s.processing - Due(l) ==> s2.processing == s.processing - Due(l) - 1)
  {
    hide Pass, Good;
    var l := s.vsrs[id];
    DeletingHasFinalizer(s, id);
    DoomedPass(l, s.processing, s.batch, e1);
    var s1 := Next(s, Reconcile(id, e1));
    if id in s1.vsrs {
      DoomedSecond(s1, id, e2);
    }
  }

  lemma DeletingHasFinalizer(s: System, id: Id)
    requires Sound(s) && id in s.vsrs && s.vsrs[id].cr.deleting
    ensures Good(s.vsrs[id]) && s.vsrs[id].cr.finalizer
    ensures CleanedBefore(s.vsrs[id]) && s.vsrs[id].cr.status.batching == Processing ==> s.vsrs[id].cr.status.phase == Cleanup
  {
  }

  lemma DoomedSecond(s: System, id: Id, e: Env)
    requires id in s.vsrs && Doomed(s.vsrs[id]) && CleanedBefore(s.vsrs[id]) && s.batch != 0 && e.faults == {}
    ensures var t := Next(s, Reconcile(id, e));
            id !in t.vsrs && t.processing == s.processing - Indicator(s.vsrs[id].cr.status.batching == Processing)
  {
    hide Pass;
    assert s.vsrs[id].cr.finalizer;
    DoomedPass(s.vsrs[id], s.processing, s.batch, e);
  }
}
