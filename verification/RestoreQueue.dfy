/** The limit on concurrent restores bounds the data they move as long as no pass takes up a new restore while
    the queue is full, and not otherwise: behind a full queue any number of ReplicationDestinations can be
    started. */
module RestoreQueue {
  import opened Prelude
  import opened Api
  import opened Secrets
  import opened RestoreModel
  import opened RestoreSafety
  import opened RestoreSlots
  import opened RestoreRuns

  predicate Full(s: System) {
    s.batch > 0 && s.processing >= s.batch
  }

  /** Nothing is deleted, no call fails, and inputs are valid. */
  predicate Regular(ev: Event) {
    match ev
    case Reconcile(_, e) => Smooth(e)
    case Create(_, spec) => ValidSpec(spec)
    case _ => false
  }

  lemma {:induction false} LongestName(ids: set<Id>) returns (n: nat)
    ensures forall id :: id in ids ==> |id.name| <= n
    decreases |ids|
  {
    n := 0;
    if ids != {} {
      var id :| id in ids;
      n := LongestName(ids - {id});
      if |id.name| > n {
        n := |id.name|;
      }
    }
  }

  lemma FreshName(s: System, spec: RestoreSpec) returns (id: Id)
    ensures id !in s.vsrs && Fresh(s.vsrs, id, spec)
  {
    var n := LongestName(s.vsrs.Keys);
    id := Id("app", seq(n + 1, _ => 'a'));
    forall other | other in s.vsrs
      ensures |other.name| < |id.name|
    {
      assert other in s.vsrs.Keys;
    }
  }

  /** The third of three events: a new restore with its finalizer on finds the queue full. */
  lemma StartsBehindQueue(s: System, id: Id, e: Env)
    requires Sound(s) && Full(s) && id in s.vsrs && Smooth(e)
    requires s.vsrs[id] == NewRestore(id.name, s.vsrs[id].cr.uid, s.vsrs[id].cr.spec).(cr := s.vsrs[id].cr)
    requires s.vsrs[id].cr.status == NEW_STATUS && s.vsrs[id].cr.finalizer && !s.vsrs[id].cr.deleting
    requires ValidSpec(s.vsrs[id].cr.spec)
    ensures var t := Next(s, Reconcile(id, e));
            && t.batch == s.batch && t.processing == s.processing
            && t.vsrs.Keys == s.vsrs.Keys && (forall o :: o in s.vsrs && o != id ==> t.vsrs[o] == s.vsrs[o])
            && id in UnfinishedIds(t)
  {
    hide Admitted, Good, BatchSize;
    assert BatchSize(s.batch, e.batch) == (s.batch, true) by { KnownSize(s.batch, e.batch); }
    NewRestoreStarts(s.vsrs[id], s.processing, s.batch, e);
    PassBatch(s.vsrs[id], s.processing, s.batch, e);
  }

  lemma KnownSize(batch: int, read: BatchRead)
    requires batch != 0
    ensures BatchSize(batch, read) == (batch, true)
  {
  }

  lemma PassBatch(l: Restore, processing: int, batch: int, e: Env)
    requires batch != 0
    ensures Pass(l, processing, batch, e).batch == batch
  {
  }

  lemma CreatesNew(s: System, id: Id, spec: RestoreSpec)
    requires id !in s.vsrs && Fresh(s.vsrs, id, spec)
    ensures Next(s, Create(id, spec)) == s.(vsrs := s.vsrs[id := NewRestore(id.name, s.uids, spec)], uids := s.uids + 1)
  {
  }

  lemma AddsFinalizer(s: System, id: Id, e: Env)
    requires Full(s) && id in s.vsrs && Smooth(e)
    requires s.vsrs[id].cr == NewRestore(id.name, s.vsrs[id].cr.uid, s.vsrs[id].cr.spec).cr
    ensures Next(s, Reconcile(id, e)) == s.(vsrs := s.vsrs[id := s.vsrs[id].(cr := WithFinalizer(s.vsrs[id].cr, true))])
  {
  }

  /** One more destination: three regular events start it, and leave the count and every other restore alone. */
  lemma OneMore(s: System, spec: RestoreSpec, e: Env) returns (id: Id, more: seq<Event>)
    requires Sound(s) && Full(s) && ValidSpec(spec) && Smooth(e)
    ensures more == [Create(id, spec), Reconcile(id, e), Reconcile(id, e)]
    ensures var t := Next(Next(Next(s, more[0]), more[1]), more[2]);
            && Sound(t) && t.batch == s.batch && t.processing == s.processing
            && |UnfinishedIds(t)| == |UnfinishedIds(s)| + 1
  {
    hide Next, Sound, Follows, Smooth, Fresh, ValidSpec;
    id := FreshName(s, spec);
    more := [Create(id, spec), Reconcile(id, e), Reconcile(id, e)];
    var s1 := Next(s, more[0]);
    NextSound(s, more[0]);
    CreatesNew(s, id, spec);
    AddsFinalizer(s1, id, e);
    var s2 := Next(s1, more[1]);
    NextSound(s1, more[1]);
    StartsBehindQueue(s2, id, e);
    var t := Next(s2, more[2]);
    NextSound(s2, more[2]);
    assert UnfinishedIds(t) == UnfinishedIds(s) + {id};
  }

  /** From every point of every run at which the queue is full, regular events alone lead to any number of
      unfinished ReplicationDestinations, with the batch size and the count of processing restores as before. */
  lemma {:induction false} NoLimitOnDestinations(run: seq<Event>, n: nat, spec: RestoreSpec, e: Env) returns (more: seq<Event>)
    requires Full(Exec(run)) && ValidSpec(spec) && Smooth(e)
    ensures forall k :: 0 <= k < |more| ==> Regular(more[k])
    ensures var s, t := Exec(run), Exec(run + more);
            t.batch == s.batch && t.processing == s.processing && |UnfinishedIds(t)| >= n
    decreases n
  {
    hide Next, Sound;
    if n == 0 {
      more := [];
      assert run + more == run;
    } else {
      var first := NoLimitOnDestinations(run, n - 1, spec, e);
      ExecSound(run + first);
      var id, last := OneMore(Exec(run + first), spec, e);
      more := first + last;
      ExecThree(run + first, last);
      assert run + more == run + first + last;
    }
  }

  lemma ExecThree(run: seq<Event>, last: seq<Event>)
    requires |last| == 3
    ensures Exec(run + last) == Next(Next(Next(Exec(run), last[0]), last[1]), last[2])
  {
    hide Next;
    var r1, r2, r3 := run + [last[0]], run + [last[0]] + [last[1]], run + [last[0]] + [last[1]] + [last[2]];
    assert r1[..|r1| - 1] == run && r2[..|r2| - 1] == r1 && r3[..|r3| - 1] == r2;
    assert r3 == run + last;
    assert Exec(r1) == Next(Exec(run), last[0]) && Exec(r2) == Next(Exec(r1), last[1]);
  }

  /******* When the limit holds *******/

  /** The guard of the branch that queues a restore: a pass that gets as far as admission finds it new, and
      no room. */
  predicate FindsNoRoom(s: System, ev: Event) {
    && ev.Reconcile? && ev.id in s.vsrs
    && PassAdmits(s.vsrs[ev.id], s.batch, ev.e)
    && s.vsrs[ev.id].cr.status.batching == NotBatched
    && s.processing >= BatchSize(s.batch, ev.e.batch).0
  }

  ghost predicate NoneQueued(s: System) {
    forall id :: id in s.vsrs ==> s.vsrs[id].cr.status.batching != Queued
  }

  /** A restore becomes Queued in a pass exactly if that pass finds no room for it, new, and the write of the
      queue goes through. */
  lemma PassQueues(l: Restore, processing: int, batch0: int, e: Env)
    requires Good(l) && l.cr.status.batching != Queued
    ensures var o := Pass(l, processing, batch0, e);
            o.l.Some? ==>
              (o.l.value.cr.status.batching == Queued
               <==> && PassAdmits(l, batch0, e) && l.cr.status.batching == NotBatched
                    && processing >= BatchSize(batch0, e.batch).0 && QueueWrite !in e.faults)
  {
    hide WorkBranch, DeletionBranch, Advance, Linked, QueuedCopy;
    var batch := BatchSize(batch0, e.batch).0;
    if PassAdmits(l, batch0, e) {
      var q := QueueStep(l, processing, batch, e);
      var copy := QueuedCopy(l.cr, processing, batch);
      QueueKeeps(l, processing, batch, e);
      PathEnds(e, l, q.trail, q.l);
      if q.flow == Continue {
        QueuedCopyIsStale(l, processing, batch, e);
        if l.cr.deleting {
          DeletionBatching(q.l, copy, batch, e);
        } else {
          WorkBatching(q.l, copy, batch, e);
        }
      }
    }
  }

  lemma DeletionBatching(l: Restore, copy: Vsr, batch: int, e: Env)
    requires Good(l) && l.cr.deleting
    ensures var o := DeletionBranch(l, copy, batch, e);
            o.l.Some? ==> o.l.value.cr.status.batching == l.cr.status.batching
  {
    hide CleanStep;
    CleanKeeps(l.(slots := l.slots - Freed(copy)), e);
  }

  lemma WorkBatching(l: Restore, copy: Vsr, batch: int, e: Env)
    requires Working(0, l, e) && copy.rv <= l.cr.rv && (copy.rv == l.cr.rv ==> copy == l.cr)
    ensures var o := WorkBranch(l, copy, batch, e);
            o.l.Some? && (o.l.value.cr.status.batching == Queued <==> l.cr.status.batching == Queued)
  {
    hide StatusStep, Advance, Good, RunBatch;
    assert BATCH[0..] == BATCH;
    var work := RunBatch(BATCH, l, e);
    BatchKeeps(0, l, e);
    PathEnds(e, l, work.trail, work.l);
    ConditionKeeps(work.l, copy, work.flow != Fail, e);
    var cond := ConditionStep(work.l, copy, work.flow != Fail, e);
    PathEnds(e, work.l, cond.trail, cond.l);
    StatusBatching(cond.l, e);
  }

  lemma StatusBatching(l: Restore, e: Env)
    requires l.cr.status.batching == Queued && l.dest.Some? ==> l.dest.value.status.None?
    ensures StatusStep(l, e).l.cr.status.batching == Queued <==> l.cr.status.batching == Queued
  {
  }

  lemma NextQueues(s: System, ev: Event)
    requires Sound(s) && NoneQueued(s)
    ensures NoneQueued(Next(s, ev)) || (FindsNoRoom(s, ev) && QueueWrite !in ev.e.faults)
    ensures FindsNoRoom(s, ev) && QueueWrite !in ev.e.faults && ev.id in Next(s, ev).vsrs ==> !NoneQueued(Next(s, ev))
  {
    hide Pass, Good, PassAdmits, Fresh, BatchSize;
    match ev
    case Reconcile(id, e) =>
      if id in s.vsrs {
        SoundGood(s);
        PassQueues(s.vsrs[id], s.processing, s.batch, e);
      }
    case _ =>
  }

  lemma {:induction false} RoomMeansNoQueue(run: seq<Event>)
    requires forall k :: 0 <= k < |run| ==> !FindsNoRoom(Exec(run[..k]), run[k])
    ensures NoneQueued(Exec(run))
    decreases |run|
  {
    hide Next, NoneQueued, FindsNoRoom;
    if run == [] {
      NoneAtFirst();
    } else {
      var n := |run| - 1;
      var before := run[..n];
      forall k | 0 <= k < n ensures !FindsNoRoom(Exec(before[..k]), before[k]) {
        assert before[..k] == run[..k] && before[k] == run[k];
      }
      RoomMeansNoQueue(before);
      ExecSound(before);
      NextQueues(Exec(before), run[n]);
    }
  }

  lemma NoneAtFirst()
    ensures NoneQueued(INIT)
  {
  }

  /** The limit holds in every calm run in which no pass takes up a new restore while the queue is full: then
      every unfinished ReplicationDestination belongs to a Processing restore, and the batch size bounds them. */
  lemma LimitOnDestinations(run: seq<Event>)
    requires forall k :: 0 <= k < |run| ==> Calm(run[k]) && !FindsNoRoom(Exec(run[..k]), run[k])
    ensures var s := Exec(run);
            UnfinishedIds(s) <= ProcessingIds(s) && |UnfinishedIds(s)| <= Max(0, s.batch)
  {
    hide Exec, Calm, FindsNoRoom;
    RoomMeansNoQueue(run);
    SlotAccounting(run);
    var s := Exec(run);
    assert QueuedIds(s) == {};
    SubsetSize(UnfinishedIds(s), ProcessingIds(s));
  }

  /******* A run with a full queue *******/

  /** The first restore fills a queue of batch size one. */
  lemma FirstRestoreFills(id: Id, spec: RestoreSpec, e: Env)
    requires ValidSpec(spec) && Smooth(e) && e.batch == Value(1)
    ensures Full(Exec([Create(id, spec), Reconcile(id, e), Reconcile(id, e)])) &&
            Exec([Create(id, spec), Reconcile(id, e), Reconcile(id, e)]).batch == 1
  {
    hide Pass, Smooth, ValidSpec;
    var s1 := Next(INIT, Create(id, spec));
    CreatesNew(INIT, id, spec);
    var s2 := Next(s1, Reconcile(id, e));
    FirstPass(s1.vsrs[id], 0, e);
    var l2 := s2.vsrs[id];
    NewIsGood(id.name, 0, spec);
    NewRestoreStarts(l2, 0, 1, e);
    PassBatch(l2, 0, 1, e);
    ExecThree([], [Create(id, spec), Reconcile(id, e), Reconcile(id, e)]);
    assert [] + [Create(id, spec), Reconcile(id, e), Reconcile(id, e)] == [Create(id, spec), Reconcile(id, e), Reconcile(id, e)];
  }

  lemma FirstPass(l: Restore, processing: int, e: Env)
    requires Smooth(e) && e.batch == Value(1) && l.cr.status == NEW_STATUS && !l.cr.finalizer
    ensures Pass(l, processing, 0, e).l == Some(l.(cr := WithFinalizer(l.cr, true)))
            && Pass(l, processing, 0, e).slots == l.slots && Pass(l, processing, 0, e).batch == 1
  {
  }

  lemma NewIsGood(name: string, uid: nat, spec: RestoreSpec)
    ensures var l := NewRestore(name, uid, spec);
            Good(l.(cr := WithFinalizer(l.cr, true)))
  {
  }

  /** The documented limit fails: for every number there is a run without deletions, failing calls or invalid
      inputs in which that many ReplicationDestinations are unfinished under a batch size of one. */
  lemma LimitFails(n: nat) returns (run: seq<Event>)
    ensures forall k :: 0 <= k < |run| ==> Regular(run[k])
    ensures Exec(run).batch == 1 && |UnfinishedIds(Exec(run))| >= n
  {
    hide Exec, UnfinishedIds;
    var spec, e := SomeInputs();
    var id := Id("app", "first");
    var start := [Create(id, spec), Reconcile(id, e), Reconcile(id, e)];
    FirstRestoreFills(id, spec, e);
    var more := NoLimitOnDestinations(start, n, spec, e);
    run := start + more;
  }

  lemma SomeInputs() returns (spec: RestoreSpec, e: Env)
    ensures ValidSpec(spec) && Smooth(e) && e.batch == Value(1)
  {
    spec := RestoreSpec("oadp", "secret", "repo", "pvc", "1Gi", "", "");
    var given := UserSecret("", map["key" := "value"]);
    assert "key" in given.data;
    e := Env(0, Value(1), true, true, Some(given), Held("", "", "", "", "", "", "", ""), map[], map[], map[], Running, {});
  }
}
