/** A cleanup that stopped halfway: the backup moves its data once more, and its second completion takes a slot
    that it does not hold. */
module BackupAgain {
  import opened Prelude
  import opened Api
  import opened Fairness
  import opened BackupModel
  import opened BackupSafety
  import opened BackupPass
  import opened BackupSlots
  import opened BackupRuns
  import opened BackupVerdict
  import opened BackupProgress
  import opened BackupTermination
  import opened BackupOwing
  import opened BackupThrough
  import opened BackupFailures

  /******* What follows *******/

  /** The backup has completed before, and owes a slot if it has completed again. */
  predicate Again(l: Backup) {
    && !l.cr.deleting && l.cr.status.batching == BatchDone
    && l.slots <= if l.cr.status.phase in {VolSyncDone, Completed} then -1 else 0
  }

  lemma AgainPass(l: Backup, processing: int, batch0: int, e: Env)
    requires Good(l) && Again(l)
    ensures var o := Pass(l, processing, batch0, e);
            o.l.Some? && Again(o.l.value)
  {
    hide Pass, Good;
    CompletionTakesOne(l, processing, batch0, e);
  }

  lemma AgainEvent(s: System, id: Id, ev: Event)
    requires Sound(s) && id in s.vsbs && Again(s.vsbs[id]) && Spares(id, ev)
    ensures id in Next(s, ev).vsbs && Again(Next(s, ev).vsbs[id])
  {
    hide Pass, Good, Fresh;
    match ev
    case Reconcile(other, e) =>
      if other == id {
        SoundIsGood(s, id);
        AgainPass(s.vsbs[id], s.processing, s.batch, e);
      }
    case _ =>
  }

  lemma SoundIsGood(s: System, id: Id)
    requires Sound(s) && id in s.vsbs
    ensures Good(s.vsbs[id])
  {
  }

  predicate Spares(id: Id, ev: Event) {
    !(ev.Delete? && ev.id == id)
  }

  /** As long as nobody deletes it, whatever else happens and whichever calls fail. */
  lemma {:induction false} AgainEvents(s: System, id: Id, events: seq<Event>)
    requires Sound(s) && id in s.vsbs && Again(s.vsbs[id]) && forall k :: 0 <= k < |events| ==> Spares(id, events[k])
    ensures var t := After(Next, s, events);
            Sound(t) && id in t.vsbs && Again(t.vsbs[id])
    decreases |events|
  {
    hide Next, Sound, Again;
    if events != [] {
      AgainEvent(s, id, events[0]);
      NextSound(s, events[0]);
      AgainEvents(Next(s, events[0]), id, events[1..]);
    }
  }

  /** A backup that completes has had its own ReplicationSource finish since: a new one, if there was none. */
  lemma {:induction false} MovesAgain(s: System, id: Id, events: seq<Event>) returns (k: nat)
    requires Sound(s) && id in s.vsbs && Again(s.vsbs[id]) && s.vsbs[id].cr.status.phase !in {VolSyncDone, Completed}
    requires forall k :: 0 <= k < |events| ==> Spares(id, events[k])
    requires id in After(Next, s, events).vsbs && After(Next, s, events).vsbs[id].cr.status.phase == Completed
    ensures k < |events| && id in After(Next, s, events[..k]).vsbs && Moved(After(Next, s, events[..k]).vsbs[id])
    decreases |events|
  {
    hide Next, Sound, Again, Moved, Spares;
    var t := Next(s, events[0]);
    AgainEvent(s, id, events[0]);
    NextSound(s, events[0]);
    OneStep(s, id, events[0]);
    if t.vsbs[id].cr.status.phase == VolSyncDone {
      k := 0;
      assert After(Next, s, events[..0]) == s;
    } else {
      var n := MovesAgain(t, id, events[1..]);
      k := n + 1;
      assert events[..k][0] == events[0] && events[..k][1..] == events[1..][..n];
    }
  }

  lemma OneStep(s: System, id: Id, ev: Event)
    requires Sound(s) && id in s.vsbs && Again(s.vsbs[id]) && s.vsbs[id].cr.status.phase !in {VolSyncDone, Completed}
    requires Spares(id, ev) && id in Next(s, ev).vsbs
    ensures var l, m := s.vsbs[id], Next(s, ev).vsbs[id];
            && m.cr.status.phase != Completed
            && (m.cr.status.phase == VolSyncDone ==> Moved(l))
  {
    hide Pass, Good, Fresh, Moved;
    match ev
    case Reconcile(other, e) =>
      if other == id {
        SoundIsGood(s, id);
        CompletionTakesOne(s.vsbs[id], s.processing, s.batch, e);
      }
    case _ =>
  }

  lemma HalfwayIsAgain(s: System, id: Id)
    requires Sound(s) && AllOwing(s) && id in s.vsbs && s.vsbs[id].cr.status.phase == Cleanup && !s.vsbs[id].cr.deleting
    ensures Again(s.vsbs[id])
  {
  }

  /** What follows a cleanup that stopped halfway, in every run without deletions: fair rounds get the backup
      Completed, another ReplicationSource of its own has finished by then, and it owes a slot. */
  lemma HalfCleanedCompletesAgain(run: seq<Event>, id: Id, rounds: seq<seq<Event>>) returns (k: nat)
    requires LiveSystem(Exec(run)) && FairRounds(Exec(run), rounds) && |rounds| >= Total(Exec(run))
    requires id in Exec(run).vsbs && Exec(run).vsbs[id].cr.status.phase == Cleanup && !Exec(run).vsbs[id].cr.deleting
    ensures var s := Exec(run);
            var t := After(Next, s, Flatten(rounds));
            && id in t.vsbs && t.vsbs[id].cr.status.phase == Completed && t.vsbs[id].slots < 0
            && k < |Flatten(rounds)|
            && id in After(Next, s, Flatten(rounds)[..k]).vsbs && Moved(After(Next, s, Flatten(rounds)[..k]).vsbs[id])
  {
    hide Next, Exec, LiveSystem, FairEvent, Serves, Members, Total, Moved, Sound;
    var s := Exec(run);
    ExecSound(run);
    RunOwing(run);
    HalfwayIsAgain(s, id);
    EveryBackupCompletes(s, rounds);
    AfterFlatten(Next, s, rounds);
    var holds := (ev: Event) => Spares(id, ev);
    forall s: System, ev: Event | FairEvent(s, ev) ensures holds(ev) {
      FairSpares(s, id, ev);
    }
    FairEvents(Next, FairEvent, Serves, Members, holds, s, rounds);
    AgainEvents(s, id, Flatten(rounds));
    k := MovesAgain(s, id, Flatten(rounds));
  }

  lemma FairSpares(s: System, id: Id, ev: Event)
    requires FairEvent(s, ev)
    ensures Spares(id, ev)
  {
  }

  /******* That it happens *******/

  /** The backup as the cluster leaves it that answers all its waits at once. */
  function AnswerOf(l: Backup): Backup {
    l.(vsc := if l.vsc.Some? then Some(l.vsc.value.(ready := true)) else None,
       snap := if l.snap.Some? then Some(l.snap.value.(ready := true)) else None,
       pvc := if l.pvc.Some? then Some(l.pvc.value.(bound := true)) else None,
       src := if l.src.Some? then Some(l.src.value.(status := Some(Finished(l.src.value)))) else None)
  }

  function Finished(s: RepSource): SyncStatus {
    SyncStatus([Condition(true, False, OtherReason)], if s.trigger.Manual? then s.trigger.tag else "", Some(0), Some(0), None)
  }

  predicate Clonable(e: Env) {
    e.original.Some? && e.original.value.status.Some? && e.original.value.status.value.ready != Some(false)
  }

  lemma AnswerIsFair(l: Backup, e: Env)
    requires Good(l) && Clonable(e)
    ensures KeepsAnswers(l, AnswerOf(l)) && Answered(AnswerOf(l), e)
  {
    if l.src.Some? {
      assert LastFalse(Finished(l.src.value).conditions).synchronizing;
    }
  }

  /** A live system of one backup. */
  ghost predicate Lone(s: System, id: Id) {
    LiveSystem(s) && s.vsbs.Keys == {id} && !Lost(s.vsbs[id])
  }

  /** One answer and one pass over it. */
  function Turn(s: System, id: Id, e: Env): seq<Event>
    requires id in s.vsbs
  {
    [Cluster(id, AnswerOf(s.vsbs[id])), Reconcile(id, e)]
  }

  lemma TurnIs(s: System, id: Id, e: Env)
    requires id in s.vsbs
    ensures After(Next, s, Turn(s, id, e)) == Next(Next(s, Cluster(id, AnswerOf(s.vsbs[id]))), Reconcile(id, e))
  {
    hide Next;
    var turn := Turn(s, id, e);
    var t := Next(s, turn[0]);
    assert After(Next, t, turn[1..]) == After(Next, Next(t, turn[1]), turn[1..][1..]);
  }

  lemma TurnMoves(s: System, id: Id, e: Env)
    requires Lone(s, id) && Smooth(e) && Clonable(e) && s.vsbs[id].cr.status.phase != Completed
    ensures var t := After(Next, s, Turn(s, id, e));
            Lone(t, id) && Total(t) < Total(s)
    ensures var t := After(Next, s, Turn(s, id, e));
            s.vsbs[id].cr.status.phase != VolSyncDone ==> t.vsbs[id].cr.status.phase != Completed
  {
    hide Next, Total, AnswerOf, Smooth, Clonable, Mover, Answered, LiveSystem, KeepsAnswers, AllCompleted, Turn, Members, After;
    var l := s.vsbs[id];
    var ev := Cluster(id, AnswerOf(l));
    TurnIs(s, id, e);
    LoneIsLive(s, id);
    AnswerIsFair(l, e);
    EventSteps(s, ev);
    AnswerApplies(s, id);
    var s1 := Next(s, ev);
    SameLone(s, s1, id);
    PassMovesOn(s1, id, e);
    if l.cr.status.phase != VolSyncDone {
      NeverStraight(s1, id, e);
    }
  }

  /** A pass over an answered lone backup lowers the total. */
  lemma PassMovesOn(s: System, id: Id, e: Env)
    requires Lone(s, id) && Smooth(e) && Answered(s.vsbs[id], e) && s.vsbs[id].cr.status.phase != Completed
    ensures Lone(Next(s, Reconcile(id, e)), id) && Total(Next(s, Reconcile(id, e))) < Total(s)
  {
    hide Next, Total, Smooth, Answered, LiveSystem, Mover, Lost;
    LoneIsLive(s, id);
    var mover := SomeMover(s);
    MoverIsMember(s, mover);
    EventSteps(s, Reconcile(id, e));
    SameLone(s, Next(s, Reconcile(id, e)), id);
  }

  lemma LoneIsLive(s: System, id: Id)
    requires Lone(s, id)
    ensures Live(s.vsbs[id]) && Good(s.vsbs[id])
  {
  }

  lemma AnswerApplies(s: System, id: Id)
    requires id in s.vsbs && KeepsAnswers(s.vsbs[id], AnswerOf(s.vsbs[id]))
    ensures Next(s, Cluster(id, AnswerOf(s.vsbs[id]))) == s.(vsbs := s.vsbs[id := AnswerOf(s.vsbs[id])])
    ensures AnswerOf(s.vsbs[id]).cr == s.vsbs[id].cr
  {
    hide KeepsAnswers, ClusterMove;
    KeptMove(s.vsbs[id], AnswerOf(s.vsbs[id]));
  }

  lemma SameLone(s: System, t: System, id: Id)
    requires Lone(s, id) && LiveSystem(t) && Members(t) == Members(s) && t.vsbs.Keys == s.vsbs.Keys
    ensures Lone(t, id)
  {
    hide LiveSystem;
    assert id in Members(s);
  }

  lemma MoverIsMember(s: System, id: Id)
    requires Mover(s, id)
    ensures id in s.vsbs
  {
  }

  /** No pass takes a backup to Completed that does not find its data moved. */
  lemma NeverStraight(s: System, id: Id, e: Env)
    requires Lone(s, id) && s.vsbs[id].cr.status.phase !in {VolSyncDone, Completed} && Smooth(e)
    ensures var t := Next(s, Reconcile(id, e));
            id in t.vsbs && t.vsbs[id].cr.status.phase != Completed
  {
    hide Pass, Smooth, Good, Moves;
    var l := s.vsbs[id];
    LoneIsLive(s, id);
    LoneBatch(s, id);
    PassMoves(l, s.processing, s.batch, e);
    PassNeverStraight(l, s.processing, s.batch, e);
  }

  lemma LoneBatch(s: System, id: Id)
    requires Lone(s, id)
    ensures s.batch >= 0 && !s.vsbs[id].cr.deleting
  {
  }

  lemma PassNeverStraight(l: Backup, processing: int, batch0: int, e: Env)
    requires Good(l) && !l.cr.deleting && l.cr.status.phase !in {VolSyncDone, Completed}
    ensures var o := Pass(l, processing, batch0, e);
            o.l.Some? ==> o.l.value.cr.status.phase != Completed
  {
    hide StatusStep, RunBatch, Advance, Linked, Layered, QueueStep;
    var batch := BatchSize(batch0, e.batch).0;
    if Admits(l, batch0, e) {
      var q := QueueStep(l, processing, batch, e);
      QueueKeeps(l, processing, batch, e);
      if q.flow == Continue {
        PathEnds(e, l, q.trail, q.l);
        assert BATCH[0..] == BATCH;
        BatchNeverDone(0, q.l, e);
        BatchFromStart(q.l, e);
        var work := RunBatch(BATCH, q.l, e);
        PathEnds(e, q.l, work.trail, work.l);
        ConditionKeeps(work.l, l.cr, work.flow != Fail, e);
        StatusCompletes(ConditionStep(work.l, l.cr, work.flow != Fail, e).l, e);
      }
    }
  }

  predicate NoDeletions(events: seq<Event>) {
    forall k :: 0 <= k < |events| ==> !events[k].Delete?
  }

  lemma TurnDeletesNothing(s: System, id: Id, e: Env)
    requires id in s.vsbs
    ensures NoDeletions(Turn(s, id, e))
  {
    hide AnswerOf;
  }

  /** Turns drive a lone backup to the point where its data has moved. */
  lemma {:induction false} DrivesToDone(s: System, id: Id, e: Env) returns (events: seq<Event>)
    requires Lone(s, id) && Smooth(e) && Clonable(e) && s.vsbs[id].cr.status.phase !in {VolSyncDone, Completed}
    ensures NoDeletions(events)
    ensures var t := After(Next, s, events);
            Lone(t, id) && t.vsbs[id].cr.status.phase == VolSyncDone
    decreases Total(s)
  {
    hide Next, Total, Smooth, Clonable, Lone, Turn, After;
    LoneHas(s, id);
    TotalIsNotNegative(s, id);
    TurnMoves(s, id, e);
    TurnDeletesNothing(s, id, e);
    events := Turn(s, id, e);
    var t := After(Next, s, events);
    LoneHas(t, id);
    if t.vsbs[id].cr.status.phase != VolSyncDone {
      var more := DrivesToDone(t, id, e);
      AfterConcat(Next, s, events, more);
      events := events + more;
    }
  }

  lemma TotalIsNotNegative(s: System, id: Id)
    requires Lone(s, id)
    ensures Total(s) >= 0
  {
    CompletedIsZero(s);
  }

  /** And on to Completed. */
  lemma {:induction false} DrivesToCompleted(s: System, id: Id, e: Env) returns (events: seq<Event>)
    requires Lone(s, id) && Smooth(e) && Clonable(e)
    ensures NoDeletions(events)
    ensures var t := After(Next, s, events);
            Lone(t, id) && t.vsbs[id].cr.status.phase == Completed
    decreases Total(s)
  {
    hide Next, Total, Smooth, Clonable, Lone, Turn, After;
    LoneHas(s, id);
    TotalIsNotNegative(s, id);
    events := [];
    Nothing(s);
    if s.vsbs[id].cr.status.phase != Completed {
      TurnMoves(s, id, e);
      TurnDeletesNothing(s, id, e);
      var turn := Turn(s, id, e);
      var more := DrivesToCompleted(After(Next, s, turn), id, e);
      AfterConcat(Next, s, turn, more);
      events := turn + more;
    }
  }

  lemma Nothing(s: System)
    ensures After(Next, s, []) == s
  {
  }

  lemma {:induction false} ExecAfter(run: seq<Event>, more: seq<Event>)
    ensures Exec(run + more) == After(Next, Exec(run), more)
    decreases |more|
  {
    hide Next;
    if more == [] {
      assert run + more == run;
    } else {
      assert run + more == (run + [more[0]]) + more[1..];
      assert (run + [more[0]])[..|run|] == run;
      ExecAfter(run + [more[0]], more[1..]);
    }
  }

  lemma OneFailureStops(e: Env)
    requires Smooth(e)
    ensures StopsHalfway(OneFailure(e))
  {
    assert Call.Delete(PvcKind) in OneFailure(e).faults;
  }

  /** A run to a cleanup that stops halfway: one backup with valid inputs, and one call that fails. */
  lemma HalfStopHappens(id: Id, spec: BackupSpec, e: Env) returns (run: seq<Event>)
    requires ValidSpec(spec) && Smooth(e) && Clonable(e)
    ensures NoDeletions(run)
    ensures Lone(Exec(run), id) && Exec(run).vsbs[id].cr.status.phase == Cleanup && Exec(run).vsbs[id].src.None?
  {
    hide Exec, Next, Lone, Smooth, Clonable, AnswerOf, LiveSystem;
    var first := [Create(id, spec)];
    NewIsLone(id, spec);
    var more := DrivesToDone(Exec(first), id, e);
    ExecAfter(first, more);
    var done := first + more;
    LoneHas(Exec(done), id);
    LoneSpec(Exec(done), id);
    var last := Turn(Exec(done), id, OneFailure(e));
    run := done + last;
    ExecAfter(done, last);
    HalfStops(done, id, e);
    StillLone(run, id);
  }

  lemma LoneHas(s: System, id: Id)
    requires Lone(s, id)
    ensures id in s.vsbs
  {
  }

  lemma LoneSpec(s: System, id: Id)
    requires Lone(s, id)
    ensures ValidSpec(s.vsbs[id].cr.spec)
  {
    hide Good;
  }

  lemma NewIsLone(id: Id, spec: BackupSpec)
    requires ValidSpec(spec)
    ensures Lone(Exec([Create(id, spec)]), id) && Exec([Create(id, spec)]).vsbs[id].cr.status.phase == NoPhase
  {
    hide Good, Pass, LiveSystem, Room;
    var run := [Create(id, spec)];
    NewIsAlone(id, spec);
    NoneLostLeavesRoom(run);
    UndeletedRunIsLive(run);
  }

  lemma NewIsAlone(id: Id, spec: BackupSpec)
    ensures Exec([Create(id, spec)]) == System(map[id := NewBackup(id.name, 0, spec)], 0, 0, 0, 1)
  {
    var run := [Create(id, spec)];
    assert run[..0] == [];
    assert Exec(run) == Next(INIT, run[0]);
  }

  lemma HalfStops(done: seq<Event>, id: Id, e: Env)
    requires Lone(Exec(done), id) && Exec(done).vsbs[id].cr.status.phase == VolSyncDone && Smooth(e) && Clonable(e)
    ensures var t := After(Next, Exec(done), Turn(Exec(done), id, OneFailure(e)));
            && t.vsbs.Keys == {id} && t.vsbs[id].cr.status.phase == Cleanup && t.vsbs[id].src.None?
            && t.vsbs[id].cr.spec == Exec(done).vsbs[id].cr.spec && t.batch >= 0
  {
    hide Exec, Pass, AnswerOf, Good, Owing, GoesThrough, StopsHalfway, RunBatch, Smooth, Answered, Moved;
    var s := Exec(done);
    var l := s.vsbs[id];
    LoneIsLive(s, id);
    AnswerIsFair(l, e);
    AnswerApplies(s, id);
    TurnIs(s, id, OneFailure(e));
    var m := AnswerOf(l);
    AnswerLive(l);
    HasObjects(m);
    SmoothGoesThrough(m, e);
    OneFailureStops(e);
    CreationGoes(m, OneFailure(e));
    DoneAdmits(m, s.batch, e);
    HalfwayAfterCreation(m, s.processing, s.batch, OneFailure(e));
    PassIsSafe(m, s.processing, s.batch, OneFailure(e));
    var o := Pass(m, s.processing, s.batch, OneFailure(e));
    PathEnds(OneFailure(e), m, o.trail, o.l.value);
    LoneBatch(s, id);
    FailingBatch(m, s.processing, s.batch, e);
  }

  lemma AnswerLive(l: Backup)
    requires Live(l) && l.cr.status.phase == VolSyncDone
    ensures Live(AnswerOf(l)) && Good(AnswerOf(l)) && AnswerOf(l).cr == l.cr && AnswerOf(l).src.Some? && !l.cr.deleting
    ensures l.cr.finalizer
  {
  }

  lemma DoneAdmits(l: Backup, batch: int, e: Env)
    requires Smooth(e) && l.cr.finalizer && l.cr.status.phase == VolSyncDone
    ensures Admits(l, batch, OneFailure(e))
  {
  }

  lemma FailingBatch(l: Backup, processing: int, batch: int, e: Env)
    requires Smooth(e) && batch >= 0
    ensures Pass(l, processing, batch, OneFailure(e)).batch >= 0
  {
    hide RunBatch, StatusStep, CleanStep, QueueStep;
  }

  lemma StillLone(run: seq<Event>, id: Id)
    requires NoDeletions(run)
    requires Exec(run).vsbs.Keys == {id} && Exec(run).vsbs[id].cr.status.phase == Cleanup && Exec(run).batch >= 0
    requires ValidSpec(Exec(run).vsbs[id].cr.spec)
    ensures Lone(Exec(run), id)
  {
    hide Exec, Good;
    NoneLostLeavesRoom(run);
    UndeletedRunIsLive(run);
  }

  /** The second completion happens: a run of one backup with valid inputs and a single failing call, at whose
      end the backup is Completed and the counter is below zero. */
  lemma CompletesTwice(id: Id, spec: BackupSpec, e: Env) returns (run: seq<Event>)
    requires ValidSpec(spec) && Smooth(e) && Clonable(e)
    ensures NoDeletions(run)
    ensures var t := Exec(run);
            t.vsbs.Keys == {id} && t.vsbs[id].cr.status.phase == Completed && t.processing < 0
  {
    hide Exec, Next, Smooth, Clonable, LiveSystem, Again;
    var half := HalfStopHappens(id, spec, e);
    var s := Exec(half);
    ExecSound(half);
    RunOwing(half);
    LoneBatch(s, id);
    HalfwayIsAgain(s, id);
    var more := DrivesToCompleted(s, id, e);
    AgainEvents(s, id, more);
    ExecAfter(half, more);
    run := half + more;
    RunUndeleted(run);
    OwesItsSlots(run, id);
  }

  lemma {:induction false} OwesItsSlots(run: seq<Event>, id: Id)
    requires Sound(Exec(run)) && Undeleted(Exec(run)) && Exec(run).vsbs.Keys == {id}
    requires Again(Exec(run).vsbs[id]) && Exec(run).vsbs[id].cr.status.phase == Completed
    ensures Exec(run).processing < 0
  {
    hide Exec, Good;
    var s := Exec(run);
    SumRemove(s.vsbs, (l: Backup) => l.slots, id);
    assert s.vsbs - {id} == map[];
  }
}
