/** From one pass to the whole queue: fair schedules drive every restore to Completed that has not failed, as long
    as those that have leave a slot free. */
module RestoreTermination {
  import opened Prelude
  import opened Api
  import opened Fairness
  import opened Secrets
  import opened RestoreModel
  import opened RestoreSafety
  import opened RestoreSlots
  import opened RestoreRuns
  import opened RestoreProgress

  /** What may happen in a round: smooth passes, over answered restores or not, and moves of VolSync, by which
      a sync that is done stays done. */
  predicate FairEvent(s: System, ev: Event) {
    match ev
    case Reconcile(id, e) => id in s.vsrs && SmoothPass(e)
    case Cluster(id, m) => id in s.vsrs && ClusterMove(s.vsrs[id], m)
    case _ => false
  }

  /** A pass that finds every wait of the restore answered. */
  predicate Serves(s: System, ev: Event, id: Id) {
    ev.Reconcile? && ev.id == id && id in s.vsrs && Answered(s.vsrs[id], ev.e)
  }

  /** A restore that has failed and has not been deleted. It keeps the slots it held. */
  predicate Lost(l: Restore) {
    !l.cr.deleting && l.cr.status.phase in {Failed, PartiallyFailed}
  }

  /** The slots that failed restores hold. */
  ghost function LostSlots(s: System): int {
    Sum(s.vsrs, (l: Restore) => if Lost(l) then l.slots else 0)
  }

  /** Failed restores, and those that are gone, leave a slot free; as long as the batch size is unknown, all. */
  ghost predicate Room(s: System) {
    s.retired + LostSlots(s) <= 0 || s.retired + LostSlots(s) < s.batch
  }

  ghost predicate LiveSystem(s: System) {
    && Sound(s) && s.batch >= 0 && Room(s)
    && forall id :: id in s.vsrs ==> Live(s.vsrs[id]) || Lost(s.vsrs[id])
  }

  function Burden(l: Restore): nat {
    if Lost(l) then 0 else Measure(l)
  }

  ghost function Load(s: System): int {
    Sum(s.vsrs, (l: Restore) => Burden(l))
  }

  /** The load, and one more as long as the batch size is unknown. */
  ghost function Total(s: System): int {
    Load(s) + if s.batch == 0 then 1 else 0
  }

  predicate Mover(s: System, id: Id) {
    id in s.vsrs && !Lost(s.vsrs[id]) && (s.batch == 0 || CanMove(s.vsrs[id], s.processing, s.batch))
  }

  predicate AllCompleted(s: System) {
    forall id :: id in s.vsrs ==> Lost(s.vsrs[id]) || s.vsrs[id].cr.status.phase == Completed
  }

  function Members(s: System): set<Id> {
    set id | id in s.vsrs && !Lost(s.vsrs[id])
  }

  /******* One event *******/

  /** What a fair event does to one restore. */
  predicate Moves(l: Restore, m: Restore) {
    if Lost(l) then Lost(m) && m.slots == l.slots
    else
      && Live(l) && Live(m) && Measure(m) <= Measure(l)
      && (Measure(m) == Measure(l) ==> SameQueue(l, m))
      && (l.cr.status.phase == Completed ==> m.cr.status.phase == Completed)
  }

  lemma AnswerKeeps(l: Restore, m: Restore)
    requires (Live(l) || Lost(l)) && ClusterMove(l, m)
    ensures Moves(l, m) && m.slots == l.slots
  {
    if Live(l) {
      ClusterKeeps(l, m);
    }
  }

  lemma PassMoves(l: Restore, processing: int, batch: int, e: Env)
    requires (Live(l) || Lost(l)) && SmoothPass(e) && batch >= 0
    ensures var o := Pass(l, processing, batch, e);
            && o.l.Some? && Moves(l, o.l.value) && o.batch == BatchSize(batch, e.batch).0 > 0
            && o.slots == o.l.value.slots
    ensures var o := Pass(l, processing, batch, e);
            o.l.Some? && Live(l) && Answered(l, e) && CanMove(l, processing, BatchSize(batch, e.batch).0) ==>
              Measure(o.l.value) < Measure(l)
  {
    hide Measure, Answered, CanMove, SameQueue, Admitted, WellFormed;
    if Live(l) {
      LiveIsNotLost(l);
      PassProgress(l, processing, batch, e);
      PassDriftLaw(l, processing, batch, e);
    }
  }

  lemma LiveIsNotLost(l: Restore)
    requires Live(l)
    ensures !Lost(l) && Good(l)
  {
  }

  /** What a fair event does to a live system. */
  ghost predicate Steps(s: System, ev: Event, t: System) {
    && LiveSystem(t) && Total(t) <= Total(s) && Members(t) == Members(s) && t.vsrs.Keys == s.vsrs.Keys
    && (AllCompleted(s) ==> AllCompleted(t))
    && (Total(t) == Total(s) ==> forall i :: Mover(s, i) ==> Mover(t, i))
    && (forall i :: Mover(s, i) && Serves(s, ev, i) ==> Total(t) < Total(s))
  }

  /** One restore replaced, by a fair event. */
  ghost predicate Replaced(s: System, id: Id, m: Restore, t: System) {
    && id in s.vsrs && t.vsrs == s.vsrs[id := m] && Moves(s.vsrs[id], m) && Sound(t) && t.retired == s.retired
    && t.batch >= 0 && (s.batch != 0 ==> t.batch == s.batch)
    && t.processing == s.processing + m.slots - s.vsrs[id].slots
  }

  lemma ReplacedIsLive(s: System, id: Id, m: Restore, t: System)
    requires LiveSystem(s) && Replaced(s, id, m, t)
    ensures LiveSystem(t) && Load(t) == Load(s) + Burden(m) - Burden(s.vsrs[id]) && Burden(m) <= Burden(s.vsrs[id])
  {
    hide Live, Measure, Sound, SameQueue, Lost;
    var l := s.vsrs[id];
    SumUpdate(s.vsrs, (b: Restore) => Burden(b), id, m);
    SumUpdate(s.vsrs, (b: Restore) => if Lost(b) then b.slots else 0, id, m);
    if !Lost(l) {
      LiveIsNotLost(m);
    }
  }

  lemma ReplacedSteps(s: System, id: Id, m: Restore, t: System)
    requires LiveSystem(s) && Replaced(s, id, m, t)
    ensures LiveSystem(t) && Total(t) <= Total(s) && Members(t) == Members(s) && t.vsrs.Keys == s.vsrs.Keys
    ensures AllCompleted(s) ==> AllCompleted(t)
    ensures Total(t) == Total(s) ==> forall i :: Mover(s, i) ==> Mover(t, i)
    ensures Burden(m) < Burden(s.vsrs[id]) || (s.batch == 0 && t.batch != 0) ==> Total(t) < Total(s)
  {
    hide Live, Measure, Sound, CanMove, SameQueue, Lost, LiveSystem, Load, Burden, Moves;
    ReplacedIsLive(s, id, m, t);
    var l := s.vsrs[id];
    MovesMeans(l, m);
    BatchIsNotNegative(s);
    forall i | Total(t) == Total(s) && Mover(s, i) ensures Mover(t, i) {
      if i == id {
        CanMoveAgain(l, m, s.processing, s.batch);
      }
    }
  }

  lemma BatchIsNotNegative(s: System)
    requires LiveSystem(s)
    ensures s.batch >= 0
  {
  }

  lemma MovesMeans(l: Restore, m: Restore)
    requires Moves(l, m)
    ensures (Lost(l) <==> Lost(m)) && Burden(m) <= Burden(l)
    ensures Burden(m) == Burden(l) ==> m.slots == l.slots && (Lost(l) || SameQueue(l, m))
    ensures l.cr.status.phase == Completed && !Lost(l) ==> m.cr.status.phase == Completed
  {
    hide Measure;
  }

  lemma CanMoveAgain(l: Restore, m: Restore, processing: int, batch: int)
    requires Lost(l) || SameQueue(l, m)
    ensures !Lost(l) && CanMove(l, processing, batch) ==> CanMove(m, processing, batch)
  {
  }

  lemma LiveParts(s: System, id: Id)
    requires LiveSystem(s) && id in s.vsrs
    ensures Sound(s) && s.batch >= 0 && (Live(s.vsrs[id]) || Lost(s.vsrs[id]))
  {
  }

  lemma AnswerSteps(s: System, id: Id, m: Restore)
    requires LiveSystem(s) && FairEvent(s, Cluster(id, m))
    ensures Steps(s, Cluster(id, m), Next(s, Cluster(id, m)))
  {
    hide Live, Measure, Answered, Sound, CanMove, ClusterMove, Lost, LiveSystem, Moves, Burden, Follows, Total, Mover, AllCompleted;
    LiveParts(s, id);
    AnswerKeeps(s.vsrs[id], m);
    NextSound(s, Cluster(id, m));
    ReplacedSteps(s, id, m, Next(s, Cluster(id, m)));
  }

  lemma PassSteps(s: System, id: Id, e: Env)
    requires LiveSystem(s) && id in s.vsrs && SmoothPass(e)
    ensures Steps(s, Reconcile(id, e), Next(s, Reconcile(id, e)))
  {
    hide Pass, Live, Measure, Answered, Sound, CanMove, Lost, LiveSystem, Moves, Follows, Total, AllCompleted, SmoothPass;
    LiveParts(s, id);
    var l := s.vsrs[id];
    PassMoves(l, s.processing, s.batch, e);
    NextSound(s, Reconcile(id, e));
    var t := Next(s, Reconcile(id, e));
    var m := t.vsrs[id];
    ReplacedSteps(s, id, m, t);
    forall i | Mover(s, i) && Serves(s, Reconcile(id, e), i) ensures Total(t) < Total(s) {
      if s.batch != 0 {
        MovesMeans(l, m);
      }
    }
  }

  lemma EventSteps(s: System, ev: Event)
    requires LiveSystem(s) && FairEvent(s, ev)
    ensures Steps(s, ev, Next(s, ev))
  {
    hide Next, Steps, LiveSystem;
    match ev
    case Reconcile(id, e) => PassSteps(s, id, e);
    case Cluster(id, m) => AnswerSteps(s, id, m);
  }

  /******* Someone can always move *******/

  /** A queued restore that cannot move is behind one that holds a slot and has not failed, and that one can. */
  lemma SomeMover(s: System) returns (id: Id)
    requires LiveSystem(s) && !AllCompleted(s)
    ensures Mover(s, id)
  {
    hide Good;
    id :| id in s.vsrs && !Lost(s.vsrs[id]) && s.vsrs[id].cr.status.phase != Completed;
    if s.batch == 0 { return; }
    assert Live(s.vsrs[id]);
    if !Mover(s, id) {
      var lost, live := (l: Restore) => if Lost(l) then l.slots else 0, (l: Restore) => if Lost(l) then 0 else l.slots;
      SumAdd(s.vsrs, lost, live, (l: Restore) => l.slots);
      id := SomePositive(s.vsrs, live);
      assert Live(s.vsrs[id]);
    }
  }

  lemma {:induction false} CompletedIsZero(s: System)
    requires LiveSystem(s)
    ensures Total(s) >= 0 && (Total(s) == 0 ==> AllCompleted(s))
  {
    hide Live, Good, Lost;
    var zero := (l: Restore) => 0;
    SumZero(s.vsrs, zero);
    SumOrder(s.vsrs, zero, (l: Restore) => Burden(l));
    if !AllCompleted(s) {
      var id :| id in s.vsrs && !Lost(s.vsrs[id]) && s.vsrs[id].cr.status.phase != Completed;
      SumRemove(s.vsrs, (l: Restore) => Burden(l), id);
      SumZero(s.vsrs - {id}, zero);
      SumOrder(s.vsrs - {id}, zero, (l: Restore) => Burden(l));
      assert Burden(s.vsrs[id]) > 0;
    }
  }

  /******* Rounds *******/

  ghost predicate FairRounds(s: System, rounds: seq<seq<Event>>) {
    Rounds(Next, FairEvent, Serves, Members, s, rounds)
  }

  lemma LiveSystemsAreSteady()
    ensures Steady(Next, FairEvent, Members, LiveSystem, Total, AllCompleted)
  {
    hide Next, FairEvent, LiveSystem, Total, AllCompleted, Members;
    forall s, ev | LiveSystem(s) && FairEvent(s, ev)
      ensures LiveSystem(Next(s, ev)) && Total(Next(s, ev)) <= Total(s) && Members(Next(s, ev)) == Members(s)
      ensures AllCompleted(s) ==> AllCompleted(Next(s, ev))
    {
      EventSteps(s, ev);
    }
    forall s | LiveSystem(s)
      ensures Total(s) >= 0 && (Total(s) == 0 ==> AllCompleted(s))
    {
      CompletedIsZero(s);
    }
  }

  lemma LiveSystemsAreRanked()
    ensures Ranked(Next, FairEvent, Serves, Members, LiveSystem, Total, AllCompleted, Mover)
  {
    hide Next, FairEvent, LiveSystem, Total, AllCompleted, Serves;
    forall s, ev, i | LiveSystem(s) && FairEvent(s, ev) && Mover(s, i)
      ensures Total(Next(s, ev)) >= Total(s) ==> Mover(Next(s, ev), i)
      ensures Serves(s, ev, i) ==> Total(Next(s, ev)) < Total(s)
    {
      EventSteps(s, ev);
    }
    forall s | LiveSystem(s) && !AllCompleted(s)
      ensures exists i :: i in Members(s) && Mover(s, i)
    {
      var i := SomeMover(s);
    }
  }

  /** Termination: whatever the batch size, at least one, as many rounds as the measure of the system leave
      every restore Completed that has not failed, as long as those that have failed leave a slot free. A round
      may hold any number of passes and of answers in any order, and passes that find a wait still open; all it
      owes each restore is one pass that finds its waits answered. */
  lemma EveryRestoreCompletes(s: System, rounds: seq<seq<Event>>)
    requires LiveSystem(s) && FairRounds(s, rounds) && |rounds| >= Total(s)
    ensures var t := AfterRounds(Next, s, rounds);
            forall id :: id in s.vsrs && !Lost(s.vsrs[id]) ==> id in t.vsrs && t.vsrs[id].cr.status.phase == Completed
  {
    hide Next, FairEvent, LiveSystem, Total, Mover, Serves;
    LiveSystemsAreSteady();
    LiveSystemsAreRanked();
    RoundsReach(Next, FairEvent, Serves, Members, LiveSystem, Total, AllCompleted, Mover, s, rounds);
    var t := AfterRounds(Next, s, rounds);
    forall id | id in s.vsrs && !Lost(s.vsrs[id])
      ensures id in t.vsrs && t.vsrs[id].cr.status.phase == Completed
    {
      assert id in Members(s) && id in Members(t);
    }
  }
}
