/** Where a live ReplicationSource's data comes from: the chain of references below it, and the readings
    its links were built from. */
module BackupChain {
  import opened Prelude
  import opened Api
  import opened BackupModel
  import opened BackupSafety
  import opened BackupPass
  import opened BackupRuns

  /** The clone points at the snapshot handle that pass `e` read from the original content. */
  predicate ClonedFrom(e: Env, c: VscClone) {
    e.original.Some? && e.original.value.status.Some? && c.handle == e.original.value.status.value.handle
  }

  /** The claim is at least as large as both sizes pass `e` saw, and has the options it chose. */
  predicate SizedFrom(e: Env, l: Backup)
    requires l.pvc.Some?
  {
    ClaimFrom(e, l, l.pvc.value)
  }

  /** An object at the end of a path was there before, or was built from this pass's readings. */
  lemma {:induction false} PathBuilt(e: Env, l: Backup, trail: seq<Backup>, m: Backup)
    requires Good(l) && Path(e, l, trail, m)
    ensures m.vsc.Some? ==> m.vsc == l.vsc || ClonedFrom(e, m.vsc.value)
    ensures m.pvc.Some? ==> (m.pvc == l.pvc && m.vsc == l.vsc) || SizedFrom(e, m)
    decreases |trail|
  {
    if trail != [] {
      PathBuilt(e, trail[0], trail[1..], m);
      PathEnds(e, trail[0], trail[1..], m);
    }
  }

  lemma PassBuilt(l: Backup, processing: int, batch: int, e: Env)
    requires Good(l)
    ensures var o := Pass(l, processing, batch, e);
            o.l.Some? ==>
              && (o.l.value.vsc.Some? ==> o.l.value.vsc == l.vsc || ClonedFrom(e, o.l.value.vsc.value))
              && (o.l.value.pvc.Some? ==> (o.l.value.pvc == l.pvc && o.l.value.vsc == l.vsc) || SizedFrom(e, o.l.value))
  {
    hide Pass;
    var o := Pass(l, processing, batch, e);
    PassIsSafe(l, processing, batch, e);
    if o.l.Some? {
      PathBuilt(e, l, o.trail, o.l.value);
    }
  }

  predicate SameHandle(l: Backup, m: Backup)
    requires m.vsc.Some?
  {
    l.vsc.Some? && l.vsc.value.handle == m.vsc.value.handle
  }

  /** Nothing but its binding has changed. */
  predicate SameClaim(l: Backup, m: Backup)
    requires m.pvc.Some?
  {
    l.pvc.Some? && m.pvc.value == l.pvc.value.(bound := m.pvc.value.bound)
  }

  /** One event: an object that is there after it was there before, or this very pass built it. */
  lemma EventBuilt(s: System, ev: Event, id: Id)
    requires Sound(s) && id in Next(s, ev).vsbs
    requires Next(s, ev).vsbs[id].vsc.Some? || Next(s, ev).vsbs[id].pvc.Some?
    ensures id in s.vsbs
    ensures var m := Next(s, ev).vsbs[id];
            && (m.vsc.Some? ==> SameHandle(s.vsbs[id], m) || (ev.Reconcile? && ev.id == id && ClonedFrom(ev.e, m.vsc.value)))
            && (m.pvc.Some? ==> SameClaim(s.vsbs[id], m) || (ev.Reconcile? && ev.id == id && SizedFrom(ev.e, m)))
  {
    hide Pass, Good;
    match ev
    case Reconcile(other, e) =>
      if other == id {
        PassBuilt(s.vsbs[id], s.processing, s.batch, e);
      }
    case _ =>
  }

  /** The backup `id` at point `k` of the run. */
  ghost predicate At(run: seq<Event>, k: nat, id: Id) {
    k <= |run| && id in Exec(run[..k]).vsbs
  }

  ghost function State(run: seq<Event>, k: nat, id: Id): Backup
    requires At(run, k, id)
  {
    Exec(run[..k]).vsbs[id]
  }

  /** Pass `k` of the run cloned the content, and from there to point `n` the clone has kept its handle. */
  ghost predicate ClonedBy(run: seq<Event>, k: nat, n: nat, id: Id, handle: string) {
    && k < n <= |run| && run[k].Reconcile? && run[k].id == id
    && run[k].e.original.Some? && run[k].e.original.value.status.Some?
    && run[k].e.original.value.status.value.handle == handle
    && forall j: nat :: k < j <= n ==> At(run, j, id) && State(run, j, id).vsc.Some?
                                       && State(run, j, id).vsc.value.handle == handle
  }

  lemma NoneAtStart(run: seq<Event>)
    ensures forall id :: !At(run, 0, id)
  {
    assert run[..0] == [];
  }

  /** Every clone in every run has the handle that the original had when a pass cloned it, unchanged
      since: no later pass and no change of the original replaces it. */
  lemma {:induction false} HandleSinceCloning(run: seq<Event>, n: nat, id: Id)
    requires At(run, n, id) && State(run, n, id).vsc.Some?
    ensures exists k :: ClonedBy(run, k, n, id, State(run, n, id).vsc.value.handle)
    decreases n
  {
    hide Next, Exec, Sound;
    NoneAtStart(run);
    var handle := State(run, n, id).vsc.value.handle;
    var s := Exec(run[..n - 1]);
    ExecSound(run[..n - 1]);
    ExecStep(run, n - 1);
    EventBuilt(s, run[n - 1], id);
    if SameHandle(s.vsbs[id], State(run, n, id)) {
      HandleSinceCloning(run, n - 1, id);
      var k :| ClonedBy(run, k, n - 1, id, handle);
      assert ClonedBy(run, k, n, id, handle);
    } else {
      assert ClonedBy(run, n - 1, n, id, handle);
    }
  }

  /** Pass `k` built the claim, with the sizes and options it read, and it has stayed as it was. */
  ghost predicate ClaimBuiltBy(run: seq<Event>, k: nat, n: nat, id: Id, claim: PvcClone) {
    && k < n <= |run| && run[k].Reconcile? && run[k].id == id && At(run, k, id)
    && At(run, k + 1, id) && State(run, k + 1, id).pvc.Some? && SizedFrom(run[k].e, State(run, k + 1, id))
    && State(run, k + 1, id).cr.spec == State(run, k, id).cr.spec
    && forall j: nat :: k < j <= n ==>
         && At(run, j, id) && State(run, j, id).cr.uid == State(run, k, id).cr.uid
         && State(run, j, id).pvc.Some? && State(run, j, id).pvc.value == claim.(bound := State(run, j, id).pvc.value.bound)
  }

  lemma {:induction false} ClaimSinceBuilding(run: seq<Event>, n: nat, id: Id)
    requires At(run, n, id) && State(run, n, id).pvc.Some?
    ensures exists k :: ClaimBuiltBy(run, k, n, id, State(run, n, id).pvc.value)
    decreases n
  {
    hide Next, Exec, Sound, SizedFrom;
    NoneAtStart(run);
    var claim := State(run, n, id).pvc.value;
    var s := Exec(run[..n - 1]);
    ExecSound(run[..n - 1]);
    ExecStep(run, n - 1);
    EventBuilt(s, run[n - 1], id);
    EventKeeps(s, run[n - 1], id);
    if SameClaim(s.vsbs[id], State(run, n, id)) {
      ClaimSinceBuilding(run, n - 1, id);
      var k :| ClaimBuiltBy(run, k, n - 1, id, s.vsbs[id].pvc.value);
      assert ClaimBuiltBy(run, k, n, id, claim);
    } else {
      assert ClaimBuiltBy(run, n - 1, n, id, claim);
    }
  }

  lemma EventKeeps(s: System, ev: Event, id: Id)
    requires Sound(s) && id in s.vsbs && id in Next(s, ev).vsbs
    ensures Next(s, ev).vsbs[id].cr.uid == s.vsbs[id].cr.uid && Next(s, ev).vsbs[id].cr.spec == s.vsbs[id].cr.spec
  {
    hide Next, Good, Moved;
    NextSound(s, ev);
  }

  /** The reference chain below every live ReplicationSource of every run: source to claim, claim to
      snapshot, snapshot and content clone naming each other, content clone to the handle of the original
      as some pass read it; and a claim large enough for what the pass that built it read. */
  lemma ReferenceChain(run: seq<Event>, id: Id)
    requires At(run, |run|, id) && State(run, |run|, id).src.Some?
    ensures var l := State(run, |run|, id);
            && l.pvc.Some? && l.pod.Some? && l.snap.Some? && l.vsc.Some? && l.secret.Some?
            && l.src.value.sourcePvc == l.cr.spec.vscName + "-pvc" == l.pod.value.claim
            && l.src.value.repository == id.name + "-secret"
            && l.pvc.value.dataSource == l.vsc.value.refName == l.cr.spec.vscName + "-clone" + "-volumesnapshot"
            && l.snap.value.content == l.cr.spec.vscName + "-clone"
            && (exists k :: ClonedBy(run, k, |run|, id, l.vsc.value.handle))
            && (exists k :: ClaimBuiltBy(run, k, |run|, id, l.pvc.value))
  {
    ExecSound(run);
    assert run[..|run|] == run;
    assert Good(State(run, |run|, id));
    HandleSinceCloning(run, |run|, id);
    ClaimSinceBuilding(run, |run|, id);
  }
}
