/** Runs on named objects: a store follows every run of BackupRuns, and in every state so reached each labelled
    object belongs to a backup that is still there. */
module BackupCluster {
  import opened Prelude
  import opened Api
  import opened BackupModel
  import opened BackupSafety
  import opened BackupPass
  import opened BackupRuns
  import opened BackupStore

  function Created(s: Store, id: Id, uid: nat, spec: BackupSpec): Store {
    s.(vsbs := s.vsbs[id := NewBackup(id.name, uid, spec).cr], slots := s.slots[id := 0])
  }

  /** No object that is there bears a name that a fresh backup would use. */
  lemma NamesFree(s: Store, id: Id, spec: BackupSpec)
    requires Valid(s) && Fresh(Views(s), id, spec)
    ensures ContentKey(spec) !in s.contents && SnapshotKey(spec) !in s.snapshots && ClaimKey(spec) !in s.claims
    ensures PodKey(spec, id.name) !in s.pods && SecretKey(spec, id.name) !in s.secrets && SourceKey(spec, id.name) !in s.sources
  {
    hide Linked;
    var specs := Specs(s);
    forall o | o in specs
      ensures ContentKey(specs[o]) != ContentKey(spec) && SnapshotKey(specs[o]) != SnapshotKey(spec)
      ensures ClaimKey(specs[o]) != ClaimKey(spec) && PodKey(specs[o], o.name) != PodKey(spec, id.name)
      ensures SecretKey(specs[o], o.name) != SecretKey(spec, id.name)
      ensures SourceKey(specs[o], o.name) != SourceKey(spec, id.name)
    {
      assert o in Views(s) && Views(s)[o].cr.spec == specs[o];
      NamesInjective(o.name, id.name);
      NamesInjective(specs[o].vscName, spec.vscName);
    }
  }

  lemma CreatedViews(s: Store, id: Id, uid: nat, spec: BackupSpec)
    requires Valid(s) && id !in s.vsbs && Fresh(Views(s), id, spec)
    ensures var t := Created(s, id, uid, spec);
            && Views(t) == Views(s)[id := NewBackup(id.name, uid, spec)]
            && Specs(t) == Specs(s)[id := spec]
            && View(t, id) == NewBackup(id.name, uid, spec)
            && (forall other :: other in s.vsbs ==> View(t, other) == View(s, other))
  {
    hide Valid, Fresh, NoStrays, View;
    CreatedView(s, id, uid, spec);
    forall other | other in s.vsbs {
      OtherView(s, id, uid, spec, other);
    }
  }

  lemma CreatedView(s: Store, id: Id, uid: nat, spec: BackupSpec)
    requires Valid(s) && id !in s.vsbs && Fresh(Views(s), id, spec)
    ensures View(Created(s, id, uid, spec), id) == NewBackup(id.name, uid, spec)
  {
    hide Valid, Fresh, NoStrays;
    NamesFree(s, id, spec);
  }

  lemma OtherView(s: Store, id: Id, uid: nat, spec: BackupSpec, other: Id)
    requires id !in s.vsbs && other in s.vsbs
    ensures View(Created(s, id, uid, spec), other) == View(s, other)
  {
  }

  lemma CreatedNoStrays(specs: map<Id, BackupSpec>, s: Store, t: Store, id: Id, spec: BackupSpec)
    requires NoStrays(specs, s) && id !in specs && t == s.(vsbs := t.vsbs, slots := t.slots)
    ensures NoStrays(specs[id := spec], t)
  {
    var more := specs[id := spec];
    forall k | k in s.contents ensures k in ContentKeys(more) { var o :| o in specs && k == ContentKey(specs[o]); assert o in more; }
    forall k | k in s.snapshots ensures k in SnapshotKeys(more) { var o :| o in specs && k == SnapshotKey(specs[o]); assert o in more; }
    forall k | k in s.claims ensures k in ClaimKeys(more) { var o :| o in specs && k == ClaimKey(specs[o]); assert o in more; }
    forall k | k in s.pods ensures k in PodKeys(more) { var o: Id :| o in specs && k == PodKey(specs[o], o.name); assert o in more; }
    forall k | k in s.secrets ensures k in SecretKeys(more) { var o: Id :| o in specs && k == SecretKey(specs[o], o.name); assert o in more; }
    forall k | k in s.sources ensures k in SourceKeys(more) { var o: Id :| o in specs && k == SourceKey(specs[o], o.name); assert o in more; }
  }

  lemma CreatedDistinct(s: Store, id: Id, spec: BackupSpec)
    requires Valid(s) && id !in s.vsbs && Fresh(Views(s), id, spec)
    ensures Distinct(Specs(s)[id := spec])
  {
    hide NoStrays, Linked, View;
    var specs := Specs(s);
    forall o | o in specs
      ensures o.name != id.name && specs[o].vscName != spec.vscName
    {
      ViewCr(s, o);
      assert o in Views(s) && Views(s)[o].cr.spec == specs[o];
    }
  }

  /** A user creates a backup. */
  lemma CreateWrite(s: Store, id: Id, uid: nat, spec: BackupSpec)
    requires Valid(s) && id !in s.vsbs && Fresh(Views(s), id, spec)
    ensures Valid(Created(s, id, uid, spec))
    ensures Views(Created(s, id, uid, spec)) == Views(s)[id := NewBackup(id.name, uid, spec)]
  {
    hide NoStrays, Linked, Distinct, Fresh, Specs, Views, View;
    var t := Created(s, id, uid, spec);
    CreatedViews(s, id, uid, spec);
    CreatedDistinct(s, id, spec);
    SpecsKeys(s);
    CreatedNoStrays(Specs(s), s, t, id, spec);
    NewLinked(id.name, uid, spec);
  }

  lemma SpecsKeys(s: Store)
    ensures Specs(s).Keys == s.vsbs.Keys
  {
  }

  lemma NewLinked(name: string, uid: nat, spec: BackupSpec)
    ensures Linked(NewBackup(name, uid, spec))
  {
  }

  lemma MoveLinked(l: Backup, m: Backup)
    requires Linked(l) && ClusterMove(l, m)
    ensures Linked(m) && m.cr == l.cr
  {
  }

  /** The store with the objects of one backup put as the record has them, and nothing else touched. */
  function Put<K, V>(m: map<K, V>, k: K, v: Option<V>): map<K, V> {
    if v.Some? then m[k := v.value] else m - {k}
  }

  function Rewritten(s: Store, id: Id, m: Backup): Store
    requires id in s.vsbs
  {
    var spec := s.vsbs[id].spec;
    Store(s.vsbs[id := m.cr], Put(s.contents, ContentKey(spec), m.vsc), Put(s.snapshots, SnapshotKey(spec), m.snap),
          Put(s.claims, ClaimKey(spec), m.pvc), Put(s.pods, PodKey(spec, id.name), m.pod),
          Put(s.secrets, SecretKey(spec, id.name), m.secret), Put(s.sources, SourceKey(spec, id.name), m.src),
          s.slots[id := m.slots])
  }

  lemma RewrittenView(s: Store, id: Id, m: Backup)
    requires id in s.vsbs && m.cr.spec == s.vsbs[id].spec
    ensures View(Rewritten(s, id, m), id) == m
  {
  }

  lemma RewrittenOther(s: Store, id: Id, m: Backup, other: Id)
    requires Valid(s) && id in s.vsbs && other in s.vsbs && other != id
    ensures View(Rewritten(s, id, m), other) == View(s, other)
  {
    hide Valid;
    KeysApart(s, id, other);
  }

  lemma RewrittenNoStrays(specs: map<Id, BackupSpec>, s: Store, id: Id, m: Backup)
    requires NoStrays(specs, s) && id in s.vsbs && id in specs && specs[id] == s.vsbs[id].spec
    ensures NoStrays(specs, Rewritten(s, id, m))
  {
    assert ContentKey(specs[id]) in ContentKeys(specs) && SnapshotKey(specs[id]) in SnapshotKeys(specs);
    assert ClaimKey(specs[id]) in ClaimKeys(specs) && PodKey(specs[id], id.name) in PodKeys(specs);
    assert SecretKey(specs[id], id.name) in SecretKeys(specs) && SourceKey(specs[id], id.name) in SourceKeys(specs);
  }

  /** Any later state of one backup can be written to the store. */
  lemma RewriteWrite(s: Store, id: Id, m: Backup)
    requires Valid(s) && id in s.vsbs && Linked(m) && m.cr.name == id.name && m.cr.spec == s.vsbs[id].spec
    ensures Becomes(s, id, Rewritten(s, id, m), m)
  {
    hide Becomes, Linked, Valid, Specs, View, NoStrays;
    ValidParts(s, id);
    RewrittenView(s, id, m);
    forall other | other in s.vsbs && other != id
      ensures View(Rewritten(s, id, m), other) == View(s, other)
    {
      RewrittenOther(s, id, m, other);
    }
    RewrittenNoStrays(Specs(s), s, id, m);
    ViewsBecome(s, id, Rewritten(s, id, m), m);
  }

  /** A user deletes a backup: marked while it has the finalizer, else gone at once. */
  ghost function DeletedBy(s: Store, id: Id): Store
    requires id in s.vsbs
  {
    if s.vsbs[id].finalizer then s.(vsbs := s.vsbs[id := Marked(View(s, id)).cr]) else Without(s, id)
  }

  lemma DeletionWrite(s: Store, id: Id)
    requires Valid(s) && id in s.vsbs && Good(View(s, id))
    ensures Valid(DeletedBy(s, id))
    ensures Views(DeletedBy(s, id)) == if s.vsbs[id].finalizer then Views(s)[id := Marked(View(s, id))] else Views(s) - {id}
  {
    hide Valid, View, Good, Views;
    ViewCr(s, id);
    MarkedCr(View(s, id));
    if s.vsbs[id].finalizer {
      ResourceWrite(s, id, Marked(View(s, id)).cr);
    } else {
      RemoveWrite(s, id);
    }
  }

  lemma MarkedCr(l: Backup)
    requires Good(l)
    ensures Marked(l) == l.(cr := Marked(l).cr) && Marked(l).cr.name == l.cr.name && Marked(l).cr.spec == l.cr.spec
    ensures !l.cr.finalizer ==> OwnsNothing(l)
  {
  }

  lemma SoundGood(sys: System, id: Id)
    requires Sound(sys) && id in sys.vsbs
    ensures Good(sys.vsbs[id])
  {
  }

  /** A pass that keeps its backup, on the store. */
  lemma PassStored(s: Store, sys: System, id: Id, e: Env) returns (t: Store)
    requires Valid(s) && sys.vsbs == Views(s) && Sound(sys) && id in s.vsbs
    ensures Valid(t) && Views(t) == Next(sys, Reconcile(id, e)).vsbs
  {
    hide Valid, Good, View, Views, Sound, Pass, Linked, Moved, OwnsNothing;
    ViewsAt(s, id);
    SoundGood(sys, id);
    var l := sys.vsbs[id];
    var o := Pass(l, sys.processing, sys.batch, e);
    PassIsSafe(l, sys.processing, sys.batch, e);
    var m := if o.l.Some? then o.l.value else Last(l, o.trail);
    PathEnds(e, l, o.trail, m);
    GoodLinked(m);
    RewriteWrite(s, id, m);
    t := Rewritten(s, id, m);
    BecomesViews(s, id, t, m);
    if o.l.None? {
      BecomesView(s, id, t, m);
      RemoveWrite(t, id);
      t := Without(t, id);
    }
  }

  lemma BecomesViews(s: Store, id: Id, t: Store, l: Backup)
    requires Becomes(s, id, t, l)
    ensures Valid(t) && Views(t) == Views(s)[id := l]
  {
    hide Valid, Views;
  }

  lemma ViewsAt(s: Store, id: Id)
    requires Valid(s) && id in s.vsbs
    ensures id in Views(s) && Views(s)[id] == View(s, id) && View(s, id).cr == s.vsbs[id] && s.vsbs[id].name == id.name
  {
    hide NoStrays, Linked;
  }

  lemma GoodLinked(l: Backup)
    requires Good(l)
    ensures Linked(l)
  {
  }

  /** The store follows every event of every run. */
  lemma StoreFollows(s: Store, sys: System, ev: Event) returns (t: Store)
    requires Valid(s) && sys.vsbs == Views(s) && Sound(sys)
    ensures Valid(t) && Views(t) == Next(sys, ev).vsbs
  {
    hide Valid, Good, ClusterMove, Fresh, View, Sound, Pass;
    t := s;
    match ev
    case Reconcile(id, e) =>
      if id in s.vsbs {
        t := PassStored(s, sys, id, e);
      }
    case Create(id, spec) =>
      if id !in s.vsbs && Fresh(Views(s), id, spec) {
        CreateWrite(s, id, sys.uids, spec);
        t := Created(s, id, sys.uids, spec);
      }
    case Cluster(id, m) =>
      if id in s.vsbs && ClusterMove(View(s, id), m) {
        ViewsAt(s, id);
        ValidLinked(s, id);
        MoveLinked(View(s, id), m);
        RewriteWrite(s, id, m);
        t := Rewritten(s, id, m);
        BecomesViews(s, id, t, m);
      }
    case Delete(id) =>
      if id in s.vsbs {
        SoundGood(sys, id);
        assert sys.vsbs[id] == View(s, id);
        DeletionWrite(s, id);
        ViewCr(s, id);
        t := DeletedBy(s, id);
      }
  }

  /** The backup whose name an object's label carries, still there, with its finalizer on. */
  ghost predicate Owned(s: Store, owner: string) {
    exists id: Id :: id in s.vsbs && id.name == owner && s.vsbs[id].finalizer
  }

  /** No orphans: every labelled object in the cluster belongs to a backup that exists and has the
      finalizer. */
  lemma EveryObjectIsOwned(s: Store)
    requires Valid(s) && forall id :: id in s.vsbs ==> Good(View(s, id))
    ensures AllOwned(s)
  {
    hide View, Linked, Good, Owned, Distinct;
    var specs := Specs(s);
    forall k | k in s.contents ensures Owned(s, s.contents[k].owner) {
      var o :| o in specs && k == ContentKey(specs[o]);
      OwnerOf(s, o);
    }
    forall k | k in s.snapshots ensures Owned(s, s.snapshots[k].owner) {
      var o :| o in specs && k == SnapshotKey(specs[o]);
      OwnerOf(s, o);
    }
    forall k | k in s.claims ensures Owned(s, s.claims[k].owner) {
      var o :| o in specs && k == ClaimKey(specs[o]);
      OwnerOf(s, o);
    }
    forall k | k in s.pods ensures Owned(s, s.pods[k].owner) {
      var o: Id :| o in specs && k == PodKey(specs[o], o.name);
      OwnerOf(s, o);
    }
    forall k | k in s.secrets ensures Owned(s, s.secrets[k].owner) {
      var o: Id :| o in specs && k == SecretKey(specs[o], o.name);
      OwnerOf(s, o);
    }
    forall k | k in s.sources ensures Owned(s, s.sources[k].owner) {
      var o: Id :| o in specs && k == SourceKey(specs[o], o.name);
      OwnerOf(s, o);
    }
  }

  lemma OwnerOf(s: Store, o: Id)
    requires o in s.vsbs && s.vsbs[o].name == o.name && Good(View(s, o))
    ensures var spec := s.vsbs[o].spec;
            && (ContentKey(spec) in s.contents ==> Owned(s, s.contents[ContentKey(spec)].owner))
            && (SnapshotKey(spec) in s.snapshots ==> Owned(s, s.snapshots[SnapshotKey(spec)].owner))
            && (ClaimKey(spec) in s.claims ==> Owned(s, s.claims[ClaimKey(spec)].owner))
            && (PodKey(spec, o.name) in s.pods ==> Owned(s, s.pods[PodKey(spec, o.name)].owner))
            && (SecretKey(spec, o.name) in s.secrets ==> Owned(s, s.secrets[SecretKey(spec, o.name)].owner))
            && (SourceKey(spec, o.name) in s.sources ==> Owned(s, s.sources[SourceKey(spec, o.name)].owner))
  {
    assert s.vsbs[o].finalizer ==> Owned(s, o.name);
  }

  /** Some store, with real names and labels, holds exactly the backups of the run's last state. */
  lemma {:induction false} RunIsStored(run: seq<Event>) returns (s: Store)
    ensures Valid(s) && Views(s) == Exec(run).vsbs
    decreases |run|
  {
    hide Valid, Next, Views;
    if run == [] {
      s := Store(map[], map[], map[], map[], map[], map[], map[], map[]);
      EmptyStore(s);
    } else {
      var before := run[..|run| - 1];
      s := RunIsStored(before);
      ExecSound(before);
      s := StoreFollows(s, Exec(before), run[|run| - 1]);
    }
  }

  lemma EmptyStore(s: Store)
    requires s == Store(map[], map[], map[], map[], map[], map[], map[], map[])
    ensures Valid(s) && Views(s) == map[]
  {
  }

  /** No orphans, to the last object: in every run, whatever has been deleted and whichever calls have failed,
      there is a valid store that holds its backups, and in that one as in any other that does, each labelled
      object of each kind belongs to a backup that exists and has the finalizer. */
  lemma NoOrphansInAnyRun(run: seq<Event>) returns (s: Store)
    ensures Valid(s) && Views(s) == Exec(run).vsbs
    ensures forall t: Store :: Valid(t) && Views(t) == Exec(run).vsbs ==> AllOwned(t)
  {
    hide Valid, Exec, Views, AllOwned;
    s := RunIsStored(run);
    forall t: Store | Valid(t) && Views(t) == Exec(run).vsbs
      ensures AllOwned(t)
    {
      ExecSound(run);
      StoredIsOwned(t, Exec(run));
    }
  }

  lemma StoredIsOwned(t: Store, sys: System)
    requires Valid(t) && Sound(sys) && Views(t) == sys.vsbs
    ensures AllOwned(t)
  {
    hide Valid, Good, View;
    forall id | id in t.vsbs
      ensures Good(View(t, id))
    {
      ViewsAt(t, id);
      SoundGood(sys, id);
    }
    EveryObjectIsOwned(t);
  }

  ghost predicate AllOwned(s: Store) {
    && (forall k :: k in s.contents ==> Owned(s, s.contents[k].owner))
    && (forall k :: k in s.snapshots ==> Owned(s, s.snapshots[k].owner))
    && (forall k :: k in s.claims ==> Owned(s, s.claims[k].owner))
    && (forall k :: k in s.pods ==> Owned(s, s.pods[k].owner))
    && (forall k :: k in s.secrets ==> Owned(s, s.secrets[k].owner))
    && (forall k :: k in s.sources ==> Owned(s, s.sources[k].owner))
  }
}
