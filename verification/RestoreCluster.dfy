/** Runs on named objects, and the owners of labelled objects, as in BackupCluster. */
module RestoreCluster {
  import opened Prelude
  import opened Api
  import opened RestoreModel
  import opened RestoreSafety
  import opened RestoreRuns
  import opened RestoreStore

  function Created(s: Store, id: Id, uid: nat, spec: RestoreSpec): Store {
    s.(vsrs := s.vsrs[id := NewRestore(id.name, uid, spec).cr], slots := s.slots[id := 0])
  }

  /** No object that is there bears a name that a fresh restore would use. */
  lemma NamesFree(s: Store, id: Id, spec: RestoreSpec)
    requires Valid(s) && Fresh(Views(s), id, spec)
    ensures SecretKey(spec, id.name) !in s.secrets && DestKey(spec, id.name) !in s.dests
  {
    hide Linked, View;
    var specs := Specs(s);
    forall o | o in specs
      ensures SecretKey(specs[o], o.name) != SecretKey(spec, id.name) && DestKey(specs[o], o.name) != DestKey(spec, id.name)
    {
      OthersDiffer(s, id, spec, o);
      if o.name != id.name {
        NamesInjective(o.name, id.name);
      }
    }
  }

  lemma OthersDiffer(s: Store, id: Id, spec: RestoreSpec, o: Id)
    requires Fresh(Views(s), id, spec) && o in s.vsrs
    ensures o.name != id.name || s.vsrs[o].spec.protectedNs != spec.protectedNs
  {
    assert o in Views(s) && Views(s)[o].cr == s.vsrs[o];
  }

  lemma CreatedViews(s: Store, id: Id, uid: nat, spec: RestoreSpec)
    requires Valid(s) && id !in s.vsrs && Fresh(Views(s), id, spec)
    ensures var t := Created(s, id, uid, spec);
            && Views(t) == Views(s)[id := NewRestore(id.name, uid, spec)]
            && Specs(t) == Specs(s)[id := spec]
            && View(t, id) == NewRestore(id.name, uid, spec)
            && (forall other :: other in s.vsrs ==> View(t, other) == View(s, other))
  {
    hide Valid, Fresh, NoStrays, View;
    CreatedView(s, id, uid, spec);
    forall other | other in s.vsrs {
      OtherView(s, id, uid, spec, other);
    }
  }

  lemma CreatedView(s: Store, id: Id, uid: nat, spec: RestoreSpec)
    requires Valid(s) && id !in s.vsrs && Fresh(Views(s), id, spec)
    ensures View(Created(s, id, uid, spec), id) == NewRestore(id.name, uid, spec)
  {
    hide Valid, Fresh, NoStrays;
    NamesFree(s, id, spec);
  }

  lemma OtherView(s: Store, id: Id, uid: nat, spec: RestoreSpec, other: Id)
    requires id !in s.vsrs && other in s.vsrs
    ensures View(Created(s, id, uid, spec), other) == View(s, other)
  {
  }

  lemma CreatedNoStrays(specs: map<Id, RestoreSpec>, s: Store, t: Store, id: Id, spec: RestoreSpec)
    requires NoStrays(specs, s) && id !in specs && t == s.(vsrs := t.vsrs, slots := t.slots)
    ensures NoStrays(specs[id := spec], t)
  {
    var more := specs[id := spec];
    forall k | k in s.secrets ensures k in SecretKeys(more) { var o: Id :| o in specs && k == SecretKey(specs[o], o.name); assert o in more; }
    forall k | k in s.dests ensures k in DestKeys(more) { var o: Id :| o in specs && k == DestKey(specs[o], o.name); assert o in more; }
  }

  lemma CreatedDistinct(s: Store, id: Id, spec: RestoreSpec)
    requires Valid(s) && id !in s.vsrs && Fresh(Views(s), id, spec)
    ensures Distinct(Specs(s)[id := spec])
  {
    hide NoStrays, Linked, View, Fresh;
    forall o | o in s.vsrs {
      OthersDiffer(s, id, spec, o);
    }
  }

  /** A user creates a restore. */
  lemma CreateWrite(s: Store, id: Id, uid: nat, spec: RestoreSpec)
    requires Valid(s) && id !in s.vsrs && Fresh(Views(s), id, spec)
    ensures Valid(Created(s, id, uid, spec))
    ensures Views(Created(s, id, uid, spec)) == Views(s)[id := NewRestore(id.name, uid, spec)]
  {
    hide NoStrays, Distinct, Fresh, Specs, Views, View, Linked;
    CreatedViews(s, id, uid, spec);
    CreatedDistinct(s, id, spec);
    SpecsKeys(s);
    CreatedNoStrays(Specs(s), s, Created(s, id, uid, spec), id, spec);
    NewLinked(id.name, uid, spec);
  }

  lemma SpecsKeys(s: Store)
    ensures Specs(s).Keys == s.vsrs.Keys
  {
  }

  lemma NewLinked(name: string, uid: nat, spec: RestoreSpec)
    ensures Linked(NewRestore(name, uid, spec))
  {
  }

  lemma MoveLinked(l: Restore, m: Restore)
    requires Linked(l) && ClusterMove(l, m)
    ensures Linked(m) && m.cr == l.cr
  {
  }

  /** The store with the objects of one restore put as the record has them, and nothing else touched. */
  function Put<K, V>(m: map<K, V>, k: K, v: Option<V>): map<K, V> {
    if v.Some? then m[k := v.value] else m - {k}
  }

  function Rewritten(s: Store, id: Id, m: Restore): Store
    requires id in s.vsrs
  {
    var spec := s.vsrs[id].spec;
    Store(s.vsrs[id := m.cr], Put(s.secrets, SecretKey(spec, id.name), m.secret), Put(s.dests, DestKey(spec, id.name), m.dest),
          s.slots[id := m.slots])
  }

  lemma RewrittenView(s: Store, id: Id, m: Restore)
    requires id in s.vsrs && m.cr.spec == s.vsrs[id].spec
    ensures View(Rewritten(s, id, m), id) == m
  {
  }

  lemma RewrittenOther(s: Store, id: Id, m: Restore, other: Id)
    requires Valid(s) && id in s.vsrs && other in s.vsrs && other != id
    ensures View(Rewritten(s, id, m), other) == View(s, other)
  {
    hide Valid;
    KeysApart(s, id, other);
  }

  lemma RewrittenNoStrays(specs: map<Id, RestoreSpec>, s: Store, id: Id, m: Restore)
    requires NoStrays(specs, s) && id in s.vsrs && id in specs && specs[id] == s.vsrs[id].spec
    ensures NoStrays(specs, Rewritten(s, id, m))
  {
    assert SecretKey(specs[id], id.name) in SecretKeys(specs) && DestKey(specs[id], id.name) in DestKeys(specs);
  }

  /** Any later state of one restore can be written to the store. */
  lemma RewriteWrite(s: Store, id: Id, m: Restore)
    requires Valid(s) && id in s.vsrs && Linked(m) && m.cr.name == id.name && m.cr.spec == s.vsrs[id].spec
    ensures Becomes(s, id, Rewritten(s, id, m), m)
  {
    hide Becomes, Linked, Valid, View, NoStrays;
    ValidParts(s, id);
    RewrittenView(s, id, m);
    forall other | other in s.vsrs && other != id
      ensures View(Rewritten(s, id, m), other) == View(s, other)
    {
      RewrittenOther(s, id, m, other);
    }
    RewrittenNoStrays(Specs(s), s, id, m);
    ViewsBecome(s, id, Rewritten(s, id, m), m);
  }

  lemma MarkedCr(l: Restore)
    requires Good(l)
    ensures Marked(l) == l.(cr := Marked(l).cr) && Marked(l).cr.name == l.cr.name && Marked(l).cr.spec == l.cr.spec
    ensures !l.cr.finalizer ==> OwnsNothing(l)
  {
  }

  /** A user deletes a restore. */
  lemma DeletionWrite(s: Store, id: Id) returns (t: Store)
    requires Valid(s) && id in s.vsrs && Good(View(s, id))
    ensures Valid(t)
    ensures Views(t) == if s.vsrs[id].finalizer then Views(s)[id := Marked(View(s, id))] else Views(s) - {id}
  {
    hide Valid, View, Good, Views;
    ValidParts(s, id);
    MarkedCr(View(s, id));
    if s.vsrs[id].finalizer {
      ResourceWrite(s, id, Marked(View(s, id)).cr);
      t := s.(vsrs := s.vsrs[id := Marked(View(s, id)).cr]);
    } else {
      RemoveWrite(s, id);
      t := Without(s, id);
    }
  }

  /** A pass that keeps its restore, on the store. */
  lemma PassStored(s: Store, sys: System, id: Id, e: Env) returns (t: Store)
    requires Valid(s) && sys.vsrs == Views(s) && Sound(sys) && id in s.vsrs
    ensures Valid(t) && Views(t) == Next(sys, Reconcile(id, e)).vsrs
  {
    hide Valid, Good, View, Views, Sound, Pass, Linked, Moved, OwnsNothing, RecordedFrom;
    ViewsAt(s, id);
    SoundGood(sys);
    var l := sys.vsrs[id];
    var o := Pass(l, sys.processing, sys.batch, e);
    PassIsSafe(l, sys.processing, sys.batch, e);
    var m := if o.l.Some? then o.l.value else Last(l, o.trail);
    PathEnds(e, l, o.trail, m);
    GoodLinked(m);
    RewriteWrite(s, id, m);
    t := Rewritten(s, id, m);
    BecomesViews(s, id, t, m);
    if o.l.None? {
      BecomesView(s, id, t, m);
      RemoveWrite(t, id);
      t := Without(t, id);
    }
  }

  lemma BecomesViews(s: Store, id: Id, t: Store, l: Restore)
    requires Becomes(s, id, t, l)
    ensures Valid(t) && Views(t) == Views(s)[id := l]
  {
    hide Valid, Views;
  }

  lemma ViewsAt(s: Store, id: Id)
    requires Valid(s) && id in s.vsrs
    ensures id in Views(s) && Views(s)[id] == View(s, id) && View(s, id).cr == s.vsrs[id] && s.vsrs[id].name == id.name
  {
    hide NoStrays, Linked;
  }

  lemma GoodLinked(l: Restore)
    requires Good(l)
    ensures Linked(l)
  {
  }

  /** The store follows every event of every run. */
  lemma StoreFollows(s: Store, sys: System, ev: Event) returns (t: Store)
    requires Valid(s) && sys.vsrs == Views(s) && Sound(sys)
    ensures Valid(t) && Views(t) == Next(sys, ev).vsrs
  {
    hide Valid, Good, ClusterMove, Fresh, View, Sound, Pass;
    t := s;
    match ev
    case Reconcile(id, e) =>
      if id in s.vsrs {
        t := PassStored(s, sys, id, e);
      }
    case Create(id, spec) =>
      if id !in s.vsrs && Fresh(Views(s), id, spec) {
        CreateWrite(s, id, sys.uids, spec);
        t := Created(s, id, sys.uids, spec);
      }
    case Cluster(id, m) =>
      if id in s.vsrs && ClusterMove(View(s, id), m) {
        ViewsAt(s, id);
        ValidParts(s, id);
        MoveLinked(View(s, id), m);
        RewriteWrite(s, id, m);
        t := Rewritten(s, id, m);
        BecomesViews(s, id, t, m);
      }
    case Delete(id) =>
      if id in s.vsrs {
        SoundGood(sys);
        assert sys.vsrs[id] == View(s, id);
        ValidParts(s, id);
        t := DeletionWrite(s, id);
      }
  }

  /** The restore whose name and protected namespace an object carries, still there, with its finalizer on. */
  ghost predicate Owned(s: Store, owner: string, ns: string) {
    exists id: Id :: id in s.vsrs && id.name == owner && s.vsrs[id].spec.protectedNs == ns && s.vsrs[id].finalizer
  }

  /** No orphans: every labelled object belongs to a restore that exists and has the finalizer. */
  lemma EveryObjectIsOwned(s: Store)
    requires Valid(s) && forall id :: id in s.vsrs ==> Good(View(s, id))
    ensures AllOwned(s)
  {
    hide View, Linked, Good, Owned, Distinct;
    var specs := Specs(s);
    forall k | k in s.secrets ensures Owned(s, s.secrets[k].owner, k.ns) {
      var o: Id :| o in specs && k == SecretKey(specs[o], o.name);
      OwnerOf(s, o);
    }
    forall k | k in s.dests ensures Owned(s, s.dests[k].owner, k.ns) {
      var o: Id :| o in specs && k == DestKey(specs[o], o.name);
      OwnerOf(s, o);
    }
  }

  lemma OwnerOf(s: Store, o: Id)
    requires o in s.vsrs && s.vsrs[o].name == o.name && Good(View(s, o))
    ensures var spec := s.vsrs[o].spec;
            && (SecretKey(spec, o.name) in s.secrets ==> Owned(s, s.secrets[SecretKey(spec, o.name)].owner, spec.protectedNs))
            && (DestKey(spec, o.name) in s.dests ==> Owned(s, s.dests[DestKey(spec, o.name)].owner, spec.protectedNs))
  {
    assert s.vsrs[o].finalizer ==> Owned(s, o.name, s.vsrs[o].spec.protectedNs);
  }

  /** Some store, with real names and labels, holds exactly the restores of the run's last state. */
  lemma {:induction false} RunIsStored(run: seq<Event>) returns (s: Store)
    ensures Valid(s) && Views(s) == Exec(run).vsrs
    decreases |run|
  {
    hide Valid, Next, Views;
    if run == [] {
      s := Store(map[], map[], map[], map[]);
      EmptyStore(s);
    } else {
      var before := run[..|run| - 1];
      s := RunIsStored(before);
      ExecSound(before);
      s := StoreFollows(s, Exec(before), run[|run| - 1]);
    }
  }

  lemma EmptyStore(s: Store)
    requires s == Store(map[], map[], map[], map[])
    ensures Valid(s) && Views(s) == map[]
  {
  }

  /** No orphans, to the last object: in every run, whatever has been deleted and whichever calls have failed,
      there is a valid store that holds its restores, and in that one as in any other that does, each labelled
      object of each kind belongs to a restore that exists and has the finalizer. */
  lemma NoOrphansInAnyRun(run: seq<Event>) returns (s: Store)
    ensures Valid(s) && Views(s) == Exec(run).vsrs
    ensures forall t: Store :: Valid(t) && Views(t) == Exec(run).vsrs ==> AllOwned(t)
  {
    hide Valid, Exec, Views, AllOwned;
    s := RunIsStored(run);
    forall t: Store | Valid(t) && Views(t) == Exec(run).vsrs
      ensures AllOwned(t)
    {
      ExecSound(run);
      StoredIsOwned(t, Exec(run));
    }
  }

  lemma StoredIsOwned(t: Store, sys: System)
    requires Valid(t) && Sound(sys) && Views(t) == sys.vsrs
    ensures AllOwned(t)
  {
    hide Valid, Good, View;
    forall id | id in t.vsrs
      ensures Good(View(t, id))
    {
      ViewsAt(t, id);
      SoundGood(sys);
    }
    EveryObjectIsOwned(t);
  }

  ghost predicate AllOwned(s: Store) {
    && (forall k :: k in s.secrets ==> Owned(s, s.secrets[k].owner, k.ns))
    && (forall k :: k in s.dests ==> Owned(s, s.dests[k].owner, k.ns))
  }
}
