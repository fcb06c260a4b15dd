/** The API server's content as the restore reconciler sees it, in the manner of BackupStore. */
module RestoreStore {
  import opened Prelude
  import opened Api
  import opened RestoreModel
  import opened RestoreSafety

  /** `slots` is auxiliary history. */
  datatype Store = Store(vsrs: map<Id, Vsr>, secrets: map<Id, Secret>, dests: map<Id, RepDest>, slots: map<Id, int>)

  function SecretKey(spec: RestoreSpec, name: string): Id { Id(spec.protectedNs, SecretName(name)) }
  function DestKey(spec: RestoreSpec, name: string): Id { Id(spec.protectedNs, DestName(name)) }

  ghost function View(s: Store, id: Id): Restore
    requires id in s.vsrs
  {
    var spec := s.vsrs[id].spec;
    Restore(s.vsrs[id], Find(s.secrets, SecretKey(spec, id.name)), Find(s.dests, DestKey(spec, id.name)),
            if id in s.slots then s.slots[id] else 0)
  }

  ghost function Views(s: Store): map<Id, Restore> {
    map id | id in s.vsrs :: View(s, id)
  }

  ghost function Specs(s: Store): map<Id, RestoreSpec> {
    map id | id in s.vsrs :: s.vsrs[id].spec
  }

  /** Restores into one protected namespace have distinct names. */
  ghost predicate Distinct(specs: map<Id, RestoreSpec>) {
    forall a, b :: a in specs && b in specs && a != b ==> a.name != b.name || specs[a].protectedNs != specs[b].protectedNs
  }

  ghost function SecretKeys(specs: map<Id, RestoreSpec>): set<Id> { set id | id in specs :: SecretKey(specs[id], id.name) }
  ghost function DestKeys(specs: map<Id, RestoreSpec>): set<Id> { set id | id in specs :: DestKey(specs[id], id.name) }

  /** No orphans: the name of every owned object is one that an existing restore uses for its own. */
  ghost predicate NoStrays(specs: map<Id, RestoreSpec>, s: Store) {
    s.secrets.Keys <= SecretKeys(specs) && s.dests.Keys <= DestKeys(specs)
  }

  ghost predicate Valid(s: Store) {
    && s.vsrs.Keys == s.slots.Keys
    && (forall id :: id in s.vsrs ==> s.vsrs[id].name == id.name)
    && Distinct(Specs(s))
    && NoStrays(Specs(s), s)
    && (forall id :: id in s.vsrs ==> Linked(View(s, id)))
  }

  /******* Names *******/

  lemma NamesInjective(a: string, b: string)
    requires a != b
    ensures SecretName(a) != SecretName(b) && DestName(a) != DestName(b)
  {
    if SecretName(a) == SecretName(b) { SuffixInjective(a, b, "-secret"); }
    if DestName(a) == DestName(b) { SuffixInjective(a, b, "-rep-dest"); }
  }

  /** No other restore uses any of the names of `id`. */
  lemma KeysApart(s: Store, id: Id, other: Id)
    requires Valid(s) && id in s.vsrs && other in s.vsrs && other != id
    ensures SecretKey(s.vsrs[id].spec, id.name) != SecretKey(s.vsrs[other].spec, other.name)
    ensures DestKey(s.vsrs[id].spec, id.name) != DestKey(s.vsrs[other].spec, other.name)
  {
    hide NoStrays, Linked;
    var specs := Specs(s);
    assert id.name != other.name || specs[id].protectedNs != specs[other].protectedNs;
    if id.name != other.name {
      NamesInjective(id.name, other.name);
    }
  }

  /******* Writes *******/

  /** `t` differs from `s` in the restore `id` alone, which has become `l`. */
  ghost predicate Becomes(s: Store, id: Id, t: Store, l: Restore) {
    Valid(t) && Views(t) == Views(s)[id := l]
  }

  /** The common part of the writes below: from the views, everything else follows. */
  lemma ViewsBecome(s: Store, id: Id, t: Store, l: Restore)
    requires Valid(s) && id in s.vsrs && Linked(l) && l.cr.name == id.name && l.cr.spec == s.vsrs[id].spec
    requires t.vsrs.Keys == s.vsrs.Keys == t.slots.Keys && View(t, id) == l && NoStrays(Specs(s), t)
    requires forall other :: other in s.vsrs && other != id ==> View(t, other) == View(s, other)
    ensures Becomes(s, id, t, l)
  {
    hide Linked, NoStrays, Distinct, Specs, Views, View;
    ViewsAgree(s, id, t, l);
    forall other | other in s.vsrs
      ensures t.vsrs[other].name == other.name && Linked(View(t, other))
    {
      ViewsCr(s, t, id, other);
    }
  }

  lemma ViewsAgree(s: Store, id: Id, t: Store, l: Restore)
    requires id in s.vsrs && t.vsrs.Keys == s.vsrs.Keys && View(t, id) == l && l.cr.spec == s.vsrs[id].spec
    requires forall other :: other in s.vsrs && other != id ==> View(t, other) == View(s, other)
    ensures Views(t) == Views(s)[id := l] && Specs(t) == Specs(s)
  {
    forall other | other in s.vsrs
      ensures t.vsrs[other].spec == s.vsrs[other].spec
    {
      ViewsCr(s, t, id, other);
    }
  }

  lemma ViewsCr(s: Store, t: Store, id: Id, other: Id)
    requires other in s.vsrs && other in t.vsrs && id in t.vsrs
    requires other != id ==> View(t, other) == View(s, other)
    ensures View(t, other).cr == t.vsrs[other]
    ensures other != id ==> t.vsrs[other] == s.vsrs[other]
  {
  }

  lemma ValidParts(s: Store, id: Id)
    requires Valid(s) && id in s.vsrs
    ensures NoStrays(Specs(s), s) && s.vsrs.Keys == s.slots.Keys && id in s.slots && s.slots[id] == View(s, id).slots
    ensures View(s, id).cr == s.vsrs[id] && s.vsrs[id].name == id.name && Linked(View(s, id))
    ensures SecretKey(s.vsrs[id].spec, id.name) in SecretKeys(Specs(s)) && DestKey(s.vsrs[id].spec, id.name) in DestKeys(Specs(s))
  {
    hide NoStrays, Linked;
    assert id in Specs(s) && Specs(s)[id] == s.vsrs[id].spec;
  }

  lemma NoStraysAgree(specs: map<Id, RestoreSpec>, s: Store, t: Store)
    requires NoStrays(specs, s) && t == s.(vsrs := t.vsrs, slots := t.slots)
    ensures NoStrays(specs, t)
  {
  }

  /** A write to the stored custom resource that keeps what its name and objects are. */
  lemma ResourceWrite(s: Store, id: Id, cr: Vsr)
    requires Valid(s) && id in s.vsrs && cr.name == s.vsrs[id].name && cr.spec == s.vsrs[id].spec
    ensures Becomes(s, id, s.(vsrs := s.vsrs[id := cr]), View(s, id).(cr := cr))
  {
    hide Becomes, NoStrays, Valid;
    ValidParts(s, id);
    var t := s.(vsrs := s.vsrs[id := cr]);
    NoStraysAgree(Specs(s), s, t);
    ViewsBecome(s, id, t, View(s, id).(cr := cr));
  }

  lemma SecretWrite(s: Store, id: Id, o: Secret)
    requires Valid(s) && id in s.vsrs && Linked(View(s, id).(secret := Some(o)))
    ensures Becomes(s, id, s.(secrets := s.secrets[SecretKey(s.vsrs[id].spec, id.name) := o]), View(s, id).(secret := Some(o)))
  {
    hide Linked, Becomes, Valid, Specs;
    ValidParts(s, id);
    forall other | other in s.vsrs && other != id { KeysApart(s, id, other); }
    ViewsBecome(s, id, s.(secrets := s.secrets[SecretKey(s.vsrs[id].spec, id.name) := o]), View(s, id).(secret := Some(o)));
  }

  lemma DestWrite(s: Store, id: Id, o: RepDest)
    requires Valid(s) && id in s.vsrs && Linked(View(s, id).(dest := Some(o)))
    ensures Becomes(s, id, s.(dests := s.dests[DestKey(s.vsrs[id].spec, id.name) := o]), View(s, id).(dest := Some(o)))
  {
    hide Linked, Becomes, Valid, Specs;
    ValidParts(s, id);
    forall other | other in s.vsrs && other != id { KeysApart(s, id, other); }
    ViewsBecome(s, id, s.(dests := s.dests[DestKey(s.vsrs[id].spec, id.name) := o]), View(s, id).(dest := Some(o)));
  }

  lemma SlotsWrite(s: Store, id: Id, n: int)
    requires Valid(s) && id in s.vsrs
    ensures Becomes(s, id, s.(slots := s.slots[id := n]), View(s, id).(slots := n))
  {
    hide Becomes, NoStrays, Valid;
    ValidParts(s, id);
    var t := s.(slots := s.slots[id := n]);
    NoStraysAgree(Specs(s), s, t);
    ViewsBecome(s, id, t, View(s, id).(slots := n));
  }

  /******* DeleteAllOf *******/

  /** DeleteAllOf of one kind: by label in the namespace. */
  function DeleteAllOf(s: Store, kind: Kind, name: string, ns: string): Store {
    match kind
    case SecretKind => s.(secrets := s.secrets - set k | k in s.secrets && s.secrets[k].owner == name && k.ns == ns)
    case DestKind => s.(dests := s.dests - set k | k in s.dests && s.dests[k].owner == name && k.ns == ns)
  }

  /** Another restore keeps its objects: they carry its own name, or are in another namespace. */
  lemma DeleteSpares(s: Store, kind: Kind, name: string, ns: string, other: Id)
    requires other in s.vsrs && s.vsrs[other].name == other.name && Linked(View(s, other))
    requires other.name != name || s.vsrs[other].spec.protectedNs != ns
    ensures View(DeleteAllOf(s, kind, name, ns), other) == View(s, other)
  {
  }

  lemma DeleteHits(s: Store, kind: Kind, id: Id)
    requires id in s.vsrs && s.vsrs[id].name == id.name && Linked(View(s, id))
    ensures View(DeleteAllOf(s, kind, id.name, s.vsrs[id].spec.protectedNs), id) == Erase(View(s, id), kind)
    ensures Linked(Erase(View(s, id), kind))
  {
  }

  lemma DeleteNoStrays(specs: map<Id, RestoreSpec>, s: Store, kind: Kind, name: string, ns: string)
    requires NoStrays(specs, s)
    ensures NoStrays(specs, DeleteAllOf(s, kind, name, ns))
    ensures DeleteAllOf(s, kind, name, ns).vsrs == s.vsrs && DeleteAllOf(s, kind, name, ns).slots == s.slots
  {
  }

  lemma ValidPair(s: Store, id: Id, other: Id)
    requires Valid(s) && id in s.vsrs && other in s.vsrs && id != other
    ensures other.name != id.name || s.vsrs[other].spec.protectedNs != s.vsrs[id].spec.protectedNs
  {
    hide NoStrays, Linked;
    var specs := Specs(s);
    assert id in specs && other in specs;
  }

  /** Cleanup of one kind erases it from the restore and touches no other restore. */
  lemma DeleteWrite(s: Store, id: Id, kind: Kind)
    requires Valid(s) && id in s.vsrs
    ensures Becomes(s, id, DeleteAllOf(s, kind, id.name, s.vsrs[id].spec.protectedNs), Erase(View(s, id), kind))
  {
    hide Linked, Becomes, Valid, Specs, View, NoStrays, DeleteAllOf;
    var ns := s.vsrs[id].spec.protectedNs;
    ValidParts(s, id);
    DeleteNoStrays(Specs(s), s, kind, id.name, ns);
    DeleteHits(s, kind, id);
    forall other | other in s.vsrs && other != id
      ensures View(DeleteAllOf(s, kind, id.name, ns), other) == View(s, other)
    {
      ValidParts(s, other);
      ValidPair(s, id, other);
      DeleteSpares(s, kind, id.name, ns, other);
    }
    ViewsBecome(s, id, DeleteAllOf(s, kind, id.name, ns), Erase(View(s, id), kind));
  }

  function Without(s: Store, id: Id): Store {
    s.(vsrs := s.vsrs - {id}, slots := s.slots - {id})
  }

  lemma RemoveNoStrays(specs: map<Id, RestoreSpec>, s: Store, id: Id)
    requires NoStrays(specs, s) && id in s.vsrs && id in specs && specs[id] == s.vsrs[id].spec
    requires OwnsNothing(View(s, id))
    ensures NoStrays(specs - {id}, Without(s, id))
  {
    var rest := specs - {id};
    forall k | k in s.secrets ensures k in SecretKeys(rest) { var o: Id :| o in specs && k == SecretKey(specs[o], o.name); assert o in rest; }
    forall k | k in s.dests ensures k in DestKeys(rest) { var o: Id :| o in specs && k == DestKey(specs[o], o.name); assert o in rest; }
  }

  lemma RemoveViews(s: Store, id: Id)
    requires id in s.vsrs
    ensures Views(Without(s, id)) == Views(s) - {id} && Specs(Without(s, id)) == Specs(s) - {id}
    ensures id in Specs(s) && Specs(s)[id] == s.vsrs[id].spec
    ensures forall other :: other in Without(s, id).vsrs ==> View(Without(s, id), other) == View(s, other)
  {
  }

  /** Removing a restore that owns nothing leaves no strays. */
  lemma RemoveWrite(s: Store, id: Id)
    requires Valid(s) && id in s.vsrs && OwnsNothing(View(s, id))
    ensures Valid(Without(s, id)) && Views(Without(s, id)) == Views(s) - {id}
  {
    hide Linked, NoStrays, View, Specs, OwnsNothing;
    ValidParts(s, id);
    RemoveViews(s, id);
    RemoveNoStrays(Specs(s), s, id);
  }

  /** What one write leaves, the next one starts from. */
  lemma BecomesTwice(s: Store, id: Id, t: Store, l: Restore, u: Store, m: Restore)
    requires id in s.vsrs && Becomes(s, id, t, l) && Becomes(t, id, u, m)
    ensures Becomes(s, id, u, m)
  {
    hide Valid;
    assert Views(u) == Views(s)[id := l][id := m] == Views(s)[id := m];
  }

  lemma BecomesView(s: Store, id: Id, t: Store, l: Restore)
    requires id in s.vsrs && Becomes(s, id, t, l)
    ensures Valid(t) && id in t.vsrs && View(t, id) == l && t.vsrs[id] == l.cr && t.vsrs.Keys == s.vsrs.Keys
    ensures id in t.slots && t.slots[id] == l.slots
  {
    hide Valid;
    assert Views(t)[id] == l;
    assert Views(t).Keys == t.vsrs.Keys && Views(s).Keys == s.vsrs.Keys;
    ValidParts(t, id);
  }

  lemma BecomesSelf(s: Store, id: Id)
    requires Valid(s) && id in s.vsrs
    ensures Becomes(s, id, s, View(s, id))
  {
    hide Valid;
    assert Views(s) == Views(s)[id := View(s, id)];
  }
}
