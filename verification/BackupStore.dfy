/** The API server's content as the backup reconciler sees it: named objects with labels, and the record
    of one backup as a view of them. */
module BackupStore {
  import opened Prelude
  import opened Api
  import opened BackupModel
  import opened BackupSafety

  /** Content clones are cluster-scoped, everything else is namespaced. `slots` is auxiliary history. */
  datatype Store = Store(
    vsbs: map<Id, Vsb>, contents: map<string, VscClone>, snapshots: map<Id, VsClone>, claims: map<Id, PvcClone>,
    pods: map<Id, Pod>, secrets: map<Id, Secret>, sources: map<Id, RepSource>, slots: map<Id, int>)

  function ContentKey(spec: BackupSpec): string { CloneName(spec.vscName) }
  function SnapshotKey(spec: BackupSpec): Id { Id(spec.protectedNs, SnapshotName(CloneName(spec.vscName))) }
  function ClaimKey(spec: BackupSpec): Id { Id(spec.protectedNs, PvcName(spec.vscName)) }
  function PodKey(spec: BackupSpec, name: string): Id { Id(spec.protectedNs, PodName(name)) }
  function SecretKey(spec: BackupSpec, name: string): Id { Id(spec.protectedNs, SecretName(name)) }
  function SourceKey(spec: BackupSpec, name: string): Id { Id(spec.protectedNs, SourceName(name)) }

  ghost function View(s: Store, id: Id): Backup
    requires id in s.vsbs
  {
    var spec := s.vsbs[id].spec;
    Backup(s.vsbs[id], Find(s.contents, ContentKey(spec)), Find(s.snapshots, SnapshotKey(spec)),
           Find(s.claims, ClaimKey(spec)), Find(s.pods, PodKey(spec, id.name)),
           Find(s.secrets, SecretKey(spec, id.name)), Find(s.sources, SourceKey(spec, id.name)), if id in s.slots then s.slots[id] else 0)
  }

  ghost function Views(s: Store): map<Id, Backup>
  {
    map id | id in s.vsbs :: View(s, id)
  }

  ghost function Specs(s: Store): map<Id, BackupSpec> {
    map id | id in s.vsbs :: s.vsbs[id].spec
  }

  /** Backups have distinct names and distinct contents, in the whole cluster. */
  ghost predicate Distinct(specs: map<Id, BackupSpec>) {
    forall a, b :: a in specs && b in specs && a != b ==> a.name != b.name && specs[a].vscName != specs[b].vscName
  }

  ghost function ContentKeys(specs: map<Id, BackupSpec>): set<string> { set id | id in specs :: ContentKey(specs[id]) }
  ghost function SnapshotKeys(specs: map<Id, BackupSpec>): set<Id> { set id | id in specs :: SnapshotKey(specs[id]) }
  ghost function ClaimKeys(specs: map<Id, BackupSpec>): set<Id> { set id | id in specs :: ClaimKey(specs[id]) }
  ghost function PodKeys(specs: map<Id, BackupSpec>): set<Id> { set id | id in specs :: PodKey(specs[id], id.name) }
  ghost function SecretKeys(specs: map<Id, BackupSpec>): set<Id> { set id | id in specs :: SecretKey(specs[id], id.name) }
  ghost function SourceKeys(specs: map<Id, BackupSpec>): set<Id> { set id | id in specs :: SourceKey(specs[id], id.name) }

  /** No orphans: the name of every owned object is one that an existing backup uses for its own. */
  ghost predicate NoStrays(specs: map<Id, BackupSpec>, s: Store) {
    && s.contents.Keys <= ContentKeys(specs) && s.snapshots.Keys <= SnapshotKeys(specs)
    && s.claims.Keys <= ClaimKeys(specs) && s.pods.Keys <= PodKeys(specs)
    && s.secrets.Keys <= SecretKeys(specs) && s.sources.Keys <= SourceKeys(specs)
  }

  ghost predicate Valid(s: Store) {
    && s.vsbs.Keys == s.slots.Keys
    && (forall id :: id in s.vsbs ==> s.vsbs[id].name == id.name)
    && Distinct(Specs(s))
    && NoStrays(Specs(s), s)
    && (forall id :: id in s.vsbs ==> Linked(View(s, id)))
  }

  /******* Names *******/

  lemma NamesInjective(a: string, b: string)
    requires a != b
    ensures CloneName(a) != CloneName(b) && SnapshotName(CloneName(a)) != SnapshotName(CloneName(b))
    ensures PvcName(a) != PvcName(b) && PodName(a) != PodName(b)
    ensures SecretName(a) != SecretName(b) && SourceName(a) != SourceName(b)
  {
    if CloneName(a) == CloneName(b) { SuffixInjective(a, b, "-clone"); }
    if SnapshotName(CloneName(a)) == SnapshotName(CloneName(b)) {
      SuffixInjective(CloneName(a), CloneName(b), "-volumesnapshot");
    }
    if PvcName(a) == PvcName(b) { SuffixInjective(a, b, "-pvc"); }
    if PodName(a) == PodName(b) { SuffixInjective(a, b, "-pod"); }
    if SecretName(a) == SecretName(b) { SuffixInjective(a, b, "-secret"); }
    if SourceName(a) == SourceName(b) { SuffixInjective(a, b, "-rep-src"); }
  }

  /** No other backup uses any of the names of `id`. */
  lemma KeysApart(s: Store, id: Id, other: Id)
    requires Valid(s) && id in s.vsbs && other in s.vsbs && other != id
    ensures var a, b := s.vsbs[id].spec, s.vsbs[other].spec;
            && ContentKey(a) != ContentKey(b) && SnapshotKey(a) != SnapshotKey(b) && ClaimKey(a) != ClaimKey(b)
            && PodKey(a, id.name) != PodKey(b, other.name) && SecretKey(a, id.name) != SecretKey(b, other.name)
            && SourceKey(a, id.name) != SourceKey(b, other.name)
  {
    hide NoStrays, Linked;
    assert Specs(s)[id].vscName != Specs(s)[other].vscName;
    NamesInjective(Specs(s)[id].vscName, Specs(s)[other].vscName);
    NamesInjective(id.name, other.name);
  }

  /******* Writes *******/

  /** `t` differs from `s` in the backup `id` alone, which has become `l`. */
  ghost predicate Becomes(s: Store, id: Id, t: Store, l: Backup) {
    Valid(t) && Views(t) == Views(s)[id := l]
  }

  lemma ViewsAgree(s: Store, id: Id, t: Store, l: Backup)
    requires id in s.vsbs && t.vsbs.Keys == s.vsbs.Keys && View(t, id) == l
    requires forall other :: other in s.vsbs && other != id ==> View(t, other) == View(s, other)
    ensures Views(t) == Views(s)[id := l]
  {
  }

  lemma SpecsAgree(s: Store, t: Store)
    requires t.vsbs.Keys == s.vsbs.Keys
    requires forall id :: id in s.vsbs ==> t.vsbs[id].spec == s.vsbs[id].spec
    ensures Specs(t) == Specs(s)
  {
  }

  /** The common part of the writes below: from the views, everything else follows. */
  lemma ViewsBecome(s: Store, id: Id, t: Store, l: Backup)
    requires Valid(s) && id in s.vsbs && Linked(l) && l.cr.name == id.name && l.cr.spec == s.vsbs[id].spec
    requires t.vsbs.Keys == s.vsbs.Keys == t.slots.Keys && View(t, id) == l && NoStrays(Specs(s), t)
    requires forall other :: other in s.vsbs && other != id ==> View(t, other) == View(s, other)
    ensures Becomes(s, id, t, l)
  {
    hide Linked, NoStrays, Distinct, Specs, Views, View;
    ViewsAgree(s, id, t, l);
    forall other | other in s.vsbs
      ensures t.vsbs[other].spec == s.vsbs[other].spec && t.vsbs[other].name == other.name && Linked(View(t, other))
    {
      ViewsCr(s, t, id, other);
    }
    SpecsAgree(s, t);
  }

  lemma ViewsCr(s: Store, t: Store, id: Id, other: Id)
    requires other in s.vsbs && other in t.vsbs && id in t.vsbs
    requires other != id ==> View(t, other) == View(s, other)
    ensures View(t, other).cr == t.vsbs[other]
    ensures other != id ==> t.vsbs[other] == s.vsbs[other]
  {
  }

  /** A write to the stored custom resource that keeps its name and specification. */
  lemma ResourceWrite(s: Store, id: Id, cr: Vsb)
    requires Valid(s) && id in s.vsbs && cr.name == s.vsbs[id].name && cr.spec == s.vsbs[id].spec
    ensures Becomes(s, id, s.(vsbs := s.vsbs[id := cr]), View(s, id).(cr := cr))
  {
    hide Becomes, NoStrays, Valid;
    ValidParts(s, id);
    ValidLinked(s, id);
    var t := s.(vsbs := s.vsbs[id := cr]);
    NoStraysAgree(Specs(s), s, t);
    ViewsBecome(s, id, t, View(s, id).(cr := cr));
  }

  lemma NoStraysAgree(specs: map<Id, BackupSpec>, s: Store, t: Store)
    requires NoStrays(specs, s) && t == s.(vsbs := t.vsbs, slots := t.slots)
    ensures NoStrays(specs, t)
  {
  }

  lemma ValidParts(s: Store, id: Id)
    requires Valid(s) && id in s.vsbs
    ensures NoStrays(Specs(s), s) && s.vsbs.Keys == s.slots.Keys
    ensures View(s, id).cr == s.vsbs[id] && s.vsbs[id].name == id.name && id in Specs(s) && Specs(s)[id] == s.vsbs[id].spec
  {
    hide NoStrays, Linked;
  }

  lemma ContentWrite(s: Store, id: Id, o: VscClone)
    requires Valid(s) && id in s.vsbs && Linked(View(s, id).(vsc := Some(o)))
    ensures Becomes(s, id, s.(contents := s.contents[ContentKey(s.vsbs[id].spec) := o]), View(s, id).(vsc := Some(o)))
  {
    hide Linked, Becomes, Valid, Specs;
    ValidParts(s, id);
    forall other | other in s.vsbs && other != id { KeysApart(s, id, other); }
    assert ContentKey(Specs(s)[id]) in ContentKeys(Specs(s));
    ViewsBecome(s, id, s.(contents := s.contents[ContentKey(s.vsbs[id].spec) := o]), View(s, id).(vsc := Some(o)));
  }

  lemma SnapshotWrite(s: Store, id: Id, o: VsClone)
    requires Valid(s) && id in s.vsbs && Linked(View(s, id).(snap := Some(o)))
    ensures Becomes(s, id, s.(snapshots := s.snapshots[SnapshotKey(s.vsbs[id].spec) := o]), View(s, id).(snap := Some(o)))
  {
    hide Linked, Becomes, Valid, Specs;
    ValidParts(s, id);
    forall other | other in s.vsbs && other != id { KeysApart(s, id, other); }
    assert SnapshotKey(Specs(s)[id]) in SnapshotKeys(Specs(s));
    ViewsBecome(s, id, s.(snapshots := s.snapshots[SnapshotKey(s.vsbs[id].spec) := o]), View(s, id).(snap := Some(o)));
  }

  lemma ClaimWrite(s: Store, id: Id, o: PvcClone)
    requires Valid(s) && id in s.vsbs && Linked(View(s, id).(pvc := Some(o)))
    ensures Becomes(s, id, s.(claims := s.claims[ClaimKey(s.vsbs[id].spec) := o]), View(s, id).(pvc := Some(o)))
  {
    hide Linked, Becomes, Valid, Specs;
    ValidParts(s, id);
    forall other | other in s.vsbs && other != id { KeysApart(s, id, other); }
    assert ClaimKey(Specs(s)[id]) in ClaimKeys(Specs(s));
    ViewsBecome(s, id, s.(claims := s.claims[ClaimKey(s.vsbs[id].spec) := o]), View(s, id).(pvc := Some(o)));
  }

  lemma PodWrite(s: Store, id: Id, o: Pod)
    requires Valid(s) && id in s.vsbs && Linked(View(s, id).(pod := Some(o)))
    ensures Becomes(s, id, s.(pods := s.pods[PodKey(s.vsbs[id].spec, id.name) := o]), View(s, id).(pod := Some(o)))
  {
    hide Linked, Becomes, Valid, Specs;
    ValidParts(s, id);
    forall other | other in s.vsbs && other != id { KeysApart(s, id, other); }
    assert PodKey(Specs(s)[id], id.name) in PodKeys(Specs(s));
    ViewsBecome(s, id, s.(pods := s.pods[PodKey(s.vsbs[id].spec, id.name) := o]), View(s, id).(pod := Some(o)));
  }

  lemma SecretWrite(s: Store, id: Id, o: Secret)
    requires Valid(s) && id in s.vsbs && Linked(View(s, id).(secret := Some(o)))
    ensures Becomes(s, id, s.(secrets := s.secrets[SecretKey(s.vsbs[id].spec, id.name) := o]), View(s, id).(secret := Some(o)))
  {
    hide Linked, Becomes, Valid, Specs;
    ValidParts(s, id);
    forall other | other in s.vsbs && other != id { KeysApart(s, id, other); }
    assert SecretKey(Specs(s)[id], id.name) in SecretKeys(Specs(s));
    ViewsBecome(s, id, s.(secrets := s.secrets[SecretKey(s.vsbs[id].spec, id.name) := o]), View(s, id).(secret := Some(o)));
  }

  lemma RepSourceWrite(s: Store, id: Id, o: RepSource)
    requires Valid(s) && id in s.vsbs && Linked(View(s, id).(src := Some(o)))
    ensures Becomes(s, id, s.(sources := s.sources[SourceKey(s.vsbs[id].spec, id.name) := o]), View(s, id).(src := Some(o)))
  {
    hide Linked, Becomes, Valid, Specs;
    ValidParts(s, id);
    forall other | other in s.vsbs && other != id { KeysApart(s, id, other); }
    assert SourceKey(Specs(s)[id], id.name) in SourceKeys(Specs(s));
    ViewsBecome(s, id, s.(sources := s.sources[SourceKey(s.vsbs[id].spec, id.name) := o]), View(s, id).(src := Some(o)));
  }

  /******* DeleteAllOf *******/

  /** DeleteAllOf of one kind: by label in the namespace, except that a namespace is no restriction on a
      cluster-scoped kind. */
  function DeleteAllOf(s: Store, kind: Kind, name: string, ns: string): Store {
    match kind
    case SourceKind => s.(sources := s.sources - set k | k in s.sources && s.sources[k].owner == name && k.ns == ns)
    case PvcKind => s.(claims := s.claims - set k | k in s.claims && s.claims[k].owner == name && k.ns == ns)
    case PodKind => s.(pods := s.pods - set k | k in s.pods && s.pods[k].owner == name && k.ns == ns)
    case SnapshotKind => s.(snapshots := s.snapshots - set k | k in s.snapshots && s.snapshots[k].owner == name && k.ns == ns)
    case ContentKind => s.(contents := s.contents - set k | k in s.contents && s.contents[k].owner == name)
    case SecretKind => s.(secrets := s.secrets - set k | k in s.secrets && s.secrets[k].owner == name && k.ns == ns)
  }

  /** Whether cleanup of the kind under this label and namespace reaches a backup. */
  predicate Reached(kind: Kind, name: string, ns: string, l: Backup) {
    l.cr.name == name && (kind == ContentKind || l.cr.spec.protectedNs == ns)
  }

  /** Deleting a kind by label erases it from the backups it reaches. */
  lemma DeleteReaches(s: Store, kind: Kind, name: string, ns: string, id: Id)
    requires id in s.vsbs && s.vsbs[id].name == id.name && Linked(View(s, id))
    ensures View(DeleteAllOf(s, kind, name, ns), id)
            == if Reached(kind, name, ns, View(s, id)) then Erase(View(s, id), kind) else View(s, id)
    ensures Linked(View(DeleteAllOf(s, kind, name, ns), id))
  {
    hide Linked, DeleteAllOf;
    EraseLinked(View(s, id), kind);
    if kind in {SourceKind, PvcKind, PodKind} {
      DeleteReachesWork(s, kind, name, ns, id);
    } else {
      DeleteReachesRest(s, kind, name, ns, id);
    }
  }

  lemma EraseKeepsCr(l: Backup, kind: Kind)
    ensures Erase(l, kind).cr == l.cr
  {
  }

  lemma EraseLinked(l: Backup, kind: Kind)
    requires Linked(l)
    ensures Linked(Erase(l, kind))
  {
  }

  lemma DeleteReachesWork(s: Store, kind: Kind, name: string, ns: string, id: Id)
    requires kind in {SourceKind, PvcKind, PodKind}
    requires id in s.vsbs && s.vsbs[id].name == id.name && Linked(View(s, id))
    ensures View(DeleteAllOf(s, kind, name, ns), id)
            == if Reached(kind, name, ns, View(s, id)) then Erase(View(s, id), kind) else View(s, id)
  {
  }

  lemma DeleteReachesRest(s: Store, kind: Kind, name: string, ns: string, id: Id)
    requires kind in {SnapshotKind, ContentKind, SecretKind}
    requires id in s.vsbs && s.vsbs[id].name == id.name && Linked(View(s, id))
    ensures View(DeleteAllOf(s, kind, name, ns), id)
            == if Reached(kind, name, ns, View(s, id)) then Erase(View(s, id), kind) else View(s, id)
  {
  }

  lemma ValidPair(s: Store, id: Id, other: Id)
    requires Valid(s) && id in s.vsbs && other in s.vsbs && id != other
    ensures s.vsbs[other].name == other.name != id.name && Linked(View(s, other))
  {
    hide NoStrays, Linked;
    assert id in Specs(s) && other in Specs(s);
  }

  lemma ValidLinked(s: Store, id: Id)
    requires Valid(s) && id in s.vsbs
    ensures s.vsbs[id].name == id.name && Linked(View(s, id))
  {
    hide NoStrays, Linked;
  }

  lemma DeleteNoStrays(specs: map<Id, BackupSpec>, s: Store, kind: Kind, name: string, ns: string)
    requires NoStrays(specs, s)
    ensures NoStrays(specs, DeleteAllOf(s, kind, name, ns))
  {
  }

  lemma DeleteKeepsBackups(s: Store, kind: Kind, name: string, ns: string)
    ensures DeleteAllOf(s, kind, name, ns).vsbs == s.vsbs && DeleteAllOf(s, kind, name, ns).slots == s.slots
  {
  }

  /** Cleanup of one kind erases it from the backup and touches no other backup. */
  lemma DeleteWrite(s: Store, id: Id, kind: Kind)
    requires Valid(s) && id in s.vsbs
    ensures Becomes(s, id, DeleteAllOf(s, kind, id.name, s.vsbs[id].spec.protectedNs), Erase(View(s, id), kind))
  {
    hide Linked, Becomes, Valid, Specs, View, NoStrays, DeleteAllOf, Erase;
    ViewCr(s, id);
    EraseKeepsCr(View(s, id), kind);
    var t := DeleteAllOf(s, kind, id.name, s.vsbs[id].spec.protectedNs);
    DeleteKeepsBackups(s, kind, id.name, s.vsbs[id].spec.protectedNs);
    ValidParts(s, id);
    ValidLinked(s, id);
    DeleteReaches(s, kind, id.name, s.vsbs[id].spec.protectedNs, id);
    EraseLinked(View(s, id), kind);
    forall other | other in s.vsbs && other != id
      ensures View(t, other) == View(s, other)
    {
      ValidPair(s, id, other);
      DeleteReaches(s, kind, id.name, s.vsbs[id].spec.protectedNs, other);
      ViewCr(s, other);
    }
    DeleteNoStrays(Specs(s), s, kind, id.name, s.vsbs[id].spec.protectedNs);
    ViewsBecome(s, id, t, Erase(View(s, id), kind));
  }

  lemma LinkedSlots(l: Backup, n: int)
    requires Linked(l)
    ensures Linked(l.(slots := n))
  {
  }

  lemma SlotsWrite(s: Store, id: Id, n: int)
    requires Valid(s) && id in s.vsbs
    ensures Becomes(s, id, s.(slots := s.slots[id := n]), View(s, id).(slots := n))
  {
    hide Becomes, NoStrays, Linked, Valid, Specs;
    ValidParts(s, id);
    ValidLinked(s, id);
    LinkedSlots(View(s, id), n);
    var t := s.(slots := s.slots[id := n]);
    NoStraysAgree(Specs(s), s, t);
    ViewsBecome(s, id, t, View(s, id).(slots := n));
  }

  function Without(s: Store, id: Id): Store {
    s.(vsbs := s.vsbs - {id}, slots := s.slots - {id})
  }

  lemma RemoveViews(s: Store, id: Id)
    requires id in s.vsbs
    ensures Views(Without(s, id)) == Views(s) - {id} && Specs(Without(s, id)) == Specs(s) - {id}
    ensures forall other :: other in Without(s, id).vsbs ==> View(Without(s, id), other) == View(s, other)
  {
    hide View;
    forall other | other in s.vsbs && other != id {
      RemoveView(s, id, other);
    }
  }

  lemma RemoveView(s: Store, id: Id, other: Id)
    requires id in s.vsbs && other in s.vsbs && other != id
    ensures View(Without(s, id), other) == View(s, other)
  {
  }

  lemma RemoveNoStrays(specs: map<Id, BackupSpec>, s: Store, id: Id)
    requires NoStrays(specs, s) && id in s.vsbs && id in specs && specs[id] == s.vsbs[id].spec
    requires OwnsNothing(View(s, id))
    ensures NoStrays(specs - {id}, Without(s, id))
  {
    var rest := specs - {id};
    forall k | k in s.contents ensures k in ContentKeys(rest) { var o :| o in specs && k == ContentKey(specs[o]); assert o in rest; }
    forall k | k in s.snapshots ensures k in SnapshotKeys(rest) { var o :| o in specs && k == SnapshotKey(specs[o]); assert o in rest; }
    forall k | k in s.claims ensures k in ClaimKeys(rest) { var o :| o in specs && k == ClaimKey(specs[o]); assert o in rest; }
    forall k | k in s.pods ensures k in PodKeys(rest) { var o: Id :| o in specs && k == PodKey(specs[o], o.name); assert o in rest; }
    forall k | k in s.secrets ensures k in SecretKeys(rest) { var o: Id :| o in specs && k == SecretKey(specs[o], o.name); assert o in rest; }
    forall k | k in s.sources ensures k in SourceKeys(rest) { var o: Id :| o in specs && k == SourceKey(specs[o], o.name); assert o in rest; }
  }

  /** Removing a backup that owns nothing leaves no strays. */
  lemma RemoveWrite(s: Store, id: Id)
    requires Valid(s) && id in s.vsbs && OwnsNothing(View(s, id))
    ensures Valid(Without(s, id)) && Views(Without(s, id)) == Views(s) - {id}
  {
    hide Linked, NoStrays, View, Specs, OwnsNothing;
    ValidParts(s, id);
    RemoveViews(s, id);
    RemoveNoStrays(Specs(s), s, id);
  }

  /** What one write leaves, the next one starts from. */
  lemma BecomesTwice(s: Store, id: Id, t: Store, l: Backup, u: Store, m: Backup)
    requires id in s.vsbs && Becomes(s, id, t, l) && Becomes(t, id, u, m)
    ensures Becomes(s, id, u, m)
  {
    hide Valid;
    assert Views(u) == Views(s)[id := l][id := m] == Views(s)[id := m];
  }

  lemma BecomesView(s: Store, id: Id, t: Store, l: Backup)
    requires id in s.vsbs && Becomes(s, id, t, l)
    ensures Valid(t) && id in t.vsbs && View(t, id) == l && t.vsbs[id] == l.cr && t.vsbs.Keys == s.vsbs.Keys
  {
    hide Valid, View;
    assert Views(t)[id] == l;
    assert Views(t).Keys == Views(s).Keys;
    assert Views(t).Keys == t.vsbs.Keys && Views(s).Keys == s.vsbs.Keys;
    ViewCr(t, id);
  }

  lemma ViewCr(t: Store, id: Id)
    requires id in t.vsbs
    ensures View(t, id).cr == t.vsbs[id]
  {
  }

  lemma BecomesSelf(s: Store, id: Id)
    requires Valid(s) && id in s.vsbs
    ensures Becomes(s, id, s, View(s, id))
  {
    hide Valid;
    assert Views(s) == Views(s)[id := View(s, id)];
  }

  /** Cleanup of everything that carries the label of `id`. */
  function DeleteEverything(s: Store, kinds: seq<Kind>, name: string, ns: string): Store
    decreases |kinds|
  {
    if kinds == [] then s else DeleteEverything(DeleteAllOf(s, kinds[0], name, ns), kinds[1..], name, ns)
  }

  function EraseReached(l: Backup, kinds: seq<Kind>, name: string, ns: string): Backup
    decreases |kinds|
  {
    if kinds == [] then l
    else EraseReached(if Reached(kinds[0], name, ns, l) then Erase(l, kinds[0]) else l, kinds[1..], name, ns)
  }

  lemma {:induction false} DeleteEverythingReaches(s: Store, kinds: seq<Kind>, name: string, ns: string, id: Id)
    requires id in s.vsbs && s.vsbs[id].name == id.name && Linked(View(s, id))
    ensures id in DeleteEverything(s, kinds, name, ns).vsbs
    ensures View(DeleteEverything(s, kinds, name, ns), id) == EraseReached(View(s, id), kinds, name, ns)
    decreases |kinds|
  {
    if kinds != [] {
      hide View, DeleteAllOf, Reached, Erase, Linked;
      DeleteKeepsBackups(s, kinds[0], name, ns);
      DeleteReaches(s, kinds[0], name, ns, id);
      DeleteEverythingReaches(DeleteAllOf(s, kinds[0], name, ns), kinds[1..], name, ns, id);
    }
  }

  lemma {:induction false} EraseReachedIs(l: Backup, kinds: seq<Kind>, name: string, ns: string)
    ensures var m := EraseReached(l, kinds, name, ns);
            && m.cr == l.cr && m.slots == l.slots
            && m.src == (if SourceKind in kinds && Reached(SourceKind, name, ns, l) then None else l.src)
            && m.pvc == (if PvcKind in kinds && Reached(PvcKind, name, ns, l) then None else l.pvc)
            && m.pod == (if PodKind in kinds && Reached(PodKind, name, ns, l) then None else l.pod)
            && m.snap == (if SnapshotKind in kinds && Reached(SnapshotKind, name, ns, l) then None else l.snap)
            && m.vsc == (if ContentKind in kinds && Reached(ContentKind, name, ns, l) then None else l.vsc)
            && m.secret == (if SecretKind in kinds && Reached(SecretKind, name, ns, l) then None else l.secret)
    decreases |kinds|
  {
    if kinds != [] {
      EraseReachedIs(if Reached(kinds[0], name, ns, l) then Erase(l, kinds[0]) else l, kinds[1..], name, ns);
      assert forall k :: k in kinds <==> k == kinds[0] || k in kinds[1..];
    }
  }

  /** Without the assumption that names are distinct in the whole cluster: cleanup of `id` spares another
      backup exactly when the names differ, or the other has nothing to lose: no object at all in the same
      protected namespace, no content clone in a different one. */
  lemma CleanupSparesExactly(s: Store, id: Id, other: Id)
    requires id in s.vsbs && other in s.vsbs && s.vsbs[id].name == id.name && s.vsbs[other].name == other.name
    requires Linked(View(s, other))
    ensures other in DeleteEverything(s, CLEANUP_KINDS, id.name, s.vsbs[id].spec.protectedNs).vsbs
    ensures var t := DeleteEverything(s, CLEANUP_KINDS, id.name, s.vsbs[id].spec.protectedNs);
            View(t, other) == View(s, other) <==>
              || other.name != id.name
              || (s.vsbs[other].spec.protectedNs == s.vsbs[id].spec.protectedNs && OwnsNothing(View(s, other)))
              || (s.vsbs[other].spec.protectedNs != s.vsbs[id].spec.protectedNs && View(s, other).vsc.None?)
  {
    hide View;
    DeleteEverythingReaches(s, CLEANUP_KINDS, id.name, s.vsbs[id].spec.protectedNs, other);
    ViewCr(s, other);
    EraseReachedIs(View(s, other), CLEANUP_KINDS, id.name, s.vsbs[id].spec.protectedNs);
  }
}
