/** Over runs: what the secret and the destination of a live restore were made of; and from the repository that a
    backup recorded to the repository that a restore reads. */
module RestoreRecords {
  import opened Prelude
  import opened Api
  import opened Options
  import opened Secrets
  import opened RestoreModel
  import opened RestoreSafety
  import opened RestoreRuns
  import opened RestoreContents
  import BackupModel
  import BackupChain
  import BackupSources
  import BackupRecords
  import BackupRuns

  /** The restore `id` at point `k` of the run. */
  ghost predicate At(run: seq<Event>, k: nat, id: Id) {
    k <= |run| && id in Exec(run[..k]).vsrs
  }

  ghost function State(run: seq<Event>, k: nat, id: Id): Restore
    requires At(run, k, id)
  {
    Exec(run[..k]).vsrs[id]
  }

  /** Event `k` of the run is a pass over the restore `uid`. */
  ghost predicate PassOver(run: seq<Event>, k: nat, id: Id, uid: nat) {
    k < |run| && run[k].Reconcile? && run[k].id == id && At(run, k, id) && State(run, k, id).cr.uid == uid
  }

  lemma NoneAtStart(run: seq<Event>)
    ensures forall id :: !At(run, 0, id)
  {
    assert run[..0] == [];
  }

  lemma GoodBefore(s: System, id: Id)
    requires Sound(s) && id in s.vsrs
    ensures Good(s.vsrs[id]) && s.vsrs[id].cr.name == id.name
  {
  }

  /** One event: the secret and the destination stay, or this very pass made them. */
  predicate Made(ev: Event, id: Id, l: Restore, m: Restore) {
    && (m.secret.Some? && m.secret.value.data != map[] ==>
          m.secret == l.secret || (ev.Reconcile? && ev.id == id && SecretFrom(ev.e, m.cr.spec, m.secret.value.data)))
    && (m.dest.Some? ==>
          || (l.dest.Some? && SameDest(l.dest.value, m.dest.value))
          || (ev.Reconcile? && ev.id == id && DestFrom(ev.e, id.name, m.cr.spec, m.dest.value)))
  }

  lemma EventMade(s: System, ev: Event, id: Id)
    requires Sound(s) && id in Next(s, ev).vsrs && !OwnsNothing(Next(s, ev).vsrs[id])
    ensures id in s.vsrs && Made(ev, id, s.vsrs[id], Next(s, ev).vsrs[id])
    ensures Next(s, ev).vsrs[id].cr.uid == s.vsrs[id].cr.uid && Next(s, ev).vsrs[id].cr.spec == s.vsrs[id].cr.spec
  {
    hide Next, Good, Made, Moved;
    NextSound(s, ev);
    OwnerWasThere(s, ev, id);
    if ev.Reconcile? && ev.id == id {
      PassMade(s, id, ev.e);
    } else {
      OthersMake(s, ev, id);
    }
  }

  lemma OwnerWasThere(s: System, ev: Event, id: Id)
    requires id in Next(s, ev).vsrs && !OwnsNothing(Next(s, ev).vsrs[id])
    ensures id in s.vsrs
  {
    hide Pass;
  }

  lemma OthersMake(s: System, ev: Event, id: Id)
    requires id in s.vsrs && id in Next(s, ev).vsrs && !(ev.Reconcile? && ev.id == id)
    ensures Made(ev, id, s.vsrs[id], Next(s, ev).vsrs[id])
  {
    hide Pass;
  }

  lemma PassMade(s: System, id: Id, e: Env)
    requires Sound(s) && id in s.vsrs && id in Next(s, Reconcile(id, e)).vsrs
    ensures Made(Reconcile(id, e), id, s.vsrs[id], Next(s, Reconcile(id, e)).vsrs[id])
  {
    hide Pass, Good, SecretFrom, DestFrom, Follows;
    NextSound(s, Reconcile(id, e));
    GoodBefore(s, id);
    GoodBefore(Next(s, Reconcile(id, e)), id);
    PassLeaves(s.vsrs[id], s.processing, s.batch, e);
  }

  /** Pass `k` wrote the data of the secret, which have stayed as they were. */
  ghost predicate SecretWrittenBy(run: seq<Event>, k: nat, n: nat, id: Id, uid: nat, spec: RestoreSpec,
                                  data: map<string, string>) {
    && k < n <= |run| && PassOver(run, k, id, uid) && SecretFrom(run[k].e, spec, data)
    && forall j: nat :: k < j <= n ==>
         At(run, j, id) && State(run, j, id).cr.uid == uid && State(run, j, id).secret.Some?
         && State(run, j, id).secret.value.data == data
  }

  lemma {:induction false} SecretSinceWriting(run: seq<Event>, n: nat, id: Id)
    requires At(run, n, id) && State(run, n, id).secret.Some? && State(run, n, id).secret.value.data != map[]
    ensures var m := State(run, n, id);
            exists k :: SecretWrittenBy(run, k, n, id, m.cr.uid, m.cr.spec, m.secret.value.data)
    decreases n
  {
    hide Next, Exec, Sound, SecretFrom, DestFrom;
    NoneAtStart(run);
    var m := State(run, n, id);
    var s := Exec(run[..n - 1]);
    ExecSound(run[..n - 1]);
    ExecStep(run, n - 1);
    EventMade(s, run[n - 1], id);
    if m.secret == s.vsrs[id].secret {
      SecretSinceWriting(run, n - 1, id);
      var k :| SecretWrittenBy(run, k, n - 1, id, m.cr.uid, m.cr.spec, m.secret.value.data);
      assert SecretWrittenBy(run, k, n, id, m.cr.uid, m.cr.spec, m.secret.value.data);
    } else {
      assert SecretWrittenBy(run, n - 1, n, id, m.cr.uid, m.cr.spec, m.secret.value.data);
    }
  }

  /** Pass `k` built the destination, of which nothing but the status and the custom CA has changed. */
  ghost predicate DestBuiltBy(run: seq<Event>, k: nat, n: nat, id: Id, uid: nat, spec: RestoreSpec, d: RepDest) {
    && k < n <= |run| && PassOver(run, k, id, uid) && DestFrom(run[k].e, id.name, spec, d)
    && forall j: nat :: k < j <= n ==>
         At(run, j, id) && State(run, j, id).cr.uid == uid && State(run, j, id).dest.Some?
         && SameDest(State(run, j, id).dest.value, d)
  }

  lemma {:induction false} DestSinceBuilding(run: seq<Event>, n: nat, id: Id)
    requires At(run, n, id) && State(run, n, id).dest.Some?
    ensures var m := State(run, n, id);
            exists k :: DestBuiltBy(run, k, n, id, m.cr.uid, m.cr.spec, m.dest.value)
    decreases n
  {
    hide Next, Exec, Sound, SecretFrom, DestFrom;
    NoneAtStart(run);
    var m := State(run, n, id);
    var s := Exec(run[..n - 1]);
    ExecSound(run[..n - 1]);
    ExecStep(run, n - 1);
    EventMade(s, run[n - 1], id);
    if s.vsrs[id].dest.Some? && SameDest(s.vsrs[id].dest.value, m.dest.value) {
      DestSinceBuilding(run, n - 1, id);
      var k: nat :| DestBuiltBy(run, k, n - 1, id, m.cr.uid, m.cr.spec, s.vsrs[id].dest.value);
      StillFrom(run[k].e, id.name, m.cr.spec, s.vsrs[id].dest.value, m.dest.value);
      assert DestBuiltBy(run, k, n, id, m.cr.uid, m.cr.spec, m.dest.value);
    } else {
      assert DestBuiltBy(run, n - 1, n, id, m.cr.uid, m.cr.spec, m.dest.value);
    }
  }

  lemma StillFrom(e: Env, name: string, spec: RestoreSpec, a: RepDest, b: RepDest)
    requires DestFrom(e, name, spec, a) && SameDest(a, b)
    ensures DestFrom(e, name, spec, b)
  {
  }

  /** What a live destination restores from and into: in every run it reads the restore's own secret, has the size and
      the snapshot class of the specification, and for its volume and cache what the config map for the recorded
      storage class sets, as the pass that built it read it, else the recorded class and a single writer. */
  lemma DestinationBuilt(run: seq<Event>, id: Id) returns (k: nat)
    requires At(run, |run|, id) && State(run, |run|, id).dest.Some?
    ensures var l := State(run, |run|, id);
            PassOver(run, k, id, l.cr.uid) && DestFrom(run[k].e, id.name, l.cr.spec, l.dest.value)
  {
    hide Exec, DestFrom;
    var l := State(run, |run|, id);
    DestSinceBuilding(run, |run|, id);
    k :| DestBuiltBy(run, k, |run|, id, l.cr.uid, l.cr.spec, l.dest.value);
  }

  /** What a restore's secret carries: in every run it is empty, or it carries the repository in the specification
      and the credentials, each the user's own, or what the package variables held, as the pass that wrote it
      found them. */
  lemma SecretMade(run: seq<Event>, id: Id) returns (k: nat)
    requires At(run, |run|, id) && State(run, |run|, id).secret.Some? && State(run, |run|, id).secret.value.data != map[]
    ensures var l := State(run, |run|, id);
            var data := l.secret.value.data;
            && PassOver(run, k, id, l.cr.uid) && run[k].e.given.Some?
            && "RESTIC_REPOSITORY" in data && data["RESTIC_REPOSITORY"] == l.cr.spec.repository
            && CredentialsFrom(run[k].e.given.value.provider, data, run[k].e.given.value.data, run[k].e.held)
  {
    hide Exec, CredentialsFrom, PolicyFrom;
    var l := State(run, |run|, id);
    SecretSinceWriting(run, |run|, id);
    k :| SecretWrittenBy(run, k, |run|, id, l.cr.uid, l.cr.spec, l.secret.value.data);
  }

  /** From backup to restore: if a restore is given the repository that a backup has recorded, once it had a source,
      then at any point of any run the restore's secret is empty or carries exactly the path that the backup's own
      secret had when it was recorded; for a known provider, the user's repository with the names of namespace,
      backup and claim. */
  lemma PathHandedOver(backups: seq<BackupRuns.Event>, b: Id, restores: seq<Event>, r: Id)
      returns (k: nat, at: BackupModel.Backup)
    requires BackupChain.At(backups, |backups|, b) && BackupRecords.HasSource(BackupChain.State(backups, |backups|, b))
    requires At(restores, |restores|, r) && State(restores, |restores|, r).secret.Some?
    requires State(restores, |restores|, r).secret.value.data != map[]
    requires State(restores, |restores|, r).cr.spec.repository == BackupChain.State(backups, |backups|, b).cr.status.repository
    ensures var data := State(restores, |restores|, r).secret.value.data;
            var l := BackupChain.State(backups, |backups|, b);
            && "RESTIC_REPOSITORY" in data
            && BackupSources.PassOver(backups, k, b, l.cr.uid) && at in BackupRecords.WritesOf(backups, k, b)
            && at.secret.Some? && ReadsAs(at.secret.value.data, "RESTIC_REPOSITORY", data["RESTIC_REPOSITORY"])
            && backups[k].e.given.Some?
            && (backups[k].e.given.value.provider in {"aws", "azure", "gcp"} ==>
                  PathFrom(data["RESTIC_REPOSITORY"], backups[k].e.given.value.data, backups[k].e.base,
                           l.cr.spec.protectedNs, l.cr.spec.backupName, l.cr.spec.vscName + "-pvc"))
  {
    hide Exec, BackupRecords.WritesOf, PathFrom, CredentialsFrom, BackupRuns.Exec;
    k, at := BackupRecords.RecordedPath(backups, b);
    var j := SecretMade(restores, r);
  }
}
