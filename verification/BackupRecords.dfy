/** The repository that a backup records for its restore, over runs: that of its own secret. */
module BackupRecords {
  import opened Prelude
  import opened Api
  import opened Secrets
  import opened BackupModel
  import opened BackupSafety
  import opened BackupRuns
  import opened BackupContents
  import opened BackupChain
  import opened BackupSources

  /******* The repository *******/

  /** The writes of pass `k` of the run over the backup. */
  ghost function WritesOf(run: seq<Event>, k: nat, id: Id): seq<Backup>
    requires k < |run| && run[k].Reconcile? && At(run, k, id)
  {
    var s := Exec(run[..k]);
    Pass(State(run, k, id), s.processing, s.batch, run[k].e).trail
  }

  /** One event: it leaves the repository alone and builds no source, or it is a pass that records the repository. */
  lemma EventRepository(s: System, ev: Event, id: Id)
    requires Sound(s) && id in s.vsbs && id in Next(s, ev).vsbs
    ensures var l, m := s.vsbs[id], Next(s, ev).vsbs[id];
            || (m.cr.status.repository == l.cr.status.repository && (m.src.Some? ==> l.src.Some?))
            || (ev.Reconcile? && ev.id == id
                && RecordedIn(ev.e, l.cr.spec, Pass(l, s.processing, s.batch, ev.e).trail, m.cr.status.repository))
  {
    hide Pass, Good, KeptOrBuilt, RecordedIn, ClassKept;
    match ev
    case Reconcile(other, e) =>
      if other == id {
        SoundBackup(s, id);
        PassLeaves(s.vsbs[id], s.processing, s.batch, e);
      }
    case _ =>
  }

  /** Pass `k` has recorded the repository, which has stayed as it was. */
  ghost predicate RepositoryRecordedBy(run: seq<Event>, k: nat, n: nat, id: Id, uid: nat, spec: BackupSpec,
                                             repository: string) {
    && k < n <= |run| && PassOver(run, k, id, uid) && RecordedIn(run[k].e, spec, WritesOf(run, k, id), repository)
    && forall j: nat :: k < j <= n ==>
         At(run, j, id) && State(run, j, id).cr.uid == uid && State(run, j, id).cr.status.repository == repository
  }

  /** A backup that has a source, or whose data has moved. */
  predicate HasSource(l: Backup) {
    l.src.Some? || l.cr.status.batching == BatchDone
  }

  lemma SourceBefore(s: System, ev: Event, id: Id)
    requires Sound(s) && id in Next(s, ev).vsbs && HasSource(Next(s, ev).vsbs[id])
    ensures id in s.vsbs
    ensures Next(s, ev).vsbs[id].cr.uid == s.vsbs[id].cr.uid && Next(s, ev).vsbs[id].cr.spec == s.vsbs[id].cr.spec
    ensures Next(s, ev).vsbs[id].cr.status.batching == BatchDone ==> HasSource(s.vsbs[id])
  {
    hide Next, Good, Later;
    NextSound(s, ev);
    if id in s.vsbs {
      EventKeeps(s, ev, id);
    }
  }

  lemma {:induction false} RepositorySinceRecording(run: seq<Event>, n: nat, id: Id)
    requires At(run, n, id) && HasSource(State(run, n, id))
    ensures var m := State(run, n, id);
            exists k :: RepositoryRecordedBy(run, k, n, id, m.cr.uid, m.cr.spec, m.cr.status.repository)
    decreases n
  {
    hide Next, Exec, Sound, RecordedIn, WritesOf;
    NoneAtStart(run);
    var m := State(run, n, id);
    var s := Exec(run[..n - 1]);
    ExecSound(run[..n - 1]);
    ExecStep(run, n - 1);
    SourceBefore(s, run[n - 1], id);
    EventRepository(s, run[n - 1], id);
    WritesAre(run, n - 1, id);
    if s.vsbs[id].cr.status.repository == m.cr.status.repository && HasSource(s.vsbs[id]) {
      RepositorySinceRecording(run, n - 1, id);
      var k :| RepositoryRecordedBy(run, k, n - 1, id, m.cr.uid, m.cr.spec, m.cr.status.repository);
      assert RepositoryRecordedBy(run, k, n, id, m.cr.uid, m.cr.spec, m.cr.status.repository);
    } else {
      assert RepositoryRecordedBy(run, n - 1, n, id, m.cr.uid, m.cr.spec, m.cr.status.repository);
    }
  }

  lemma WritesAre(run: seq<Event>, k: nat, id: Id)
    requires k < |run| && At(run, k, id)
    ensures var s := Exec(run[..k]);
            run[k].Reconcile? ==> WritesOf(run, k, id) == Pass(s.vsbs[id], s.processing, s.batch, run[k].e).trail
  {
  }

  /** The recorded path: in every run a backup that has a ReplicationSource, or whose data has moved, carries the
      repository that its own secret had when some pass over it wrote the record, unchanged since; for a known
      provider it is the user's repository, without its slashes at the end, with the names of namespace,
      backup and claim. */
  lemma RecordedPath(run: seq<Event>, id: Id) returns (k: nat, at: Backup)
    requires At(run, |run|, id) && HasSource(State(run, |run|, id))
    ensures var l := State(run, |run|, id);
            var path := l.cr.status.repository;
            && PassOver(run, k, id, l.cr.uid) && at in WritesOf(run, k, id)
            && at.cr.status.repository == path
            && at.secret.Some? && ReadsAs(at.secret.value.data, "RESTIC_REPOSITORY", path)
            && run[k].e.given.Some?
            && (run[k].e.given.value.provider in {"aws", "azure", "gcp"} ==>
                  PathFrom(path, run[k].e.given.value.data, run[k].e.base, l.cr.spec.protectedNs, l.cr.spec.backupName,
                           l.cr.spec.vscName + "-pvc"))
            && forall j: nat :: k < j <= |run| ==> At(run, j, id) && State(run, j, id).cr.status.repository == path
  {
    hide Exec, WritesOf, PathFrom;
    var l := State(run, |run|, id);
    RepositorySinceRecording(run, |run|, id);
    k :| RepositoryRecordedBy(run, k, |run|, id, l.cr.uid, l.cr.spec, l.cr.status.repository);
    var trail := WritesOf(run, k, id);
    var i :| 0 <= i < |trail| && trail[i].cr.spec == l.cr.spec && trail[i].cr.status.repository == l.cr.status.repository
             && PathRecorded(run[k].e, trail[i]);
    at := trail[i];
  }
}
