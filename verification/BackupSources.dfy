/** Over runs: what a live ReplicationSource was built from, and how it agrees with its claim clone and with the
    user's secret. */
module BackupSources {
  import opened Prelude
  import opened Api
  import opened Options
  import opened Secrets
  import opened Decimal
  import opened BackupModel
  import opened BackupSafety
  import opened BackupRuns
  import opened BackupContents
  import opened BackupChain

  /** One event: a source that is there after it was there before, with the same claim, or this very pass
      built it. */
  lemma EventSource(s: System, ev: Event, id: Id)
    requires Sound(s) && id in Next(s, ev).vsbs && Next(s, ev).vsbs[id].src.Some?
    ensures id in s.vsbs
    ensures var l, m := s.vsbs[id], Next(s, ev).vsbs[id];
            || (l.src.Some? && SameSource(l.src.value, m.src.value) && (m.pvc.Some? ==> SameClaim(l, m)))
            || (ev.Reconcile? && ev.id == id && SourceFrom(ev.e, m))
  {
    hide Pass, Good, SourceFrom, RecordedIn, ClassKept;
    match ev
    case Reconcile(other, e) =>
      if other == id {
        SoundBackup(s, id);
        PassLeaves(s.vsbs[id], s.processing, s.batch, e);
      }
    case _ =>
  }

  lemma SoundBackup(s: System, id: Id)
    requires Sound(s) && id in s.vsbs
    ensures Good(s.vsbs[id])
  {
  }

  /** Pass `k` of the run built the source, and it and its claim have stayed as they were. */
  ghost predicate SourceBuiltBy(run: seq<Event>, k: nat, n: nat, id: Id, source: RepSource, options: VolumeOptions) {
    && k < n <= |run| && run[k].Reconcile? && run[k].id == id && At(run, k, id)
    && At(run, k + 1, id) && State(run, k + 1, id).src.Some? && SourceFrom(run[k].e, State(run, k + 1, id))
    && State(run, k + 1, id).cr.spec == State(run, k, id).cr.spec
    && forall j: nat :: k < j <= n ==>
         && At(run, j, id) && State(run, j, id).cr.uid == State(run, k, id).cr.uid
         && State(run, j, id).src.Some? && SameSource(State(run, j, id).src.value, source)
         && State(run, j, id).pvc.Some? && State(run, j, id).pvc.value.options == options
  }

  /** A live source and its claim, which is there as long as the source is. */
  ghost predicate LiveSource(run: seq<Event>, n: nat, id: Id) {
    At(run, n, id) && State(run, n, id).src.Some? && State(run, n, id).pvc.Some?
  }

  lemma SourceHasClaim(run: seq<Event>, n: nat, id: Id)
    requires At(run, n, id) && State(run, n, id).src.Some?
    ensures LiveSource(run, n, id)
  {
    ExecSound(run[..n]);
    assert Good(State(run, n, id));
  }

  lemma {:induction false} SourceSinceBuilding(run: seq<Event>, n: nat, id: Id)
    requires LiveSource(run, n, id)
    ensures exists k :: SourceBuiltBy(run, k, n, id, State(run, n, id).src.value, State(run, n, id).pvc.value.options)
    decreases n
  {
    hide Next, Exec, Sound, SourceFrom;
    NoneAtStart(run);
    var source, options := State(run, n, id).src.value, State(run, n, id).pvc.value.options;
    var s := Exec(run[..n - 1]);
    ExecSound(run[..n - 1]);
    ExecStep(run, n - 1);
    EventSource(s, run[n - 1], id);
    EventKeeps(s, run[n - 1], id);
    if s.vsbs[id].src.Some? && SameSource(s.vsbs[id].src.value, source) && SameClaim(s.vsbs[id], State(run, n, id)) {
      SourceSinceBuilding(run, n - 1, id);
      var k :| SourceBuiltBy(run, k, n - 1, id, s.vsbs[id].src.value, s.vsbs[id].pvc.value.options);
      assert SourceBuiltBy(run, k, n, id, source, options);
    } else {
      assert SourceBuiltBy(run, n - 1, n, id, source, options);
    }
  }

  /** Event `k` of the run is a pass over the backup `uid`. */
  ghost predicate PassOver(run: seq<Event>, k: nat, id: Id, uid: nat) {
    k < |run| && run[k].Reconcile? && run[k].id == id && At(run, k, id) && State(run, k, id).cr.uid == uid
  }

  /** What pass `e` reads of the source claim is of this class, with these access modes and this config map. */
  predicate ReadsOptions(e: Env, ns: string, scName: string, modes: seq<string>, config: Option<map<string, string>>) {
    e.sourcePvc.Some? ==>
      && e.sourcePvc.value.storageClass == scName && e.sourcePvc.value.accessModes == modes
      && (if config.Some? then Id(ns, scName + "-config") in e.configs && e.configs[Id(ns, scName + "-config")] == config.value
          else Id(ns, scName + "-config") !in e.configs)
  }

  /** Where the options of a live source and of its claim come from: each is the one that the config map for the
      class of the source claim sets, as the pass that built the object has read both, and where it sets none, the
      claim's are those of the source claim, and the source's the class of the source claim and the access modes
      of its own claim. The cache is as the config map sets it. */
  lemma OptionsBuilt(run: seq<Event>, id: Id) returns (j: nat, k: nat)
    requires LiveSource(run, |run|, id)
    ensures var l := State(run, |run|, id);
            var ns := l.cr.spec.protectedNs;
            && PassOver(run, j, id, l.cr.uid) && run[j].e.sourcePvc.Some?
            && (var p := run[j].e.sourcePvc.value;
                SourceSide(l.pvc.value.options, p.storageClass, p.accessModes, ns, run[j].e.configs))
            && PassOver(run, k, id, l.cr.uid) && run[k].e.sourcePvc.Some?
            && (var p := run[k].e.sourcePvc.value;
                && SourceSide(l.src.value.volume, p.storageClass, l.pvc.value.options.accessModes, ns, run[k].e.configs)
                && SetFrom(l.src.value.cache.storageClass, run[k].e.configs, ns, p.storageClass, "SourceCacheStorageClassName")
                && SetFrom(l.src.value.cache.accessMode, run[k].e.configs, ns, p.storageClass, "SourceCacheAccessMode")
                && SetFrom(l.src.value.cache.capacity, run[k].e.configs, ns, p.storageClass, "SourceCacheCapacity"))
  {
    hide Exec, SourceSide, SetFrom;
    var l := State(run, |run|, id);
    ClaimSinceBuilding(run, |run|, id);
    j :| ClaimBuiltBy(run, j, |run|, id, l.pvc.value);
    SourceSinceBuilding(run, |run|, id);
    k :| SourceBuiltBy(run, k, |run|, id, l.src.value, l.pvc.value.options);
    SameSpec(run, j, id);
    SameSpec(run, k, id);
  }

  /** A backup keeps its specification from one point of a run to the end, as long as it stays. */
  lemma SameSpec(run: seq<Event>, k: nat, id: Id)
    requires At(run, |run|, id) && k < |run| && At(run, k + 1, id)
    requires State(run, k + 1, id).cr.uid == State(run, |run|, id).cr.uid
    ensures State(run, k + 1, id).cr.spec == State(run, |run|, id).cr.spec
  {
    hide Exec;
    NoLostUpdates(run, k + 1, |run|, id);
  }

  /** Option agreement: in every run, if all passes over a backup that read its source claim read the same
      class, access modes and config map, its ReplicationSource and its claim clone have the same storage
      class and access modes, although two passes chose them from different inputs: the configured ones, and those
      of the source claim where none are configured. */
  lemma OptionsAgree(run: seq<Event>, id: Id, scName: string, modes: seq<string>, config: Option<map<string, string>>)
    requires At(run, |run|, id) && State(run, |run|, id).src.Some?
    requires forall k: nat :: PassOver(run, k, id, State(run, |run|, id).cr.uid) ==>
               ReadsOptions(run[k].e, State(run, |run|, id).cr.spec.protectedNs, scName, modes, config)
    ensures var l := State(run, |run|, id);
            && l.pvc.Some? && l.src.value.volume == l.pvc.value.options
            && l.src.value.volume.storageClass == (if config.Some? && "SourceStorageClassName" in config.value
                                                   then config.value["SourceStorageClassName"] else scName)
            && l.src.value.volume.accessModes == (if config.Some? && "SourceAccessMode" in config.value
                                                  then [config.value["SourceAccessMode"]] else modes)
  {
    hide Exec;
    SourceHasClaim(run, |run|, id);
    var j, k := OptionsBuilt(run, id);
  }

  /** A count written as a number arrives as that number, or as nothing if it is zero. */
  ghost predicate NumberArrives(data: map<string, string>, key: string, count: Option<int>) {
    key in data ==> forall n: int :: data[key] == FormatInt(n) ==> count == if n == 0 then None else Some(n)
  }

  /** The retain-policy pipeline to its end: in every run a live ReplicationSource asks for exactly the
      schedule, prune interval and retain policy in the user's secret as the pass that built it read it, each
      under its own key, if that was for a known provider; and each number written there arrives. */
  lemma RetainPolicyArrives(run: seq<Event>, id: Id) returns (k: nat)
    requires At(run, |run|, id) && State(run, |run|, id).src.Some?
    ensures var l := State(run, |run|, id);
            && PassOver(run, k, id, l.cr.uid) && run[k].e.given.Some?
            && (run[k].e.given.value.provider in {"aws", "azure", "gcp"} ==>
                  var data, s := run[k].e.given.value.data, l.src.value;
                  && AsksFor(s, id.name, data)
                  && NumberArrives(data, "restic-prune-interval", s.prune)
                  && NumberArrives(data, "SnapshotRetainPolicyDaily", s.retain.daily)
                  && NumberArrives(data, "SnapshotRetainPolicyHourly", s.retain.hourly)
                  && NumberArrives(data, "SnapshotRetainPolicyWeekly", s.retain.weekly)
                  && NumberArrives(data, "SnapshotRetainPolicyMonthly", s.retain.monthly)
                  && NumberArrives(data, "SnapshotRetainPolicyYearly", s.retain.yearly))
  {
    hide Exec, AsksFor, NumberArrives;
    var l := State(run, |run|, id);
    SourceHasClaim(run, |run|, id);
    SourceSinceBuilding(run, |run|, id);
    k :| SourceBuiltBy(run, k, |run|, id, l.src.value, l.pvc.value.options);
    var s, data := l.src.value, run[k].e.given.value.data;
    if run[k].e.given.value.provider in {"aws", "azure", "gcp"} {
      ExecSound(run[..k + 1]);
      SameAsking(State(run, k + 1, id).src.value, s, id.name, data);
      NumbersArrive(s, id.name, data);
    }
  }

  lemma SameAsking(a: RepSource, b: RepSource, name: string, data: map<string, string>)
    requires SameSource(a, b) && AsksFor(a, name, data)
    ensures AsksFor(b, name, data)
  {
  }

  lemma NumberWritten(data: map<string, string>, key: string, count: Option<int>)
    requires CountAt(data, key, count)
    ensures NumberArrives(data, key, count)
  {
    if key in data {
      forall n: int | data[key] == FormatInt(n) ensures count == if n == 0 then None else Some(n) {
        CountWritten(data, key, count, n);
      }
    }
  }

  lemma NumbersArrive(s: RepSource, name: string, data: map<string, string>)
    requires AsksFor(s, name, data)
    ensures NumberArrives(data, "restic-prune-interval", s.prune)
    ensures NumberArrives(data, "SnapshotRetainPolicyDaily", s.retain.daily)
    ensures NumberArrives(data, "SnapshotRetainPolicyHourly", s.retain.hourly)
    ensures NumberArrives(data, "SnapshotRetainPolicyWeekly", s.retain.weekly)
    ensures NumberArrives(data, "SnapshotRetainPolicyMonthly", s.retain.monthly)
    ensures NumberArrives(data, "SnapshotRetainPolicyYearly", s.retain.yearly)
  {
    hide CountAt, NumberArrives;
    NumberWritten(data, "restic-prune-interval", s.prune);
    NumberWritten(data, "SnapshotRetainPolicyDaily", s.retain.daily);
    NumberWritten(data, "SnapshotRetainPolicyHourly", s.retain.hourly);
    NumberWritten(data, "SnapshotRetainPolicyWeekly", s.retain.weekly);
    NumberWritten(data, "SnapshotRetainPolicyMonthly", s.retain.monthly);
    NumberWritten(data, "SnapshotRetainPolicyYearly", s.retain.yearly);
  }
}
