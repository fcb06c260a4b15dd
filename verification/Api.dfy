/** What the two reconcilers share: phases, batching, and the API server's rule for writes. */
module Api {
  import opened Prelude

  /** `VolSyncDone` is "SnapshotBackupDone" on a backup and "SnapshotRestoreDone" on a restore. */
  datatype Phase = NoPhase | InProgress | VolSyncDone | Cleanup | Completed | Failed | PartiallyFailed

  datatype Batching = NotBatched | Queued | Processing | BatchDone

  predicate Terminal(p: Phase) {
    p == Completed || p == Failed || p == PartiallyFailed
  }

  /** The order in which a custom resource moves through the batch queue. */
  function Rank(b: Batching): nat {
    match b
    case NotBatched => 0
    case Queued => 1
    case Processing => 2
    case BatchDone => 3
  }

  /** The phase changes a single write may make; deletion replaces the whole automaton by one edge. */
  predicate PhaseEdge(deleting: bool, p: Phase, q: Phase) {
    || p == q
    || (deleting && q == Cleanup)
    || (!deleting && (
          || (p in {NoPhase, InProgress, Cleanup} && q in {InProgress, VolSyncDone})
          || (p == VolSyncDone && q == Cleanup)
          || (p == Cleanup && q == Completed)
          || (!Terminal(p) && q == Failed)
          || q == PartiallyFailed))
  }

  /** A namespaced name. */
  datatype Id = Id(ns: string, name: string)

  /** How a step of a reconcile batch ends: (true, nil), (false, nil) or (false, err). */
  datatype Flow = Continue | Wait | Fail

  /** How a pass ends: no requeue and no error, a requeue, or an error. */
  datatype Result = Quiet | Requeue | Retry

  /** The batch size read from the deployment; `BadValue` is a text that does not parse, for which
      the variable still receives the number the parser returns beside its error. */
  datatype BatchRead = Unreadable | Value(n: int) | BadValue(n: int)

  /** The reason for a status condition of a VolSync resource. */
  datatype Reason = NoReason | SyncInProgress | SyncError | OtherReason
  datatype Truth = Unset | True | False | Unknown
  datatype Condition = Condition(synchronizing: bool, status: Truth, reason: Reason)

  const NO_CONDITION := Condition(false, Unset, NoReason)

  /** The last condition whose status is false, as the scan over the list leaves it. */
  function LastFalse(cs: seq<Condition>): Condition {
    if cs == [] then NO_CONDITION
    else if cs[|cs| - 1].status == False then cs[|cs| - 1]
    else LastFalse(cs[..|cs| - 1])
  }

  /** The last condition whose reason is a running synchronisation. */
  function LastSync(cs: seq<Condition>): Condition {
    if cs == [] then NO_CONDITION
    else if cs[|cs| - 1].reason == SyncInProgress then cs[|cs| - 1]
    else LastSync(cs[..|cs| - 1])
  }

  /** The last condition whose status is false stands at index `i`. */
  predicate LastFalseAt(cs: seq<Condition>, i: nat) {
    i < |cs| && cs[i].status == False && forall j :: i < j < |cs| ==> cs[j].status != False
  }

  /** The last condition whose reason is a running synchronisation stands at index `i`. */
  predicate LastRunningAt(cs: seq<Condition>, i: nat) {
    i < |cs| && cs[i].reason == SyncInProgress && forall j :: i < j < |cs| ==> cs[j].reason != SyncInProgress
  }

  /** What the two scans find: nothing, or the last condition of its kind. */
  lemma {:induction false} LastFalseMeans(cs: seq<Condition>)
    ensures LastFalse(cs) == NO_CONDITION || exists i: nat :: LastFalseAt(cs, i) && cs[i] == LastFalse(cs)
    ensures forall i: nat :: LastFalseAt(cs, i) ==> LastFalse(cs) == cs[i]
    decreases |cs|
  {
    if cs != [] {
      var n := |cs| - 1;
      LastFalseMeans(cs[..n]);
      if cs[n].status == False {
        assert LastFalseAt(cs, n);
      } else {
        forall i: nat | LastFalseAt(cs, i) ensures LastFalse(cs) == cs[i] {
          assert LastFalseAt(cs[..n], i);
        }
        if LastFalse(cs) != NO_CONDITION {
          var i: nat :| LastFalseAt(cs[..n], i) && cs[..n][i] == LastFalse(cs[..n]);
          assert LastFalseAt(cs, i);
        }
      }
    }
  }

  lemma {:induction false} LastSyncMeans(cs: seq<Condition>)
    ensures LastSync(cs) == NO_CONDITION || exists i: nat :: LastRunningAt(cs, i) && cs[i] == LastSync(cs)
    ensures forall i: nat :: LastRunningAt(cs, i) ==> LastSync(cs) == cs[i]
    decreases |cs|
  {
    if cs != [] {
      var n := |cs| - 1;
      LastSyncMeans(cs[..n]);
      if cs[n].reason == SyncInProgress {
        assert LastRunningAt(cs, n);
      } else {
        forall i: nat | LastRunningAt(cs, i) ensures LastSync(cs) == cs[i] {
          assert LastRunningAt(cs[..n], i);
        }
        if LastSync(cs) != NO_CONDITION {
          var i: nat :| LastRunningAt(cs[..n], i) && cs[..n][i] == LastSync(cs[..n]);
          assert LastRunningAt(cs, i);
        }
      }
    }
  }

  /** The condition kept as progress never carries the error reason, so the branch that would mark a
      resource failed on it is never taken. */
  lemma {:induction false} SyncErrorNeverSeen(cs: seq<Condition>)
    ensures LastSync(cs).reason != SyncError
  {
    if cs != [] {
      SyncErrorNeverSeen(cs[..|cs| - 1]);
    }
  }

  /** The scan over the conditions, in the form of the source. */
  method ScanConditions(cs: seq<Condition>) returns (completed: Condition, progress: Condition)
    ensures completed == LastFalse(cs) && progress == LastSync(cs)
  {
    completed, progress := NO_CONDITION, NO_CONDITION;
    for i := 0 to |cs|
      invariant completed == LastFalse(cs[..i]) && progress == LastSync(cs[..i])
    {
      assert cs[..i + 1][..i] == cs[..i];
      if cs[i].status == False {
        completed := cs[i];
      }
      if cs[i].reason == SyncInProgress {
        progress := cs[i];
      }
    }
    assert cs[..|cs|] == cs;
  }

  /** A custom resource as the API server stores it. */
  datatype Resource<S, T> = Resource(name: string, uid: nat, rv: nat, deleting: bool, finalizer: bool,
                                     spec: S, status: T)

  /** A status write that the server accepts; one that changes nothing keeps the version. */
  function WithStatus<S, T(==)>(stored: Resource<S, T>, status: T): Resource<S, T> {
    if status == stored.status then stored else stored.(status := status, rv := stored.rv + 1)
  }

  /** A finalizer write that the server accepts. */
  function WithFinalizer<S, T>(stored: Resource<S, T>, finalizer: bool): Resource<S, T> {
    if finalizer == stored.finalizer then stored else stored.(finalizer := finalizer, rv := stored.rv + 1)
  }

  /** The batch size a pass works with, and whether it could read one. */
  function BatchSize(batch: int, read: BatchRead): (int, bool) {
    if batch != 0 then (batch, true)
    else match read
      case Unreadable => (0, false)
      case Value(n) => (n, true)
      case BadValue(n) => (n, false)
  }

  /******* What backups and restores both use *******/

  function SecretName(name: string): string { name + "-secret" }
  function TriggerName(name: string): string { name + "-trigger" }

  /** The status of a VolSync resource as recorded on the custom resource. */
  datatype SyncData = SyncData(name: string, start: Option<nat>, completion: Option<nat>)
  const NO_SYNC_DATA := SyncData("", None, None)

  /** A secret of the controller; `owner` is the value of its label. */
  datatype Secret = Secret(owner: string, data: map<string, string>)

  /** What the module Secrets makes of the user's secret. */
  datatype Derived = Malformed | UnknownProvider | Derived(data: map<string, string>)

  /** The phase of the Velero Backup or Restore. */
  datatype Velero = Missing | Running | Broken

  function Field(data: map<string, string>, key: string): string {
    if key in data then data[key] else ""
  }

  /** The secret as the mutate callback leaves it: rebuilt from scratch for a known provider. */
  function BuiltSecret(found: Option<Secret>, owner: string, d: Derived): Secret
    requires !d.Malformed?
  {
    var secret := found.GetOr(Secret(owner, map[]));
    if d.UnknownProvider? then secret else secret.(data := d.data)
  }
}
