/** The removal of source files: the finished jobs of a certain age are listed, and then
    their objects are deleted one after the other. */
module Retention {
  import opened Wrappers
  import opened Tables
  import opened Store
  import Sql

  const SECONDS_PER_DAY := 24 * 3600
  const RETENTION_AGE := 7 * SECONDS_PER_DAY

  /** The stored source files. Whether the n-th request to remove one succeeds is given. */
  class Storage {
    const succeeds: nat -> bool
    var objects: set<string>
    /** The keys whose removal was asked for. */
    var asked: seq<string>

    constructor (objects: set<string>, succeeds: nat -> bool)
      ensures this.objects == objects && this.succeeds == succeeds && asked == []
    {
      this.objects, this.succeeds, asked := objects, succeeds, [];
    }

    /** Removes an object; one that is missing counts as removed. */
    method Delete(key: string) returns (ok: bool)
      modifies this
      ensures ok == succeeds(|old(asked)|) && asked == old(asked) + [key]
      ensures objects == if ok then old(objects) - {key} else old(objects)
    {
      ok := succeeds(|asked|);
      asked := asked + [key];
      if ok {
        objects := objects - {key};
      }
    }
  }

  function FinishedAt(db: Db, j: Id): Time {
    if j in db.jobs then db.jobs[j].finishedAt.UnwrapOr(0) else 0
  }

  /** Every listed job once, the longest finished first. */
  ghost predicate Listing(db: Db, olderThan: Time, ids: seq<Id>) {
    && (forall j :: j in ids <==> j in Sql.ListJobsForRetention(db, olderThan))
    && forall a, b | 0 <= a < b < |ids| ::
         ids[a] != ids[b] && FinishedAt(db, ids[a]) <= FinishedAt(db, ids[b])
  }

  method FirstFinished(db: Db, ids: set<Id>) returns (first: Id)
    requires ids != {}
    ensures first in ids && forall o | o in ids :: FinishedAt(db, first) <= FinishedAt(db, o)
  {
    first :| first in ids;
    var others := ids - {first};
    while others != {}
      invariant others <= ids && first in ids - others
      invariant forall o | o in ids - others :: FinishedAt(db, first) <= FinishedAt(db, o)
      decreases others
    {
      var next :| next in others;
      if FinishedAt(db, next) < FinishedAt(db, first) {
        first := next;
      }
      others := others - {next};
    }
  }

  method ListForRetention(db: Db, olderThan: Time) returns (ids: seq<Id>)
    ensures Listing(db, olderThan, ids)
  {
    var rest := Sql.ListJobsForRetention(db, olderThan);
    ids := [];
    while rest != {}
      invariant forall j :: j in Sql.ListJobsForRetention(db, olderThan) <==> j in ids || j in rest
      invariant forall j | j in ids :: j !in rest
      invariant forall a, b | 0 <= a < b < |ids| ::
                  ids[a] != ids[b] && FinishedAt(db, ids[a]) <= FinishedAt(db, ids[b])
      invariant forall a, o | 0 <= a < |ids| && o in rest ::
                  FinishedAt(db, ids[a]) <= FinishedAt(db, o)
      decreases rest
    {
      var first := FirstFinished(db, rest);
      ids := ids + [first];
      rest := rest - {first};
    }
  }

  function FileKey(db: Db, j: Id): string {
    if j in db.jobs then db.jobs[j].fileKey else ""
  }

  function KeysOf(db: Db, ids: seq<Id>): seq<string> {
    seq(|ids|, k requires 0 <= k < |ids| => FileKey(db, ids[k]))
  }

  /** The listed jobs whose requests, the n-th onwards, succeed. */
  function Removed(succeeds: nat -> bool, n: nat, ids: seq<Id>): set<Id> {
    set k | 0 <= k < |ids| && succeeds(n + k) :: ids[k]
  }

  /** One cleanup: every listed job's object is asked for in order, and exactly the objects
      of those whose deletion went through are gone, whether or not others failed; the
      tables are not touched. When the listing fails nothing is asked for. */
  method RunRetention(db: Database, storage: Storage, now: Time, reachable: bool)
    returns (listed: seq<Id>, deleted: set<Id>)
    requires db.Valid()
    modifies storage
    ensures if reachable then Listing(db.Snapshot(), now - 7 * 24 * 3600, listed) else listed == []
    ensures storage.asked == old(storage.asked) + KeysOf(db.Snapshot(), listed)
    ensures deleted == Removed(storage.succeeds, |old(storage.asked)|, listed) && deleted <= set j | j in listed
    ensures storage.objects == old(storage.objects) - set j | j in deleted :: FileKey(db.Snapshot(), j)
    ensures forall key | key in old(storage.objects) && key !in storage.objects ::
              exists j :: j in deleted && j in db.jobs && db.jobs[j].fileKey == key && db.jobs[j].finishedAt.Some?
                          && db.jobs[j].finishedAt.value <= now - 7 * 24 * 3600 && Final(db.jobs[j].status)
  {
    listed, deleted := [], {};
    if !reachable {
      return;
    }
    listed := ListForRetention(db.Snapshot(), now - RETENTION_AGE);
    ghost var n := |storage.asked|;
    for k := 0 to |listed|
      invariant storage.asked == old(storage.asked) + KeysOf(db.Snapshot(), listed[..k])
      invariant deleted == Removed(storage.succeeds, n, listed[..k])
      invariant storage.objects == old(storage.objects) - set j | j in deleted :: FileKey(db.Snapshot(), j)
    {
      var j := listed[k];
      assert j in listed;
      OneMoreKey(db.Snapshot(), listed, k);
      OneMoreRemoved(storage.succeeds, n, listed, k);
      var ok := storage.Delete(db.jobs[j].fileKey);
      if !ok {
        continue;
      }
      deleted := deleted + {j};
    }
    assert listed[..|listed|] == listed;
  }

  lemma OneMoreKey(db: Db, ids: seq<Id>, k: nat)
    requires k < |ids|
    ensures KeysOf(db, ids[..k + 1]) == KeysOf(db, ids[..k]) + [FileKey(db, ids[k])]
  {
  }

  lemma OneMoreRemoved(succeeds: nat -> bool, n: nat, ids: seq<Id>, k: nat)
    requires k < |ids|
    ensures Removed(succeeds, n, ids[..k + 1]) ==
            Removed(succeeds, n, ids[..k]) + if succeeds(n + k) then {ids[k]} else {}
  {
    var more, less := Removed(succeeds, n, ids[..k + 1]), Removed(succeeds, n, ids[..k]);
    forall j | j in less + if succeeds(n + k) then {ids[k]} else {} ensures j in more {
      var i :| 0 <= i <= k && succeeds(n + i) && ids[i] == j;
      assert ids[..k + 1][i] == j;
    }
    forall j | j in more ensures j in less + if succeeds(n + k) then {ids[k]} else {} {
      var i :| 0 <= i <= k && succeeds(n + i) && ids[..k + 1][i] == j;
      if i < k {
        assert ids[..k][i] == j;
      }
    }
  }
}
