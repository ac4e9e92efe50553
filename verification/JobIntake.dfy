/** The transaction behind POST /jobs: it consumes an upload intent and inserts the job
    with its segments, or leaves every table as it was. */
module JobIntake {
  import opened Wrappers
  import opened Tables
  import opened JobInvariants
  import Sql

  datatype JobRequest = JobRequest(tenant: Id, fileKey: string, title: string, segments: seq<string>)

  /** What the server draws for one request: the ids it may need and the time. */
  datatype Draw = Draw(jobId: Id, segmentIds: seq<Id>, now: Time)

  datatype CreateError = NotFound | AlreadyConsumed | Expired | UnsupportedContentType | DbError

  function NewJob(req: JobRequest, intent: Id, kind: Kind, now: Time): Job {
    Job(req.tenant, intent, req.fileKey, req.title, kind, Pending, Queued, None, 0, None, None, now)
  }

  /** Ensures the first n names; the ids are those of `EnsuredIds`. */
  ghost function EnsureNames(db: Db, loc: Locale, tenant: Id, names: seq<string>, ids: seq<Id>): Option<Db>
    requires |ids| == |names|
  {
    if names == [] then Some(db)
    else
      var n := |names| - 1;
      match EnsureNames(db, loc, tenant, names[..n], ids[..n])
      case None => None
      case Some(d) => Sql.EnsureSegment(d, loc, ids[n], tenant, names[n])
  }

  ghost function EnsuredIds(db: Db, loc: Locale, tenant: Id, names: seq<string>, ids: seq<Id>): (r: seq<Id>)
    requires |ids| == |names|
    ensures |r| == |names|
  {
    if names == [] then []
    else
      var n := |names| - 1;
      match EnsureNames(db, loc, tenant, names[..n], ids[..n])
      case None => ids
      case Some(d) =>
        EnsuredIds(db, loc, tenant, names[..n], ids[..n]) + [Sql.EnsuredSegment(d, loc, ids[n], tenant, names[n])]
  }

  function AttachSegments(db: Db, job: Id, segments: seq<Id>): Option<Db> {
    if segments == [] then Some(db)
    else
      match AttachSegments(db, job, segments[..|segments| - 1])
      case None => None
      case Some(d) => Sql.AttachJobSegment(d, job, segments[|segments| - 1])
  }

  /** The whole transaction. */
  ghost function CreateJob(db: Db, loc: Locale, req: JobRequest, draw: Draw): Result<Db, CreateError>
    requires |draw.segmentIds| == |req.segments|
  {
    var found := Sql.IntentsByKey(db, req.tenant, req.fileKey);
    if found == {} then Failure(NotFound) else
    var i :| i in found;
    if db.intents[i].status != Issued then Failure(AlreadyConsumed)
    else if draw.now >= db.intents[i].expiresAt then Failure(Expired)
    else
      var kind := KindOf(db.intents[i].contentType);
      if kind.None? then Failure(UnsupportedContentType) else
      InsertJob(db.(intents := db.intents[i := db.intents[i].(status := Consumed, consumedAt := Some(draw.now))]),
                loc, req, draw, i, kind.value)
  }

  /** From the consumed intent to the attached segments. */
  ghost function InsertJob(db: Db, loc: Locale, req: JobRequest, draw: Draw, intent: Id, kind: Kind)
    : Result<Db, CreateError>
    requires |draw.segmentIds| == |req.segments|
  {
    match EnsureNames(db, loc, req.tenant, req.segments, draw.segmentIds)
    case None => Failure(DbError)
    case Some(d1) =>
      match Sql.CreateJob(d1, draw.jobId, NewJob(req, intent, kind, draw.now))
      case None => Failure(DbError)
      case Some(d2) =>
        var ids := EnsuredIds(db, loc, req.tenant, req.segments, draw.segmentIds);
        match AttachSegments(d2, draw.jobId, ids)
        case None => Failure(DbError)
        case Some(d3) => Success(d3)
  }

  // ---- what it does to the segments

  /** The ids are segments of the tenant with the names, up to case, in order. */
  ghost predicate NamedSo(db: Db, loc: Locale, tenant: Id, names: seq<string>, ids: seq<Id>) {
    |ids| == |names| &&
    forall k | 0 <= k < |ids| ::
      ids[k] in db.segments && db.segments[ids[k]].tenant == tenant
      && loc.lower(db.segments[ids[k]].name) == loc.lower(names[k])
  }

  lemma EnsureOne(db: Db, loc: Locale, tenant: Id, name: string, id: Id)
    requires SegmentsUnique(db, loc) && Sql.EnsureSegment(db, loc, id, tenant, name).Some?
    ensures var d := Sql.EnsureSegment(db, loc, id, tenant, name).value;
            var r := Sql.EnsuredSegment(db, loc, id, tenant, name);
            && d == db.(segments := d.segments) && SegmentsKept(db, d) && SegmentsUnique(d, loc)
            && r in d.segments && d.segments[r].tenant == tenant
            && loc.lower(d.segments[r].name) == loc.lower(name)
  {
    var found := Sql.SegmentsByName(db, loc, tenant, name);
    if found == {} {
      forall s | s in db.segments && db.segments[s].tenant == tenant
        ensures loc.lower(db.segments[s].name) != loc.lower(name)
      {
        assert s !in found;
      }
    }
  }

  lemma {:induction false} EnsureAll(db: Db, loc: Locale, tenant: Id, names: seq<string>, ids: seq<Id>)
    requires |ids| == |names| && SegmentsUnique(db, loc) && EnsureNames(db, loc, tenant, names, ids).Some?
    ensures var d := EnsureNames(db, loc, tenant, names, ids).value;
            && d == db.(segments := d.segments) && SegmentsKept(db, d) && SegmentsUnique(d, loc)
            && NamedSo(d, loc, tenant, names, EnsuredIds(db, loc, tenant, names, ids))
    decreases |names|
  {
    if names != [] {
      var n := |names| - 1;
      EnsureAll(db, loc, tenant, names[..n], ids[..n]);
      var d := EnsureNames(db, loc, tenant, names[..n], ids[..n]).value;
      EnsureOne(d, loc, tenant, names[n], ids[n]);
      var d2 := EnsureNames(db, loc, tenant, names, ids).value;
      var before, after := EnsuredIds(db, loc, tenant, names[..n], ids[..n]), EnsuredIds(db, loc, tenant, names, ids);
      forall k | 0 <= k < |names|
        ensures after[k] in d2.segments && d2.segments[after[k]].tenant == tenant
                && loc.lower(d2.segments[after[k]].name) == loc.lower(names[k])
      {
        if k < n {
          assert after[k] == before[k] && names[..n][k] == names[k];
        }
      }
    }
  }

  function Elements<T>(s: seq<T>): set<T> {
    set x | x in s
  }

  lemma {:induction false} AttachAllSegments(db: Db, job: Id, segments: seq<Id>)
    requires job in db.jobs && forall s | s in segments :: s in db.segments
    ensures var r := AttachSegments(db, job, segments);
            && r.Some? && r.value == db.(jobSegments := r.value.jobSegments)
            && (forall j | j in r.value.jobSegments :: j in db.jobSegments || j == job)
            && (forall j | j != job :: SegsOfJob(r.value, j) == SegsOfJob(db, j))
            && SegsOfJob(r.value, job) == SegsOfJob(db, job) + Elements(segments)
  {
    if segments != [] {
      var init := segments[..|segments| - 1];
      assert segments == init + [segments[|segments| - 1]];
      AttachAllSegments(db, job, init);
    }
  }

  lemma LastElement<T>(s: seq<T>)
    requires s != []
    ensures var n := |s| - 1;
            |Elements(s)| == |Elements(s[..n])| + if s[n] in s[..n] then 0 else 1
  {
    var n := |s| - 1;
    assert s == s[..n] + [s[n]];
    assert Elements(s) == Elements(s[..n]) + {s[n]};
  }

  /** Lists that repeat themselves at the same places have equally many elements. */
  lemma {:induction false} SameRepeats<A, B>(a: seq<A>, b: seq<B>)
    requires |a| == |b|
    requires forall i, j | 0 <= i < |a| && 0 <= j < |a| :: a[i] == a[j] <==> b[i] == b[j]
    ensures |Elements(a)| == |Elements(b)|
  {
    if a != [] {
      var n := |a| - 1;
      SameRepeats(a[..n], b[..n]);
      LastElement(a);
      LastElement(b);
      assert forall k | 0 <= k < n :: a[..n][k] == a[k] && b[..n][k] == b[k];
    }
  }

  function Lowered(loc: Locale, names: seq<string>): seq<string> {
    seq(|names|, k requires 0 <= k < |names| => loc.lower(names[k]))
  }

  /** As many segments as names that differ by more than case. */
  lemma CaseDistinctCount(db: Db, loc: Locale, tenant: Id, names: seq<string>, ids: seq<Id>)
    requires SegmentsUnique(db, loc) && NamedSo(db, loc, tenant, names, ids)
    ensures |Elements(ids)| == |Elements(Lowered(loc, names))|
  {
    SameRepeats(ids, Lowered(loc, names));
  }

  // ---- what it does to the tables

  /** The intent that the request consumes. */
  predicate Consumable(db: Db, req: JobRequest, draw: Draw, i: Id) {
    && i in db.intents && db.intents[i].tenant == req.tenant && db.intents[i].fileKey == req.fileKey
    && db.intents[i].status == Issued && draw.now < db.intents[i].expiresAt
    && KindOf(db.intents[i].contentType).Some?
  }

  function Consume(db: Db, i: Id, now: Time): Db
    requires i in db.intents
  {
    db.(intents := db.intents[i := db.intents[i].(status := Consumed, consumedAt := Some(now))])
  }

  /** Whatever was consumed before has its job, so the new job's intent and file key are
      nobody else's: neither unique column of jobs can refuse it. */
  lemma InsertNeverConflicts(db: Db, req: JobRequest, draw: Draw, i: Id, kind: Kind)
    requires IntentsMatchJobs(db) && Consumable(db, req, draw, i)
    ensures !Sql.JobConflict(db, NewJob(req, i, kind, draw.now))
  {
    forall j | j in db.jobs ensures db.jobs[j].intent != i && db.jobs[j].fileKey != req.fileKey {
      assert Backed(db, j);
    }
  }

  /** The rows of a new job, on top of what was there. */
  ghost predicate Added(d: Db, d2: Db, loc: Locale, req: JobRequest, draw: Draw, row: Job, ids: seq<Id>) {
    && draw.jobId !in d.jobs
    && d2 == d.(jobs := d.jobs[draw.jobId := row], segments := d2.segments, jobSegments := d2.jobSegments)
    && SegmentsKept(d, d2) && SegmentsUnique(d2, loc)
    && (forall j | j in d2.jobSegments :: j in d.jobSegments || j == draw.jobId)
    && (forall j | j != draw.jobId :: SegsOfJob(d2, j) == SegsOfJob(d, j))
    && NamedSo(d2, loc, req.tenant, req.segments, ids) && SegsOfJob(d2, draw.jobId) == Elements(ids)
  }

  lemma InsertedJob(d: Db, d3: Db, loc: Locale, req: JobRequest, draw: Draw, intent: Id, kind: Kind)
    returns (ids: seq<Id>)
    requires |draw.segmentIds| == |req.segments| && SegmentsUnique(d, loc) && d.jobSegments.Keys <= d.jobs.Keys
    requires InsertJob(d, loc, req, draw, intent, kind) == Success(d3)
    ensures Added(d, d3, loc, req, draw, NewJob(req, intent, kind, draw.now), ids)
  {
    EnsureAll(d, loc, req.tenant, req.segments, draw.segmentIds);
    ids := EnsuredIds(d, loc, req.tenant, req.segments, draw.segmentIds);
    var d1 := EnsureNames(d, loc, req.tenant, req.segments, draw.segmentIds).value;
    var d2 := Sql.CreateJob(d1, draw.jobId, NewJob(req, intent, kind, draw.now)).value;
    AttachAllSegments(d2, draw.jobId, ids);
    assert SegsOfJob(d2, draw.jobId) == {};
  }

  /** A successful request: exactly one intent was consumed, for exactly one new job. */
  lemma CreatedJob(db: Db, db2: Db, loc: Locale, req: JobRequest, draw: Draw) returns (i: Id, ids: seq<Id>)
    requires |draw.segmentIds| == |req.segments| && SegmentsUnique(db, loc) && LinksOk(db)
    requires CreateJob(db, loc, req, draw) == Success(db2)
    ensures Consumable(db, req, draw, i)
    ensures Added(Consume(db, i, draw.now), db2, loc, req, draw,
                  NewJob(req, i, KindOf(db.intents[i].contentType).value, draw.now), ids)
  {
    i :| i in Sql.IntentsByKey(db, req.tenant, req.fileKey) && Consumable(db, req, draw, i)
         && InsertJob(Consume(db, i, draw.now), loc, req, draw, i, KindOf(db.intents[i].contentType).value)
            == Success(db2);
    var kind := KindOf(db.intents[i].contentType);
    assert Consumable(db, req, draw, i);
    assert kind.Some?;
    ids := InsertedJob(Consume(db, i, draw.now), db2, loc, req, draw, i, kind.value);
  }

  lemma IntentsAfter(db: Db, db2: Db, req: JobRequest, draw: Draw, i: Id)
    requires IntentsMatchJobs(db) && Consumable(db, req, draw, i) && draw.jobId !in db.jobs
    requires db2.intents == Consume(db, i, draw.now).intents
    requires db2.jobs == db.jobs[draw.jobId := NewJob(req, i, KindOf(db.intents[i].contentType).value, draw.now)]
    ensures IntentsMatchJobs(db2)
  {
    forall j | j in db2.jobs ensures Backed(db2, j) {
      assert j != draw.jobId ==> Backed(db, j);
    }
    forall k | k in db2.intents && db2.intents[k].status == Consumed ensures HasJob(db2, k) {
      if k == i {
        assert db2.jobs[draw.jobId].intent == i;
      } else {
        assert HasJob(db, k);
        var j :| j in db.jobs && db.jobs[j].intent == k;
        assert db2.jobs[j].intent == k;
      }
    }
    forall j, k | j in db2.jobs && k in db2.jobs && db2.jobs[j].intent == db2.jobs[k].intent ensures j == k {
      assert j != draw.jobId ==> Backed(db, j);
      assert k != draw.jobId ==> Backed(db, k);
    }
  }
}
