/** The request handlers behind POST /jobs and POST /jobs/:id/retry, statement by
    statement. */
module JobHandlers {
  import opened Wrappers
  import opened Tables
  import opened Schema
  import opened Store
  import opened JobIntake
  import Pipeline
  import Sql

  datatype RetryError = JobNotFound | JobNotFailed | RetryDbError

  /** What a retry request meets: whether the job can be read, what others do then, whether
      the update can be written, what others do then, and whether the answer can be read. */
  datatype Course = Course(reached: bool, meanwhile: Db -> Db, written: bool, later: Db -> Db, answered: bool)

  predicate OfTenant(db: Db, job: Id, tenant: Id) {
    job in db.jobs && db.jobs[job].tenant == tenant
  }

  /** No connection breaks and nobody else is at work. */
  ghost predicate Undisturbed(course: Course, db: Db, loc: Locale, job: Id, tenant: Id) {
    && course.reached && course.written && course.answered && Foreign(course.meanwhile, db, loc) == db
    && (Sql.RetryJob(db, job, tenant).Some? ==>
          Foreign(course.later, Sql.RetryJob(db, job, tenant).value, loc) == Sql.RetryJob(db, job, tenant).value)
  }

  class Handler {
    const db: Database

    constructor (db: Database)
      ensures this.db == db
    {
      this.db := db;
    }

    /** Ensures the requested segments; on an error some of them may be written. */
    method EnsureSegments(tenant: Id, names: seq<string>, ids: seq<Id>) returns (segments: Option<seq<Id>>)
      requires db.Valid() && |ids| == |names|
      modifies db
      ensures db.Valid() && segments.Some? == EnsureNames(old(db.Snapshot()), db.loc, tenant, names, ids).Some?
      ensures segments.Some? ==>
                && EnsureNames(old(db.Snapshot()), db.loc, tenant, names, ids) == Some(db.Snapshot())
                && segments.value == EnsuredIds(old(db.Snapshot()), db.loc, tenant, names, ids)
    {
      hide SchemaOk, Sql.EnsureSegment, Sql.EnsuredSegment;
      ghost var begin := db.Snapshot();
      var found := [];
      for k := 0 to |names|
        invariant db.Valid() && EnsureNames(begin, db.loc, tenant, names[..k], ids[..k]) == Some(db.Snapshot())
        invariant found == EnsuredIds(begin, db.loc, tenant, names[..k], ids[..k])
      {
        assert names[..k + 1][..k] == names[..k] && ids[..k + 1][..k] == ids[..k];
        var id := db.EnsureSegmentByName(ids[k], tenant, names[k]);
        if id.None? {
          EnsuringFails(begin, db.loc, tenant, names, ids, k + 1);
          return None;
        }
        found := found + [id.value];
      }
      assert names[..|names|] == names && ids[..|ids|] == ids;
      segments := Some(found);
    }

    method AttachSegments(job: Id, segments: seq<Id>) returns (ok: bool)
      requires db.Valid()
      modifies db
      ensures db.Valid() && ok == JobIntake.AttachSegments(old(db.Snapshot()), job, segments).Some?
      ensures ok ==> JobIntake.AttachSegments(old(db.Snapshot()), job, segments) == Some(db.Snapshot())
    {
      hide SchemaOk, Sql.AttachJobSegment;
      ghost var begin := db.Snapshot();
      for k := 0 to |segments|
        invariant db.Valid() && JobIntake.AttachSegments(begin, job, segments[..k]) == Some(db.Snapshot())
      {
        assert segments[..k + 1][..k] == segments[..k];
        ok := db.AttachJobSegment(job, segments[k]);
        if !ok {
          AttachingFails(begin, job, segments, k + 1);
          return;
        }
      }
      assert segments[..|segments|] == segments;
      ok := true;
    }

    /** The statements after the intent is consumed. */
    method InsertJob(req: JobRequest, draw: Draw, intent: Id, kind: Kind) returns (ok: bool)
      requires db.Valid() && |draw.segmentIds| == |req.segments|
      modifies db
      ensures db.Valid()
      ensures JobIntake.InsertJob(old(db.Snapshot()), db.loc, req, draw, intent, kind) ==
              if ok then Success(db.Snapshot()) else Failure(DbError)
    {
      hide SchemaOk, EnsureNames, EnsuredIds, Sql.CreateJob, JobIntake.AttachSegments;
      var segments := EnsureSegments(req.tenant, req.segments, draw.segmentIds);
      if segments.None? {
        return false;
      }
      ok := db.CreateJob(draw.jobId, NewJob(req, intent, kind, draw.now));
      if ok {
        ok := AttachSegments(draw.jobId, segments.value);
      }
    }

    /** The work inside the transaction. */
    method CreateJobBody(req: JobRequest, draw: Draw) returns (r: Result<(), CreateError>)
      requires db.Valid() && |draw.segmentIds| == |req.segments|
      modifies db
      ensures db.Valid()
      ensures match r
              case Success(_) => JobIntake.CreateJob(old(db.Snapshot()), db.loc, req, draw) == Success(db.Snapshot())
              case Failure(e) => JobIntake.CreateJob(old(db.Snapshot()), db.loc, req, draw) == Failure(e)
    {
      hide SchemaOk, JobIntake.InsertJob;
      var found := db.GetIntentByFileKey(req.tenant, req.fileKey);
      if found.None? {
        return Failure(NotFound);
      }
      var i := found.value;
      ghost var begin := db.Snapshot();
      assert i in Sql.IntentsByKey(begin, req.tenant, req.fileKey);
      assert forall k | k in Sql.IntentsByKey(begin, req.tenant, req.fileKey) :: k == i;
      var intent := db.intents[i];
      if intent.status != Issued {
        return Failure(AlreadyConsumed);
      }
      if draw.now >= intent.expiresAt {
        return Failure(Expired);
      }
      var marked := db.MarkConsumed(i, draw.now);
      var kind := KindOf(intent.contentType);
      if kind.None? {
        return Failure(UnsupportedContentType);
      }
      assert db.Snapshot() == Consume(begin, i, draw.now);
      var ok := InsertJob(req, draw, i, kind.value);
      r := if ok then Success(()) else Failure(DbError);
    }

    /** The whole transaction: it commits all of it, or rolls everything back. The
        connection may break before the work is done, or at the commit. */
    method CreateJob(req: JobRequest, draw: Draw, holds: bool, commits: bool)
      returns (r: Result<seq<string>, CreateError>)
      requires db.Valid() && |draw.segmentIds| == |req.segments|
      modifies db
      ensures db.Valid()
      ensures var done := JobIntake.CreateJob(old(db.Snapshot()), db.loc, req, draw);
              if holds && commits && done.Success? then
                && db.Snapshot() == done.value
                && r == Success(Pipeline.ListNamesByJob(db.Snapshot(), db.loc, draw.jobId))
              else
                && db.Snapshot() == old(db.Snapshot())
                && r == Failure(if holds && done.Failure? then done.error else DbError)
    {
      hide SchemaOk, JobIntake.CreateJob, Pipeline.ListNamesByJob;
      var begin := db.Snapshot();
      if !holds {
        db.Rollback(begin);
        return Failure(DbError);
      }
      var done := CreateJobBody(req, draw);
      if done.Failure? || !commits {
        db.Rollback(begin);
        return Failure(if done.Failure? then done.error else DbError);
      }
      var names := db.ListSegmentNamesByJobID(draw.jobId);
      r := Success(names);
    }

    /** Retries a failed job of the tenant. Other requests may come between the check and
        the update, which checks again, and before the answer is read. */
    method RetryJob(job: Id, tenant: Id, course: Course) returns (r: Result<(), RetryError>)
      requires db.Valid()
      modifies db
      ensures db.Valid()
      ensures var d := old(db.Snapshot());
              if !course.reached then r == Failure(RetryDbError) && db.Snapshot() == d
              else if !OfTenant(d, job, tenant) then r == Failure(JobNotFound) && db.Snapshot() == d
              else if d.jobs[job].status != Failed then r == Failure(JobNotFailed) && db.Snapshot() == d
              else
                var d1 := Foreign(course.meanwhile, d, db.loc);
                var retried := Sql.RetryJob(d1, job, tenant);
                if !course.written then r == Failure(RetryDbError) && db.Snapshot() == d1
                else if retried.None? then r == Failure(JobNotFound) && db.Snapshot() == d1
                else
                  && db.Snapshot() == Foreign(course.later, retried.value, db.loc)
                  && r == if !course.answered then Failure(RetryDbError)
                          else if OfTenant(db.Snapshot(), job, tenant) then Success(()) else Failure(JobNotFound)
      ensures Undisturbed(course, old(db.Snapshot()), db.loc, job, tenant) ==>
                var retried := old(Sql.RetryJob(db.Snapshot(), job, tenant));
                && (r.Success? <==> retried.Some?)
                && db.Snapshot() == if retried.Some? then retried.value else old(db.Snapshot())
    {
      hide SchemaOk, Foreign, Database.Valid;
      if !course.reached {
        return Failure(RetryDbError);
      }
      if job !in db.jobs || db.jobs[job].tenant != tenant {
        return Failure(JobNotFound);
      }
      if db.jobs[job].status != Failed {
        return Failure(JobNotFailed);
      }
      db.Interfere(course.meanwhile);
      if !course.written {
        return Failure(RetryDbError);
      }
      var ok := db.RetryJob(job, tenant);
      if !ok {
        return Failure(JobNotFound);
      }
      db.Interfere(course.later);
      if !course.answered {
        return Failure(RetryDbError);
      }
      r := if job in db.jobs && db.jobs[job].tenant == tenant then Success(()) else Failure(JobNotFound);
    }
  }

  lemma {:induction false} EnsuringFails(db: Db, loc: Locale, tenant: Id, names: seq<string>, ids: seq<Id>, k: nat)
    requires |ids| == |names| && k <= |names| && EnsureNames(db, loc, tenant, names[..k], ids[..k]).None?
    ensures EnsureNames(db, loc, tenant, names, ids).None?
    decreases |names|
  {
    if k < |names| {
      var n := |names| - 1;
      assert names[..n][..k] == names[..k] && ids[..n][..k] == ids[..k];
      EnsuringFails(db, loc, tenant, names[..n], ids[..n], k);
    } else {
      assert names[..k] == names && ids[..k] == ids;
    }
  }

  lemma {:induction false} AttachingFails(db: Db, job: Id, segments: seq<Id>, k: nat)
    requires k <= |segments| && JobIntake.AttachSegments(db, job, segments[..k]).None?
    ensures JobIntake.AttachSegments(db, job, segments).None?
  {
    if k < |segments| {
      assert segments[..|segments| - 1][..k] == segments[..k];
      AttachingFails(db, job, segments[..|segments| - 1], k);
    } else {
      assert segments[..k] == segments;
    }
  }
}
