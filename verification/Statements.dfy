/** What single statements may touch: rows of their own tenant and nothing else. */
module Statements {
  import opened Wrappers
  import opened Tables
  import Sql

  /** Every job or video row that is changed or removed belongs to the tenant; the other
      tables lose nothing but what hangs on a removed video. */
  predicate OnlyTenant(db: Db, db2: Db, tenant: Id) {
    && db2.intents == db.intents && db2.segments == db.segments && db2.jobSegments == db.jobSegments
    && db2.jobs.Keys == db.jobs.Keys
    && (forall j | j in db.jobs && db.jobs[j].tenant != tenant :: db2.jobs[j] == db.jobs[j])
    && (forall v | v in db2.videos :: v in db.videos)
    && (forall v | v in db.videos && db.videos[v].tenant != tenant :: SameRows(db, db2, v))
  }

  predicate SameRows(db: Db, db2: Db, v: Id)
    requires v in db.videos
  {
    && v in db2.videos && db2.videos[v] == db.videos[v]
    && Lookup(db2.transcripts, v) == Lookup(db.transcripts, v)
    && Lookup(db2.summaries, v) == Lookup(db.summaries, v)
    && ChunksOf(db2, v) == ChunksOf(db, v) && SegsOfVideo(db2, v) == SegsOfVideo(db, v)
  }

  /** Statements that name a tenant leave the rows of all others alone: those on jobs, */
  lemma JobStatementsKeepApart(db: Db, id: Id, tenant: Id, status: JobStatus, stage: Stage, error: Option<string>,
                               now: Time)
    ensures var r := Sql.UpdateJobStatus(db, id, tenant, status, stage, error, now);
            r.Some? ==> OnlyTenant(db, r.value, tenant)
    ensures Sql.RetryJob(db, id, tenant).Some? ==> OnlyTenant(db, Sql.RetryJob(db, id, tenant).value, tenant)
  {
    hide Sql.UpdatedRow;
  }

  /** those on a video, */
  lemma VideoStatementsKeepApart(db: Db, id: Id, tenant: Id, status: VideoStatus, now: Time)
    ensures var r := Sql.UpdateVideoStatus(db, id, tenant, status); r.Some? ==> OnlyTenant(db, r.value, tenant)
    ensures var r := Sql.SoftDeleteVideo(db, id, tenant, now); r.Some? ==> OnlyTenant(db, r.value, tenant)
  {
    hide OnlyTenant;
    var updated, deleted := Sql.UpdateVideoStatus(db, id, tenant, status), Sql.SoftDeleteVideo(db, id, tenant, now);
    if updated.Some? {
      OneVideoKeepsApart(db, id, updated.value.videos[id]);
    }
    if deleted.Some? {
      OneVideoKeepsApart(db, id, deleted.value.videos[id]);
    }
  }

  lemma OneVideoKeepsApart(db: Db, id: Id, row: Video)
    requires id in db.videos
    ensures OnlyTenant(db, db.(videos := db.videos[id := row]), db.videos[id].tenant)
  {
  }

  /** and those on the videos of a job. */
  lemma DeletionKeepsApart(db: Db, job: Id, tenant: Id)
    ensures OnlyTenant(db, Sql.DeleteVideoByJobID(db, job, tenant), tenant)
  {
    hide OnlyTenant, SameRows;
    var db2 := Sql.DeleteVideoByJobID(db, job, tenant);
    forall v | v in db.videos && db.videos[v].tenant != tenant ensures SameRows(db, db2, v) {
      NotRemoved(db, job, tenant, v);
    }
    OthersGone(db, job, tenant);
  }

  lemma NotRemoved(db: Db, job: Id, tenant: Id, v: Id)
    requires v in db.videos && db.videos[v].tenant != tenant
    ensures SameRows(db, Sql.DeleteVideoByJobID(db, job, tenant), v)
  {
  }

  lemma OthersGone(db: Db, job: Id, tenant: Id)
    requires forall v | v in db.videos && db.videos[v].tenant != tenant ::
               SameRows(db, Sql.DeleteVideoByJobID(db, job, tenant), v)
    ensures OnlyTenant(db, Sql.DeleteVideoByJobID(db, job, tenant), tenant)
  {
    hide SameRows;
  }

  lemma FailureKeepsApart(db: Db, job: Id, tenant: Id)
    ensures OnlyTenant(db, Sql.FailVideoByJobID(db, job, tenant), tenant)
  {
  }

  /** They are refused exactly where there is no row for them. */
  lemma RefusedExactlyWhen(db: Db, id: Id, tenant: Id, status: JobStatus, stage: Stage, error: Option<string>,
                           videoStatus: VideoStatus, now: Time)
    ensures Sql.UpdateJobStatus(db, id, tenant, status, stage, error, now).None? <==>
            forall row :: Lookup(db.jobs, id) == Some(row) ==> row.tenant != tenant
    ensures Sql.RetryJob(db, id, tenant).None? <==>
            forall row :: Lookup(db.jobs, id) == Some(row) ==> row.tenant != tenant || row.status != Failed
    ensures Sql.UpdateVideoStatus(db, id, tenant, videoStatus).None? <==>
            forall row :: Lookup(db.videos, id) == Some(row) ==> row.tenant != tenant
    ensures Sql.SoftDeleteVideo(db, id, tenant, now).None? <==>
            forall row :: Lookup(db.videos, id) == Some(row) ==> row.tenant != tenant || row.deletedAt.Some?
  {
  }

  /** Marking and removing a job's videos: exactly those of the tenant. */
  lemma VideosOfJobExactly(db: Db, job: Id, tenant: Id, v: Id)
    requires v in db.videos
    ensures var own := db.videos[v].job == job && db.videos[v].tenant == tenant;
            && (v in Sql.DeleteVideoByJobID(db, job, tenant).videos <==> !own)
            && v in Sql.FailVideoByJobID(db, job, tenant).videos
            && Sql.FailVideoByJobID(db, job, tenant).videos[v] ==
               if own then db.videos[v].(status := VideoFailed) else db.videos[v]
  {
  }

  /** An upsert leaves the given row, whatever was there, and no other row changes. */
  lemma UpsertsReplace(db: Db, v: Id, transcript: Transcript, summary: Summary)
    ensures Sql.UpsertTranscript(db, v, transcript).Some? <==> v in db.videos
    ensures Sql.UpsertSummary(db, v, summary).Some? <==> v in db.videos
    ensures v in db.videos ==>
              var d := Sql.UpsertTranscript(db, v, transcript).value;
              && d == db.(transcripts := d.transcripts)
              && forall u :: Lookup(d.transcripts, u) == if u == v then Some(transcript) else Lookup(db.transcripts, u)
    ensures v in db.videos ==>
              var d := Sql.UpsertSummary(db, v, summary).value;
              && d == db.(summaries := d.summaries)
              && forall u :: Lookup(d.summaries, u) == if u == v then Some(summary) else Lookup(db.summaries, u)
  {
  }
}
