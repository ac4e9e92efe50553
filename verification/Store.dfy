/** The database as an object whose tables the statements update in place. Each method
    is proved against the function of the same name in `Sql`; a refused statement
    reports failure and changes nothing, and no statement can break the constraints of
    the schema. */
module Store {
  import opened Wrappers
  import opened Tables
  import opened Schema
  import Sql
  import Pipeline

  /** What other connections make of the tables; the schema holds for them too. */
  function Foreign(foreign: Db -> Db, db: Db, loc: Locale): Db {
    if SchemaOk(foreign(db), loc) then foreign(db) else db
  }

  /** What the log of the database says: the statements and transactions it was given, in
      order, and that others were at work in between. */
  datatype Entry =
    | Others
    | AddIntent(id: Id, intent: Intent)
    | ConsumeIntent(id: Id, now: Time)
    | AddJob(id: Id, job: Job)
    | SetJobStatus(id: Id, tenant: Id, status: JobStatus, stage: Stage, error: Option<string>, now: Time)
    | RetryFailed(id: Id, tenant: Id)
    | ClaimOldest(locked: set<Id>, now: Time)
    | EnsureName(id: Id, tenant: Id, name: string)
    | LinkJob(id: Id, segment: Id)
    | LinkVideo(id: Id, segments: seq<Id>)
    | AddVideo(id: Id, video: Video)
    | DeleteVideos(id: Id, tenant: Id)
    | FailVideos(id: Id, tenant: Id)
    | SetVideoStatus(id: Id, tenant: Id, videoStatus: VideoStatus)
    | MarkDeleted(id: Id, tenant: Id, now: Time)
    | PutTranscript(id: Id, transcript: Transcript)
    | AddChunks(rows: seq<ChunkRow>)
    | PutSummary(id: Id, summary: Summary)
    | RolledBack

  class Database {
    const loc: Locale
    var intents: map<Id, Intent>
    var jobs: map<Id, Job>
    var jobSegments: map<Id, set<Id>>
    var segments: map<Id, Segment>
    var videos: map<Id, Video>
    var videoSegments: map<Id, set<Id>>
    var transcripts: map<Id, Transcript>
    var chunks: map<Id, map<nat, Chunk>>
    var summaries: map<Id, Summary>
    ghost var log: seq<Entry>

    function Snapshot(): Db
      reads this
    {
      Db(intents, jobs, jobSegments, segments, videos, videoSegments, transcripts, chunks, summaries)
    }

    ghost predicate Valid()
      reads this
    {
      SchemaOk(Snapshot(), loc)
    }

    constructor (loc: Locale)
      ensures Valid() && Snapshot() == EMPTY && this.loc == loc && log == []
    {
      this.loc := loc;
      intents, jobs, jobSegments, segments := map[], map[], map[], map[];
      videos, videoSegments, transcripts, chunks, summaries := map[], map[], map[], map[], map[];
      log := [];
    }

    /** Puts every table back, as a rollback does. */
    method Restore(db: Db)
      modifies this
      ensures Snapshot() == db
      ensures log == old(log)
    {
      intents, jobs, jobSegments, segments := db.intents, db.jobs, db.jobSegments, db.segments;
      videos, videoSegments, transcripts := db.videos, db.videoSegments, db.transcripts;
      chunks, summaries := db.chunks, db.summaries;
    }

    /** Ends a transaction without its writes. */
    method Rollback(db: Db)
      modifies this
      ensures Snapshot() == db && log == old(log) + [RolledBack]
    {
      Restore(db);
      log := log + [RolledBack];
    }

    /** Other connections do something meanwhile. */
    method Interfere(foreign: Db -> Db)
      requires Valid()
      modifies this
      ensures Valid() && Snapshot() == Foreign(foreign, old(Snapshot()), loc) && log == old(log) + [Others]
    {
      var db := foreign(Snapshot());
      if SchemaOk(db, loc) {
        Restore(db);
      }
      log := log + [Others];
    }

    // ---- upload intents

    method CreateIntent(id: Id, row: Intent) returns (ok: bool)
      requires Valid()
      modifies this
      ensures Valid() && ok == Sql.CreateIntent(old(Snapshot()), id, row).Some?
      ensures Snapshot() == if ok then Sql.CreateIntent(old(Snapshot()), id, row).value else old(Snapshot())
      ensures log == old(log) + [AddIntent(id, row)]
    {
      log := log + [AddIntent(id, row)];
      ok := id !in intents && forall i | i in intents :: intents[i].fileKey != row.fileKey;
      if ok {
        intents := intents[id := row];
      }
    }

    method GetIntentByFileKey(tenant: Id, fileKey: string) returns (found: Option<Id>)
      requires Valid()
      ensures Sql.IntentsByKey(Snapshot(), tenant, fileKey) == match found case Some(i) => {i} case None => {}
    {
      var rows := Sql.IntentsByKey(Snapshot(), tenant, fileKey);
      if rows == {} {
        found := None;
      } else {
        var i :| i in rows;
        assert forall k | k in rows :: k == i;
        found := Some(i);
      }
    }

    method MarkConsumed(id: Id, now: Time) returns (ok: bool)
      requires Valid()
      modifies this
      ensures Valid() && ok == Sql.MarkConsumed(old(Snapshot()), id, now).Some?
      ensures Snapshot() == if ok then Sql.MarkConsumed(old(Snapshot()), id, now).value else old(Snapshot())
      ensures log == old(log) + [ConsumeIntent(id, now)]
    {
      log := log + [ConsumeIntent(id, now)];
      ok := id in intents && intents[id].status == Issued;
      if ok {
        intents := intents[id := intents[id].(status := Consumed, consumedAt := Some(now))];
      }
    }

    // ---- jobs

    method CreateJob(id: Id, row: Job) returns (ok: bool)
      requires Valid()
      modifies this
      ensures Valid() && ok == Sql.CreateJob(old(Snapshot()), id, row).Some?
      ensures Snapshot() == if ok then Sql.CreateJob(old(Snapshot()), id, row).value else old(Snapshot())
      ensures log == old(log) + [AddJob(id, row)]
    {
      log := log + [AddJob(id, row)];
      ok := id !in jobs && row.intent in intents
            && forall j | j in jobs :: jobs[j].intent != row.intent && jobs[j].fileKey != row.fileKey;
      if ok {
        jobs := jobs[id := row];
      }
    }

    method UpdateJobStatus(id: Id, tenant: Id, status: JobStatus, stage: Stage, error: Option<string>, now: Time)
      returns (ok: bool)
      requires Valid()
      modifies this
      ensures Valid()
      ensures ok == Sql.UpdateJobStatus(old(Snapshot()), id, tenant, status, stage, error, now).Some?
      ensures Snapshot() == if ok then Sql.UpdateJobStatus(old(Snapshot()), id, tenant, status, stage, error, now).value
                            else old(Snapshot())
      ensures log == old(log) + [SetJobStatus(id, tenant, status, stage, error, now)]
    {
      hide SchemaOk, Sql.UpdatedRow;
      ok := id in jobs && jobs[id].tenant == tenant;
      if ok {
        var row := UpdatedJob(jobs[id], status, stage, error, now);
        JobRowKeepsSchema(Snapshot(), loc, id, row);
        jobs := jobs[id := row];
      }
      log := log + [SetJobStatus(id, tenant, status, stage, error, now)];
    }

    method RetryJob(id: Id, tenant: Id) returns (ok: bool)
      requires Valid()
      modifies this
      ensures Valid() && ok == Sql.RetryJob(old(Snapshot()), id, tenant).Some?
      ensures Snapshot() == if ok then Sql.RetryJob(old(Snapshot()), id, tenant).value else old(Snapshot())
      ensures log == old(log) + [RetryFailed(id, tenant)]
    {
      log := log + [RetryFailed(id, tenant)];
      ok := id in jobs && jobs[id].tenant == tenant && jobs[id].status == Failed;
      if ok {
        var row := jobs[id];
        row := row.(status := Pending, stage := Queued, error := None, retryCount := row.retryCount + 1,
                    startedAt := None, finishedAt := None);
        JobRowKeepsSchema(Snapshot(), loc, id, row);
        hide SchemaOk;
        jobs := jobs[id := row];
      }
    }

    /** The oldest pending job that no other transaction holds locked. */
    method OldestClaimable(locked: set<Id>) returns (oldest: Option<Id>)
      ensures oldest.None? <==> Sql.Claimable(Snapshot(), locked) == {}
      ensures oldest.Some? ==> oldest.value in Sql.Claimable(Snapshot(), locked)
      ensures oldest.Some? ==>
                forall o | o in Sql.Claimable(Snapshot(), locked) :: jobs[oldest.value].createdAt <= jobs[o].createdAt
    {
      var candidates := Sql.Claimable(Snapshot(), locked);
      var rest := candidates;
      oldest := None;
      while rest != {}
        invariant rest <= candidates && (oldest.None? <==> rest == candidates)
        invariant oldest.Some? ==> oldest.value in candidates - rest
        invariant oldest.Some? ==>
                    forall o | o in candidates - rest :: jobs[oldest.value].createdAt <= jobs[o].createdAt
        decreases rest
      {
        var j :| j in rest;
        if oldest.None? || jobs[j].createdAt < jobs[oldest.value].createdAt {
          oldest := Some(j);
        }
        rest := rest - {j};
      }
    }

    /** Claims the oldest pending job that no other transaction holds locked; there is
        nothing to claim only if every pending job is locked. */
    method ClaimNextPendingJob(locked: set<Id>, now: Time) returns (claimed: Option<Id>)
      requires Valid()
      modifies this
      ensures Valid()
      ensures claimed.None? <==> Sql.Claimable(old(Snapshot()), locked) == {}
      ensures claimed.None? ==> Snapshot() == old(Snapshot())
      ensures claimed.Some? ==>
                && claimed.value in Sql.Claimable(old(Snapshot()), locked)
                && Sql.ClaimJob(old(Snapshot()), claimed.value, now) == Some(Snapshot())
                && forall o | o in Sql.Claimable(old(Snapshot()), locked) ::
                     old(jobs[claimed.value].createdAt) <= old(jobs)[o].createdAt
      ensures log == old(log) + [ClaimOldest(locked, now)]
    {
      log := log + [ClaimOldest(locked, now)];
      hide SchemaOk;
      claimed := OldestClaimable(locked);
      if claimed.Some? {
        var row := jobs[claimed.value];
        if row.startedAt.None? {
          row := row.(startedAt := Some(now));
        }
        row := row.(status := Processing, stage := Downloading);
        JobRowKeepsSchema(Snapshot(), loc, claimed.value, row);
        jobs := jobs[claimed.value := row];
      }
    }

    // ---- segments

    /** The tenant's segment of that name up to case, inserted if it was missing. */
    method EnsureSegmentByName(id: Id, tenant: Id, name: string) returns (segment: Option<Id>)
      requires Valid()
      modifies this
      ensures Valid() && segment.Some? == Sql.EnsureSegment(old(Snapshot()), loc, id, tenant, name).Some?
      ensures segment.None? ==> Snapshot() == old(Snapshot())
      ensures segment.Some? ==> Snapshot() == Sql.EnsureSegment(old(Snapshot()), loc, id, tenant, name).value
      ensures segment.Some? ==> segment.value == Sql.EnsuredSegment(old(Snapshot()), loc, id, tenant, name)
      ensures log == old(log) + [EnsureName(id, tenant, name)]
    {
      log := log + [EnsureName(id, tenant, name)];
      var found := Sql.SegmentsByName(Snapshot(), loc, tenant, name);
      if found != {} {
        var s :| s in found;
        assert forall t | t in found :: t == s;
        segment := Some(s);
      } else if id in segments {
        segment := None;
      } else {
        forall s | s in segments && segments[s].tenant == tenant
          ensures loc.lower(segments[s].name) != loc.lower(name)
        {
          assert s !in found;
        }
        segments := segments[id := Segment(tenant, name)];
        segment := Some(id);
      }
    }

    method AttachJobSegment(job: Id, segment: Id) returns (ok: bool)
      requires Valid()
      modifies this
      ensures Valid() && ok == Sql.AttachJobSegment(old(Snapshot()), job, segment).Some?
      ensures Snapshot() == if ok then Sql.AttachJobSegment(old(Snapshot()), job, segment).value else old(Snapshot())
      ensures log == old(log) + [LinkJob(job, segment)]
    {
      log := log + [LinkJob(job, segment)];
      ok := job in jobs && segment in segments;
      if ok {
        jobSegments := jobSegments[job := SegsOfJob(Snapshot(), job) + {segment}];
      }
    }

    method AttachVideoSegment(video: Id, segment: Id) returns (ok: bool)
      requires Valid()
      modifies this
      ensures Valid() && ok == Sql.AttachVideoSegment(old(Snapshot()), video, segment).Some?
      ensures Snapshot() == if ok then Sql.AttachVideoSegment(old(Snapshot()), video, segment).value
                            else old(Snapshot())
      ensures log == old(log)
    {
      ok := video in videos && segment in segments;
      if ok {
        videoSegments := videoSegments[video := SegsOfVideo(Snapshot(), video) + {segment}];
      }
    }

    /** One transaction: all the links or none. */
    method AttachVideoSegments(video: Id, ids: seq<Id>) returns (ok: bool)
      requires Valid()
      modifies this
      ensures Valid() && ok == Sql.AttachVideoSegments(old(Snapshot()), video, ids).Some?
      ensures Snapshot() == if ok then Sql.AttachVideoSegments(old(Snapshot()), video, ids).value else old(Snapshot())
      ensures log == old(log) + [LinkVideo(video, ids)]
    {
      ghost var logged := log + [LinkVideo(video, ids)];
      hide SchemaOk, Sql.AttachVideoSegment;
      var begin := Snapshot();
      for i := 0 to |ids|
        invariant log == old(log) && Valid() && Sql.AttachVideoSegments(begin, video, ids[..i]) == Some(Snapshot())
      {
        assert ids[..i + 1][..i] == ids[..i];
        ok := AttachVideoSegment(video, ids[i]);
        if !ok {
          Refused(begin, video, ids, i + 1);
          Restore(begin);
          log := logged;
          return;
        }
      }
      assert ids[..|ids|] == ids;
      ok := true;
      log := logged;
    }

    /** The segment that ORDER BY name puts first. */
    method FirstListed(ids: set<Id>) returns (first: Id)
      requires ids != {} && ids <= segments.Keys
      ensures first in ids && forall o | o in ids :: Sql.ListedBefore(Snapshot(), loc, first, o)
    {
      var db := Snapshot();
      first :| first in ids;
      var others := ids - {first};
      while others != {}
        invariant others <= ids && first in ids - others
        invariant forall o | o in ids - others :: Sql.ListedBefore(db, loc, first, o)
        decreases others
      {
        var next :| next in others;
        if !Sql.ListedBefore(db, loc, first, next) {
          forall o | o in ids - others ensures Sql.ListedBefore(db, loc, next, o) {
            assert Sql.ListedBefore(db, loc, first, o);
          }
          first := next;
        }
        others := others - {next};
      }
    }

    /** The names of a job's segments in the order of the listing. */
    method ListSegmentNamesByJobID(job: Id) returns (names: seq<string>)
      ensures names == Pipeline.ListNamesByJob(Snapshot(), loc, job)
    {
      var db := Snapshot();
      names := [];
      var rest := SegsOfJob(db, job) * segments.Keys;
      while rest != {}
        invariant rest <= db.segments.Keys
        invariant names + Pipeline.NamesInOrder(db, loc, rest) == Pipeline.ListNamesByJob(db, loc, job)
        decreases rest
      {
        var first := FirstListed(rest);
        FirstIsUnique(db, loc, rest, first);
        hide Pipeline.NamesInOrder, Sql.ListedBefore;
        names := names + [segments[first].name];
        rest := rest - {first};
      }
    }

    // ---- videos

    method CreateVideo(id: Id, row: Video) returns (ok: bool)
      requires Valid()
      modifies this
      ensures Valid() && ok == Sql.CreateVideo(old(Snapshot()), id, row).Some?
      ensures Snapshot() == if ok then Sql.CreateVideo(old(Snapshot()), id, row).value else old(Snapshot())
      ensures log == old(log) + [AddVideo(id, row)]
    {
      NewVideoKeepsSchema(Snapshot(), loc, id, row);
      hide SchemaOk;
      log := log + [AddVideo(id, row)];
      ok := id !in videos && row.job in jobs
            && forall v | v in videos :: videos[v].job != row.job && videos[v].fileKey != row.fileKey;
      if ok {
        videos := videos[id := row];
      }
    }

    /** Removes the videos with all rows that cascade from them. */
    method RemoveVideos(gone: set<Id>)
      modifies this
      ensures var db := old(Snapshot());
              Snapshot() == db.(videos := db.videos - gone, videoSegments := db.videoSegments - gone,
                                transcripts := db.transcripts - gone, chunks := db.chunks - gone,
                                summaries := db.summaries - gone)
      ensures log == old(log)
    {
      videos := videos - gone;
      videoSegments, transcripts := videoSegments - gone, transcripts - gone;
      chunks, summaries := chunks - gone, summaries - gone;
    }

    method DeleteVideoByJobID(job: Id, tenant: Id)
      requires Valid()
      modifies this
      ensures Valid() && Snapshot() == Sql.DeleteVideoByJobID(old(Snapshot()), job, tenant)
      ensures log == old(log) + [DeleteVideos(job, tenant)]
    {
      DeletionKeepsSchema(Snapshot(), loc, job, tenant);
      hide SchemaOk, Sql.VideosByJob;
      RemoveVideos(Sql.VideosByJob(Snapshot(), job, tenant));
      log := log + [DeleteVideos(job, tenant)];
    }

    method FailVideoByJobID(job: Id, tenant: Id)
      requires Valid()
      modifies this
      ensures Valid() && Snapshot() == Sql.FailVideoByJobID(old(Snapshot()), job, tenant)
      ensures log == old(log) + [FailVideos(job, tenant)]
    {
      hide SchemaOk;
      var rest := videos.Keys;
      ghost var before := videos;
      while rest != {}
        invariant rest <= videos.Keys == before.Keys
        invariant forall v | v in before :: videos[v] ==
                    if v !in rest && before[v].job == job && before[v].tenant == tenant
                    then before[v].(status := VideoFailed) else before[v]
        invariant Snapshot() == old(Snapshot()).(videos := videos) && log == old(log)
        decreases rest
      {
        var v :| v in rest;
        if videos[v].job == job && videos[v].tenant == tenant {
          videos := videos[v := videos[v].(status := VideoFailed)];
        }
        rest := rest - {v};
      }
      assert videos == Sql.FailVideoByJobID(old(Snapshot()), job, tenant).videos;
      VideoRowsKeepSchema(old(Snapshot()), loc, videos);
      log := log + [FailVideos(job, tenant)];
    }

    method UpdateVideoStatus(id: Id, tenant: Id, status: VideoStatus) returns (ok: bool)
      requires Valid()
      modifies this
      ensures Valid() && ok == Sql.UpdateVideoStatus(old(Snapshot()), id, tenant, status).Some?
      ensures Snapshot() == if ok then Sql.UpdateVideoStatus(old(Snapshot()), id, tenant, status).value
                            else old(Snapshot())
      ensures log == old(log) + [SetVideoStatus(id, tenant, status)]
    {
      log := log + [SetVideoStatus(id, tenant, status)];
      ok := id in videos && videos[id].tenant == tenant;
      if ok {
        VideoRowsKeepSchema(Snapshot(), loc, videos[id := videos[id].(status := status)]);
        hide SchemaOk;
        videos := videos[id := videos[id].(status := status)];
      }
    }

    method SoftDeleteVideo(id: Id, tenant: Id, now: Time) returns (ok: bool)
      requires Valid()
      modifies this
      ensures Valid() && ok == Sql.SoftDeleteVideo(old(Snapshot()), id, tenant, now).Some?
      ensures Snapshot() == if ok then Sql.SoftDeleteVideo(old(Snapshot()), id, tenant, now).value else old(Snapshot())
      ensures log == old(log) + [MarkDeleted(id, tenant, now)]
    {
      log := log + [MarkDeleted(id, tenant, now)];
      ok := id in videos && videos[id].tenant == tenant && videos[id].deletedAt.None?;
      if ok {
        VideoRowsKeepSchema(Snapshot(), loc, videos[id := videos[id].(deletedAt := Some(now))]);
        hide SchemaOk;
        videos := videos[id := videos[id].(deletedAt := Some(now))];
      }
    }

    // ---- transcripts, chunks, summaries

    method UpsertTranscript(video: Id, row: Transcript) returns (ok: bool)
      requires Valid()
      modifies this
      ensures Valid() && ok == Sql.UpsertTranscript(old(Snapshot()), video, row).Some?
      ensures Snapshot() == if ok then Sql.UpsertTranscript(old(Snapshot()), video, row).value else old(Snapshot())
      ensures log == old(log) + [PutTranscript(video, row)]
    {
      log := log + [PutTranscript(video, row)];
      ok := video in videos;
      if ok {
        transcripts := transcripts[video := row];
      }
    }

    method InsertChunk(row: ChunkRow) returns (ok: bool)
      requires Valid()
      modifies this
      ensures Valid() && ok == Sql.InsertChunk(old(Snapshot()), row).Some?
      ensures Snapshot() == if ok then Sql.InsertChunk(old(Snapshot()), row).value else old(Snapshot())
      ensures log == old(log)
    {
      var there := ChunksOf(Snapshot(), row.video);
      ok := row.video in videos && row.index !in there;
      if ok {
        chunks := chunks[row.video := there[row.index := row.chunk]];
      }
    }

    /** One transaction: all the chunks or none. */
    method InsertChunks(rows: seq<ChunkRow>) returns (ok: bool)
      requires Valid()
      modifies this
      ensures Valid() && ok == Sql.InsertChunks(old(Snapshot()), rows).Some?
      ensures Snapshot() == if ok then Sql.InsertChunks(old(Snapshot()), rows).value else old(Snapshot())
      ensures log == old(log) + [AddChunks(rows)]
    {
      ghost var logged := log + [AddChunks(rows)];
      hide SchemaOk, Sql.InsertChunk;
      var begin := Snapshot();
      for i := 0 to |rows|
        invariant log == old(log) && Valid() && Sql.InsertChunks(begin, rows[..i]) == Some(Snapshot())
      {
        assert rows[..i + 1][..i] == rows[..i];
        ok := InsertChunk(rows[i]);
        if !ok {
          ChunkRefused(begin, rows, i + 1);
          Restore(begin);
          log := logged;
          return;
        }
      }
      assert rows[..|rows|] == rows;
      ok := true;
      log := logged;
    }

    method UpsertSummary(video: Id, row: Summary) returns (ok: bool)
      requires Valid()
      modifies this
      ensures Valid() && ok == Sql.UpsertSummary(old(Snapshot()), video, row).Some?
      ensures Snapshot() == if ok then Sql.UpsertSummary(old(Snapshot()), video, row).value else old(Snapshot())
      ensures log == old(log) + [PutSummary(video, row)]
    {
      log := log + [PutSummary(video, row)];
      ok := video in videos;
      if ok {
        summaries := summaries[video := row];
      }
    }
  }

  method UpdatedJob(before: Job, status: JobStatus, stage: Stage, error: Option<string>, now: Time)
    returns (row: Job)
    ensures row == Sql.UpdatedRow(before, status, stage, error, now)
    ensures row.intent == before.intent && row.fileKey == before.fileKey
  {
    row := before.(status := status, stage := stage, error := error);
    if row.startedAt.None? && status == Processing {
      row := row.(startedAt := Some(now));
    }
    if Final(status) {
      row := row.(finishedAt := Some(now));
    }
  }

  /** A transaction whose k-th statement is refused is refused as a whole. */
  lemma {:induction false} Refused(db: Db, video: Id, ids: seq<Id>, k: nat)
    requires k <= |ids| && Sql.AttachVideoSegments(db, video, ids[..k]).None?
    ensures Sql.AttachVideoSegments(db, video, ids).None?
  {
    if k < |ids| {
      assert ids[..|ids| - 1][..k] == ids[..k];
      Refused(db, video, ids[..|ids| - 1], k);
    } else {
      assert ids[..k] == ids;
    }
  }

  lemma {:induction false} ChunkRefused(db: Db, rows: seq<ChunkRow>, k: nat)
    requires k <= |rows| && Sql.InsertChunks(db, rows[..k]).None?
    ensures Sql.InsertChunks(db, rows).None?
  {
    if k < |rows| {
      assert rows[..|rows| - 1][..k] == rows[..k];
      ChunkRefused(db, rows[..|rows| - 1], k);
    } else {
      assert rows[..k] == rows;
    }
  }

  /** Only one segment can come first in a listing. */
  lemma FirstIsUnique(db: Db, loc: Locale, ids: set<Id>, first: Id)
    requires ids <= db.segments.Keys && first in ids && forall o | o in ids :: Sql.ListedBefore(db, loc, first, o)
    ensures Pipeline.NamesInOrder(db, loc, ids) ==
            [db.segments[first].name] + Pipeline.NamesInOrder(db, loc, ids - {first})
  {
    forall id | id in ids && forall o | o in ids :: Sql.ListedBefore(db, loc, id, o) ensures id == first {
      assert Sql.ListedBefore(db, loc, id, first) && Sql.ListedBefore(db, loc, first, id);
    }
  }
}
