/** The unique columns and the references to the owners of rows that the migration declares,
    and what the statements make of them. That none breaks them is proved in `Store`. */
module Schema {
  import opened Wrappers
  import opened Tables
  import Sql

  // ---- UNIQUE columns, and the unique index on segments

  predicate IntentKeys(intents: map<Id, Intent>) {
    forall a, b | a in intents && b in intents && intents[a].fileKey == intents[b].fileKey :: a == b
  }

  predicate JobKeys(jobs: map<Id, Job>) {
    forall a, b | a in jobs && b in jobs
                  && (jobs[a].intent == jobs[b].intent || jobs[a].fileKey == jobs[b].fileKey) :: a == b
  }

  predicate VideoKeys(videos: map<Id, Video>) {
    forall a, b | a in videos && b in videos
                  && (videos[a].job == videos[b].job || videos[a].fileKey == videos[b].fileKey) :: a == b
  }

  predicate SegmentKeys(segments: map<Id, Segment>, loc: Locale) {
    forall a, b | a in segments && b in segments && segments[a].tenant == segments[b].tenant
                  && loc.lower(segments[a].name) == loc.lower(segments[b].name) :: a == b
  }

  // ---- references from the rows that belong to a job or a video

  predicate Owned(db: Db) {
    && db.jobSegments.Keys <= db.jobs.Keys && db.videoSegments.Keys <= db.videos.Keys
    && db.transcripts.Keys <= db.videos.Keys && db.chunks.Keys <= db.videos.Keys && db.summaries.Keys <= db.videos.Keys
  }

  predicate SchemaOk(db: Db, loc: Locale) {
    && IntentKeys(db.intents) && JobKeys(db.jobs) && SegmentKeys(db.segments, loc) && VideoKeys(db.videos)
    && Owned(db)
  }

  /** A statement that goes through exactly if the tables after it keep the schema. */
  function IfOk(db: Db, loc: Locale): Option<Db> {
    if SchemaOk(db, loc) then Some(db) else None
  }

  // ---- updates and removals

  /** A job row may change in any column but the unique ones. */
  lemma JobRowKeepsSchema(db: Db, loc: Locale, id: Id, row: Job)
    requires SchemaOk(db, loc) && id in db.jobs
    requires row.intent == db.jobs[id].intent && row.fileKey == db.jobs[id].fileKey
    ensures SchemaOk(db.(jobs := db.jobs[id := row]), loc)
  {
  }

  /** So may the video rows. */
  lemma VideoRowsKeepSchema(db: Db, loc: Locale, videos: map<Id, Video>)
    requires SchemaOk(db, loc) && videos.Keys == db.videos.Keys
    requires forall v | v in videos :: videos[v].job == db.videos[v].job && videos[v].fileKey == db.videos[v].fileKey
    ensures SchemaOk(db.(videos := videos), loc)
  {
  }

  lemma DeletionKeepsSchema(db: Db, loc: Locale, job: Id, tenant: Id)
    requires SchemaOk(db, loc)
    ensures SchemaOk(Sql.DeleteVideoByJobID(db, job, tenant), loc)
  {
  }

  lemma NewVideoKeepsSchema(db: Db, loc: Locale, id: Id, row: Video)
    requires SchemaOk(db, loc)
    ensures Sql.CreateVideo(db, id, row).Some? ==> SchemaOk(Sql.CreateVideo(db, id, row).value, loc)
  {
  }

  // ---- inserts

  lemma IntentsGoInExactlyWhen(db: Db, loc: Locale, id: Id, row: Intent)
    requires SchemaOk(db, loc)
    ensures Sql.CreateIntent(db, id, row) ==
            if id in db.intents then None else IfOk(db.(intents := db.intents[id := row]), loc)
  {
    hide JobKeys, VideoKeys, SegmentKeys;
    var intents := db.intents[id := row];
    if id !in db.intents && exists i :: i in db.intents && db.intents[i].fileKey == row.fileKey {
      var i :| i in db.intents && db.intents[i].fileKey == row.fileKey;
      assert intents[i].fileKey == intents[id].fileKey;
    }
  }

  lemma JobsGoInExactlyWhen(db: Db, loc: Locale, id: Id, row: Job)
    requires SchemaOk(db, loc)
    ensures Sql.CreateJob(db, id, row) ==
            if id in db.jobs || row.intent !in db.intents then None else IfOk(db.(jobs := db.jobs[id := row]), loc)
  {
    if id !in db.jobs {
      JobKeyKept(db, id, row);
    }
    hide IntentKeys, JobKeys, VideoKeys, SegmentKeys, Sql.JobConflict;
  }

  lemma JobKeyKept(db: Db, id: Id, row: Job)
    requires JobKeys(db.jobs) && id !in db.jobs
    ensures JobKeys(db.jobs[id := row]) <==> !Sql.JobConflict(db, row)
  {
    var jobs := db.jobs[id := row];
    assert jobs[id] == row;
    if Sql.JobConflict(db, row) {
      var j :| j in db.jobs && (db.jobs[j].intent == row.intent || db.jobs[j].fileKey == row.fileKey);
      assert jobs[j] == db.jobs[j];
    }
  }

  lemma VideosGoInExactlyWhen(db: Db, loc: Locale, id: Id, row: Video)
    requires SchemaOk(db, loc)
    ensures Sql.CreateVideo(db, id, row) ==
            if id in db.videos || row.job !in db.jobs then None else IfOk(db.(videos := db.videos[id := row]), loc)
  {
    if id !in db.videos {
      VideoKeyKept(db, id, row);
    }
    hide IntentKeys, JobKeys, VideoKeys, SegmentKeys, Sql.VideoConflict;
  }

  lemma VideoKeyKept(db: Db, id: Id, row: Video)
    requires VideoKeys(db.videos) && id !in db.videos
    ensures VideoKeys(db.videos[id := row]) <==> !Sql.VideoConflict(db, row)
  {
    var videos := db.videos[id := row];
    assert videos[id] == row;
    if Sql.VideoConflict(db, row) {
      var v :| v in db.videos && (db.videos[v].job == row.job || db.videos[v].fileKey == row.fileKey);
      assert videos[v] == db.videos[v];
    }
  }

  /** A segment goes in if the index allows it; if not, the one in its place is found. */
  lemma SegmentsGoInExactlyWhen(db: Db, loc: Locale, id: Id, tenant: Id, name: string)
    requires SchemaOk(db, loc) && id !in db.segments
    ensures var db2 := db.(segments := db.segments[id := Segment(tenant, name)]);
            Sql.EnsureSegment(db, loc, id, tenant, name) == Some(if SchemaOk(db2, loc) then db2 else db)
  {
    hide IntentKeys, JobKeys, VideoKeys;
    var segments, found := db.segments[id := Segment(tenant, name)], Sql.SegmentsByName(db, loc, tenant, name);
    assert segments[id] == Segment(tenant, name);
    if found != {} {
      var s :| s in found;
      assert segments[s] == db.segments[s];
    } else {
      forall s | s in db.segments && db.segments[s].tenant == tenant
        ensures loc.lower(db.segments[s].name) != loc.lower(name)
      {
        assert s !in found;
      }
    }
  }

  /** Links and the rows of a video go in exactly where what they refer to is there. */
  lemma LinksGoInExactlyWhen(db: Db, loc: Locale, job: Id, video: Id, segment: Id)
    requires SchemaOk(db, loc)
    ensures Sql.AttachJobSegment(db, job, segment) ==
            if segment !in db.segments then None
            else IfOk(db.(jobSegments := db.jobSegments[job := SegsOfJob(db, job) + {segment}]), loc)
    ensures Sql.AttachVideoSegment(db, video, segment) ==
            if segment !in db.segments then None
            else IfOk(db.(videoSegments := db.videoSegments[video := SegsOfVideo(db, video) + {segment}]), loc)
  {
    hide IntentKeys, JobKeys, VideoKeys, SegmentKeys;
    assert job in db.jobSegments[job := SegsOfJob(db, job) + {segment}];
    assert video in db.videoSegments[video := SegsOfVideo(db, video) + {segment}];
  }

  lemma ContentGoesInExactlyWhen(db: Db, loc: Locale, video: Id, transcript: Transcript, summary: Summary,
                                 row: ChunkRow)
    requires SchemaOk(db, loc)
    ensures Sql.UpsertTranscript(db, video, transcript) ==
            IfOk(db.(transcripts := db.transcripts[video := transcript]), loc)
    ensures Sql.UpsertSummary(db, video, summary) == IfOk(db.(summaries := db.summaries[video := summary]), loc)
    ensures Sql.InsertChunk(db, row) ==
            if row.index in ChunksOf(db, row.video) then None
            else IfOk(db.(chunks := db.chunks[row.video := ChunksOf(db, row.video)[row.index := row.chunk]]), loc)
  {
    hide IntentKeys, JobKeys, VideoKeys, SegmentKeys;
    assert video in db.transcripts[video := transcript] && video in db.summaries[video := summary];
    assert row.video in db.chunks[row.video := ChunksOf(db, row.video)[row.index := row.chunk]];
  }
}
