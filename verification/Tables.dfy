/** The rows and tables of the database schema. Tables whose rows are found through
    a unique column are maps keyed by that column: `transcripts` and `summaries` by
    `video_id`, `chunks` by `video_id` and then `chunk_index`, the two link tables by
    the first column of their primary key. */
module Tables {
  import opened Wrappers

  type Id = nat
  type Time = int
  type Vector = seq<real>

  datatype Kind = VideoKind | AudioKind | PdfKind
  datatype IntentStatus = Issued | Consumed
  datatype JobStatus = Pending | Processing | Completed | Failed
  datatype VideoStatus = VideoProcessing | VideoCompleted | VideoFailed
  datatype SummaryStatus = SummaryCompleted | SummaryFailed

  /** The stage strings that are ever written to a job row. */
  datatype Stage = Queued | Downloading | Transcribing | Parsing | Chunking | Embedding | Finished

  datatype Intent = Intent(tenant: Id, fileKey: string, contentType: string, status: IntentStatus,
                           expiresAt: Time, consumedAt: Option<Time>)

  datatype Job = Job(tenant: Id, intent: Id, fileKey: string, title: string, kind: Kind,
                     status: JobStatus, stage: Stage, error: Option<string>, retryCount: nat,
                     startedAt: Option<Time>, finishedAt: Option<Time>, createdAt: Time)

  datatype Segment = Segment(tenant: Id, name: string)

  datatype Video = Video(tenant: Id, job: Id, title: string, kind: Kind, fileKey: string,
                         status: VideoStatus, deletedAt: Option<Time>)

  datatype Transcript = Transcript(content: string, language: Option<string>, model: Option<string>)

  datatype Chunk = Chunk(tenant: Id, content: string, embedding: Vector)

  /** A chunk on its way into the table, with the columns that key it. */
  datatype ChunkRow = ChunkRow(video: Id, index: nat, chunk: Chunk)

  datatype Summary = Summary(status: SummaryStatus, content: Option<string>, language: Option<string>,
                             model: Option<string>, error: Option<string>)

  datatype Db = Db(
    intents: map<Id, Intent>,
    jobs: map<Id, Job>,
    jobSegments: map<Id, set<Id>>,
    segments: map<Id, Segment>,
    videos: map<Id, Video>,
    videoSegments: map<Id, set<Id>>,
    transcripts: map<Id, Transcript>,
    chunks: map<Id, map<nat, Chunk>>,
    summaries: map<Id, Summary>)

  const EMPTY: Db := Db(map[], map[], map[], map[], map[], map[], map[], map[], map[])

  /** What the database decides about text: `lower` is the function behind the
      case-insensitive segment index, `collate` the key behind ORDER BY name. */
  datatype Locale = Locale(lower: string -> string, collate: string -> int)

  predicate Final(status: JobStatus) {
    status == Completed || status == Failed
  }

  /** The pipeline kind of an accepted content type. */
  function KindOf(contentType: string): Option<Kind> {
    if contentType == "video/mp4" || contentType == "video/quicktime" then Some(VideoKind)
    else if contentType == "audio/mpeg" || contentType == "audio/wav" then Some(AudioKind)
    else if contentType == "application/pdf" then Some(PdfKind)
    else None
  }

  function SegsOfJob(db: Db, j: Id): set<Id> {
    if j in db.jobSegments then db.jobSegments[j] else {}
  }

  function SegsOfVideo(db: Db, v: Id): set<Id> {
    if v in db.videoSegments then db.videoSegments[v] else {}
  }

  function ChunksOf(db: Db, v: Id): map<nat, Chunk> {
    if v in db.chunks then db.chunks[v] else map[]
  }

  function VideosOf(db: Db, j: Id): set<Id> {
    set v | v in db.videos && db.videos[v].job == j
  }
}

/** The SQL statements, as functions on the whole database. `None` is a statement
    that fails: a violated constraint, or a `:one` query without a row. */
module Sql {
  import opened Wrappers
  import opened Tables

  // ---- upload_intents.sql

  function CreateIntent(db: Db, id: Id, row: Intent): Option<Db> {
    if id in db.intents || exists i :: i in db.intents && db.intents[i].fileKey == row.fileKey then None
    else Some(db.(intents := db.intents[id := row]))
  }

  /** The intent rows a file key selects for a tenant. */
  function IntentsByKey(db: Db, tenant: Id, fileKey: string): set<Id> {
    set i | i in db.intents && db.intents[i].fileKey == fileKey && db.intents[i].tenant == tenant
  }

  function MarkConsumed(db: Db, id: Id, now: Time): Option<Db> {
    if id in db.intents && db.intents[id].status == Issued then
      Some(db.(intents := db.intents[id := db.intents[id].(status := Consumed, consumedAt := Some(now))]))
    else None
  }

  // ---- jobs.sql

  /** UNIQUE(upload_intent_id) or UNIQUE(file_key) on jobs would refuse the row. */
  predicate JobConflict(db: Db, row: Job) {
    exists j :: j in db.jobs && (db.jobs[j].intent == row.intent || db.jobs[j].fileKey == row.fileKey)
  }

  function CreateJob(db: Db, id: Id, row: Job): Option<Db> {
    if id in db.jobs || JobConflict(db, row) || row.intent !in db.intents then None
    else Some(db.(jobs := db.jobs[id := row]))
  }

  /** The job row after a status update: the start time is set once, the finish time
      whenever the status is final. */
  function UpdatedRow(row: Job, status: JobStatus, stage: Stage, error: Option<string>, now: Time): Job {
    row.(status := status, stage := stage, error := error,
         startedAt := if row.startedAt.Some? then row.startedAt
                      else if status == Processing then Some(now) else None,
         finishedAt := if Final(status) then Some(now) else row.finishedAt)
  }

  function UpdateJobStatus(db: Db, id: Id, tenant: Id, status: JobStatus, stage: Stage,
                           error: Option<string>, now: Time): Option<Db> {
    if id in db.jobs && db.jobs[id].tenant == tenant then
      Some(db.(jobs := db.jobs[id := UpdatedRow(db.jobs[id], status, stage, error, now)]))
    else None
  }

  function RetryJob(db: Db, id: Id, tenant: Id): Option<Db> {
    if id in db.jobs && db.jobs[id].tenant == tenant && db.jobs[id].status == Failed then
      var row := db.jobs[id];
      Some(db.(jobs := db.jobs[id := row.(status := Pending, stage := Queued, error := None,
                                          retryCount := row.retryCount + 1,
                                          startedAt := None, finishedAt := None)]))
    else None
  }

  /** The UPDATE half of the claim, on the row the SELECT picked. */
  function ClaimJob(db: Db, id: Id, now: Time): Option<Db> {
    if id in db.jobs && db.jobs[id].status == Pending then
      var row := db.jobs[id];
      Some(db.(jobs := db.jobs[id := row.(status := Processing, stage := Downloading,
        startedAt := if row.startedAt.Some? then row.startedAt else Some(now))]))
    else None
  }

  /** The SELECT half: pending rows that no other transaction holds locked. */
  function Claimable(db: Db, locked: set<Id>): set<Id> {
    set j | j in db.jobs && db.jobs[j].status == Pending && j !in locked
  }

  /** The jobs whose source file is due for removal. */
  function ListJobsForRetention(db: Db, olderThan: Time): set<Id> {
    set j | j in db.jobs && Final(db.jobs[j].status)
            && db.jobs[j].finishedAt.Some? && db.jobs[j].finishedAt.value <= olderThan
  }

  // ---- segments.sql

  function SegmentsByName(db: Db, loc: Locale, tenant: Id, name: string): set<Id> {
    set s | s in db.segments && db.segments[s].tenant == tenant
            && loc.lower(db.segments[s].name) == loc.lower(name)
  }

  /** Ensures the segment; the id it has is `EnsuredSegment`. */
  function EnsureSegment(db: Db, loc: Locale, id: Id, tenant: Id, name: string): Option<Db> {
    if SegmentsByName(db, loc, tenant, name) != {} then Some(db)
    else if id in db.segments then None
    else Some(db.(segments := db.segments[id := Segment(tenant, name)]))
  }

  ghost function EnsuredSegment(db: Db, loc: Locale, id: Id, tenant: Id, name: string): Id {
    var found := SegmentsByName(db, loc, tenant, name);
    if found != {} then var s :| s in found; s else id
  }

  function AttachJobSegment(db: Db, job: Id, segment: Id): Option<Db> {
    if job !in db.jobs || segment !in db.segments then None
    else Some(db.(jobSegments := db.jobSegments[job := SegsOfJob(db, job) + {segment}]))
  }

  function AttachVideoSegment(db: Db, video: Id, segment: Id): Option<Db> {
    if video !in db.videos || segment !in db.segments then None
    else Some(db.(videoSegments := db.videoSegments[video := SegsOfVideo(db, video) + {segment}]))
  }

  /** The statements of one AttachVideoSegments transaction, in order. */
  function AttachVideoSegments(db: Db, video: Id, segments: seq<Id>): Option<Db> {
    if segments == [] then Some(db)
    else
      match AttachVideoSegments(db, video, segments[..|segments| - 1])
      case None => None
      case Some(d) => AttachVideoSegment(d, video, segments[|segments| - 1])
  }

  /** The segment that comes first in ORDER BY name; rows of equal name are ordered
      by id so that the listing is one definite sequence. */
  predicate ListedBefore(db: Db, loc: Locale, a: Id, b: Id)
    requires a in db.segments && b in db.segments
  {
    var x, y := loc.collate(db.segments[a].name), loc.collate(db.segments[b].name);
    x < y || (x == y && a <= b)
  }

  // ---- videos.sql

  /** UNIQUE(job_id) or UNIQUE(file_key) on videos would refuse the row. */
  predicate VideoConflict(db: Db, row: Video) {
    exists v :: v in db.videos && (db.videos[v].job == row.job || db.videos[v].fileKey == row.fileKey)
  }

  function CreateVideo(db: Db, id: Id, row: Video): Option<Db> {
    if id in db.videos || VideoConflict(db, row) || row.job !in db.jobs then None
    else Some(db.(videos := db.videos[id := row]))
  }

  /** The videos of a job that belong to the tenant. */
  function VideosByJob(db: Db, job: Id, tenant: Id): set<Id> {
    set v | v in db.videos && db.videos[v].job == job && db.videos[v].tenant == tenant
  }

  /** Deletes the videos of a job with everything that cascades from them. */
  function DeleteVideoByJobID(db: Db, job: Id, tenant: Id): Db {
    var gone := VideosByJob(db, job, tenant);
    db.(videos := db.videos - gone, videoSegments := db.videoSegments - gone,
        transcripts := db.transcripts - gone, chunks := db.chunks - gone,
        summaries := db.summaries - gone)
  }

  function FailVideoByJobID(db: Db, job: Id, tenant: Id): Db {
    db.(videos := map v | v in db.videos ::
      if db.videos[v].job == job && db.videos[v].tenant == tenant
      then db.videos[v].(status := VideoFailed) else db.videos[v])
  }

  function UpdateVideoStatus(db: Db, id: Id, tenant: Id, status: VideoStatus): Option<Db> {
    if id in db.videos && db.videos[id].tenant == tenant then
      Some(db.(videos := db.videos[id := db.videos[id].(status := status)]))
    else None
  }

  function SoftDeleteVideo(db: Db, id: Id, tenant: Id, now: Time): Option<Db> {
    if id in db.videos && db.videos[id].tenant == tenant && db.videos[id].deletedAt.None? then
      Some(db.(videos := db.videos[id := db.videos[id].(deletedAt := Some(now))]))
    else None
  }

  // ---- transcripts.sql, chunks.sql, summaries.sql

  function UpsertTranscript(db: Db, video: Id, row: Transcript): Option<Db> {
    if video !in db.videos then None
    else Some(db.(transcripts := db.transcripts[video := row]))
  }

  function InsertChunk(db: Db, row: ChunkRow): Option<Db> {
    if row.video !in db.videos || row.index in ChunksOf(db, row.video) then None
    else Some(db.(chunks := db.chunks[row.video := ChunksOf(db, row.video)[row.index := row.chunk]]))
  }

  /** The statements of one Insert transaction, in order. */
  function InsertChunks(db: Db, rows: seq<ChunkRow>): Option<Db> {
    if rows == [] then Some(db)
    else
      match InsertChunks(db, rows[..|rows| - 1])
      case None => None
      case Some(d) => InsertChunk(d, rows[|rows| - 1])
  }

  function UpsertSummary(db: Db, video: Id, row: Summary): Option<Db> {
    if video !in db.videos then None
    else Some(db.(summaries := db.summaries[video := row]))
  }

  /** The chunks the WHERE clause of SearchChunks lets through; ORDER BY and LIMIT
      then pick some of them. */
  function SearchChunks(db: Db, loc: Locale, tenant: Id, segment: Option<string>): set<(Id, nat)> {
    set v, i | v in db.chunks && i in db.chunks[v]
               && db.chunks[v][i].tenant == tenant
               && v in db.videos && db.videos[v].status == VideoCompleted && db.videos[v].deletedAt.None?
               && (segment.None? || SegsOfVideo(db, v) * SegmentsByName(db, loc, tenant, segment.value) != {})
             :: (v, i)
  }
}
