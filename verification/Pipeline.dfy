/** The program one worker runs on one claimed job, cut at its database statements.
    A worker stands at the point of its next statement and carries the local variables
    of `ProcessJob`, `run` and `fail`. */
module Pipeline {
  import opened Wrappers
  import opened Tables
  import Sql
  import Chunker

  datatype Point =
    | Load           // ProcessJob: read the claimed row
    | Cleanup        // run: delete an earlier attempt's video
    | Insert         // run: insert the fresh video
    | ListNames      // copyJobSegments
    | Ensure
    | Attach
    | Download       // extractTranscript: stage, download, validate
    | Recognize      // stage, transcribe or parse
    | Store          // upsert the transcript
    | Split          // run: stage, split into sections
    | Embed          // stage, embed
    | InsertChunks
    | CompleteJob
    | CompleteVideo
    | Summarize      // generateSummary
    | FailJob        // fail
    | FailVideo

  datatype Worker =
    | Idle
    | Busy(at: Point, job: Id, row: Job, video: Id, names: seq<string>, segments: seq<Id>,
           transcript: Transcript, vectors: seq<Vector>)

  /** What the outside world contributes to a step: whether everything up to and
      including the statement succeeds, and the values the step may need. */
  datatype Supply = Supply(ok: bool, newId: Id, transcript: Transcript, vectors: seq<Vector>,
                           summary: Option<string>, message: string, now: Time)

  /** Before anything is transcribed. */
  const NO_TRANSCRIPT := Transcript("", None, None)

  const SUMMARY_MODEL := "deepseek"
  const SUMMARY_ERROR := "summary generation failed"

  /** The worker that has just claimed a job. */
  function Start(job: Id, row: Job): Worker {
    Busy(Load, job, row, 0, [], [], NO_TRANSCRIPT, [])
  }

  /** The names of the given segments in listing order. */
  ghost function NamesInOrder(db: Db, loc: Locale, ids: set<Id>): (names: seq<string>)
    requires ids <= db.segments.Keys
    decreases ids
  {
    if ids == {} then []
    else
      FirstListedExists(db, loc, ids);
      var id :| id in ids && forall o | o in ids :: Sql.ListedBefore(db, loc, id, o);
      [db.segments[id].name] + NamesInOrder(db, loc, ids - {id})
  }

  lemma ListingIsTotal(db: Db, loc: Locale, a: Id, b: Id)
    requires a in db.segments && b in db.segments
    ensures Sql.ListedBefore(db, loc, a, b) || Sql.ListedBefore(db, loc, b, a)
  {
  }

  lemma ListingIsTransitive(db: Db, loc: Locale, a: Id, b: Id, c: Id)
    requires a in db.segments && b in db.segments && c in db.segments
    requires Sql.ListedBefore(db, loc, a, b) && Sql.ListedBefore(db, loc, b, c)
    ensures Sql.ListedBefore(db, loc, a, c)
  {
  }

  lemma {:induction false} FirstListedExists(db: Db, loc: Locale, ids: set<Id>)
    requires ids != {} && ids <= db.segments.Keys
    ensures exists id :: id in ids && forall o | o in ids :: Sql.ListedBefore(db, loc, id, o)
    decreases ids
  {
    var a :| a in ids;
    var rest := ids - {a};
    ListingIsTotal(db, loc, a, a);
    hide Sql.ListedBefore;
    assert forall o | o in ids :: o == a || o in rest;
    if rest == {} {
      assert forall o | o in ids :: Sql.ListedBefore(db, loc, a, o);
    } else {
      FirstListedExists(db, loc, rest);
      var b :| b in rest && forall o | o in rest :: Sql.ListedBefore(db, loc, b, o);
      ListingIsTotal(db, loc, a, b);
      if Sql.ListedBefore(db, loc, a, b) {
        forall o | o in rest ensures Sql.ListedBefore(db, loc, a, o) {
          ListingIsTransitive(db, loc, a, b, o);
        }
        assert forall o | o in ids :: Sql.ListedBefore(db, loc, a, o);
      } else {
        assert forall o | o in ids :: Sql.ListedBefore(db, loc, b, o);
      }
    }
  }

  /** ListSegmentNamesByJobID; the join leaves out ids without a segment row. */
  ghost function ListNamesByJob(db: Db, loc: Locale, job: Id): seq<string> {
    NamesInOrder(db, loc, SegsOfJob(db, job) * db.segments.Keys)
  }

  function NewVideo(job: Id, row: Job): Video {
    Video(row.tenant, job, row.title, row.kind, row.fileKey, VideoProcessing, None)
  }

  /** The rows embedSections makes: index i holds section i and its vector. */
  function ChunkRows(video: Id, tenant: Id, sections: seq<string>, vectors: seq<Vector>): (rows: seq<ChunkRow>)
    requires |vectors| == |sections|
  {
    seq(|sections|, i requires 0 <= i < |sections| =>
      ChunkRow(video, i, Chunk(tenant, sections[i], vectors[i])))
  }

  function SummaryRow(text: Option<string>, language: Option<string>): Summary {
    match text
    case Some(t) => Summary(SummaryCompleted, Some(t), language, Some(SUMMARY_MODEL), None)
    case None => Summary(SummaryFailed, None, None, None, Some(SUMMARY_ERROR))
  }

  function RecognizeStage(kind: Kind): Stage {
    if kind == PdfKind then Parsing else Transcribing
  }

  function Failing(w: Worker): Worker
    requires w.Busy?
  {
    w.(at := FailJob)
  }

  /** setStage: a status update that keeps the job processing. */
  function SetStage(db: Db, w: Worker, stage: Stage, next: Point, s: Supply): (Db, Worker)
    requires w.Busy?
  {
    var r := Sql.UpdateJobStatus(db, w.job, w.row.tenant, Processing, stage, None, s.now);
    if s.ok && r.Some? then (r.value, w.(row := w.row.(stage := stage), at := next))
    else (db, Failing(w))
  }

  /** Where copyJobSegments goes once `segments` are ensured. */
  function EnsureNext(w: Worker): Worker
    requires w.Busy?
  {
    w.(at := if |w.segments| < |w.names| then Ensure else Attach)
  }

  // The steps of `run` and `fail`, one function for each kind of statement.

  function DoLoad(db: Db, w: Worker, s: Supply): (Db, Worker)
    requires w.Busy?
  {
    if s.ok && w.job in db.jobs then (db, w.(row := db.jobs[w.job], at := Cleanup)) else (db, Idle)
  }

  function DoCleanup(db: Db, w: Worker, s: Supply): (Db, Worker)
    requires w.Busy?
  {
    if s.ok then (Sql.DeleteVideoByJobID(db, w.job, w.row.tenant), w.(at := Insert)) else (db, Failing(w))
  }

  function DoInsert(db: Db, w: Worker, s: Supply): (Db, Worker)
    requires w.Busy?
  {
    var r := Sql.CreateVideo(db, s.newId, NewVideo(w.job, w.row));
    if s.ok && r.Some? then (r.value, w.(video := s.newId, at := ListNames)) else (db, Failing(w))
  }

  ghost function DoListNames(db: Db, loc: Locale, w: Worker, s: Supply): (Db, Worker)
    requires w.Busy?
  {
    if s.ok then (db, EnsureNext(w.(names := ListNamesByJob(db, loc, w.job), segments := [])))
    else (db, Failing(w))
  }

  ghost function DoEnsure(db: Db, loc: Locale, w: Worker, s: Supply): (Db, Worker)
    requires w.Busy?
  {
    if |w.segments| >= |w.names| then (db, w.(at := Attach)) else
    var name := w.names[|w.segments|];
    var r := Sql.EnsureSegment(db, loc, s.newId, w.row.tenant, name);
    var id := Sql.EnsuredSegment(db, loc, s.newId, w.row.tenant, name);
    if s.ok && r.Some? then (r.value, EnsureNext(w.(segments := w.segments + [id]))) else (db, Failing(w))
  }

  function DoAttach(db: Db, w: Worker, s: Supply): (Db, Worker)
    requires w.Busy?
  {
    var r := Sql.AttachVideoSegments(db, w.video, w.segments);
    if s.ok && r.Some? then (r.value, w.(at := Download)) else (db, Failing(w))
  }

  function DoStore(db: Db, w: Worker, s: Supply): (Db, Worker)
    requires w.Busy?
  {
    var r := Sql.UpsertTranscript(db, w.video, s.transcript);
    if s.ok && r.Some? then (r.value, w.(transcript := s.transcript, at := Split)) else (db, Failing(w))
  }

  function DoInsertChunks(db: Db, w: Worker, s: Supply): (Db, Worker)
    requires w.Busy?
  {
    var sections := Chunker.Sections(w.transcript.content);
    if sections == [] then (db, w.(vectors := [], at := CompleteJob))
    else if !s.ok || |s.vectors| != |sections| then (db, Failing(w))
    else
      var r := Sql.InsertChunks(db, ChunkRows(w.video, w.row.tenant, sections, s.vectors));
      if r.Some? then (r.value, w.(vectors := s.vectors, at := CompleteJob)) else (db, Failing(w))
  }

  function DoCompleteJob(db: Db, w: Worker, s: Supply): (Db, Worker)
    requires w.Busy?
  {
    var r := Sql.UpdateJobStatus(db, w.job, w.row.tenant, Completed, Finished, None, s.now);
    if s.ok && r.Some? then (r.value, w.(at := CompleteVideo)) else (db, Failing(w))
  }

  function DoCompleteVideo(db: Db, w: Worker, s: Supply): (Db, Worker)
    requires w.Busy?
  {
    var r := Sql.UpdateVideoStatus(db, w.video, w.row.tenant, VideoCompleted);
    if s.ok && r.Some? then (r.value, w.(at := Summarize)) else (db, Failing(w))
  }

  /** The summary never fails the job: whatever happens, the run is over. */
  function DoSummarize(db: Db, w: Worker, s: Supply): (Db, Worker)
    requires w.Busy?
  {
    var r := Sql.UpsertSummary(db, w.video, SummaryRow(s.summary, w.transcript.language));
    (if w.transcript.content != "" && s.ok && r.Some? then r.value else db, Idle)
  }

  function DoFailJob(db: Db, w: Worker, s: Supply): (Db, Worker)
    requires w.Busy?
  {
    var r := Sql.UpdateJobStatus(db, w.job, w.row.tenant, Failed, w.row.stage, Some(s.message), s.now);
    (if s.ok && r.Some? then r.value else db, w.(at := FailVideo))
  }

  function DoFailVideo(db: Db, w: Worker, s: Supply): (Db, Worker)
    requires w.Busy?
  {
    (if s.ok then Sql.FailVideoByJobID(db, w.job, w.row.tenant) else db, Idle)
  }

  /** One statement of a busy worker. */
  ghost function Step(db: Db, loc: Locale, w: Worker, s: Supply): (Db, Worker)
    requires w.Busy?
  {
    match w.at
    case Load => DoLoad(db, w, s)
    case Cleanup => DoCleanup(db, w, s)
    case Insert => DoInsert(db, w, s)
    case ListNames => DoListNames(db, loc, w, s)
    case Ensure => DoEnsure(db, loc, w, s)
    case Attach => DoAttach(db, w, s)
    case Download => SetStage(db, w, Downloading, Recognize, s)
    case Recognize => SetStage(db, w, RecognizeStage(w.row.kind), Store, s)
    case Store => DoStore(db, w, s)
    case Split => SetStage(db, w, Chunking, Embed, s)
    case Embed => SetStage(db, w, Embedding, InsertChunks, s)
    case InsertChunks => DoInsertChunks(db, w, s)
    case CompleteJob => DoCompleteJob(db, w, s)
    case CompleteVideo => DoCompleteVideo(db, w, s)
    case Summarize => DoSummarize(db, w, s)
    case FailJob => DoFailJob(db, w, s)
    case FailVideo => DoFailVideo(db, w, s)
  }
}
