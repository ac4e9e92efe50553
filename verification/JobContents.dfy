/** What hangs on a video, action by action: its transcript, its chunks, its summary and its
    segments are exactly what the worker that made it was given from outside. */
module JobContents {
  import opened Wrappers
  import opened Tables
  import opened Pipeline
  import opened JobInvariants
  import opened JobSystem
  import opened JobSteps
  import opened JobInductive
  import opened JobAgreement
  import Chunker
  import JobIntake
  import JobVideos
  import Sql

  datatype Content = Content(transcript: Option<Transcript>, chunks: map<nat, Chunk>, summary: Option<Summary>,
                             segments: set<Id>)

  function ContentOf(db: Db, v: Id): Content {
    Content(Lookup(db.transcripts, v), ChunksOf(db, v), Lookup(db.summaries, v), SegsOfVideo(db, v))
  }

  const NO_CONTENT := Content(None, map[], None, {})

  /** The content of a video after a worker got through to the database. */
  function ContentWritten(db: Db, w: Worker, s: Supply, v: Id): Content
    requires w.Busy? && w.job in db.jobs
  {
    var before, sections := ContentOf(db, v), Chunker.Sections(w.transcript.content);
    match w.at
    case Cleanup => if v in db.videos && db.videos[v].job == w.job then NO_CONTENT else before
    case Attach => if v == w.video then before.(segments := SegsOfJob(db, w.job)) else before
    case Store => if v == w.video then before.(transcript := Some(s.transcript)) else before
    case InsertChunks =>
      if v == w.video && |s.vectors| == |sections| then
        before.(chunks := map i: nat | i < |sections| :: Chunk(db.jobs[w.job].tenant, sections[i], s.vectors[i]))
      else before
    case Summarize =>
      if v == w.video && w.transcript.content != "" then
        before.(summary := Some(
          if s.summary.Some? then
            Summary(SummaryCompleted, s.summary, w.transcript.language, Some("deepseek"), None)
          else Summary(SummaryFailed, None, None, None, Some("summary generation failed"))))
      else before
    case _ => before
  }

  // ---- the statements

  lemma CleanupContent(db: Db, w: Worker, s: Supply, v: Id)
    requires w.Busy? && w.at == Cleanup && JobVideos.OwnVideos(db, w)
    ensures ContentOf(DoCleanup(db, w, s).0, v) == if s.ok then ContentWritten(db, w, s, v) else ContentOf(db, v)
  {
  }

  lemma AttachContent(db: Db, loc: Locale, w: Worker, s: Supply, v: Id)
    requires Ready(db, loc, w) && w.at == Attach && w.job in db.jobs
    ensures ContentOf(DoAttach(db, w, s).0, v) == if s.ok then ContentWritten(db, w, s, v) else ContentOf(db, v)
  {
    hide IntentsMatchJobs, VideosOk, JobOk;
    if s.ok {
      AllEnsured(db, loc, w);
      AttachAll(db, w.video, w.segments);
      hide Sql.AttachVideoSegments, NamesOk;
    }
  }

  lemma StoreContent(db: Db, w: Worker, s: Supply, v: Id)
    requires w.Busy? && w.at == Store && w.job in db.jobs && w.video in db.videos
    ensures ContentOf(DoStore(db, w, s).0, v) == if s.ok then ContentWritten(db, w, s, v) else ContentOf(db, v)
  {
  }

  lemma ChunksContent(db: Db, w: Worker, s: Supply, v: Id)
    requires w.Busy? && w.at == InsertChunks && w.job in db.jobs && w.video in db.videos
    requires ChunksOf(db, w.video) == map[] && w.row.tenant == db.jobs[w.job].tenant
    ensures ContentOf(DoInsertChunks(db, w, s).0, v) ==
            if s.ok then ContentWritten(db, w, s, v) else ContentOf(db, v)
  {
    var sections := Chunker.Sections(w.transcript.content);
    hide Chunker.Sections;
    if s.ok && |s.vectors| == |sections| {
      var rows := ChunkRows(w.video, w.row.tenant, sections, s.vectors);
      InsertAll(db, w.video, rows);
      hide Sql.InsertChunks;
    }
  }

  lemma SummaryContent(db: Db, w: Worker, s: Supply, v: Id)
    requires w.Busy? && w.at == Summarize && w.job in db.jobs && w.video in db.videos
    ensures ContentOf(DoSummarize(db, w, s).0, v) == if s.ok then ContentWritten(db, w, s, v) else ContentOf(db, v)
  {
  }

  lemma OthersKeepContent(db: Db, loc: Locale, w: Worker, s: Supply, v: Id)
    requires w.Busy? && w.job in db.jobs && w.at != Cleanup && w.at != Attach && w.at != Store && w.at != InsertChunks
    requires w.at != Summarize
    ensures ContentOf(Step(db, loc, w, s).0, v) == ContentOf(db, v) == ContentWritten(db, w, s, v)
  {
    hide Sql.UpdatedRow, Sql.EnsuredSegment, ListNamesByJob, Chunker.Sections;
  }

  lemma OfInside(db: Db, loc: Locale, w: Worker)
    requires Ready(db, loc, w) && 3 <= Rank(w.at) <= 14
    ensures w.video in db.videos && (w.at == InsertChunks ==> ChunksOf(db, w.video) == map[])
    ensures w.job in db.jobs && w.row.tenant == db.jobs[w.job].tenant
  {
    hide TablesOk, JobOk;
  }

  /** After every statement of a worker each video's content is the record of what was there
      and of what the worker was given. */
  lemma ContentRecordedExactly(s: State, loc: Locale, i: nat, supply: Supply, v: Id)
    requires Inv(s, loc) && i < |s.workers| && s.workers[i].Busy?
    ensures s.workers[i].job in s.db.jobs
    ensures ContentOf(AfterWork(s, loc, i, supply).db, v) ==
            if supply.ok then ContentWritten(s.db, s.workers[i], supply, v) else ContentOf(s.db, v)
  {
    hide CoreOk, ClaimsOk, AfterWork, Ready;
    var w, sup := s.workers[i], supply.(now := s.now);
    JobVideos.VideosAreOwn(s, loc, i);
    JobVideos.OwnJob(s.db, w);
    WorkResult(s, loc, i, supply);
    SameWritten(s.db, w, supply, s.now, v);
    if Inside(w) {
      InsideJob(s, loc, i);
    }
    hide ContentWritten, ContentOf, JobVideos.OwnVideos, DoCleanup, DoAttach, DoStore, DoInsertChunks, DoSummarize;
    match w.at
    case Cleanup => CleanupContent(s.db, w, sup, v);
    case Attach => AttachContent(s.db, loc, w, sup, v);
    case Store =>
      OfInside(s.db, loc, w);
      StoreContent(s.db, w, sup, v);
    case InsertChunks =>
      OfInside(s.db, loc, w);
      ChunksContent(s.db, w, sup, v);
    case Summarize =>
      OfInside(s.db, loc, w);
      SummaryContent(s.db, w, sup, v);
    case _ => OthersKeepContent(s.db, loc, w, sup, v);
  }

  lemma SameWritten(db: Db, w: Worker, s: Supply, now: Time, v: Id)
    requires w.Busy? && w.job in db.jobs
    ensures ContentWritten(db, w, s.(now := now), v) == ContentWritten(db, w, s, v)
  {
    hide Chunker.Sections;
  }

  /** Nobody but workers touches the content of a video. */
  lemma ClientsKeepContent(s: State, loc: Locale, a: Action, v: Id)
    requires Inv(s, loc) && !a.Work?
    ensures ContentOf(Apply(s, loc, a).db, v) == ContentOf(s.db, v)
  {
    hide CoreOk, ClaimsOk, AfterIntent, AfterCreate, AfterClaim, AfterRetry, AfterSoftDelete;
    match a
    case CreateIntent(id, tenant, fileKey, contentType, expiresAt) =>
      IntentKeepsContent(s, id, tenant, fileKey, contentType, expiresAt, v);
    case Create(req, draw) => RequestKeepsContent(s, loc, req, draw, v);
    case Claim(i, k) => ClaimKeepsContent(s, i, k, v);
    case Die(i) =>
    case Retry(k, tenant) => RetryKeepsContent(s, k, tenant, v);
    case SoftDelete(u, tenant) => DeletionKeepsContent(s, u, tenant, v);
    case Tick(elapsed) =>
  }

  lemma IntentKeepsContent(s: State, id: Id, tenant: Id, fileKey: string, contentType: string, expiresAt: Time, v: Id)
    ensures ContentOf(AfterIntent(s, id, tenant, fileKey, contentType, expiresAt).db, v) == ContentOf(s.db, v)
  {
    hide KindOf;
  }

  lemma RequestKeepsContent(s: State, loc: Locale, req: JobIntake.JobRequest, draw: JobIntake.Draw, v: Id)
    requires Inv(s, loc)
    ensures ContentOf(AfterCreate(s, loc, req, draw).db, v) == ContentOf(s.db, v)
  {
    TablesParts(s.db, loc);
    hide CoreOk, ClaimsOk, TablesOk, JobIntake.CreateJob, JobIntake.NamedSo, SegmentsUnique, SegmentsKept;
    var d, s2 := draw.(now := s.now), AfterCreate(s, loc, req, draw);
    if |draw.segmentIds| == |req.segments| && JobIntake.CreateJob(s.db, loc, req, d).Success? {
      var i, ids := JobIntake.CreatedJob(s.db, s2.db, loc, req, d);
    }
  }

  lemma ClaimKeepsContent(s: State, i: nat, k: Id, v: Id)
    ensures ContentOf(AfterClaim(s, i, k).db, v) == ContentOf(s.db, v)
  {
  }

  lemma RetryKeepsContent(s: State, k: Id, tenant: Id, v: Id)
    ensures ContentOf(AfterRetry(s, k, tenant).db, v) == ContentOf(s.db, v)
  {
  }

  lemma DeletionKeepsContent(s: State, u: Id, tenant: Id, v: Id)
    ensures ContentOf(AfterSoftDelete(s, u, tenant).db, v) == ContentOf(s.db, v)
  {
  }
}
