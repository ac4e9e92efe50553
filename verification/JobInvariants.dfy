/** What holds of the tables and of each worker at every moment, split into facts about
    all rows, about one job, and about one worker, with what leaves each untouched. */
module JobInvariants {
  import opened Wrappers
  import opened Tables
  import opened Pipeline
  import Chunker

  // ---- facts about all rows

  /** The columns of a job row that are never updated. */
  predicate SameOrigin(a: Job, b: Job) {
    a.tenant == b.tenant && a.intent == b.intent && a.fileKey == b.fileKey &&
    a.title == b.title && a.kind == b.kind && a.createdAt == b.createdAt
  }

  /** A job descends from a consumed intent of its tenant, file key and kind. */
  predicate Backed(db: Db, j: Id)
    requires j in db.jobs
  {
    var row := db.jobs[j];
    row.intent in db.intents &&
    var i := db.intents[row.intent];
    i.status == Consumed && i.tenant == row.tenant && i.fileKey == row.fileKey
    && KindOf(i.contentType) == Some(row.kind)
  }

  /** Consumed intents and jobs match one to one. */
  ghost predicate IntentsMatchJobs(db: Db) {
    && (forall j | j in db.jobs :: Backed(db, j))
    && (forall j, k | j in db.jobs && k in db.jobs && db.jobs[j].intent == db.jobs[k].intent :: j == k)
    && (forall i | i in db.intents && db.intents[i].status == Consumed :: HasJob(db, i))
    && (forall i, k | i in db.intents && k in db.intents && db.intents[i].fileKey == db.intents[k].fileKey :: i == k)
  }

  ghost predicate HasJob(db: Db, i: Id) {
    exists j :: j in db.jobs && db.jobs[j].intent == i
  }

  /** UNIQUE(tenant_id, lower(name)) on segments. */
  ghost predicate SegmentsUnique(db: Db, loc: Locale) {
    forall a, b | a in db.segments && b in db.segments && db.segments[a].tenant == db.segments[b].tenant
                  && loc.lower(db.segments[a].name) == loc.lower(db.segments[b].name) :: a == b
  }

  ghost predicate LinksOk(db: Db) {
    && db.jobSegments.Keys <= db.jobs.Keys
    && forall j, s | j in db.jobSegments && s in db.jobSegments[j] ::
         s in db.segments && db.segments[s].tenant == db.jobs[j].tenant
  }

  /** A video carries its job's tenant, title, kind and file key. */
  predicate VideoMatches(db: Db, v: Id)
    requires v in db.videos
  {
    var video := db.videos[v];
    video.job in db.jobs &&
    var row := db.jobs[video.job];
    video.tenant == row.tenant && video.title == row.title && video.kind == row.kind && video.fileKey == row.fileKey
  }

  /** Every video matches its job, and no job has two. */
  ghost predicate VideosOk(db: Db) {
    && (forall v | v in db.videos :: VideoMatches(db, v))
    && (forall u, v | u in db.videos && v in db.videos && db.videos[u].job == db.videos[v].job :: u == v)
  }

  predicate ChildrenOk(db: Db) {
    db.videoSegments.Keys <= db.videos.Keys && db.transcripts.Keys <= db.videos.Keys &&
    db.chunks.Keys <= db.videos.Keys && db.summaries.Keys <= db.videos.Keys
  }

  ghost predicate TablesOk(db: Db, loc: Locale) {
    IntentsMatchJobs(db) && SegmentsUnique(db, loc) && LinksOk(db) && VideosOk(db) && ChildrenOk(db)
  }

  // ---- facts about one job

  /** The chunk rows of a document: index i holds section i. */
  ghost predicate HoldsSections(chunks: map<nat, Chunk>, tenant: Id, sections: seq<string>) {
    && (forall i: nat :: i in chunks <==> i < |sections|)
    && (forall i | 0 <= i < |sections| :: chunks[i].content == sections[i] && chunks[i].tenant == tenant)
  }

  /** The video has its transcript, exactly the chunks of it, and its job's segments. */
  ghost predicate Ingested(db: Db, v: Id) {
    && v in db.videos && v in db.transcripts
    && HoldsSections(ChunksOf(db, v), db.videos[v].tenant, Chunker.Sections(db.transcripts[v].content))
    && SegsOfVideo(db, v) == SegsOfJob(db, db.videos[v].job)
  }

  ghost predicate NoneCompleted(db: Db, j: Id) {
    forall v | v in db.videos && db.videos[v].job == j :: db.videos[v].status != VideoCompleted
  }

  /** finished_at is set exactly while final, started_at is unset exactly while pending. */
  predicate TimesOk(row: Job) {
    (row.finishedAt.Some? <==> Final(row.status)) && (row.startedAt.None? <==> row.status == Pending)
  }

  ghost predicate HasIngested(db: Db, j: Id) {
    exists v :: v in db.videos && db.videos[v].job == j && Ingested(db, v)
  }

  ghost predicate JobOk(db: Db, j: Id) {
    && j in db.jobs && TimesOk(db.jobs[j])
    && (db.jobs[j].status == Completed ==> HasIngested(db, j))
    && (db.jobs[j].status != Completed ==> NoneCompleted(db, j))
  }

  // ---- facts about one worker

  /** How far a point is in the program. */
  function Rank(p: Point): nat {
    match p
    case Load => 0 case Cleanup => 1 case Insert => 2 case ListNames => 3 case Ensure => 4
    case Attach => 5 case Download => 6 case Recognize => 7 case Store => 8 case Split => 9
    case Embed => 10 case InsertChunks => 11 case CompleteJob => 12 case CompleteVideo => 13
    case Summarize => 14 case FailJob => 15 case FailVideo => 16
  }

  /** From the claim until `run` returns or `fail` has written the job row. */
  predicate Inside(w: Worker) {
    w.Busy? && w.at != FailVideo
  }

  predicate StatusFits(p: Point, status: JobStatus) {
    if Rank(p) <= 12 then status == Processing
    else if Rank(p) <= 14 then status == Completed
    else p == FailJob ==> status == Processing || status == Completed
  }

  /** The chunk rows the worker inserts. */
  function WorkerChunks(w: Worker): map<nat, Chunk>
    requires w.Busy? && |w.vectors| == |Chunker.Sections(w.transcript.content)|
  {
    var sections := Chunker.Sections(w.transcript.content);
    map i: nat | i < |sections| :: Chunk(w.row.tenant, sections[i], w.vectors[i])
  }

  /** The worker's video exists and holds exactly what the program has written so far. */
  ghost predicate Progress(db: Db, loc: Locale, w: Worker)
    requires w.Busy?
  {
    var r, v := Rank(w.at), w.video;
    && v in db.videos && db.videos[v].job == w.job
    && (r <= 13 ==> db.videos[v].status != VideoCompleted)
    && (4 <= r <= 5 ==> NamesOk(db, loc, w))
    && (r == 5 ==> |w.segments| == |w.names|)
    && SegsOfVideo(db, v) == (if r <= 5 then {} else SegsOfJob(db, w.job))
    && Lookup(db.transcripts, v) == (if r <= 8 then None else Some(w.transcript))
    && (r <= 11 ==> ChunksOf(db, v) == map[])
    && (r >= 12 ==> |w.vectors| == |Chunker.Sections(w.transcript.content)| && ChunksOf(db, v) == WorkerChunks(w))
    && v !in db.summaries
  }

  /** The listed names are those of the job's segments, and the ids ensured so far are
      the job's segments of those names. */
  ghost predicate NamesOk(db: Db, loc: Locale, w: Worker)
    requires w.Busy?
  {
    var segs := SegsOfJob(db, w.job);
    && |w.segments| <= |w.names|
    && (forall s | s in segs :: s in db.segments && db.segments[s].name in w.names)
    && (forall k | 0 <= k < |w.names| :: NamesOne(db, segs, w.names[k]))
    && (forall k | 0 <= k < |w.segments| :: w.segments[k] in segs && db.segments[w.segments[k]].name == w.names[k])
  }

  ghost predicate NamesOne(db: Db, segs: set<Id>, name: string) {
    exists s :: s in segs && s in db.segments && db.segments[s].name == name
  }

  ghost predicate WorkerOk(db: Db, loc: Locale, w: Worker) {
    w.Busy? ==>
      && w.job in db.jobs && SameOrigin(w.row, db.jobs[w.job])
      && StatusFits(w.at, db.jobs[w.job].status)
      && (w.at == Insert ==> VideosOf(db, w.job) == {})
      && (3 <= Rank(w.at) <= 14 ==> Progress(db, loc, w))
      && (w.at == FailJob ==> NoneCompleted(db, w.job))
  }

  // ---- what leaves a job untouched

  predicate SameVideo(db: Db, db2: Db, v: Id) {
    && v in db.videos && v in db2.videos && db2.videos[v] == db.videos[v]
    && SegsOfVideo(db2, v) == SegsOfVideo(db, v) && ChunksOf(db2, v) == ChunksOf(db, v)
    && Lookup(db2.transcripts, v) == Lookup(db.transcripts, v)
    && Lookup(db2.summaries, v) == Lookup(db.summaries, v)
  }

  /** All rows that belong to job j are the same. */
  ghost predicate Untouched(db: Db, db2: Db, j: Id) {
    && j in db.jobs && j in db2.jobs && db2.jobs[j] == db.jobs[j]
    && SegsOfJob(db2, j) == SegsOfJob(db, j)
    && (forall v | v in db.videos && db.videos[v].job == j :: SameVideo(db, db2, v))
    && (forall v | v in db2.videos && db2.videos[v].job == j :: v in db.videos && db.videos[v].job == j)
  }

  ghost predicate SegmentsKept(db: Db, db2: Db) {
    forall s | s in db.segments :: s in db2.segments && db2.segments[s] == db.segments[s]
  }

  lemma JobKept(db: Db, db2: Db, j: Id)
    requires JobOk(db, j) && Untouched(db, db2, j)
    ensures JobOk(db2, j)
  {
    if db.jobs[j].status == Completed {
      var v :| v in db.videos && db.videos[v].job == j && Ingested(db, v);
      assert SameVideo(db, db2, v);
      assert Ingested(db2, v);
    }
  }

  lemma WorkerKept(db: Db, db2: Db, loc: Locale, w: Worker)
    requires w.Busy? && Untouched(db, db2, w.job) && SegmentsKept(db, db2) && LinksOk(db)
    requires WorkerOk(db, loc, w)
    ensures WorkerOk(db2, loc, w)
  {
    var segs := SegsOfJob(db, w.job);
    if 3 <= Rank(w.at) <= 14 {
      assert SameVideo(db, db2, w.video);
      if 4 <= Rank(w.at) <= 5 {
        forall k | 0 <= k < |w.names| ensures NamesOne(db2, segs, w.names[k]) {
          assert NamesOne(db, segs, w.names[k]);
        }
      }
    }
    if w.at == Insert {
      assert VideosOf(db2, w.job) == {};
    }
  }

  /** A worker that gives up is ready to fail its job. */
  lemma GivingUpIsOk(db: Db, loc: Locale, w: Worker)
    requires w.Busy? && Rank(w.at) <= 13 && WorkerOk(db, loc, w) && JobOk(db, w.job) && VideosOk(db)
    ensures WorkerOk(db, loc, Failing(w))
  {
  }

  // ---- the kinds of change a statement makes

  /** The jobs are the same up to their updatable columns. */
  ghost predicate SameJobs(db: Db, db2: Db) {
    && db2.jobs.Keys == db.jobs.Keys
    && forall j | j in db.jobs :: SameOrigin(db2.jobs[j], db.jobs[j])
  }

  /** The videos are the same up to status and deletion mark. */
  ghost predicate SameVideos(db: Db, db2: Db) {
    && db2.videos.Keys == db.videos.Keys
    && forall v | v in db.videos ::
         db2.videos[v] == db.videos[v].(status := db2.videos[v].status, deletedAt := db2.videos[v].deletedAt)
  }

  lemma IntentsFrame(db: Db, db2: Db)
    requires IntentsMatchJobs(db) && SameJobs(db, db2) && db2.intents == db.intents
    ensures IntentsMatchJobs(db2)
  {
    forall i | i in db2.intents && db2.intents[i].status == Consumed ensures HasJob(db2, i) {
      assert HasJob(db, i);
      var k :| k in db.jobs && db.jobs[k].intent == i;
      assert k in db2.jobs && SameOrigin(db2.jobs[k], db.jobs[k]);
    }
    forall j | j in db2.jobs ensures Backed(db2, j) {
      assert Backed(db, j) && SameOrigin(db2.jobs[j], db.jobs[j]);
    }
    forall j, k | j in db2.jobs && k in db2.jobs && db2.jobs[j].intent == db2.jobs[k].intent ensures j == k {
      assert SameOrigin(db2.jobs[j], db.jobs[j]) && SameOrigin(db2.jobs[k], db.jobs[k]);
    }
  }

  lemma VideosFrame(db: Db, db2: Db)
    requires VideosOk(db) && SameJobs(db, db2) && SameVideos(db, db2)
    ensures VideosOk(db2)
  {
    forall v | v in db2.videos ensures VideoMatches(db2, v) {
      assert VideoMatches(db, v) && SameOrigin(db2.jobs[db.videos[v].job], db.jobs[db.videos[v].job]);
    }
    forall u, v | u in db2.videos && v in db2.videos && db2.videos[u].job == db2.videos[v].job ensures u == v {
      assert db.videos[u].job == db.videos[v].job;
    }
  }

  lemma LinksFrame(db: Db, db2: Db)
    requires LinksOk(db) && SameJobs(db, db2) && SegmentsKept(db, db2) && db2.jobSegments == db.jobSegments
    ensures LinksOk(db2)
  {
    forall j, s | j in db2.jobSegments && s in db2.jobSegments[j]
      ensures s in db2.segments && db2.segments[s].tenant == db2.jobs[j].tenant
    {
      assert s in db.segments && SameOrigin(db2.jobs[j], db.jobs[j]);
    }
  }

  /** Statements that touch no intent, link or segment, create no row of jobs or videos,
      and keep every video's identity, leave the facts about all rows standing. */
  lemma TablesFrame(db: Db, db2: Db, loc: Locale)
    requires TablesOk(db, loc) && SameJobs(db, db2) && SameVideos(db, db2) && ChildrenOk(db2)
    requires db2.intents == db.intents && db2.jobSegments == db.jobSegments && db2.segments == db.segments
    ensures TablesOk(db2, loc)
  {
    IntentsFrame(db, db2);
    VideosFrame(db, db2);
    LinksFrame(db, db2);
  }

  lemma JobRowIsLocal(db: Db, db2: Db, j: Id, row: Job)
    requires j in db.jobs && SameOrigin(row, db.jobs[j]) && db2 == db.(jobs := db.jobs[j := row])
    ensures SameJobs(db, db2) && SameVideos(db, db2)
    ensures forall k | k in db.jobs && k != j :: Untouched(db, db2, k)
  {
  }

  lemma VideoRowIsLocal(db: Db, db2: Db, v: Id, row: Video)
    requires v in db.videos && row == db.videos[v].(status := row.status, deletedAt := row.deletedAt)
    requires db2 == db.(videos := db.videos[v := row])
    ensures SameJobs(db, db2) && SameVideos(db, db2)
    ensures forall k | k in db.jobs && k != db.videos[v].job :: Untouched(db, db2, k)
  {
  }

  /** Only rows that hang on one existing video change. */
  ghost predicate OnlyChildrenOf(db: Db, db2: Db, v: Id) {
    && v in db.videos
    && db2 == db.(videoSegments := db2.videoSegments, transcripts := db2.transcripts,
                  chunks := db2.chunks, summaries := db2.summaries)
    && ChildrenOk(db2)
    && forall u | u in db.videos && u != v :: SameVideo(db, db2, u)
  }

  lemma ChildrenAreLocal(db: Db, db2: Db, v: Id)
    requires OnlyChildrenOf(db, db2, v)
    ensures SameJobs(db, db2) && SameVideos(db, db2)
    ensures forall k | k in db.jobs && k != db.videos[v].job :: Untouched(db, db2, k)
  {
  }
}
