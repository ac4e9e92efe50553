/** What holds in every run of the job system: any number of workers, creates, retries,
    soft deletes and deaths, interleaved in any way, from an empty database. */
module JobTheorems {
  import opened Wrappers
  import opened Tables
  import opened Pipeline
  import opened JobInvariants
  import opened JobSystem
  import opened JobSteps
  import opened JobInductive
  import opened JobAgreement
  import opened JobProgress
  import JobIntake
  import Chunker
  import Sql

  // ---- one run per job

  /** No job is inside two runs, and one that is pending or failed is inside none. */
  lemma OneRunPerJob(s: State, loc: Locale)
    requires Reachable(s, loc)
    ensures Exclusive(s.workers)
    ensures forall i | 0 <= i < |s.workers| && Inside(s.workers[i]) ::
              var j := s.workers[i].job;
              j in s.db.jobs && s.db.jobs[j].status != Pending && s.db.jobs[j].status != Failed
  {
    ReachableInv(s, loc);
    hide TablesOk, JobsOk, ClaimsOk, WorkerOk, Exclusive, Reachable, Inside;
    forall i | 0 <= i < |s.workers| && Inside(s.workers[i])
      ensures var j := s.workers[i].job;
              j in s.db.jobs && s.db.jobs[j].status != Pending && s.db.jobs[j].status != Failed
    {
      InsideStatus(s.db, loc, s.workers[i]);
    }
  }

  lemma InsideStatus(db: Db, loc: Locale, w: Worker)
    requires Inside(w) && WorkerOk(db, loc, w)
    ensures w.job in db.jobs && db.jobs[w.job].status != Pending && db.jobs[w.job].status != Failed
  {
    hide Progress, NoneCompleted, SameOrigin;
  }

  // ---- one video per job

  /** A job has at most one video, which carries its tenant, title, kind and file key. */
  lemma OneVideoPerJob(s: State, loc: Locale)
    requires Reachable(s, loc)
    ensures forall v | v in s.db.videos :: VideoMatches(s.db, v)
    ensures forall u, v | u in s.db.videos && v in s.db.videos
                          && (s.db.videos[u].job == s.db.videos[v].job
                              || s.db.videos[u].fileKey == s.db.videos[v].fileKey) ::
              u == v
  {
    ReachableInv(s, loc);
    VideosOfTables(s.db, loc);
    TablesParts(s.db, loc);
    hide Reachable, CoreOk, ClaimsOk;
    forall u, v | u in s.db.videos && v in s.db.videos && s.db.videos[u].fileKey == s.db.videos[v].fileKey
      ensures s.db.videos[u].job == s.db.videos[v].job
    {
      assert VideoMatches(s.db, u) && VideoMatches(s.db, v);
      SameKeySameJob(s.db, s.db.videos[u].job, s.db.videos[v].job);
    }
  }

  /** Whenever a worker is about to insert its video, neither UNIQUE(job_id) nor
      UNIQUE(file_key) refuses it, and no statement of a run is refused at all when the
      new id is fresh and the outside services answer. */
  lemma RunsAreNeverRefused(s: State, loc: Locale, i: nat, supply: Supply)
    requires Reachable(s, loc) && i < |s.workers| && Inside(s.workers[i]) && s.workers[i].at != FailJob
    ensures s.workers[i].at == Insert ==>
              !Sql.VideoConflict(s.db, NewVideo(s.workers[i].job, s.workers[i].row))
    ensures Favourable(s.db, s.workers[i], supply) ==> Advances(s.workers[i], Step(s.db, loc, s.workers[i], supply).1)
  {
    ReachableInv(s, loc);
    InsideJob(s, loc, i);
    hide Reachable, CoreOk, ClaimsOk, Ready, Favourable, Advances;
    if s.workers[i].at == Insert {
      InsertNeverConflicts(s.db, loc, s.workers[i]);
    }
    if Favourable(s.db, s.workers[i], supply) {
      NeverRefused(s.db, loc, s.workers[i], supply);
    }
  }

  // ---- what is searchable is whole

  /** A completed video has its transcript, exactly the sections of it as chunks, and its
      job's segments; its job is completed. */
  lemma CompletedIsIngested(s: State, loc: Locale, v: Id)
    requires Reachable(s, loc) && v in s.db.videos && s.db.videos[v].status == VideoCompleted
    ensures Ingested(s.db, v)
    ensures s.db.videos[v].job in s.db.jobs && s.db.jobs[s.db.videos[v].job].status == Completed
  {
    ReachableInv(s, loc);
    CompletedVideo(s, loc, v);
  }

  lemma CompletedVideo(s: State, loc: Locale, v: Id)
    requires CoreOk(s, loc) && v in s.db.videos && s.db.videos[v].status == VideoCompleted
    ensures Ingested(s.db, v)
    ensures s.db.videos[v].job in s.db.jobs && s.db.jobs[s.db.videos[v].job].status == Completed
  {
    VideosOfTables(s.db, loc);
    hide TablesOk, WorkersOk, Ingested;
    assert VideoMatches(s.db, v);
    assert JobOk(s.db, s.db.videos[v].job);
  }

  /** A search result belongs to a completed job, holds its section of the stored
      transcript, and comes with every other section of that transcript. */
  lemma SearchIsWhole(s: State, loc: Locale, tenant: Id, segment: Option<string>, v: Id, i: nat)
    requires Reachable(s, loc) && (v, i) in Sql.SearchChunks(s.db, loc, tenant, segment)
    ensures v in s.db.videos && v in s.db.transcripts && s.db.videos[v].job in s.db.jobs
    ensures s.db.jobs[s.db.videos[v].job].status == Completed
    ensures var sections := Chunker.Sections(s.db.transcripts[v].content);
            && i < |sections| && s.db.chunks[v][i].content == sections[i]
            && forall k: nat :: k < |sections| <==> (v, k) in Sql.SearchChunks(s.db, loc, tenant, segment)
  {
    CompletedIsIngested(s, loc, v);
    SearchOfIngested(s.db, loc, tenant, segment, v, i);
  }

  lemma SearchOfIngested(db: Db, loc: Locale, tenant: Id, segment: Option<string>, v: Id, i: nat)
    requires (v, i) in Sql.SearchChunks(db, loc, tenant, segment) && Ingested(db, v)
    ensures var sections := Chunker.Sections(db.transcripts[v].content);
            && i < |sections| && db.chunks[v][i].content == sections[i]
            && forall k: nat :: k < |sections| <==> (v, k) in Sql.SearchChunks(db, loc, tenant, segment)
  {
  }

  /** The job is done for good: no worker is left that could fail it. */
  ghost predicate Settled(s: State, j: Id) {
    j in s.db.jobs && s.db.jobs[j].status == Completed && !Completing(s.workers, j)
  }

  /** What a search reads of a video. */
  ghost predicate SameContent(db: Db, db2: Db, v: Id) {
    && v in db.videos && v in db2.videos && db2.videos[v].job == db.videos[v].job
    && Lookup(db2.transcripts, v) == Lookup(db.transcripts, v)
    && ChunksOf(db2, v) == ChunksOf(db, v) && SegsOfVideo(db2, v) == SegsOfVideo(db, v)
  }

  lemma CompletedIsSettled(s: State, loc: Locale, v: Id)
    requires CoreOk(s, loc) && v in s.db.videos && s.db.videos[v].status == VideoCompleted
    ensures Settled(s, s.db.videos[v].job)
  {
    CompletedVideo(s, loc, v);
    VideosOfTables(s.db, loc);
    NoneCompleting(s, loc, v);
  }

  lemma NoneCompleting(s: State, loc: Locale, v: Id)
    requires WorkersOk(s.db, loc, s.workers) && VideosOk(s.db)
    requires v in s.db.videos && s.db.videos[v].status == VideoCompleted
    ensures !Completing(s.workers, s.db.videos[v].job)
  {
    hide WorkerOk, VideosOk;
    forall i | 0 <= i < |s.workers| && s.workers[i].Busy? && s.workers[i].job == s.db.videos[v].job
      ensures !CompletingHere(s.workers[i])
    {
      NotCompleting(s.db, loc, s.workers[i], v);
    }
  }

  lemma NotCompleting(db: Db, loc: Locale, w: Worker, v: Id)
    requires w.Busy? && VideosOk(db) && v in db.videos && db.videos[v].job == w.job
    requires db.videos[v].status == VideoCompleted && WorkerOk(db, loc, w)
    ensures !CompletingHere(w)
  {
  }

  lemma ContentOfUntouched(db: Db, db2: Db, j: Id, v: Id)
    requires Untouched(db, db2, j) && v in db.videos && db.videos[v].job == j
    ensures SameContent(db, db2, v) && j in db2.jobs && db2.jobs[j] == db.jobs[j]
  {
    assert SameVideo(db, db2, v);
  }

  lemma PointsWhenSettled(db: Db, loc: Locale, w: Worker)
    requires w.Busy? && WorkerOk(db, loc, w) && db.jobs[w.job].status == Completed && !CompletingHere(w)
    ensures w.at == Summarize || w.at == FailVideo
  {
  }

  lemma SummaryKeepsContent(db: Db, w: Worker, s: Supply, v: Id)
    requires w.Busy? && v in db.videos
    ensures var (db2, w2) := DoSummarize(db, w, s);
            SameContent(db, db2, v) && db2.jobs == db.jobs && w2 == Idle
  {
    if Sql.UpsertSummary(db, w.video, SummaryRow(s.summary, w.transcript.language)).Some? {
    }
  }

  lemma FailVideoKeepsContent(db: Db, w: Worker, s: Supply, v: Id)
    requires w.Busy? && v in db.videos
    ensures var (db2, w2) := DoFailVideo(db, w, s);
            SameContent(db, db2, v) && db2.jobs == db.jobs && w2 == Idle
  {
  }

  lemma LastWritesKeepContent(db: Db, loc: Locale, w: Worker, s: Supply, v: Id)
    requires w.Busy? && (w.at == Summarize || w.at == FailVideo) && v in db.videos
    ensures var (db2, w2) := Step(db, loc, w, s);
            SameContent(db, db2, v) && db2.jobs == db.jobs && w2 == Idle
  {
    SummaryKeepsContent(db, w, s, v);
    FailVideoKeepsContent(db, w, s, v);
    hide DoSummarize, DoFailVideo, SameContent;
  }

  lemma WorkKeepsSettled(s: State, loc: Locale, i: nat, supply: Supply, j: Id, v: Id)
    requires CoreOk(s, loc) && Settled(s, j) && v in s.db.videos && s.db.videos[v].job == j
    requires i < |s.workers| && s.workers[i].Busy?
    ensures var s2 := Apply(s, loc, Work(i, supply)); Settled(s2, j) && SameContent(s.db, s2.db, v)
  {
    hide TablesOk, JobsOk, SameContent, Completing, Somewhere, GoodStep, WorkerOk, StatusFits;
    var w, sup := s.workers[i], supply.(now := s.now);
    var (db2, w2) := Step(s.db, loc, w, sup);
    assert WorkerOk(s.db, loc, w);
    if w.job == j {
      NotCompletingAt(s.workers, i);
      PointsWhenSettled(s.db, loc, w);
      LastWritesKeepContent(s.db, loc, w, sup, v);
      SettledWorkers(s.workers, i, w2, j);
    } else {
      if Inside(w) {
        InsideJob(s, loc, i);
        InsideStep(s.db, loc, w, sup);
        assert Untouched(s.db, db2, j) && (w2.Busy? ==> w2.job == w.job) by {
          UntouchedByGoodStep(s.db, db2, loc, w, w2, j);
        }
        ContentOfUntouched(s.db, db2, j, v);
      } else {
        LastWritesKeepContent(s.db, loc, w, sup, v);
      }
      OtherJobsWorkers(s.workers, i, w2, j);
    }
  }

  lemma NotCompletingAt(workers: seq<Worker>, i: nat)
    requires i < |workers| && workers[i].Busy? && !Completing(workers, workers[i].job)
    ensures !CompletingHere(workers[i])
  {
  }

  lemma SettledWorkers(workers: seq<Worker>, i: nat, w2: Worker, j: Id)
    requires i < |workers| && !Completing(workers, j) && w2 == Idle
    ensures !Completing(workers[i := w2], j)
  {
    var after := workers[i := w2];
    assert forall k | 0 <= k < |after| && after[k].Busy? :: after[k] == workers[k];
  }

  lemma CreateKeepsSettled(s: State, loc: Locale, req: JobIntake.JobRequest, draw: JobIntake.Draw, j: Id, v: Id)
    requires SegmentsUnique(s.db, loc) && LinksOk(s.db) && Settled(s, j) && v in s.db.videos
    ensures var s2 := Apply(s, loc, Create(req, draw)); Settled(s2, j) && SameContent(s.db, s2.db, v)
  {
    hide Completing;
    var d, s2 := draw.(now := s.now), Apply(s, loc, Create(req, draw));
    if |draw.segmentIds| == |req.segments| && JobIntake.CreateJob(s.db, loc, req, d).Success? {
      var i, ids := JobIntake.CreatedJob(s.db, s2.db, loc, req, d);
    }
  }

  lemma ClaimKeepsSettled(s: State, loc: Locale, i: nat, k: Id, j: Id, v: Id)
    requires Settled(s, j) && v in s.db.videos
    ensures var s2 := Apply(s, loc, Claim(i, k)); Settled(s2, j) && SameContent(s.db, s2.db, v)
  {
    hide Completing;
    var s2 := Apply(s, loc, Claim(i, k));
    if s2 != s {
      OtherJobsWorkers(s.workers, i, s2.workers[i], j);
    }
  }

  lemma ClientKeepsSettled(s: State, loc: Locale, a: Action, j: Id, v: Id)
    requires Settled(s, j) && v in s.db.videos
    requires a.CreateIntent? || a.Retry? || a.SoftDelete? || a.Tick?
    ensures var s2 := Apply(s, loc, a); Settled(s2, j) && SameContent(s.db, s2.db, v)
  {
    hide Settled, SameContent;
    match a
    case CreateIntent(id, tenant, fileKey, contentType, expiresAt) =>
      IntentKeepsSettled(s, id, tenant, fileKey, contentType, expiresAt, j, v);
    case Retry(k, tenant) => RetryKeepsSettled(s, loc, k, tenant, j, v);
    case SoftDelete(u, tenant) => SoftDeleteKeepsSettled(s, loc, u, tenant, j, v);
    case Tick(elapsed) => TickKeepsSettled(s, elapsed, j, v);
  }

  lemma IntentKeepsSettled(s: State, id: Id, tenant: Id, fileKey: string, contentType: string, expiresAt: Time,
                           j: Id, v: Id)
    requires Settled(s, j) && v in s.db.videos
    ensures var s2 := AfterIntent(s, id, tenant, fileKey, contentType, expiresAt);
            Settled(s2, j) && SameContent(s.db, s2.db, v)
  {
    hide Completing, KindOf;
    if Sql.CreateIntent(s.db, id, Intent(tenant, fileKey, contentType, Issued, expiresAt, None)).Some? {
    }
  }

  lemma TickKeepsSettled(s: State, elapsed: nat, j: Id, v: Id)
    requires Settled(s, j) && v in s.db.videos
    ensures var s2 := s.(now := s.now + elapsed); Settled(s2, j) && SameContent(s.db, s2.db, v)
  {
    hide Completing;
  }

  lemma RetryKeepsSettled(s: State, loc: Locale, k: Id, tenant: Id, j: Id, v: Id)
    requires Settled(s, j) && v in s.db.videos
    ensures var s2 := AfterRetry(s, k, tenant); Settled(s2, j) && SameContent(s.db, s2.db, v)
  {
    hide Completing;
    if Sql.RetryJob(s.db, k, tenant).Some? {
    }
  }

  lemma SoftDeleteKeepsSettled(s: State, loc: Locale, u: Id, tenant: Id, j: Id, v: Id)
    requires Settled(s, j) && v in s.db.videos
    ensures var s2 := AfterSoftDelete(s, u, tenant); Settled(s2, j) && SameContent(s.db, s2.db, v)
  {
    hide Completing;
    if Sql.SoftDeleteVideo(s.db, u, tenant, s.now).Some? {
    }
  }

  lemma SettledKept(s: State, loc: Locale, a: Action, j: Id, v: Id)
    requires CoreOk(s, loc) && Settled(s, j) && v in s.db.videos && s.db.videos[v].job == j
    ensures var s2 := Apply(s, loc, a); Settled(s2, j) && SameContent(s.db, s2.db, v)
  {
    hide Settled, SameContent, TablesOk, JobsOk, WorkersOk;
    match a
    case Create(req, draw) =>
      TablesParts(s.db, loc);
      CreateKeepsSettled(s, loc, req, draw, j, v);
    case Claim(i, k) => ClaimKeepsSettled(s, loc, i, k, j, v);
    case Work(i, supply) =>
      if i < |s.workers| && s.workers[i].Busy? {
        WorkKeepsSettled(s, loc, i, supply, j, v);
      } else {
        ClientKeepsSettled(s, loc, Tick(0), j, v);
      }
    case Die(i) => DieKeepsSettled(s, loc, i, j, v);
    case _ => ClientKeepsSettled(s, loc, a, j, v);
  }

  lemma DieKeepsSettled(s: State, loc: Locale, i: nat, j: Id, v: Id)
    requires Settled(s, j) && v in s.db.videos
    ensures var s2 := Apply(s, loc, Die(i)); Settled(s2, j) && SameContent(s.db, s2.db, v)
  {
    hide Completing;
    if i < |s.workers| {
      SettledWorkers(s.workers, i, Idle, j);
    }
  }

  /** Nothing that happens later deletes or rewrites the transcript, the chunks or the
      segments of a completed video, or takes back the completion of its job. */
  lemma CompletedForever(s: State, loc: Locale, v: Id, more: seq<Action>)
    requires Reachable(s, loc) && v in s.db.videos && s.db.videos[v].status == VideoCompleted
    ensures var s2 := Run(s, loc, more);
            SameContent(s.db, s2.db, v) && Settled(s2, s.db.videos[v].job)
  {
    hide CoreOk, ClaimsOk, Settled, SameContent;
    ReachableInv(s, loc);
    CompletedIsSettled(s, loc, v);
    SettledForever(s, loc, s.db.videos[v].job, v, more);
  }

  lemma {:induction false} SettledForever(s: State, loc: Locale, j: Id, v: Id, more: seq<Action>)
    requires Inv(s, loc) && Settled(s, j) && v in s.db.videos && s.db.videos[v].job == j
    ensures var s2 := Run(s, loc, more); Settled(s2, j) && SameContent(s.db, s2.db, v)
    decreases |more|
  {
    hide CoreOk, ClaimsOk, Settled, Apply;
    if more != [] {
      var init, last := more[..|more| - 1], more[|more| - 1];
      SettledForever(s, loc, j, v, init);
      RunInv(s, loc, init);
      SettledKept(Run(s, loc, init), loc, last, j, v);
    }
  }
}
