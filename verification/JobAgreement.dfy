/** When job and video rows agree: which actions break the agreement, exactly, and what
    that means for whole runs. */
module JobAgreement {
  import opened Wrappers
  import opened Tables
  import opened Pipeline
  import opened JobInvariants
  import opened JobSystem
  import opened JobSteps
  import opened JobInductive
  import JobIntake
  import JobRequests
  import Sql

  // ---- agreement

  ghost predicate AllVideos(db: Db, j: Id, status: VideoStatus) {
    forall v | v in db.videos && db.videos[v].job == j :: db.videos[v].status == status
  }

  /** A worker still has to complete the video or fail the job. */
  predicate CompletingHere(w: Worker) {
    w.Busy? && (w.at == CompleteVideo || w.at == FailJob)
  }

  predicate Completing(workers: seq<Worker>, j: Id) {
    Somewhere(workers, j, CompleteVideo) || Somewhere(workers, j, FailJob)
  }

  /** The video rows agree with a final job row, or a worker is about to make them. */
  ghost predicate Agrees(db: Db, j: Id, completing: bool, failing: bool)
    requires j in db.jobs
  {
    && (db.jobs[j].status == Completed ==> completing || AllVideos(db, j, VideoCompleted))
    && (db.jobs[j].status == Failed ==> failing || AllVideos(db, j, VideoFailed))
  }

  ghost predicate Agreed(s: State, j: Id)
    requires j in s.db.jobs
  {
    Agrees(s.db, j, Completing(s.workers, j), Somewhere(s.workers, j, FailVideo))
  }

  // ---- what breaks it

  /** The last worker that could still complete the video of its completed job, or fail
      the job. */
  predicate LastCompleting(s: State, i: nat)
    requires i < |s.workers| && s.workers[i].Busy? && s.workers[i].job in s.db.jobs
  {
    CompletingHere(s.workers[i]) && s.db.jobs[s.workers[i].job].status == Completed
  }

  /** The last worker that could still fail the video of its failed job. */
  ghost predicate LastFailing(s: State, i: nat)
    requires i < |s.workers| && s.workers[i].Busy? && s.workers[i].job in s.db.jobs
  {
    var w := s.workers[i];
    && w.at == FailVideo && s.db.jobs[w.job].status == Failed && !AllVideos(s.db, w.job, VideoFailed)
    && !Somewhere(s.workers[i := Idle], w.job, FailVideo)
  }

  /** The actions after which no worker is left to make the rows of j agree: the last one
      that could dies or loses its write, or a late write of `fail` hits the video of a
      later attempt that completed. */
  ghost predicate Breaks(s: State, a: Action, j: Id)
    requires j in s.db.jobs
  {
    match a
    case Die(i) =>
      i < |s.workers| && s.workers[i].Busy? && s.workers[i].job == j && (LastCompleting(s, i) || LastFailing(s, i))
    case Work(i, supply) =>
      i < |s.workers| && s.workers[i].Busy? && s.workers[i].job == j &&
      (match s.workers[i].at
       case FailJob => !supply.ok && LastCompleting(s, i)
       case FailVideo =>
         if supply.ok then s.db.jobs[j].status == Completed && !Completing(s.workers, j) else LastFailing(s, i)
       case _ => false)
    case _ => false
  }

  // ---- where workers stand

  /** Replacing a worker that is not at the point by another that is not changes nothing. */
  lemma SomewhereElse(workers: seq<Worker>, i: nat, w2: Worker, j: Id, p: Point)
    requires i < |workers|
    requires !(workers[i].Busy? && workers[i].job == j && workers[i].at == p)
    requires !(w2.Busy? && w2.job == j && w2.at == p)
    ensures Somewhere(workers[i := w2], j, p) == Somewhere(workers, j, p)
  {
    var after := workers[i := w2];
    if k :| 0 <= k < |workers| && workers[k].Busy? && workers[k].job == j && workers[k].at == p {
      assert after[k] == workers[k];
    }
    if k :| 0 <= k < |after| && after[k].Busy? && after[k].job == j && after[k].at == p {
      assert after[k] == workers[k];
    }
  }

  lemma OtherJobsWorkers(workers: seq<Worker>, i: nat, w2: Worker, j: Id)
    requires i < |workers| && (workers[i].Busy? ==> workers[i].job != j) && (w2.Busy? ==> w2.job != j)
    ensures Completing(workers[i := w2], j) == Completing(workers, j)
    ensures Somewhere(workers[i := w2], j, FailVideo) == Somewhere(workers, j, FailVideo)
  {
    SomewhereElse(workers, i, w2, j, CompleteVideo);
    SomewhereElse(workers, i, w2, j, FailJob);
    SomewhereElse(workers, i, w2, j, FailVideo);
  }

  lemma StandsThere(workers: seq<Worker>, i: nat)
    requires i < |workers| && workers[i].Busy?
    ensures Somewhere(workers, workers[i].job, workers[i].at)
  {
  }

  /** A worker inside a run is the only one inside that job. */
  lemma OnlyHere(workers: seq<Worker>, i: nat, w2: Worker)
    requires i < |workers| && Inside(workers[i]) && Exclusive(workers)
    requires w2.Busy? ==> w2.job == workers[i].job
    ensures Completing(workers, workers[i].job) == CompletingHere(workers[i])
    ensures Completing(workers[i := w2], workers[i].job) == CompletingHere(w2)
    ensures !(w2.Busy? && w2.at == FailVideo) ==>
              Somewhere(workers[i := w2], workers[i].job, FailVideo) == Somewhere(workers, workers[i].job, FailVideo)
    ensures w2.Busy? && w2.at == FailVideo ==> Somewhere(workers[i := w2], workers[i].job, FailVideo)
  {
    var j, after := workers[i].job, workers[i := w2];
    StandsThere(workers, i);
    assert forall k | 0 <= k < |after| && k != i && after[k].Busy? && after[k].job == j :: after[k].at == FailVideo by {
      forall k | 0 <= k < |after| && k != i && after[k].Busy? && after[k].job == j ensures after[k].at == FailVideo {
        assert after[k] == workers[k];
      }
    }
    if w2.Busy? {
      StandsThere(after, i);
    }
    if !(w2.Busy? && w2.at == FailVideo) {
      SomewhereElse(workers, i, w2, j, FailVideo);
    }
  }

  // ---- one worker, on the rows of its job

  /** The video of a job that is not yet completed though it could be. */
  lemma NotYetCompleted(db: Db, loc: Locale, w: Worker)
    requires CompletingHere(w) && WorkerOk(db, loc, w) && JobOk(db, w.job)
    requires db.jobs[w.job].status == Completed
    ensures !AllVideos(db, w.job, VideoCompleted)
  {
    hide Ingested, WorkerChunks, NamesOk;
    if w.at == CompleteVideo {
      assert Progress(db, loc, w);
    } else {
      assert HasIngested(db, w.job) && NoneCompleted(db, w.job);
      hide Progress;
    }
  }

  lemma AllFailed(db: Db, loc: Locale, w: Worker)
    requires w.Busy? && VideosOk(db) && w.job in db.jobs && SameOrigin(w.row, db.jobs[w.job])
    ensures AllVideos(Sql.FailVideoByJobID(db, w.job, w.row.tenant), w.job, VideoFailed)
  {
    assert forall v | v in db.videos :: VideoMatches(db, v);
  }

  ghost predicate Early(db: Db, next: (Db, Worker)) {
    var (db2, w2) := next;
    (w2.Busy? && Rank(w2.at) <= 12) || (db2 == db && (w2 == Idle || w2.at == FailJob))
  }

  lemma EarlySegments(db: Db, loc: Locale, w: Worker, s: Supply)
    requires w.Busy?
    ensures Early(db, DoListNames(db, loc, w, s)) && Early(db, DoEnsure(db, loc, w, s)) && Early(db, DoAttach(db, w, s))
  {
    hide Sql.EnsureSegment, Sql.EnsuredSegment, Sql.AttachVideoSegments, ListNamesByJob;
  }

  lemma EarlyRows(db: Db, w: Worker, s: Supply)
    requires w.Busy?
    ensures Early(db, DoLoad(db, w, s)) && Early(db, DoCleanup(db, w, s)) && Early(db, DoInsert(db, w, s))
    ensures Early(db, DoStore(db, w, s)) && Early(db, DoInsertChunks(db, w, s))
  {
    hide Sql.DeleteVideoByJobID, Sql.CreateVideo, Sql.UpsertTranscript, Sql.InsertChunks, ChunkRows;
  }

  lemma EarlyStage(db: Db, w: Worker, stage: Stage, next: Point, s: Supply)
    requires w.Busy? && Rank(next) <= 12
    ensures Early(db, SetStage(db, w, stage, next, s))
  {
    hide Sql.UpdateJobStatus;
  }

  lemma EarlyShape(db: Db, loc: Locale, w: Worker, s: Supply)
    requires w.Busy? && Rank(w.at) <= 11
    ensures Early(db, Step(db, loc, w, s))
  {
    hide DoListNames, DoEnsure, DoAttach, DoLoad, DoCleanup, DoInsert, DoStore, DoInsertChunks, SetStage, Early;
    EarlySegments(db, loc, w, s);
    EarlyRows(db, w, s);
    EarlyStage(db, w, Downloading, Recognize, s);
    EarlyStage(db, w, RecognizeStage(w.row.kind), Store, s);
    EarlyStage(db, w, Chunking, Embed, s);
    EarlyStage(db, w, Embedding, InsertChunks, s);
  }

  /** Until the job is completed its status stays processing. */
  lemma EarlyStatus(db: Db, db2: Db, loc: Locale, w: Worker, w2: Worker)
    requires w.Busy? && WorkerOk(db, loc, w) && Rank(w.at) <= 11
    requires (w2.Busy? && Rank(w2.at) <= 12) || (db2 == db && (w2 == Idle || w2.at == FailJob))
    requires w.job in db2.jobs && WorkerOk(db2, loc, w2) && (w2.Busy? ==> w2.job == w.job)
    ensures db2.jobs[w.job].status == Processing
  {
    hide Progress, NoneCompleted;
  }

  lemma CompletingVideo(db: Db, loc: Locale, w: Worker, s: Supply)
    requires w.Busy? && w.at == CompleteVideo && WorkerOk(db, loc, w) && VideosOk(db)
    ensures var (db2, w2) := DoCompleteVideo(db, w, s);
            && db2.jobs == db.jobs && w2.Busy? && w2.job == w.job && w2.at != FailVideo
            && (CompletingHere(w2) || AllVideos(db2, w.job, VideoCompleted))
  {
  }

  lemma CompletingJob(db: Db, loc: Locale, w: Worker, s: Supply)
    requires w.Busy? && w.at == CompleteJob && WorkerOk(db, loc, w)
    ensures var (db2, w2) := DoCompleteJob(db, w, s);
            && w.job in db2.jobs && w2.Busy? && w2.job == w.job && CompletingHere(w2)
            && db2.jobs[w.job].status != Failed && db2.jobs[w.job].status != Pending
  {
    hide Progress, NoneCompleted;
  }

  lemma FailJobSteps(db: Db, loc: Locale, w: Worker, s: Supply)
    requires Inside(w) && w.at == FailJob && WorkerOk(db, loc, w)
    ensures var (db2, w2) := Step(db, loc, w, s);
            && w.job in db2.jobs && w2 == w.(at := FailVideo) && db2.videos == db.videos
            && if s.ok then db2.jobs[w.job].status == Failed else db2 == db
  {
    hide NoneCompleted;
  }

  lemma HereAgrees(s: State, loc: Locale, i: nat)
    requires CoreOk(s, loc) && i < |s.workers| && Inside(s.workers[i])
    ensures WorkerOk(s.db, loc, s.workers[i]) && JobOk(s.db, s.workers[i].job) && VideosOk(s.db)
    ensures Exclusive(s.workers) && TablesOk(s.db, loc)
  {
    hide TablesOk;
    assert WorkerOk(s.db, loc, s.workers[i]);
    VideosOfTables(s.db, loc);
  }

  /** What the theorem says of one action. */
  ghost predicate Exactly(s: State, s2: State, a: Action, j: Id) {
    j in s.db.jobs && j in s2.db.jobs &&
    (Agreed(s2, j) <==> !Final(s2.db.jobs[j].status) || (Agreed(s, j) && !Breaks(s, a, j)))
  }

  lemma WorkResult(s: State, loc: Locale, i: nat, supply: Supply)
    requires i < |s.workers| && s.workers[i].Busy?
    ensures var (db2, w2) := Step(s.db, loc, s.workers[i], supply.(now := s.now));
            var s2 := AfterWork(s, loc, i, supply);
            s2.db == db2 && s2.workers == s.workers[i := w2]
  {
    hide Step;
  }

  lemma FailJobExactly(s: State, loc: Locale, i: nat, supply: Supply)
    requires CoreOk(s, loc) && i < |s.workers| && Inside(s.workers[i]) && s.workers[i].at == FailJob
    ensures Exactly(s, AfterWork(s, loc, i, supply), Work(i, supply), s.workers[i].job)
  {
    var w, s2 := s.workers[i], AfterWork(s, loc, i, supply);
    HereAgrees(s, loc, i);
    WorkResult(s, loc, i, supply);
    FailJobSteps(s.db, loc, w, supply.(now := s.now));
    FailJobStatus(s.db, loc, w);
    if s.db.jobs[w.job].status == Completed {
      NotYetCompleted(s.db, loc, w);
    }
    hide CoreOk, TablesOk, WorkerOk, JobOk, VideosOk, Exclusive, Step, AfterWork;
    OnlyHere(s.workers, i, w.(at := FailVideo));
    FailJobCases(s, s2, i, supply);
  }

  lemma FailJobStatus(db: Db, loc: Locale, w: Worker)
    requires w.Busy? && w.at == FailJob && WorkerOk(db, loc, w)
    ensures w.job in db.jobs && (db.jobs[w.job].status == Processing || db.jobs[w.job].status == Completed)
  {
    hide NoneCompleted;
  }

  lemma FailJobCases(s: State, s2: State, i: nat, supply: Supply)
    requires i < |s.workers| && s.workers[i].Busy? && s.workers[i].at == FailJob
    requires var j := s.workers[i].job;
             && j in s.db.jobs && j in s2.db.jobs
             && (s.db.jobs[j].status == Processing || s.db.jobs[j].status == Completed)
             && (s.db.jobs[j].status == Completed ==> !AllVideos(s.db, j, VideoCompleted))
             && (if supply.ok then s2.db.jobs[j].status == Failed else s2.db == s.db)
             && Completing(s.workers, j) && !Completing(s2.workers, j) && Somewhere(s2.workers, j, FailVideo)
    ensures Exactly(s, s2, Work(i, supply), s.workers[i].job)
  {
    hide AllVideos, Completing, Somewhere;
  }

  /** A statement of a run that leaves the job processing, or completes it. */
  lemma RunCases(s: State, s2: State, i: nat, supply: Supply)
    requires i < |s.workers| && s.workers[i].Busy? && Rank(s.workers[i].at) <= 13
    requires var j := s.workers[i].job;
             && j in s.db.jobs && j in s2.db.jobs
             && s.db.jobs[j].status == (if s.workers[i].at == CompleteVideo then Completed else Processing)
             && (s2.db.jobs[j].status == Processing ||
                 (s2.db.jobs[j].status == Completed
                  && (Completing(s2.workers, j) || AllVideos(s2.db, j, VideoCompleted))))
             && (s.workers[i].at == CompleteVideo ==> Completing(s.workers, j))
    ensures Exactly(s, s2, Work(i, supply), s.workers[i].job)
  {
    hide AllVideos, Completing, Somewhere;
  }

  lemma StatusInRun(db: Db, loc: Locale, w: Worker)
    requires w.Busy? && Rank(w.at) <= 13 && WorkerOk(db, loc, w)
    ensures w.job in db.jobs
    ensures db.jobs[w.job].status == (if w.at == CompleteVideo then Completed else Processing)
  {
    hide NoneCompleted, Progress;
  }

  lemma EarlyExactly(s: State, loc: Locale, i: nat, supply: Supply)
    requires CoreOk(s, loc) && i < |s.workers| && Inside(s.workers[i]) && Rank(s.workers[i].at) <= 11
    ensures Exactly(s, AfterWork(s, loc, i, supply), Work(i, supply), s.workers[i].job)
  {
    var w, s2, sup := s.workers[i], AfterWork(s, loc, i, supply), supply.(now := s.now);
    InsideJob(s, loc, i);
    HereAgrees(s, loc, i);
    WorkResult(s, loc, i, supply);
    hide CoreOk, TablesOk, WorkerOk, JobOk, VideosOk, Exclusive, Step, AfterWork, GoodStep, Ready;
    InsideStep(s.db, loc, w, sup);
    var (db2, w2) := Step(s.db, loc, w, sup);
    JobOfGoodStep(s.db, db2, loc, w, w2);
    EarlyShape(s.db, loc, w, sup);
    EarlyStatus(s.db, db2, loc, w, w2);
    StatusInRun(s.db, loc, w);
    RunCases(s, s2, i, supply);
  }

  lemma CompletingExactly(s: State, loc: Locale, i: nat, supply: Supply)
    requires CoreOk(s, loc) && i < |s.workers| && Inside(s.workers[i])
    requires s.workers[i].at == CompleteJob || s.workers[i].at == CompleteVideo
    ensures Exactly(s, AfterWork(s, loc, i, supply), Work(i, supply), s.workers[i].job)
  {
    var w, s2, sup := s.workers[i], AfterWork(s, loc, i, supply), supply.(now := s.now);
    HereAgrees(s, loc, i);
    WorkResult(s, loc, i, supply);
    StatusInRun(s.db, loc, w);
    var (db2, w2) := Step(s.db, loc, w, sup);
    if w.at == CompleteJob {
      CompletingJob(s.db, loc, w, sup);
    } else {
      CompletingVideo(s.db, loc, w, sup);
    }
    hide CoreOk, TablesOk, WorkerOk, JobOk, VideosOk, Exclusive, AfterWork, DoCompleteJob, DoCompleteVideo;
    OnlyHere(s.workers, i, w2);
    RunCases(s, s2, i, supply);
  }

  /** Rows and workers that matter are the same. */
  lemma SameExactly(s: State, s2: State, a: Action, j: Id)
    requires j in s.db.jobs && j in s2.db.jobs && s2.db.jobs[j].status == s.db.jobs[j].status
    requires Completing(s2.workers, j) == Completing(s.workers, j)
    requires Somewhere(s2.workers, j, FailVideo) == Somewhere(s.workers, j, FailVideo)
    requires AllVideos(s2.db, j, VideoCompleted) == AllVideos(s.db, j, VideoCompleted)
    requires AllVideos(s2.db, j, VideoFailed) == AllVideos(s.db, j, VideoFailed)
    requires !Breaks(s, a, j)
    ensures Exactly(s, s2, a, j)
  {
    hide AllVideos, Completing, Somewhere, Breaks;
  }

  lemma SummarizeExactly(s: State, loc: Locale, i: nat, supply: Supply)
    requires CoreOk(s, loc) && i < |s.workers| && Inside(s.workers[i]) && s.workers[i].at == Summarize
    ensures Exactly(s, AfterWork(s, loc, i, supply), Work(i, supply), s.workers[i].job)
  {
    var w, s2, sup := s.workers[i], AfterWork(s, loc, i, supply), supply.(now := s.now);
    HereAgrees(s, loc, i);
    OutsideRow(s, loc, i);
    WorkResult(s, loc, i, supply);
    SummaryWrites(s.db, w, sup);
    hide CoreOk, TablesOk, WorkerOk, JobOk, VideosOk, Exclusive, AfterWork, DoSummarize;
    OnlyHere(s.workers, i, Idle);
    SameExactly(s, s2, Work(i, supply), w.job);
  }

  lemma SummaryWrites(db: Db, w: Worker, s: Supply)
    requires w.Busy?
    ensures var (db2, w2) := DoSummarize(db, w, s); db2.jobs == db.jobs && db2.videos == db.videos && w2 == Idle
  {
  }

  // ---- the second write of `fail`, and deaths

  lemma LostFailing(s: State, s2: State, i: nat, a: Action)
    requires i < |s.workers| && s.workers[i].Busy? && s.workers[i].at == FailVideo && s.workers[i].job in s.db.jobs
    requires s2.db == s.db && s2.workers == s.workers[i := Idle]
    requires Breaks(s, a, s.workers[i].job) == LastFailing(s, i)
    ensures Exactly(s, s2, a, s.workers[i].job)
  {
    var j := s.workers[i].job;
    StandsThere(s.workers, i);
    SomewhereElse(s.workers, i, Idle, j, CompleteVideo);
    SomewhereElse(s.workers, i, Idle, j, FailJob);
    hide AllVideos, Somewhere, Breaks;
  }

  lemma TakenFailing(s: State, loc: Locale, i: nat, supply: Supply)
    requires CoreOk(s, loc) && i < |s.workers| && s.workers[i].Busy? && s.workers[i].at == FailVideo && supply.ok
    ensures Exactly(s, AfterWork(s, loc, i, supply), Work(i, supply), s.workers[i].job)
  {
    var w, s2 := s.workers[i], AfterWork(s, loc, i, supply);
    var j := w.job;
    OutsideRow(s, loc, i);
    WorkResult(s, loc, i, supply);
    FailVideoWrites(s.db, w, supply.(now := s.now));
    AllFailed(s.db, loc, w);
    if s.db.jobs[j].status == Completed {
      HasVideo(s, loc, j);
      StillHasVideo(s.db, j, j, w.row.tenant);
    }
    hide CoreOk, Somewhere, AfterWork, Completing, AllVideos, VideosOf, Sql.FailVideoByJobID, VideosOk, DoFailVideo;
    StandsThere(s.workers, i);
    LeavesCompleting(s.workers, i);
    TakenCases(s, s2, i, supply);
  }

  lemma LeavesCompleting(workers: seq<Worker>, i: nat)
    requires i < |workers| && workers[i].Busy? && workers[i].at == FailVideo
    ensures Completing(workers[i := Idle], workers[i].job) == Completing(workers, workers[i].job)
  {
    SomewhereElse(workers, i, Idle, workers[i].job, CompleteVideo);
    SomewhereElse(workers, i, Idle, workers[i].job, FailJob);
  }

  lemma FailVideoWrites(db: Db, w: Worker, s: Supply)
    requires w.Busy? && s.ok
    ensures DoFailVideo(db, w, s) == (Sql.FailVideoByJobID(db, w.job, w.row.tenant), Idle)
    ensures Sql.FailVideoByJobID(db, w.job, w.row.tenant).jobs == db.jobs
  {
  }

  lemma TakenCases(s: State, s2: State, i: nat, supply: Supply)
    requires i < |s.workers| && s.workers[i].Busy? && s.workers[i].at == FailVideo && supply.ok
    requires var j := s.workers[i].job;
             && j in s.db.jobs && s2.db.jobs == s.db.jobs && AllVideos(s2.db, j, VideoFailed)
             && Completing(s2.workers, j) == Completing(s.workers, j) && Somewhere(s.workers, j, FailVideo)
             && (s.db.jobs[j].status == Completed ==> !AllVideos(s2.db, j, VideoCompleted))
    ensures Exactly(s, s2, Work(i, supply), s.workers[i].job)
  {
    hide AllVideos, Completing, Somewhere;
  }

  lemma HasVideo(s: State, loc: Locale, j: Id)
    requires CoreOk(s, loc) && j in s.db.jobs && s.db.jobs[j].status == Completed
    ensures VideosOf(s.db, j) != {}
  {
    hide TablesOk, WorkersOk;
    assert JobOk(s.db, j);
    var v :| v in s.db.videos && s.db.videos[v].job == j && Ingested(s.db, v);
    assert v in VideosOf(s.db, j);
  }

  lemma StillHasVideo(db: Db, j: Id, k: Id, tenant: Id)
    requires VideosOf(db, j) != {}
    ensures var db2 := Sql.FailVideoByJobID(db, k, tenant);
            VideosOf(db2, j) != {} && (AllVideos(db2, j, VideoFailed) ==> !AllVideos(db2, j, VideoCompleted))
  {
    var v :| v in VideosOf(db, j);
    assert v in VideosOf(Sql.FailVideoByJobID(db, k, tenant), j);
  }

  lemma DeathExactly(s: State, loc: Locale, i: nat)
    requires CoreOk(s, loc) && i < |s.workers| && s.workers[i].Busy?
    ensures Exactly(s, AfterDeath(s, i), Die(i), s.workers[i].job)
  {
    OutsideRow(s, loc, i);
    hide CoreOk, VideosOk, SameOrigin, Exactly, Breaks, LastFailing;
    if s.workers[i].at == FailVideo {
      DyingBreaks(s, i);
      LostFailing(s, AfterDeath(s, i), i, Die(i));
    } else {
      DeathInside(s, loc, i);
    }
  }

  lemma DyingBreaks(s: State, i: nat)
    requires i < |s.workers| && s.workers[i].Busy? && s.workers[i].at == FailVideo && s.workers[i].job in s.db.jobs
    ensures Breaks(s, Die(i), s.workers[i].job) == LastFailing(s, i)
  {
    hide AllVideos, Somewhere;
  }

  lemma DeathInside(s: State, loc: Locale, i: nat)
    requires CoreOk(s, loc) && i < |s.workers| && Inside(s.workers[i]) && s.workers[i].job in s.db.jobs
    ensures Exactly(s, AfterDeath(s, i), Die(i), s.workers[i].job)
  {
    var w, s2 := s.workers[i], AfterDeath(s, i);
    HereAgrees(s, loc, i);
    hide CoreOk, TablesOk, WorkerOk, JobOk, VideosOk, AllVideos, Completing, Somewhere, Exactly;
    InsideStatuses(s.db, loc, w);
    if LastCompleting(s, i) {
      NotYetCompleted(s.db, loc, w);
    }
    OnlyHere(s.workers, i, Idle);
    DeathCases(s, s2, i);
  }

  lemma DeathCases(s: State, s2: State, i: nat)
    requires i < |s.workers| && Inside(s.workers[i]) && s2.db == s.db
    requires var j := s.workers[i].job;
             && j in s.db.jobs && (s.db.jobs[j].status == Processing || s.db.jobs[j].status == Completed)
             && (LastCompleting(s, i) ==> !AllVideos(s.db, j, VideoCompleted))
             && Completing(s.workers, j) == CompletingHere(s.workers[i]) && !Completing(s2.workers, j)
    ensures Exactly(s, s2, Die(i), s.workers[i].job)
  {
    hide AllVideos, Completing, Somewhere;
  }

  lemma InsideStatuses(db: Db, loc: Locale, w: Worker)
    requires Inside(w) && WorkerOk(db, loc, w)
    ensures w.job in db.jobs && (db.jobs[w.job].status == Processing || db.jobs[w.job].status == Completed)
  {
    hide NoneCompleted, Progress;
  }

  // ---- actions on other jobs

  lemma UntouchedVideos(db: Db, db2: Db, j: Id, status: VideoStatus)
    requires Untouched(db, db2, j)
    ensures j in db.jobs && j in db2.jobs && db2.jobs[j] == db.jobs[j]
    ensures AllVideos(db2, j, status) == AllVideos(db, j, status)
  {
    assert forall v | v in db.videos && db.videos[v].job == j :: SameVideo(db, db2, v);
  }

  lemma OthersFailed(db: Db, j: Id, k: Id, tenant: Id, status: VideoStatus)
    requires j != k
    ensures AllVideos(Sql.FailVideoByJobID(db, k, tenant), j, status) == AllVideos(db, j, status)
  {
    var db2 := Sql.FailVideoByJobID(db, k, tenant);
    assert forall v | v in db.videos && db.videos[v].job == j :: db2.videos[v] == db.videos[v];
  }

  lemma UntouchedByGoodStep(db: Db, db2: Db, loc: Locale, w: Worker, w2: Worker, j: Id)
    requires w.Busy? && GoodStep(db, db2, loc, w, w2) && j in db.jobs && j != w.job
    ensures Untouched(db, db2, j) && (w2.Busy? ==> w2.job == w.job)
  {
  }

  lemma OtherWorkExactly(s: State, loc: Locale, i: nat, supply: Supply, j: Id)
    requires CoreOk(s, loc) && i < |s.workers| && s.workers[i].Busy? && s.workers[i].job != j && j in s.db.jobs
    ensures Exactly(s, AfterWork(s, loc, i, supply), Work(i, supply), j)
  {
    hide CoreOk, AllVideos, Completing, Somewhere, Step, Exactly, Agreed;
    var w, sup, s2 := s.workers[i], supply.(now := s.now), AfterWork(s, loc, i, supply);
    var (db2, w2) := Step(s.db, loc, w, sup);
    WorkResult(s, loc, i, supply);
    if Inside(w) {
      InsideJob(s, loc, i);
      InsideStep(s.db, loc, w, sup);
      hide GoodStep, Ready, AfterWork;
      UntouchedByGoodStep(s.db, db2, loc, w, w2, j);
      UntouchedVideos(s.db, db2, j, VideoCompleted);
      UntouchedVideos(s.db, db2, j, VideoFailed);
    } else {
      FailVideoOrNothing(s.db, loc, w, sup);
      OthersFailed(s.db, j, w.job, w.row.tenant, VideoCompleted);
      OthersFailed(s.db, j, w.job, w.row.tenant, VideoFailed);
    }
    OtherJobsWorkers(s.workers, i, w2, j);
    SameExactly(s, s2, Work(i, supply), j);
  }

  lemma FailVideoOrNothing(db: Db, loc: Locale, w: Worker, s: Supply)
    requires w.Busy? && w.at == FailVideo
    ensures var (db2, w2) := Step(db, loc, w, s);
            && db2.jobs == db.jobs && w2 == Idle
            && db2 == if s.ok then Sql.FailVideoByJobID(db, w.job, w.row.tenant) else db
  {
  }

  lemma WorkExactly(s: State, loc: Locale, i: nat, supply: Supply, j: Id)
    requires CoreOk(s, loc) && j in s.db.jobs
    ensures Exactly(s, AfterWork(s, loc, i, supply), Work(i, supply), j)
  {
    hide CoreOk, Exactly;
    var s2 := AfterWork(s, loc, i, supply);
    if !(i < |s.workers| && s.workers[i].Busy?) {
      SameStateExactly(s, Work(i, supply), j);
    } else if s.workers[i].job != j {
      OtherWorkExactly(s, loc, i, supply, j);
    } else if s.workers[i].at == FailVideo {
      if supply.ok {
        TakenFailing(s, loc, i, supply);
      } else {
        FailVideoOrNothing(s.db, loc, s.workers[i], supply.(now := s.now));
        WorkResult(s, loc, i, supply);
        LostFailing(s, s2, i, Work(i, supply));
      }
    } else if s.workers[i].at == FailJob {
      FailJobExactly(s, loc, i, supply);
    } else if s.workers[i].at == Summarize {
      SummarizeExactly(s, loc, i, supply);
    } else if Rank(s.workers[i].at) <= 11 {
      EarlyExactly(s, loc, i, supply);
    } else {
      CompletingExactly(s, loc, i, supply);
    }
  }

  lemma SameStateExactly(s: State, a: Action, j: Id)
    requires j in s.db.jobs && !Breaks(s, a, j)
    ensures Exactly(s, s, a, j)
  {
    hide AllVideos, Completing, Somewhere, Breaks;
  }

  /** A job that is not final agrees whatever its videos are. */
  lemma NotFinalExactly(s: State, s2: State, a: Action, j: Id)
    requires j in s.db.jobs && j in s2.db.jobs && !Final(s2.db.jobs[j].status)
    ensures Exactly(s, s2, a, j)
  {
    hide AllVideos, Completing, Somewhere, Breaks;
  }

  lemma DieExactly(s: State, loc: Locale, i: nat, j: Id)
    requires CoreOk(s, loc) && j in s.db.jobs
    ensures Exactly(s, AfterDeath(s, i), Die(i), j)
  {
    hide CoreOk, Exactly, AllVideos, Completing, Somewhere;
    if !(i < |s.workers| && s.workers[i].Busy?) {
      SameStateExactly(s, Die(i), j);
    } else if s.workers[i].job == j {
      DeathExactly(s, loc, i);
    } else {
      OtherJobsWorkers(s.workers, i, Idle, j);
      SameExactly(s, AfterDeath(s, i), Die(i), j);
    }
  }

  lemma ClaimExactly(s: State, i: nat, k: Id, j: Id)
    requires j in s.db.jobs
    ensures Exactly(s, AfterClaim(s, i, k), Claim(i, k), j)
  {
    hide Exactly, AllVideos, Completing, Somewhere;
    var s2 := AfterClaim(s, i, k);
    if s2 == s {
      SameStateExactly(s, Claim(i, k), j);
    } else if k == j {
      NotFinalExactly(s, s2, Claim(i, k), j);
    } else {
      OtherJobsWorkers(s.workers, i, s2.workers[i], j);
      SameVideosSame(s.db, s2.db, j);
      SameExactly(s, s2, Claim(i, k), j);
    }
  }

  lemma SameVideosSame(db: Db, db2: Db, j: Id)
    requires db2.videos == db.videos
    ensures forall status :: AllVideos(db2, j, status) == AllVideos(db, j, status)
  {
  }

  lemma RetryExactly(s: State, k: Id, tenant: Id, j: Id)
    requires j in s.db.jobs
    ensures Exactly(s, AfterRetry(s, k, tenant), Retry(k, tenant), j)
  {
    hide Exactly, AllVideos, Completing, Somewhere;
    var s2 := AfterRetry(s, k, tenant);
    if s2 == s {
      SameStateExactly(s, Retry(k, tenant), j);
    } else if k == j {
      NotFinalExactly(s, s2, Retry(k, tenant), j);
    } else {
      SameVideosSame(s.db, s2.db, j);
      SameExactly(s, s2, Retry(k, tenant), j);
    }
  }

  lemma SoftDeleteExactly(s: State, v: Id, tenant: Id, j: Id)
    requires j in s.db.jobs
    ensures Exactly(s, AfterSoftDelete(s, v, tenant), SoftDelete(v, tenant), j)
  {
    var s2 := AfterSoftDelete(s, v, tenant);
    StatusesSame(s, v, tenant, j, VideoCompleted);
    StatusesSame(s, v, tenant, j, VideoFailed);
    hide Exactly, AllVideos, Completing, Somewhere;
    SameExactly(s, s2, SoftDelete(v, tenant), j);
  }

  lemma StatusesSame(s: State, v: Id, tenant: Id, j: Id, status: VideoStatus)
    ensures AllVideos(AfterSoftDelete(s, v, tenant).db, j, status) == AllVideos(s.db, j, status)
  {
    if Sql.SoftDeleteVideo(s.db, v, tenant, s.now).Some? {
      var db2 := AfterSoftDelete(s, v, tenant).db;
      assert forall u | u in s.db.videos :: db2.videos[u].status == s.db.videos[u].status;
    }
  }

  lemma IntentExactly(s: State, id: Id, tenant: Id, fileKey: string, contentType: string, expiresAt: Time, j: Id)
    requires j in s.db.jobs
    ensures Exactly(s, AfterIntent(s, id, tenant, fileKey, contentType, expiresAt),
                    CreateIntent(id, tenant, fileKey, contentType, expiresAt), j)
  {
    hide Exactly, AllVideos, Completing, Somewhere;
    var s2 := AfterIntent(s, id, tenant, fileKey, contentType, expiresAt);
    if s2 != s {
      SameVideosSame(s.db, s2.db, j);
    }
    SameExactly(s, s2, CreateIntent(id, tenant, fileKey, contentType, expiresAt), j);
  }

  lemma CreateExactly(s: State, loc: Locale, req: JobIntake.JobRequest, draw: JobIntake.Draw, j: Id)
    requires CoreOk(s, loc) && j in s.db.jobs
    ensures Exactly(s, AfterCreate(s, loc, req, draw), Create(req, draw), j)
  {
    hide Exactly, AllVideos, Completing, Somewhere, AfterCreate;
    var s2 := AfterCreate(s, loc, req, draw);
    NewRow(s, loc, req, draw);
    SameVideosSame(s.db, s2.db, j);
    SameExactly(s, s2, Create(req, draw), j);
  }

  /** A request adds at most one job row, a pending one. */
  lemma NewRow(s: State, loc: Locale, req: JobIntake.JobRequest, draw: JobIntake.Draw)
    requires CoreOk(s, loc)
    ensures var s2 := AfterCreate(s, loc, req, draw);
            && s2.workers == s.workers && s2.db.videos == s.db.videos
            && (forall j | j in s.db.jobs :: j in s2.db.jobs && s2.db.jobs[j] == s.db.jobs[j])
            && (forall j | j in s2.db.jobs && j !in s.db.jobs :: s2.db.jobs[j].status == Pending)
  {
    TablesParts(s.db, loc);
    var d, s2 := draw.(now := s.now), AfterCreate(s, loc, req, draw);
    if |draw.segmentIds| == |req.segments| && JobIntake.CreateJob(s.db, loc, req, d).Success? {
      hide CoreOk, TablesOk, JobIntake.CreateJob, JobIntake.Added;
      var i, ids := JobIntake.CreatedJob(s.db, s2.db, loc, req, d);
      AddedRow(s.db, s2.db, loc, req, d, i, ids);
    }
  }

  lemma AddedRow(db: Db, db2: Db, loc: Locale, req: JobIntake.JobRequest, draw: JobIntake.Draw, i: Id, ids: seq<Id>)
    requires JobIntake.Consumable(db, req, draw, i)
    requires JobIntake.Added(JobIntake.Consume(db, i, draw.now), db2, loc, req, draw,
               JobIntake.NewJob(req, i, KindOf(db.intents[i].contentType).value, draw.now), ids)
    ensures db2.videos == db.videos && draw.jobId !in db.jobs
    ensures exists row: Job :: row.status == Pending && db2.jobs == db.jobs[draw.jobId := row]
  {
    hide JobIntake.NamedSo, SegmentsUnique, SegmentsKept;
  }

  // ---- the theorem

  /** After any action in any reachable state, the rows of a job agree, or will, exactly
      when the job is pending or processing, or they did before and the action is none of
      those that break it. */
  lemma AgreementExactly(s: State, loc: Locale, a: Action, j: Id)
    requires Inv(s, loc) && j in s.db.jobs
    ensures j in Apply(s, loc, a).db.jobs
    ensures Agreed(Apply(s, loc, a), j) <==>
            !Final(Apply(s, loc, a).db.jobs[j].status) || (Agreed(s, j) && !Breaks(s, a, j))
  {
    hide CoreOk, ClaimsOk, AfterIntent, AfterCreate, AfterClaim, AfterWork, AfterDeath, AfterRetry, AfterSoftDelete;
    hide Agreed, Breaks;
    match a
    case CreateIntent(id, tenant, fileKey, contentType, expiresAt) =>
      IntentExactly(s, id, tenant, fileKey, contentType, expiresAt, j);
    case Create(req, draw) => CreateExactly(s, loc, req, draw, j);
    case Claim(i, k) => ClaimExactly(s, i, k, j);
    case Work(i, supply) => WorkExactly(s, loc, i, supply, j);
    case Die(i) => DieExactly(s, loc, i, j);
    case Retry(k, tenant) => RetryExactly(s, k, tenant, j);
    case SoftDelete(v, tenant) => SoftDeleteExactly(s, v, tenant, j);
    case Tick(elapsed) => TickExactly(s, elapsed, j);
  }

  lemma TickExactly(s: State, elapsed: nat, j: Id)
    requires j in s.db.jobs
    ensures Exactly(s, s.(now := s.now + elapsed), Tick(elapsed), j)
  {
    hide AllVideos, Completing, Somewhere;
  }

  /** Since the job was last pending or processing, some action broke the agreement. */
  ghost predicate Broken(s0: State, loc: Locale, actions: seq<Action>, j: Id) {
    actions != [] &&
    var init, a := actions[..|actions| - 1], actions[|actions| - 1];
    var s, s2 := Run(s0, loc, init), Run(s0, loc, actions);
    && j in s.db.jobs && j in s2.db.jobs && Final(s2.db.jobs[j].status)
    && (Broken(s0, loc, init, j) || Breaks(s, a, j))
  }

  /** So in every run from an empty database the rows of a job agree exactly when nothing
      has broken the agreement since the job was last pending or processing. */
  lemma {:induction false} AgreedExactlyWhen(s0: State, loc: Locale, actions: seq<Action>, j: Id)
    requires Init(s0) && j in Run(s0, loc, actions).db.jobs
    ensures Agreed(Run(s0, loc, actions), j) <==> !Broken(s0, loc, actions, j)
    decreases |actions|
  {
    hide Inv, Agreed, Breaks, Apply;
    if actions != [] {
      var init, a := actions[..|actions| - 1], actions[|actions| - 1];
      var s := Run(s0, loc, init);
      InitInv(s0, loc);
      RunInv(s0, loc, init);
      if j in s.db.jobs {
        AgreedExactlyWhen(s0, loc, init, j);
        AgreementExactly(s, loc, a, j);
      } else {
        NewJobAgrees(s, loc, a, j);
      }
    }
  }

  lemma OnlyCreateAddsJobs(s: State, loc: Locale, a: Action)
    requires CoreOk(s, loc) && !a.Create?
    ensures Apply(s, loc, a).db.jobs.Keys == s.db.jobs.Keys
  {
    hide CoreOk, AfterWork;
    match a
    case Work(i, supply) => JobRequests.WorkKeepsSegments(s, loc, i, supply);
    case _ =>
  }

  lemma NewJobAgrees(s: State, loc: Locale, a: Action, j: Id)
    requires Inv(s, loc) && j !in s.db.jobs && j in Apply(s, loc, a).db.jobs
    ensures Agreed(Apply(s, loc, a), j)
  {
    hide CoreOk, ClaimsOk, AllVideos, Completing, Somewhere, AfterCreate;
    if a.Create? {
      NewRow(s, loc, a.req, a.draw);
    } else {
      OnlyCreateAddsJobs(s, loc, a);
    }
  }
}
