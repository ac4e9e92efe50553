/** What runs do to a job's times and claims, and what retention may rely on. */
module JobHistory {
  import opened Wrappers
  import opened Tables
  import opened Pipeline
  import opened JobInvariants
  import opened JobSystem
  import opened JobInductive
  import opened JobIntake
  import JobProgress
  import Chunker
  import Sql

  // ---- times and claims

  /** finished_at is set exactly while a job is final, started_at is unset exactly while
      it is pending, and it was claimed retry_count + 1 times, one less while pending. */
  lemma TimesAndClaims(s: State, loc: Locale, j: Id)
    requires Reachable(s, loc) && j in s.db.jobs
    ensures s.db.jobs[j].finishedAt.Some? <==> Final(s.db.jobs[j].status)
    ensures s.db.jobs[j].startedAt.None? <==> s.db.jobs[j].status == Pending
    ensures j in s.claims
    ensures s.claims[j] == s.db.jobs[j].retryCount + (if s.db.jobs[j].status == Pending then 0 else 1)
  {
    ReachableInv(s, loc);
    hide TablesOk, WorkersOk, Exclusive;
    assert JobOk(s.db, j);
  }

  lemma {:induction false} AttachKeepsJobs(db: Db, v: Id, segments: seq<Id>)
    ensures var r := Sql.AttachVideoSegments(db, v, segments); r.Some? ==> r.value.jobs == db.jobs
  {
    if segments != [] {
      AttachKeepsJobs(db, v, segments[..|segments| - 1]);
    }
  }

  lemma {:induction false} InsertKeepsJobs(db: Db, rows: seq<ChunkRow>)
    ensures var r := Sql.InsertChunks(db, rows); r.Some? ==> r.value.jobs == db.jobs
  {
    if rows != [] {
      InsertKeepsJobs(db, rows[..|rows| - 1]);
    }
  }

  /** A row that is final afterwards was so before with the same time, or got the time
      of this moment. */
  predicate FinalNowOrBefore(db: Db, db2: Db, j: Id, now: Time) {
    j in db2.jobs && Final(db2.jobs[j].status) ==>
      db2.jobs[j].finishedAt == Some(now)
      || (j in db.jobs && Final(db.jobs[j].status) && db2.jobs[j].finishedAt == db.jobs[j].finishedAt)
  }

  lemma FinalAfterUpdate(db: Db, id: Id, tenant: Id, status: JobStatus, stage: Stage, error: Option<string>,
                         now: Time, j: Id)
    ensures var r := Sql.UpdateJobStatus(db, id, tenant, status, stage, error, now);
            r.Some? ==> FinalNowOrBefore(db, r.value, j, now)
  {
  }

  lemma FinalAfterOthers(db: Db, db2: Db, j: Id, now: Time)
    requires db2.jobs == db.jobs
    ensures FinalNowOrBefore(db, db2, j, now)
  {
  }

  predicate UpdatesJob(p: Point) {
    p == Download || p == Recognize || p == Split || p == Embed || p == CompleteJob || p == FailJob
  }

  lemma EarlyStatementsKeepJobs(db: Db, w: Worker, s: Supply)
    requires w.Busy?
    ensures DoLoad(db, w, s).0.jobs == db.jobs && DoCleanup(db, w, s).0.jobs == db.jobs
    ensures DoInsert(db, w, s).0.jobs == db.jobs && DoStore(db, w, s).0.jobs == db.jobs
  {
    if s.ok {
    }
  }

  lemma LateStatementsKeepJobs(db: Db, w: Worker, s: Supply)
    requires w.Busy?
    ensures DoCompleteVideo(db, w, s).0.jobs == db.jobs && DoSummarize(db, w, s).0.jobs == db.jobs
    ensures DoFailVideo(db, w, s).0.jobs == db.jobs
  {
    if s.ok {
    }
  }

  lemma SegmentStatementsKeepJobs(db: Db, loc: Locale, w: Worker, s: Supply)
    requires w.Busy?
    ensures DoListNames(db, loc, w, s).0.jobs == db.jobs && DoEnsure(db, loc, w, s).0.jobs == db.jobs
    ensures DoAttach(db, w, s).0.jobs == db.jobs
  {
    AttachKeepsJobs(db, w.video, w.segments);
  }

  lemma OthersKeepJobs(db: Db, loc: Locale, w: Worker, s: Supply)
    requires w.Busy? && !UpdatesJob(w.at)
    ensures Step(db, loc, w, s).0.jobs == db.jobs
  {
    hide DoLoad, DoCleanup, DoInsert, DoListNames, DoEnsure, DoAttach, DoStore, DoInsertChunks, DoCompleteVideo,
      DoSummarize, DoFailVideo;
    EarlyStatementsKeepJobs(db, w, s);
    LateStatementsKeepJobs(db, w, s);
    SegmentStatementsKeepJobs(db, loc, w, s);
    ChunksKeepJobs(db, w, s);
  }

  lemma FinalAfterStep(db: Db, loc: Locale, w: Worker, s: Supply, j: Id)
    requires w.Busy?
    ensures FinalNowOrBefore(db, Step(db, loc, w, s).0, j, s.now)
  {
    hide FinalNowOrBefore, Sql.UpdateJobStatus;
    FinalAfterOthers(db, db, j, s.now);
    if !UpdatesJob(w.at) {
      OthersKeepJobs(db, loc, w, s);
      FinalAfterOthers(db, Step(db, loc, w, s).0, j, s.now);
    } else {
      match w.at
      case Download => FinalAfterUpdate(db, w.job, w.row.tenant, Processing, Downloading, None, s.now, j);
      case Recognize =>
        FinalAfterUpdate(db, w.job, w.row.tenant, Processing, RecognizeStage(w.row.kind), None, s.now, j);
      case Split => FinalAfterUpdate(db, w.job, w.row.tenant, Processing, Chunking, None, s.now, j);
      case Embed => FinalAfterUpdate(db, w.job, w.row.tenant, Processing, Embedding, None, s.now, j);
      case CompleteJob => FinalAfterUpdate(db, w.job, w.row.tenant, Completed, Finished, None, s.now, j);
      case FailJob => FinalAfterUpdate(db, w.job, w.row.tenant, Failed, w.row.stage, Some(s.message), s.now, j);
    }
  }

  lemma ChunksKeepJobs(db: Db, w: Worker, s: Supply)
    requires w.Busy?
    ensures DoInsertChunks(db, w, s).0.jobs == db.jobs
  {
    var sections := Chunker.Sections(w.transcript.content);
    if |s.vectors| == |sections| {
      InsertKeepsJobs(db, ChunkRows(w.video, w.row.tenant, sections, s.vectors));
    }
  }

  lemma FinalAfterCreate(s: State, loc: Locale, req: JobRequest, draw: Draw, j: Id)
    requires TablesOk(s.db, loc)
    ensures FinalNowOrBefore(s.db, AfterCreate(s, loc, req, draw).db, j, s.now)
  {
    var d := draw.(now := s.now);
    if |draw.segmentIds| == |req.segments| && JobIntake.CreateJob(s.db, loc, req, d).Success? {
      TablesParts(s.db, loc);
      hide TablesOk;
      var i, ids := JobIntake.CreatedJob(s.db, AfterCreate(s, loc, req, draw).db, loc, req, d);
    }
  }

  lemma FinalAfter(s: State, loc: Locale, a: Action, j: Id)
    requires CoreOk(s, loc)
    ensures FinalNowOrBefore(s.db, Apply(s, loc, a).db, j, s.now)
    ensures a.Tick? || Apply(s, loc, a).now == s.now
    ensures a.Tick? ==> Apply(s, loc, a).db == s.db && Apply(s, loc, a).now >= s.now
  {
    hide TablesOk, JobsOk, WorkersOk, Exclusive;
    match a
    case Create(req, draw) =>
      FinalAfterCreate(s, loc, req, draw, j);
    case Work(i, supply) =>
      if i < |s.workers| && s.workers[i].Busy? {
        FinalAfterStep(s.db, loc, s.workers[i], supply.(now := s.now), j);
      }
    case _ =>
  }

  lemma {:induction false} ClockGoesOn(s: State, loc: Locale, actions: seq<Action>)
    requires Inv(s, loc)
    ensures Run(s, loc, actions).now >= s.now
    decreases |actions|
  {
    hide Inv, Apply;
    if actions != [] {
      var init := actions[..|actions| - 1];
      ClockGoesOn(s, loc, init);
      RunInv(s, loc, init);
      OneTick(Run(s, loc, init), loc, actions[|actions| - 1]);
    }
  }

  lemma OneTick(s: State, loc: Locale, a: Action)
    requires Inv(s, loc)
    ensures Apply(s, loc, a).now >= s.now
  {
    FinalAfter(s, loc, a, 0);
  }

  /** What FinalAfter says of one action, with the clock. */
  lemma FinalBefore(s: State, loc: Locale, a: Action, j: Id)
    requires Inv(s, loc) && j in Apply(s, loc, a).db.jobs && Final(Apply(s, loc, a).db.jobs[j].status)
    ensures var f := Apply(s, loc, a).db.jobs[j].finishedAt;
            f == Some(s.now) || (j in s.db.jobs && Final(s.db.jobs[j].status) && s.db.jobs[j].finishedAt == f)
  {
    FinalAfter(s, loc, a, j);
  }

  /** A final job was final at every earlier moment after its finishing time. */
  lemma {:induction false} FinalWithoutBreak(s: State, loc: Locale, actions: seq<Action>, k: nat, j: Id)
    requires Inv(s, loc) && k <= |actions|
    requires var last := Run(s, loc, actions);
             j in last.db.jobs && Final(last.db.jobs[j].status) && last.db.jobs[j].finishedAt.Some?
             && last.db.jobs[j].finishedAt.value < Run(s, loc, actions[..k]).now
    ensures var earlier := Run(s, loc, actions[..k]); j in earlier.db.jobs && Final(earlier.db.jobs[j].status)
    decreases |actions| - k
  {
    hide Inv, Apply;
    if k == |actions| {
      assert actions[..k] == actions;
    } else {
      var init, a := actions[..|actions| - 1], actions[|actions| - 1];
      var before := Run(s, loc, init);
      RunInv(s, loc, init);
      FinalBefore(before, loc, a, j);
      assert init[..k] == actions[..k] && init[k..] == actions[k..|actions| - 1];
      assert init == init[..k] + init[k..];
      JobProgress.RunRun(s, loc, init[..k], init[k..]);
      RunInv(s, loc, init[..k]);
      ClockGoesOn(Run(s, loc, init[..k]), loc, init[k..]);
      FinalWithoutBreak(s, loc, init, k, j);
    }
  }

  /** A job listed for retention has been final at every moment of the last `age` time
      units of the run. */
  lemma RetentionIsOld(s: State, loc: Locale, actions: seq<Action>, age: nat, k: nat, j: Id)
    requires Reachable(s, loc) && k <= |actions|
    requires var last := Run(s, loc, actions);
             && j in Sql.ListJobsForRetention(last.db, last.now - age)
             && Run(s, loc, actions[..k]).now > last.now - age
    ensures var earlier := Run(s, loc, actions[..k]); j in earlier.db.jobs && Final(earlier.db.jobs[j].status)
  {
    hide Inv, Run, Reachable;
    ReachableInv(s, loc);
    FinalWithoutBreak(s, loc, actions, k, j);
  }
}
