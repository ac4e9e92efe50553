/** What the rows of jobs, videos and intents record: after every action each row is
    exactly what was there before, with what this action did to it. The records are
    written down independently of the statements, from who did what. */
module JobRecords {
  import opened Wrappers
  import opened Tables
  import opened Pipeline
  import opened JobInvariants
  import opened JobSystem
  import opened JobInductive
  import opened JobAgreement
  import Chunker
  import JobFailures
  import JobHistory
  import JobIntake
  import JobProgress
  import Sql

  // ---- the record of a job

  /** The job claims of action a: a free worker takes a pending job. */
  predicate Claims(s: State, a: Action, j: Id) {
    a.Claim? && a.job == j && a.worker < |s.workers| && s.workers[a.worker] == Idle
    && j in s.db.jobs && s.db.jobs[j].status == Pending
  }

  /** The tenant of a failed job retries it. */
  predicate Retries(s: State, a: Action, j: Id) {
    a.Retry? && a.job == j && j in s.db.jobs && s.db.jobs[j].tenant == a.tenant && s.db.jobs[j].status == Failed
  }

  /** A worker of the job gets through to the database. */
  predicate Writes(s: State, a: Action, j: Id) {
    a.Work? && a.worker < |s.workers| && s.workers[a.worker].Busy? && s.workers[a.worker].job == j && a.supply.ok
  }

  /** A write of a worker at the point to its job's row. Failing records the stage that
      failed: the one shown, or the embedding if the job was already completed. */
  function Written(row: Job, p: Point, message: string, now: Time): Job {
    match p
    case Download => row.(stage := Downloading)
    case Recognize => row.(stage := if row.kind == PdfKind then Parsing else Transcribing)
    case Split => row.(stage := Chunking)
    case Embed => row.(stage := Stage.Embedding)
    case CompleteJob => row.(status := Completed, stage := Finished, finishedAt := Some(now))
    case FailJob =>
      row.(status := Failed, stage := if row.status == Completed then Stage.Embedding else row.stage,
           error := Some(message), finishedAt := Some(now))
    case _ => row
  }

  /** The row of a job after the action. */
  function Recorded(s: State, a: Action, j: Id): Job
    requires j in s.db.jobs
  {
    var row := s.db.jobs[j];
    if Claims(s, a, j) then row.(status := Processing, stage := Downloading, startedAt := Some(s.now))
    else if Retries(s, a, j) then
      row.(status := Pending, stage := Queued, error := None, startedAt := None, finishedAt := None,
           retryCount := row.retryCount + 1)
    else if Writes(s, a, j) then Written(row, s.workers[a.worker].at, a.supply.message, s.now)
    else row
  }

  /** What a worker knows of its job's row: the stage shown, or the last one before the
      completion. */
  predicate Knows(db: Db, w: Worker) {
    Inside(w) ==>
      && w.job in db.jobs
      && w.row.stage == (if db.jobs[w.job].status == Completed then Stage.Embedding else db.jobs[w.job].stage)
      && (11 <= Rank(w.at) <= 14 ==> w.row.stage == Stage.Embedding)
  }

  /** An error is told exactly while the job is failed, and every worker knows its stage. */
  predicate Told(s: State) {
    && (forall j | j in s.db.jobs :: s.db.jobs[j].error.Some? <==> s.db.jobs[j].status == Failed)
    && forall i | 0 <= i < |s.workers| :: Knows(s.db, s.workers[i])
  }

  // ---- a worker's own write

  lemma StageWritten(db: Db, w: Worker, stage: Stage, next: Point, s: Supply)
    requires Inside(w) && w.job in db.jobs && db.jobs[w.job].tenant == w.row.tenant && Knows(db, w)
    requires db.jobs[w.job].status == Processing && db.jobs[w.job].error.None? && db.jobs[w.job].startedAt.Some?
    requires Rank(next) <= 10 || (Rank(next) == 11 && stage == Stage.Embedding)
    ensures var (db2, w2) := SetStage(db, w, stage, next, s);
            && db2.jobs == (if s.ok then db.jobs[w.job := db.jobs[w.job].(stage := stage)] else db.jobs)
            && Knows(db2, w2)
  {
  }

  lemma CompletionWritten(db: Db, w: Worker, s: Supply)
    requires Inside(w) && w.at == CompleteJob && w.job in db.jobs && db.jobs[w.job].tenant == w.row.tenant
    requires Knows(db, w) && db.jobs[w.job].error.None? && db.jobs[w.job].status == Processing
    requires db.jobs[w.job].startedAt.Some?
    ensures var (db2, w2) := DoCompleteJob(db, w, s);
            && db2.jobs == (if s.ok then db.jobs[w.job := Written(db.jobs[w.job], CompleteJob, "", s.now)] else db.jobs)
            && Knows(db2, w2)
  {
  }

  lemma FailureWritten(db: Db, w: Worker, s: Supply)
    requires Inside(w) && w.at == FailJob && w.job in db.jobs && db.jobs[w.job].tenant == w.row.tenant
    requires Knows(db, w) && db.jobs[w.job].startedAt.Some?
    ensures var (db2, w2) := DoFailJob(db, w, s);
            && db2.jobs == (if s.ok then db.jobs[w.job := Written(db.jobs[w.job], FailJob, s.message, s.now)]
                            else db.jobs)
            && Knows(db2, w2)
  {
  }

  /** A step that leaves the job rows alone and goes on or gives up. */
  lemma KnowsOn(db: Db, db2: Db, w: Worker, w2: Worker)
    requires Inside(w) && Knows(db, w) && db2.jobs == db.jobs
    requires w2.Busy? ==> w2.job == w.job && w2.row.stage == w.row.stage
    requires w2.Busy? && 11 <= Rank(w2.at) <= 14 ==> 11 <= Rank(w.at) <= 14
    ensures Knows(db2, w2)
  {
  }

  /** The other statements leave the worker's record of the row as it is, and lead no
      further than to the next. */
  lemma KeepsRow(db: Db, loc: Locale, w: Worker, s: Supply)
    requires w.Busy? && w.at != Load && !JobHistory.UpdatesJob(w.at)
    ensures var w2 := Step(db, loc, w, s).1;
            w2.Busy? ==> w2.job == w.job && w2.row == w.row
                         && (11 <= Rank(w2.at) <= 14 ==> 11 <= Rank(w.at) <= 14)
  {
    hide Sql.DeleteVideoByJobID, Sql.CreateVideo, Sql.EnsureSegment, Sql.EnsuredSegment;
    hide Sql.AttachVideoSegments, Sql.UpsertTranscript, Sql.InsertChunks, ListNamesByJob, Chunker.Sections;
    hide Sql.UpdateVideoStatus, Sql.FailVideoByJobID, Sql.UpsertSummary;
  }

  lemma LoadKnows(db: Db, loc: Locale, w: Worker, s: Supply)
    requires Inside(w) && w.at == Load && Knows(db, w) && w.job in db.jobs && db.jobs[w.job].status == Processing
    ensures var (db2, w2) := Step(db, loc, w, s); db2.jobs == db.jobs && Knows(db2, w2)
  {
  }

  /** What is needed of a job row for a worker inside. */
  lemma RowInside(db: Db, loc: Locale, w: Worker)
    requires Inside(w) && WorkerOk(db, loc, w) && JobOk(db, w.job)
    ensures w.job in db.jobs && db.jobs[w.job].tenant == w.row.tenant && db.jobs[w.job].kind == w.row.kind
    ensures StatusFits(w.at, db.jobs[w.job].status) && db.jobs[w.job].startedAt.Some?
    ensures db.jobs[w.job].status == Processing || db.jobs[w.job].status == Completed
  {
    hide Progress, NoneCompleted, HasIngested;
  }

  lemma WritesAreRecorded(db: Db, loc: Locale, w: Worker, s: Supply)
    requires Inside(w) && WorkerOk(db, loc, w) && JobOk(db, w.job) && Knows(db, w)
    requires w.job in db.jobs && db.jobs[w.job].error.None?
    ensures var (db2, w2) := Step(db, loc, w, s);
            && db2.jobs == (if s.ok then db.jobs[w.job := Written(db.jobs[w.job], w.at, s.message, s.now)] else db.jobs)
            && Knows(db2, w2)
  {
    RowInside(db, loc, w);
    hide WorkerOk, JobOk, SetStage, DoCompleteJob, DoFailJob, Knows;
    match w.at
    case Download => StageWritten(db, w, Downloading, Recognize, s);
    case Recognize => StageWritten(db, w, RecognizeStage(w.row.kind), Store, s);
    case Split => StageWritten(db, w, Chunking, Embed, s);
    case Embed => StageWritten(db, w, Stage.Embedding, InsertChunks, s);
    case CompleteJob => CompletionWritten(db, w, s);
    case FailJob => FailureWritten(db, w, s);
    case _ => OtherStatements(db, loc, w, s);
  }

  lemma OtherStatements(db: Db, loc: Locale, w: Worker, s: Supply)
    requires Inside(w) && Knows(db, w) && w.job in db.jobs && !JobHistory.UpdatesJob(w.at)
    requires w.at == Load ==> db.jobs[w.job].status == Processing
    ensures var (db2, w2) := Step(db, loc, w, s);
            && db2.jobs == db.jobs && db.jobs == db.jobs[w.job := db.jobs[w.job]]
            && Written(db.jobs[w.job], w.at, s.message, s.now) == db.jobs[w.job] && Knows(db2, w2)
  {
    JobHistory.OthersKeepJobs(db, loc, w, s);
    if w.at == Load {
      LoadKnows(db, loc, w, s);
    } else {
      KeepsRow(db, loc, w, s);
      hide Step;
      KnowsOn(db, Step(db, loc, w, s).0, w, Step(db, loc, w, s).1);
    }
  }

  // ---- every action

  lemma InsideRecorded(s: State, loc: Locale, i: nat, supply: Supply)
    requires Inv(s, loc) && Told(s) && i < |s.workers| && Inside(s.workers[i])
    ensures var w, s2 := s.workers[i], AfterWork(s, loc, i, supply);
            && w.job in s.db.jobs
            && s2.db.jobs == (if supply.ok
                              then s.db.jobs[w.job := Written(s.db.jobs[w.job], w.at, supply.message, s.now)]
                              else s.db.jobs)
            && s2.workers == s.workers[i := s2.workers[i]] && Knows(s2.db, s2.workers[i])
  {
    hide CoreOk, ClaimsOk, Step, WorkerOk, JobOk, Knows, Written, AfterWork;
    HereAgrees(s, loc, i);
    InsideStatuses(s.db, loc, s.workers[i]);
    assert Knows(s.db, s.workers[i]);
    WritesAreRecorded(s.db, loc, s.workers[i], supply.(now := s.now));
    WorkResult(s, loc, i, supply);
  }

  /** A worker at the last write of `fail`, or an idle one. */
  lemma OutsideRecorded(s: State, loc: Locale, i: nat, supply: Supply)
    requires !(i < |s.workers| && Inside(s.workers[i]))
    ensures var s2 := AfterWork(s, loc, i, supply);
            && s2.db.jobs == s.db.jobs && |s2.workers| == |s.workers|
            && forall k | 0 <= k < |s.workers| :: s2.workers[k] == s.workers[k] || s2.workers[k] == Idle
  {
    hide Step;
    if i < |s.workers| && s.workers[i].Busy? {
      FailVideoOrNothing(s.db, loc, s.workers[i], supply.(now := s.now));
    }
  }

  lemma NotClaimed(s: State, i: nat, j: Id)
    requires j in s.db.jobs && !Claims(s, Claim(i, j), j)
    ensures AfterClaim(s, i, j) == s
  {
  }

  lemma NotRetried(s: State, tenant: Id, j: Id)
    requires j in s.db.jobs && !Retries(s, Retry(j, tenant), j)
    ensures AfterRetry(s, j, tenant) == s
  {
  }

  /** What was not an effective claim, retry or write changes no job row. */
  lemma QuietRows(s: State, loc: Locale, a: Action, j: Id)
    requires Inv(s, loc) && j in s.db.jobs && !a.Work? && !Claims(s, a, j) && !Retries(s, a, j)
    ensures var s2 := Apply(s, loc, a); j in s2.db.jobs && s2.db.jobs[j] == s.db.jobs[j]
  {
    hide CoreOk, ClaimsOk, AfterIntent, AfterCreate, AfterClaim, AfterRetry, AfterSoftDelete, Claims, Retries;
    match a
    case CreateIntent(id, tenant, fileKey, contentType, expiresAt) =>
      JobFailures.IntentKeepsJobs(s, id, tenant, fileKey, contentType, expiresAt);
    case Create(req, draw) => NewRow(s, loc, req, draw);
    case Claim(i, k) =>
      if k == j {
        NotClaimed(s, i, j);
      } else {
        JobFailures.ClaimKeepsOthers(s, i, k, j);
      }
    case Die(i) =>
    case Retry(k, tenant) =>
      if k == j {
        NotRetried(s, tenant, j);
      } else {
        JobFailures.RetryKeepsOthers(s, k, tenant, j);
      }
    case SoftDelete(v, tenant) => JobFailures.DeletionKeepsJobs(s, v, tenant);
    case Tick(elapsed) =>
  }

  lemma ClaimRecorded(s: State, loc: Locale, a: Action, j: Id)
    requires Inv(s, loc) && Claims(s, a, j)
    ensures var s2 := Apply(s, loc, a);
            && s2.db.jobs == s.db.jobs[j := Recorded(s, a, j)]
            && s2.workers == s.workers[a.worker := s2.workers[a.worker]] && Knows(s2.db, s2.workers[a.worker])
  {
    hide TablesOk, WorkersOk, Exclusive, ClaimsOk, HasIngested, NoneCompleted;
    assert JobOk(s.db, j);
  }

  lemma RetryRecorded(s: State, loc: Locale, a: Action, j: Id)
    requires Retries(s, a, j)
    ensures var s2 := Apply(s, loc, a);
            s2.db.jobs == s.db.jobs[j := Recorded(s, a, j)] && s2.workers == s.workers
  {
  }

  /** After every action each job's row is the record of what was there and was done. */
  lemma RecordedExactly(s: State, loc: Locale, a: Action, j: Id)
    requires Inv(s, loc) && Told(s) && j in s.db.jobs
    ensures var s2 := Apply(s, loc, a); j in s2.db.jobs && s2.db.jobs[j] == Recorded(s, a, j)
  {
    hide Inv, Told, Knows, Written, AfterWork, AfterClaim, AfterRetry;
    if a.Work? {
      if a.worker < |s.workers| && Inside(s.workers[a.worker]) {
        InsideRecorded(s, loc, a.worker, a.supply);
      } else {
        OutsideRecorded(s, loc, a.worker, a.supply);
        FailVideoWritesNothing(s.db.jobs[j], a.supply.message, s.now);
      }
    } else if Claims(s, a, j) {
      ClaimRecorded(s, loc, a, j);
    } else if Retries(s, a, j) {
      RetryRecorded(s, loc, a, j);
    } else {
      QuietRows(s, loc, a, j);
    }
  }

  lemma FailVideoWritesNothing(row: Job, message: string, now: Time)
    ensures Written(row, FailVideo, message, now) == row
  {
  }

  // ---- in every run

  /** A new row is as a request leaves it: queued and untouched. */
  predicate Fresh(row: Job) {
    row.status == Pending && row.stage == Queued && row.error.None? && row.retryCount == 0
    && row.startedAt.None? && row.finishedAt.None?
  }

  lemma NewRowIsFresh(s: State, loc: Locale, a: Action, j: Id)
    requires Inv(s, loc) && j !in s.db.jobs && j in Apply(s, loc, a).db.jobs
    ensures a.Create? && Apply(s, loc, a).workers == s.workers && Fresh(Apply(s, loc, a).db.jobs[j])
  {
    hide CoreOk, ClaimsOk, AfterWork;
    if a.Create? {
      NewRow(s, loc, a.req, a.draw);
      FreshInsertion(s, loc, a.req, a.draw, j);
    } else {
      OnlyCreateAddsJobs(s, loc, a);
    }
  }

  lemma FreshInsertion(s: State, loc: Locale, req: JobIntake.JobRequest, draw: JobIntake.Draw, j: Id)
    requires Inv(s, loc) && j !in s.db.jobs && j in AfterCreate(s, loc, req, draw).db.jobs
    ensures Fresh(AfterCreate(s, loc, req, draw).db.jobs[j])
  {
    TablesParts(s.db, loc);
    hide CoreOk, ClaimsOk, TablesOk, JobIntake.CreateJob, JobIntake.NamedSo, SegmentsUnique, SegmentsKept;
    var d, s2 := draw.(now := s.now), AfterCreate(s, loc, req, draw);
    if |draw.segmentIds| == |req.segments| && JobIntake.CreateJob(s.db, loc, req, d).Success? {
      var i, ids := JobIntake.CreatedJob(s.db, s2.db, loc, req, d);
    }
  }

  lemma RecordTold(row: Job, p: Point, message: string, now: Time)
    requires row.error.Some? <==> row.status == Failed
    requires row.status == Processing || row.status == Completed
    ensures var row2 := Written(row, p, message, now); row2.error.Some? <==> row2.status == Failed
  {
  }

  lemma ErrorsKept(s: State, loc: Locale, a: Action, j: Id)
    requires Inv(s, loc) && Told(s) && j in Apply(s, loc, a).db.jobs
    ensures var row := Apply(s, loc, a).db.jobs[j]; row.error.Some? <==> row.status == Failed
  {
    hide CoreOk, ClaimsOk, Knows, Written, Apply;
    if j !in s.db.jobs {
      NewRowIsFresh(s, loc, a, j);
    } else {
      RecordedExactly(s, loc, a, j);
      if Writes(s, a, j) {
        var w := s.workers[a.worker];
        if Inside(w) {
          HereAgrees(s, loc, a.worker);
          InsideStatuses(s.db, loc, w);
          RecordTold(s.db.jobs[j], w.at, a.supply.message, s.now);
        } else {
          FailVideoWritesNothing(s.db.jobs[j], a.supply.message, s.now);
        }
      }
    }
  }

  /** A worker whose job's row is as it was knows what it knew. */
  lemma StillKnows(db: Db, db2: Db, w: Worker)
    requires Knows(db, w) && (Inside(w) && w.job in db.jobs ==> w.job in db2.jobs && db2.jobs[w.job] == db.jobs[w.job])
    ensures Knows(db2, w)
  {
  }

  /** Nobody is inside a job that is claimed or retried, or that another worker writes. */
  lemma OthersElsewhere(s: State, loc: Locale, a: Action, k: nat)
    requires Inv(s, loc) && Told(s) && k < |s.workers| && Inside(s.workers[k]) && !(a.Work? && a.worker == k)
    ensures var j := s.workers[k].job; j in s.db.jobs && Recorded(s, a, j) == s.db.jobs[j]
  {
    hide CoreOk, ClaimsOk, Knows, Written;
    HereAgrees(s, loc, k);
    InsideStatuses(s.db, loc, s.workers[k]);
    if Writes(s, a, s.workers[k].job) {
      assert !Inside(s.workers[a.worker]);
      FailVideoWritesNothing(s.db.jobs[s.workers[k].job], a.supply.message, s.now);
    }
  }

  lemma OwnKnowledge(s: State, loc: Locale, a: Action, k: nat)
    requires Inv(s, loc) && Told(s) && k < |s.workers| && k < |Apply(s, loc, a).workers|
    requires (a.Work? || a.Claim? || a.Die?) && a.worker == k
    ensures Knows(Apply(s, loc, a).db, Apply(s, loc, a).workers[k])
  {
    hide CoreOk, ClaimsOk, Written, AfterWork, AfterClaim;
    assert Knows(s.db, s.workers[k]);
    hide Told, Knows;
    if a.Work? {
      if Inside(s.workers[k]) {
        InsideRecorded(s, loc, k, a.supply);
      } else {
        OutsideRecorded(s, loc, k, a.supply);
        Outsider(Apply(s, loc, a).db, Apply(s, loc, a).workers[k]);
      }
    } else if a.Claim? {
      if Claims(s, a, a.job) {
        ClaimRecorded(s, loc, a, a.job);
      } else {
        ClaimedNothing(s, k, a.job);
      }
    } else {
      DeadKnows(s, k);
    }
  }

  lemma ClaimedNothing(s: State, i: nat, j: Id)
    requires !Claims(s, Claim(i, j), j)
    ensures AfterClaim(s, i, j) == s
  {
  }

  lemma Outsider(db: Db, w: Worker)
    requires !Inside(w)
    ensures Knows(db, w)
  {
  }

  lemma DeadKnows(s: State, i: nat)
    requires i < |s.workers| && Knows(s.db, s.workers[i])
    ensures AfterDeath(s, i).db == s.db && Knows(s.db, AfterDeath(s, i).workers[i])
  {
  }

  lemma ToldKept(s: State, loc: Locale, a: Action)
    requires Inv(s, loc) && Told(s)
    ensures Told(Apply(s, loc, a))
  {
    hide CoreOk, ClaimsOk, Knows, Recorded, Apply;
    var s2 := Apply(s, loc, a);
    forall j | j in s2.db.jobs ensures s2.db.jobs[j].error.Some? <==> s2.db.jobs[j].status == Failed {
      ErrorsKept(s, loc, a, j);
    }
    OthersStay(s, loc, a);
    forall k | 0 <= k < |s2.workers| ensures Knows(s2.db, s2.workers[k]) {
      if (a.Work? || a.Claim? || a.Die?) && a.worker == k {
        OwnKnowledge(s, loc, a, k);
      } else {
        if Inside(s.workers[k]) {
          OthersElsewhere(s, loc, a, k);
          RecordedExactly(s, loc, a, s.workers[k].job);
        }
        StillKnows(s.db, s2.db, s.workers[k]);
      }
    }
  }

  lemma OthersStay(s: State, loc: Locale, a: Action)
    ensures var s2 := Apply(s, loc, a);
            && |s2.workers| == |s.workers|
            && forall k | 0 <= k < |s.workers| && !((a.Work? || a.Claim? || a.Die?) && a.worker == k) ::
                 s2.workers[k] == s.workers[k]
  {
    hide Step, JobIntake.CreateJob;
  }

  lemma {:induction false} RunTold(s0: State, loc: Locale, actions: seq<Action>)
    requires Init(s0)
    ensures Inv(Run(s0, loc, actions), loc) && Told(Run(s0, loc, actions))
    decreases |actions|
  {
    hide Inv, Told, Apply;
    InitInv(s0, loc);
    RunInv(s0, loc, actions);
    if actions == [] {
      NothingTold(s0);
    } else {
      RunTold(s0, loc, actions[..|actions| - 1]);
      ToldKept(Run(s0, loc, actions[..|actions| - 1]), loc, actions[|actions| - 1]);
    }
  }

  lemma NothingTold(s: State)
    requires Init(s)
    ensures Told(s)
  {
  }

  // ---- the two times of a job

  /** The time of the last action of the run that claimed the job. */
  ghost function LatestClaim(s0: State, loc: Locale, actions: seq<Action>, j: Id): Option<Time> {
    if actions == [] then None
    else
      var init := actions[..|actions| - 1];
      var s := Run(s0, loc, init);
      if Claims(s, actions[|actions| - 1], j) then Some(s.now) else LatestClaim(s0, loc, init, j)
  }

  /** A worker of the job writes its completion or its failure. */
  predicate Ends(s: State, a: Action, j: Id) {
    Writes(s, a, j) && (s.workers[a.worker].at == CompleteJob || s.workers[a.worker].at == FailJob)
  }

  /** The time of the last action of the run that completed or failed the job. */
  ghost function LatestEnd(s0: State, loc: Locale, actions: seq<Action>, j: Id): Option<Time> {
    if actions == [] then None
    else
      var init := actions[..|actions| - 1];
      var s := Run(s0, loc, init);
      if Ends(s, actions[|actions| - 1], j) then Some(s.now) else LatestEnd(s0, loc, init, j)
  }

  /** The times move at claims and ends only. */
  predicate TimesMoved(row: Job, row2: Job, claims: bool, ends: bool, now: Time) {
    && (claims ==> row2.status == Processing && row2.startedAt == Some(now))
    && (row2.status != Pending && !claims ==> row.status != Pending && row2.startedAt == row.startedAt)
    && (ends ==> Final(row2.status) && row2.finishedAt == Some(now))
    && (Final(row2.status) && !ends ==> Final(row.status) && row2.finishedAt == row.finishedAt)
  }

  lemma RecordMoves(s: State, a: Action, j: Id)
    requires j in s.db.jobs
    requires Writes(s, a, j) && Inside(s.workers[a.worker]) ==>
               s.db.jobs[j].status == Processing || s.db.jobs[j].status == Completed
    ensures TimesMoved(s.db.jobs[j], Recorded(s, a, j), Claims(s, a, j), Ends(s, a, j), s.now)
  {
  }

  lemma TimesMove(s: State, loc: Locale, a: Action, j: Id)
    requires Inv(s, loc) && Told(s) && j in s.db.jobs
    ensures j in Apply(s, loc, a).db.jobs
    ensures TimesMoved(s.db.jobs[j], Apply(s, loc, a).db.jobs[j], Claims(s, a, j), Ends(s, a, j), s.now)
  {
    hide CoreOk, ClaimsOk, Told, Apply, Claims, Ends, Recorded, TimesMoved;
    RecordedExactly(s, loc, a, j);
    if Writes(s, a, j) && Inside(s.workers[a.worker]) {
      HereAgrees(s, loc, a.worker);
      InsideStatuses(s.db, loc, s.workers[a.worker]);
    }
    RecordMoves(s, a, j);
  }

  /** While a job is not pending its starting time is the time of its latest claim: no stage
      update, completion or failure moves it. */
  lemma {:induction false} StartedAtLatestClaim(s0: State, loc: Locale, actions: seq<Action>, j: Id)
    requires Init(s0) && j in Run(s0, loc, actions).db.jobs && Run(s0, loc, actions).db.jobs[j].status != Pending
    ensures LatestClaim(s0, loc, actions, j).Some?
    ensures Run(s0, loc, actions).db.jobs[j].startedAt == LatestClaim(s0, loc, actions, j)
    decreases |actions|
  {
    hide Inv, Told, Apply, Claims, Ends;
    if actions != [] {
      var init, a := actions[..|actions| - 1], actions[|actions| - 1];
      var s := Run(s0, loc, init);
      RunTold(s0, loc, init);
      if j in s.db.jobs {
        TimesMove(s, loc, a, j);
        if !Claims(s, a, j) {
          StartedAtLatestClaim(s0, loc, init, j);
        }
      } else {
        NewRowIsFresh(s, loc, a, j);
      }
    }
  }

  /** While a job is final its finishing time is the time of its latest completion or
      failure. */
  lemma {:induction false} FinishedAtLatestEnd(s0: State, loc: Locale, actions: seq<Action>, j: Id)
    requires Init(s0) && j in Run(s0, loc, actions).db.jobs && Final(Run(s0, loc, actions).db.jobs[j].status)
    ensures LatestEnd(s0, loc, actions, j).Some?
    ensures Run(s0, loc, actions).db.jobs[j].finishedAt == LatestEnd(s0, loc, actions, j)
    decreases |actions|
  {
    hide Inv, Told, Apply, Claims, Ends;
    if actions != [] {
      var init, a := actions[..|actions| - 1], actions[|actions| - 1];
      var s := Run(s0, loc, init);
      RunTold(s0, loc, init);
      if j in s.db.jobs {
        TimesMove(s, loc, a, j);
        if !Ends(s, a, j) {
          FinishedAtLatestEnd(s0, loc, init, j);
        }
      } else {
        NewRowIsFresh(s, loc, a, j);
      }
    }
  }

  /** No action of the run is an effective retry of the job. */
  ghost predicate NeverRetried(s: State, loc: Locale, more: seq<Action>, j: Id) {
    forall n: nat | n < |more| :: !Retries(Run(s, loc, more[..n]), more[n], j)
  }

  /** From its claim on, a job keeps the time of the claim until it is retried. */
  lemma StartStays(s0: State, loc: Locale, actions: seq<Action>, i: nat, j: Id, more: seq<Action>)
    requires Init(s0) && Claims(Run(s0, loc, actions), Claim(i, j), j)
    requires NeverRetried(Run(s0, loc, actions + [Claim(i, j)]), loc, more, j)
    ensures var s := Run(s0, loc, actions);
            var s2 := Run(Apply(s, loc, Claim(i, j)), loc, more);
            j in s2.db.jobs && s2.db.jobs[j].startedAt == Some(s.now)
  {
    hide Inv, Told, Apply, Claims, Run;
    var s, a := Run(s0, loc, actions), Claim(i, j);
    RunTold(s0, loc, actions);
    HasRow(s, a, j);
    TimesMove(s, loc, a, j);
    JobProgress.RunOneMore(s0, loc, actions, a);
    StartStaysFrom(s0, loc, actions + [a], more, j);
  }

  lemma HasRow(s: State, a: Action, j: Id)
    requires Claims(s, a, j)
    ensures j in s.db.jobs
  {
  }

  lemma {:induction false} StartStaysFrom(s0: State, loc: Locale, actions: seq<Action>, more: seq<Action>, j: Id)
    requires Init(s0) && j in Run(s0, loc, actions).db.jobs && Run(s0, loc, actions).db.jobs[j].status != Pending
    requires NeverRetried(Run(s0, loc, actions), loc, more, j)
    ensures var row := Run(s0, loc, actions).db.jobs[j];
            var s2 := Run(Run(s0, loc, actions), loc, more);
            j in s2.db.jobs && s2.db.jobs[j].status != Pending && s2.db.jobs[j].startedAt == row.startedAt
    decreases |more|
  {
    hide Inv, Told, Apply, Claims, Ends, Retries;
    if more != [] {
      var init, a := more[..|more| - 1], more[|more| - 1];
      var s := Run(s0, loc, actions);
      forall n: nat | n < |init| ensures !Retries(Run(s, loc, init[..n]), init[n], j) {
        assert init[..n] == more[..n];
      }
      StartStaysFrom(s0, loc, actions, init, j);
      JobProgress.RunRun(s0, loc, actions, init);
      RunTold(s0, loc, actions + init);
      StillStarted(Run(s, loc, init), loc, a, j);
    }
  }

  lemma StillStarted(s: State, loc: Locale, a: Action, j: Id)
    requires Inv(s, loc) && Told(s) && j in s.db.jobs && s.db.jobs[j].status != Pending && !Retries(s, a, j)
    ensures var s2 := Apply(s, loc, a);
            j in s2.db.jobs && s2.db.jobs[j].status != Pending && s2.db.jobs[j].startedAt == s.db.jobs[j].startedAt
  {
    hide CoreOk, ClaimsOk, Knows, Apply;
    RecordedExactly(s, loc, a, j);
  }

  /** A listing for retention names exactly the final jobs whose latest completion or failure
      is at least the age ago. */
  lemma RetentionListsExactly(s0: State, loc: Locale, actions: seq<Action>, age: int, j: Id)
    requires Init(s0)
    ensures var s := Run(s0, loc, actions);
            j in Sql.ListJobsForRetention(s.db, s.now - age) <==>
              && j in s.db.jobs && (s.db.jobs[j].status == Completed || s.db.jobs[j].status == Failed)
              && LatestEnd(s0, loc, actions, j).Some? && LatestEnd(s0, loc, actions, j).value <= s.now - age
  {
    hide Run, Init, LatestEnd;
    var s := Run(s0, loc, actions);
    if j in s.db.jobs && Final(s.db.jobs[j].status) {
      FinishedAtLatestEnd(s0, loc, actions, j);
    }
  }
}
