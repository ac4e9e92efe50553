/** Runs in which failing goes undisturbed, and jobs that nobody can take up again. */
module JobFailures {
  import opened Tables
  import opened Pipeline
  import opened JobInvariants
  import opened JobSystem
  import opened JobSteps
  import opened JobInductive
  import opened JobAgreement
  import opened JobOutcomes
  import Chunker
  import JobIntake
  import Sql

  // ---- which actions touch a job's row, and who stands where afterwards

  /** The action is one that may change the status of the job. */
  predicate Touches(s: State, a: Action, j: Id) {
    match a
    case Claim(_, k) => k == j
    case Work(i, _) => i < |s.workers| && Inside(s.workers[i]) && s.workers[i].job == j
    case Retry(k, _) => k == j
    case _ => false
  }

  lemma WorkKeepsStatus(s: State, loc: Locale, i: nat, supply: Supply, j: Id)
    requires CoreOk(s, loc) && j in s.db.jobs && i < |s.workers| && s.workers[i].Busy?
    requires !Touches(s, Work(i, supply), j)
    ensures var s2 := AfterWork(s, loc, i, supply); j in s2.db.jobs && s2.db.jobs[j].status == s.db.jobs[j].status
  {
    hide CoreOk, Step, AfterWork, GoodStep, Ready, Untouched;
    var w, sup := s.workers[i], supply.(now := s.now);
    var (db2, w2) := Step(s.db, loc, w, sup);
    WorkResult(s, loc, i, supply);
    if Inside(w) {
      InsideJob(s, loc, i);
      InsideStep(s.db, loc, w, sup);
      UntouchedByGoodStep(s.db, db2, loc, w, w2, j);
      UntouchedVideos(s.db, db2, j, VideoFailed);
    } else {
      FailVideoOrNothing(s.db, loc, w, sup);
    }
  }

  lemma IntentKeepsJobs(s: State, id: Id, tenant: Id, fileKey: string, contentType: string, expiresAt: Time)
    ensures AfterIntent(s, id, tenant, fileKey, contentType, expiresAt).db.jobs == s.db.jobs
  {
    hide KindOf;
  }

  lemma ClaimKeepsOthers(s: State, i: nat, k: Id, j: Id)
    requires j in s.db.jobs && j != k
    ensures j in AfterClaim(s, i, k).db.jobs && AfterClaim(s, i, k).db.jobs[j] == s.db.jobs[j]
  {
  }

  lemma RetryKeepsOthers(s: State, k: Id, tenant: Id, j: Id)
    requires j in s.db.jobs && j != k
    ensures j in AfterRetry(s, k, tenant).db.jobs && AfterRetry(s, k, tenant).db.jobs[j] == s.db.jobs[j]
  {
  }

  lemma DeletionKeepsJobs(s: State, v: Id, tenant: Id)
    ensures AfterSoftDelete(s, v, tenant).db.jobs == s.db.jobs
  {
  }

  lemma ClientKeepsStatus(s: State, loc: Locale, a: Action, j: Id)
    requires j in s.db.jobs && !Touches(s, a, j) && !a.Work? && !a.Create?
    ensures var s2 := Apply(s, loc, a); j in s2.db.jobs && s2.db.jobs[j].status == s.db.jobs[j].status
  {
    hide AfterIntent, AfterClaim, AfterRetry, AfterSoftDelete;
    match a
    case CreateIntent(id, tenant, fileKey, contentType, expiresAt) =>
      IntentKeepsJobs(s, id, tenant, fileKey, contentType, expiresAt);
    case Claim(i, k) => ClaimKeepsOthers(s, i, k, j);
    case Die(i) =>
    case Retry(k, tenant) => RetryKeepsOthers(s, k, tenant, j);
    case SoftDelete(v, tenant) => DeletionKeepsJobs(s, v, tenant);
    case Tick(elapsed) =>
  }

  lemma StatusKept(s: State, loc: Locale, a: Action, j: Id)
    requires CoreOk(s, loc) && j in s.db.jobs && !Touches(s, a, j)
    ensures var s2 := Apply(s, loc, a); j in s2.db.jobs && s2.db.jobs[j].status == s.db.jobs[j].status
  {
    hide CoreOk, AfterWork, AfterCreate, AfterIntent, AfterClaim, AfterRetry, AfterSoftDelete;
    if a.Create? {
      NewRow(s, loc, a.req, a.draw);
    } else if a.Work? {
      if a.worker < |s.workers| && s.workers[a.worker].Busy? {
        WorkKeepsStatus(s, loc, a.worker, a.supply, j);
      } else {
        NothingDone(s, loc, a.worker, a.supply);
      }
    } else {
      ClientKeepsStatus(s, loc, a, j);
    }
  }

  /** Claiming takes only pending jobs and retrying only failed ones. */
  lemma NotTaken(s: State, loc: Locale, a: Action)
    requires a.Claim? || a.Retry?
    requires a.job in s.db.jobs && s.db.jobs[a.job].status != if a.Claim? then Pending else Failed
    ensures Apply(s, loc, a) == s
  {
  }

  lemma NothingDone(s: State, loc: Locale, i: nat, supply: Supply)
    requires !(i < |s.workers| && s.workers[i].Busy?)
    ensures AfterWork(s, loc, i, supply) == s
  {
  }

  /** A statement keeps the worker's job, and only failing the job leads on to failing its
      video. */
  lemma WhereItLeads(db: Db, loc: Locale, w: Worker, s: Supply)
    requires w.Busy?
    ensures var w2 := Step(db, loc, w, s).1;
            w2.Busy? ==> w2.job == w.job && w.at != FailVideo && (w2.at == FailVideo ==> w.at == FailJob)
  {
    hide Sql.UpdateJobStatus, Sql.DeleteVideoByJobID, Sql.CreateVideo, Sql.EnsureSegment, Sql.EnsuredSegment;
    hide Sql.AttachVideoSegments, Sql.UpsertTranscript, Sql.InsertChunks, ListNamesByJob, Chunker.Sections;
    hide Sql.UpdateVideoStatus, Sql.FailVideoByJobID, Sql.UpsertSummary;
  }

  /** The worker is new at its job, or it goes on with it. */
  predicate GoesOn(s: State, a: Action, i: nat, w2: Worker)
    requires i < |s.workers|
  {
    || w2 == s.workers[i]
    || (a.Claim? && a.worker == i && a.job in s.db.jobs && s.db.jobs[a.job].status == Pending
        && w2.Busy? && w2.job == a.job && w2.at == Load)
    || (a.Work? && a.worker == i && s.workers[i].Busy? && w2.Busy? && w2.job == s.workers[i].job
        && s.workers[i].at != FailVideo && (w2.at == FailVideo ==> s.workers[i].at == FailJob))
    || w2 == Idle
  }

  lemma WorkersGoOn(s: State, loc: Locale, a: Action)
    ensures var s2 := Apply(s, loc, a);
            && |s2.workers| == |s.workers|
            && forall i | 0 <= i < |s.workers| :: GoesOn(s, a, i, s2.workers[i])
  {
    hide Step, JobIntake.CreateJob;
    if a.Work? && a.worker < |s.workers| && s.workers[a.worker].Busy? {
      WhereItLeads(s.db, loc, s.workers[a.worker], a.supply.(now := s.now));
    }
  }

  // ---- undisturbed failures

  /** For job j the action is none of these: a worker's death between completing the job and
      completing its video or taking the completion back, or between the two writes of
      `fail`; a write of `fail` that is lost; a retry between the two. */
  predicate Mild(s: State, a: Action, j: Id) {
    match a
    case Die(i) =>
      (i < |s.workers| && s.workers[i].Busy? && s.workers[i].job == j) ==>
        && s.workers[i].at != CompleteVideo && s.workers[i].at != FailVideo
        && (s.workers[i].at == FailJob ==> !(j in s.db.jobs && s.db.jobs[j].status == Completed))
    case Work(i, supply) =>
      (i < |s.workers| && s.workers[i].Busy? && s.workers[i].job == j
       && (s.workers[i].at == FailJob || s.workers[i].at == FailVideo)) ==> supply.ok
    case Retry(k, _) => k == j ==> !Somewhere(s.workers, j, FailVideo)
    case _ => true
  }

  /** While a worker has still to fail the video of the job, the job is failed. */
  predicate Standing(s: State, j: Id) {
    Somewhere(s.workers, j, FailVideo) ==> j in s.db.jobs && s.db.jobs[j].status == Failed
  }

  lemma MildBreaksNothing(s: State, a: Action, j: Id)
    requires j in s.db.jobs && Standing(s, j) && Mild(s, a, j)
    ensures !Breaks(s, a, j)
  {
    hide AllVideos, Completing;
    if a.Work? && a.worker < |s.workers| && s.workers[a.worker].Busy? && s.workers[a.worker].job == j {
      StandsThere(s.workers, a.worker);
    }
  }

  /** A failed job stays so under the mild actions while somebody has still to fail its
      video. */
  lemma StaysFailed(s: State, loc: Locale, a: Action, j: Id)
    requires Inv(s, loc) && j in s.db.jobs && s.db.jobs[j].status == Failed
    requires Somewhere(s.workers, j, FailVideo) && Mild(s, a, j)
    ensures var s2 := Apply(s, loc, a); j in s2.db.jobs && s2.db.jobs[j].status == Failed
  {
    hide CoreOk, ClaimsOk, Apply, Somewhere;
    if a.Work? && Touches(s, a, j) {
      HereAgrees(s, loc, a.worker);
      InsideStatuses(s.db, loc, s.workers[a.worker]);
      assert false;
    } else if a.Claim? && a.job == j {
      NotTaken(s, loc, a);
    } else {
      StatusKept(s, loc, a, j);
    }
  }

  lemma MildKeeps(s: State, loc: Locale, a: Action, j: Id)
    requires Inv(s, loc) && Standing(s, j) && Mild(s, a, j)
    ensures Standing(Apply(s, loc, a), j)
  {
    hide CoreOk, ClaimsOk, Apply;
    var s2 := Apply(s, loc, a);
    WorkersGoOn(s, loc, a);
    if i :| 0 <= i < |s2.workers| && s2.workers[i].Busy? && s2.workers[i].job == j && s2.workers[i].at == FailVideo {
      assert GoesOn(s, a, i, s2.workers[i]);
      if s2.workers[i] == s.workers[i] {
        StandsThere(s.workers, i);
        StaysFailed(s, loc, a, j);
      } else {
        FailsNow(s, loc, i, a.supply);
      }
    }
  }

  lemma FailsNow(s: State, loc: Locale, i: nat, supply: Supply)
    requires Inv(s, loc) && i < |s.workers| && s.workers[i].Busy? && s.workers[i].at == FailJob && supply.ok
    ensures var s2 := Apply(s, loc, Work(i, supply));
            s.workers[i].job in s2.db.jobs && s2.db.jobs[s.workers[i].job].status == Failed
  {
    hide CoreOk, ClaimsOk, Step;
    HereAgrees(s, loc, i);
    FailJobSteps(s.db, loc, s.workers[i], supply.(now := s.now));
  }

  /** Every action of the run is mild for the job. */
  ghost predicate MildRun(s0: State, loc: Locale, actions: seq<Action>, j: Id) {
    forall n: nat | n < |actions| :: Mild(Run(s0, loc, actions[..n]), actions[n], j)
  }

  lemma {:induction false} MildRunStands(s0: State, loc: Locale, actions: seq<Action>, j: Id, n: nat)
    requires Init(s0) && MildRun(s0, loc, actions, j) && n <= |actions|
    ensures Inv(Run(s0, loc, actions[..n]), loc) && Standing(Run(s0, loc, actions[..n]), j)
    decreases n
  {
    hide Inv, Apply, Mild;
    InitInv(s0, loc);
    RunInv(s0, loc, actions[..n]);
    if n > 0 {
      MildRunStands(s0, loc, actions, j, n - 1);
      MildKeeps(Run(s0, loc, actions[..n - 1]), loc, actions[n - 1], j);
      assert actions[..n][..n - 1] == actions[..n - 1];
    }
  }

  /** In a run in which no write of `fail` is lost, no retry comes between its two writes
      and no worker dies between two writes that belong together, the rows of a job that
      no worker has match: a completed job has one video, a completed one, and a failed job
      has none or a failed one. */
  lemma QuietFailures(s0: State, loc: Locale, actions: seq<Action>, j: Id)
    requires Init(s0) && MildRun(s0, loc, actions, j)
    requires j in Run(s0, loc, actions).db.jobs && NoWorkerOn(Run(s0, loc, actions).workers, j)
    ensures RowsMatch(Run(s0, loc, actions).db, j)
  {
    hide Run, Init, Mild, Breaks, RowsMatch, NoWorkerOn, Inv, Standing;
    forall n: nat | n < |actions|
      ensures j in Run(s0, loc, actions[..n]).db.jobs ==> !Breaks(Run(s0, loc, actions[..n]), actions[n], j)
    {
      MildRunStands(s0, loc, actions, j, n);
      if j in Run(s0, loc, actions[..n]).db.jobs {
        MildBreaksNothing(Run(s0, loc, actions[..n]), actions[n], j);
      }
    }
    NothingBroken(s0, loc, actions, j);
    RowsMatchExactlyWhen(s0, loc, actions, j);
  }

  // ---- jobs that nobody takes up again

  /** The job is processing and no worker is inside its run. */
  predicate Lost(s: State, j: Id) {
    && j in s.db.jobs && s.db.jobs[j].status == Processing
    && forall i | 0 <= i < |s.workers| && Inside(s.workers[i]) :: s.workers[i].job != j
  }

  /** A claim takes only pending jobs and a retry only failed ones, so it stays lost. */
  lemma LostKept(s: State, loc: Locale, a: Action, j: Id)
    requires Inv(s, loc) && Lost(s, j)
    ensures Lost(Apply(s, loc, a), j)
  {
    hide CoreOk, ClaimsOk, Apply;
    var s2 := Apply(s, loc, a);
    if (a.Claim? || a.Retry?) && a.job == j {
      NotTaken(s, loc, a);
    } else {
      StatusKept(s, loc, a, j);
    }
    WorkersGoOn(s, loc, a);
    forall i | 0 <= i < |s2.workers| && Inside(s2.workers[i]) ensures s2.workers[i].job != j {
      assert GoesOn(s, a, i, s2.workers[i]);
    }
  }

  lemma {:induction false} LostForever(s: State, loc: Locale, more: seq<Action>, j: Id)
    requires Inv(s, loc) && Lost(s, j)
    ensures Lost(Run(s, loc, more), j)
    decreases |more|
  {
    hide Inv, Lost, Apply;
    if more != [] {
      var init := more[..|more| - 1];
      LostForever(s, loc, init, j);
      RunInv(s, loc, init);
      LostKept(Run(s, loc, init), loc, more[|more| - 1], j);
    }
  }
}
