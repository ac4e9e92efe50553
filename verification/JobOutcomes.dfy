/** When job and video rows agree, and the runs after which they do not. */
module JobOutcomes {
  import opened Wrappers
  import opened Tables
  import opened Pipeline
  import opened JobInvariants
  import opened JobSystem
  import opened JobSteps
  import opened JobInductive
  import opened JobAgreement
  import opened JobProgress
  import Sql

  predicate NoWorkerOn(workers: seq<Worker>, j: Id) {
    forall i | 0 <= i < |workers| && workers[i].Busy? :: workers[i].job != j
  }

  /** A completed job has one video, a completed one; a failed job has none or a failed
      one. */
  ghost predicate RowsMatch(db: Db, j: Id)
    requires j in db.jobs
  {
    && (db.jobs[j].status == Completed ==>
          exists v :: v in db.videos && VideosOf(db, j) == {v} && db.videos[v].status == VideoCompleted)
    && (db.jobs[j].status == Failed ==> AllVideos(db, j, VideoFailed))
  }

  /** In every run, the rows of a job that no worker has match exactly when no action since
      the job was last pending or processing has broken their agreement. */
  lemma RowsMatchExactlyWhen(s0: State, loc: Locale, actions: seq<Action>, j: Id)
    requires Init(s0) && j in Run(s0, loc, actions).db.jobs && NoWorkerOn(Run(s0, loc, actions).workers, j)
    ensures RowsMatch(Run(s0, loc, actions).db, j) <==> !Broken(s0, loc, actions, j)
  {
    var s := Run(s0, loc, actions);
    InitInv(s0, loc);
    RunInv(s0, loc, actions);
    AgreedExactlyWhen(s0, loc, actions, j);
    hide Run, Broken, Init;
    MatchIsAgreement(s, loc, j);
  }

  lemma MatchIsAgreement(s: State, loc: Locale, j: Id)
    requires Inv(s, loc) && j in s.db.jobs && NoWorkerOn(s.workers, j)
    ensures RowsMatch(s.db, j) <==> Agreed(s, j)
  {
    assert !Completing(s.workers, j) && !Somewhere(s.workers, j, FailVideo);
    VideosOfTables(s.db, loc);
    hide TablesOk, WorkersOk, ClaimsOk, Exclusive, Completing, Somewhere;
    assert JobOk(s.db, j);
    if s.db.jobs[j].status == Completed {
      OnlyVideo(s.db, j);
    }
  }

  lemma OnlyVideo(db: Db, j: Id)
    requires VideosOk(db) && HasIngested(db, j)
    ensures exists v :: v in db.videos && db.videos[v].job == j && VideosOf(db, j) == {v}
  {
    var v :| v in db.videos && db.videos[v].job == j && Ingested(db, v);
    assert VideosOf(db, j) == {v};
  }

  /** So a run in which nothing breaks the agreement leaves matching rows. */
  lemma {:induction false} NothingBroken(s0: State, loc: Locale, actions: seq<Action>, j: Id)
    requires forall n: nat | n < |actions| ::
               j in Run(s0, loc, actions[..n]).db.jobs ==> !Breaks(Run(s0, loc, actions[..n]), actions[n], j)
    ensures !Broken(s0, loc, actions, j)
    decreases |actions|
  {
    hide Run, Breaks;
    if actions != [] {
      var init := actions[..|actions| - 1];
      forall n: nat | n < |init|
        ensures j in Run(s0, loc, init[..n]).db.jobs ==> !Breaks(Run(s0, loc, init[..n]), init[n], j)
      {
        assert init[..n] == actions[..n];
      }
      NothingBroken(s0, loc, init, j);
    }
  }

  /** A worker that dies between completing the job and completing the video leaves a
      completed job without a completed video. */
  lemma DeathDisagrees(s: State, loc: Locale, i: nat)
    requires Reachable(s, loc) && i < |s.workers| && s.workers[i].Busy? && s.workers[i].at == CompleteVideo
    ensures s.workers[i].job in s.db.jobs && s.db.jobs[s.workers[i].job].status == Completed
    ensures !Agreed(Apply(s, loc, Die(i)), s.workers[i].job)
  {
    hide Reachable, CoreOk, ClaimsOk, Ready, Agreed, Breaks, Apply;
    ReachableInv(s, loc);
    InsideJob(s, loc, i);
    FacingVideo(s.db, loc, s.workers[i]);
    DyingThereBreaks(s, loc, i);
    AgreementExactly(s, loc, Die(i), s.workers[i].job);
  }

  lemma DyingThereBreaks(s: State, loc: Locale, i: nat)
    requires i < |s.workers| && s.workers[i].Busy? && s.workers[i].at == CompleteVideo
    requires s.workers[i].job in s.db.jobs && s.db.jobs[s.workers[i].job].status == Completed
    ensures Breaks(s, Die(i), s.workers[i].job) && Apply(s, loc, Die(i)).db == s.db
  {
  }

  lemma FacingVideo(db: Db, loc: Locale, w: Worker)
    requires Ready(db, loc, w) && w.at == CompleteVideo
    ensures w.job in db.jobs && db.jobs[w.job].status == Completed
  {
    hide TablesOk, JobOk, Progress;
  }

  // ---- the events do make them disagree

  /** A statement that the database does not take. */
  const LOST := Supply(false, 0, NO_TRANSCRIPT, [], None, "", 0)

  /** When the completion of the video fails and so do both writes of `fail`, the job
      stays completed without a completed video. */
  lemma LostWritesDisagree(s: State, loc: Locale, i: nat)
    requires Reachable(s, loc) && i < |s.workers| && s.workers[i].Busy? && s.workers[i].at == CompleteVideo
    ensures var j := s.workers[i].job;
            var s2 := Run(s, loc, [Work(i, LOST), Work(i, LOST), Work(i, LOST)]);
            && j in s2.db.jobs && s2.db.jobs[j].status == Completed && s2.workers == s.workers[i := Idle]
            && VideosOf(s2.db, j) != {}
            && forall v | v in s2.db.videos && s2.db.videos[v].job == j :: s2.db.videos[v].status != VideoCompleted
  {
    ReachableInv(s, loc);
    var w := s.workers[i];
    InsideJob(s, loc, i);
    VideosOfTables(s.db, loc);
    hide Reachable, CoreOk, ClaimsOk, Ready, WorkerOk;
    CompletingFacts(s.db, loc, w);
    ThreeLost(s, loc, i);
  }

  lemma CompletingFacts(db: Db, loc: Locale, w: Worker)
    requires w.Busy? && w.at == CompleteVideo && WorkerOk(db, loc, w) && VideosOk(db)
    ensures w.job in db.jobs && db.jobs[w.job].status == Completed && w.video in VideosOf(db, w.job)
    ensures NoneCompleted(db, w.job)
  {
  }

  lemma OneLost(s: State, loc: Locale, i: nat)
    requires i < |s.workers| && s.workers[i].Busy?
    requires s.workers[i].at == CompleteVideo || s.workers[i].at == FailJob || s.workers[i].at == FailVideo
    ensures var w, s2 := s.workers[i], Apply(s, loc, Work(i, LOST));
            && s2.db == s.db
            && s2.workers == s.workers[i := if w.at == CompleteVideo then Failing(w)
                                            else if w.at == FailJob then w.(at := FailVideo) else Idle]
  {
  }

  lemma ThreeLost(s: State, loc: Locale, i: nat)
    requires i < |s.workers| && s.workers[i].Busy? && s.workers[i].at == CompleteVideo
    ensures var s2 := Run(s, loc, [Work(i, LOST), Work(i, LOST), Work(i, LOST)]);
            s2.db == s.db && s2.workers == s.workers[i := Idle]
  {
    hide Apply;
    var a := Work(i, LOST);
    var s1 := Apply(s, loc, a);
    var s2 := Apply(s1, loc, a);
    OneLost(s, loc, i);
    OneLost(s1, loc, i);
    OneLost(s2, loc, i);
    RunThree(s, loc, a, a, a);
  }

  // ---- a retry between the two writes of `fail`

  /** A statement that the database takes. */
  const TAKEN := LOST.(ok := true)

  lemma TakenFailure(s: State, loc: Locale, a: nat)
    requires a < |s.workers| && s.workers[a].Busy? && s.workers[a].at == FailVideo
    ensures var w, s2 := s.workers[a], Apply(s, loc, Work(a, TAKEN));
            s2.db == Sql.FailVideoByJobID(s.db, w.job, w.row.tenant) && s2.workers == s.workers[a := Idle]
  {
  }

  /** The stale write of a failed attempt hits the video of the next one. */
  lemma StaleFailure(s: State, loc: Locale, a: nat, b: nat)
    requires Inv(s, loc) && a < |s.workers| && b < |s.workers|
    requires s.workers[a].Busy? && s.workers[a].at == FailVideo
    requires s.workers[b].Busy? && s.workers[b].at == Summarize && s.workers[b].job == s.workers[a].job
    ensures var j := s.workers[a].job;
            var s2 := Apply(s, loc, Work(a, TAKEN));
            && j in s2.db.jobs && s2.db.jobs[j].status == Completed
            && VideosOf(s2.db, j) != {} && AllVideos(s2.db, j, VideoFailed)
  {
    hide CoreOk, ClaimsOk, AllVideos, Apply;
    var w, v := s.workers[a], s.workers[b].video;
    OutsideRow(s, loc, a);
    FacingSummary(s, loc, b);
    AllFailed(s.db, loc, w);
    TakenFailure(s, loc, a);
    assert v in VideosOf(Sql.FailVideoByJobID(s.db, w.job, w.row.tenant), w.job);
  }

  lemma FacingSummary(s: State, loc: Locale, b: nat)
    requires CoreOk(s, loc) && b < |s.workers| && s.workers[b].Busy? && s.workers[b].at == Summarize
    ensures var w := s.workers[b];
            && w.job in s.db.jobs && s.db.jobs[w.job].status == Completed
            && w.video in s.db.videos && s.db.videos[w.video].job == w.job
  {
    hide TablesOk, JobsOk;
    assert WorkerOk(s.db, loc, s.workers[b]);
  }

  lemma RetryThenClaim(s: State, loc: Locale, a: nat, b: nat)
    requires Inv(s, loc) && a < |s.workers| && b < |s.workers| && a != b && s.workers[b] == Idle
    requires s.workers[a].Busy? && s.workers[a].at == FailVideo
    requires s.workers[a].job in s.db.jobs && s.db.jobs[s.workers[a].job].status == Failed
    ensures var j := s.workers[a].job;
            var s1 := Apply(s, loc, Retry(j, s.db.jobs[j].tenant));
            var s2 := Apply(s1, loc, Claim(b, j));
            && Inv(s2, loc) && |s2.workers| == |s.workers|
            && (forall k | 0 <= k < |s.workers| && k != b :: s2.workers[k] == s.workers[k])
            && s2.workers[b].Busy? && s2.workers[b].job == j && s2.workers[b].at == Load
  {
    hide CoreOk, ClaimsOk;
    var j := s.workers[a].job;
    var s1 := Apply(s, loc, Retry(j, s.db.jobs[j].tenant));
    InvKept(s, loc, Retry(j, s.db.jobs[j].tenant));
    InvKept(s1, loc, Claim(b, j));
  }

  /** From every state in which a worker has failed a job and not yet its video, while
      another worker is free, some run retries the job, completes it, and leaves its
      video failed: the first worker's last write comes too late. */
  lemma RetryRaceDisagrees(s: State, loc: Locale, a: nat, b: nat) returns (actions: seq<Action>)
    requires Reachable(s, loc) && a < |s.workers| && b < |s.workers| && s.workers[b] == Idle
    requires s.workers[a].Busy? && s.workers[a].at == FailVideo
    requires s.workers[a].job in s.db.jobs && s.db.jobs[s.workers[a].job].status == Failed
    ensures var j := s.workers[a].job;
            var s2 := Run(s, loc, actions);
            && j in s2.db.jobs && s2.db.jobs[j].status == Completed
            && VideosOf(s2.db, j) != {} && AllVideos(s2.db, j, VideoFailed)
  {
    ReachableInv(s, loc);
    hide Inv, Apply, AllVideos, Reachable;
    var j := s.workers[a].job;
    var retry := Retry(j, s.db.jobs[j].tenant);
    RetryThenClaim(s, loc, a, b);
    RunOneMore(s, loc, [], retry);
    RunOneMore(s, loc, [retry], Claim(b, j));
    assert [] + [retry] == [retry];
    var s1 := Run(s, loc, [retry] + [Claim(b, j)]);
    var rest := RunsThrough(s1, loc, b);
    var s2 := Run(s1, loc, rest);
    StaleFailure(s2, loc, a, b);
    RunRun(s, loc, [retry] + [Claim(b, j)], rest);
    RunOneMore(s, loc, [retry] + [Claim(b, j)] + rest, Work(a, TAKEN));
    actions := [retry] + [Claim(b, j)] + rest + [Work(a, TAKEN)];
  }
}
