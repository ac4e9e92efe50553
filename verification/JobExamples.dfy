/** The system gets somewhere: requests lead to pending jobs, pending jobs can always be
    completed, and the race between `fail` and a retry does come about. */
module JobExamples {
  import opened Wrappers
  import opened Tables
  import opened Pipeline
  import opened JobSystem
  import opened JobInductive
  import opened JobProgress
  import opened JobIntake
  import opened JobResults
  import opened JobAgreement
  import opened JobAttempts
  import opened JobFailures
  import opened JobInvariants
  import opened JobOutcomes
  import Chunker
  import Sql

  lemma ReachableOn(s: State, loc: Locale, actions: seq<Action>)
    requires Reachable(s, loc)
    ensures Reachable(Run(s, loc, actions), loc)
  {
    hide Init;
    var s0, before :| Init(s0) && s == Run(s0, loc, before);
    RunRun(s0, loc, before, actions);
  }

  /** The job is completed and has one video, a completed one if it is `sure`. */
  ghost predicate Complete(s: State, j: Id, sure: bool) {
    && j in s.db.jobs && s.db.jobs[j].status == Completed
    && exists v :: v in s.db.videos && VideosOf(s.db, j) == {v} && (sure ==> s.db.videos[v].status == VideoCompleted)
  }

  lemma AttemptCanFinish(s: State, loc: Locale, i: nat) returns (actions: seq<Action>)
    requires Reachable(s, loc) && i < |s.workers| && s.workers[i].Busy? && s.workers[i].at == Load
    ensures var s2 := Run(s, loc, actions);
            && i < |s2.workers| && s2.workers[i] == Idle
            && Complete(s2, s.workers[i].job, !Somewhere(s.workers, s.workers[i].job, FailVideo))
  {
    hide Reachable, CoreOk, ClaimsOk, Run, Apply, AfterWork, Along, Somewhere, Expected, ResultOf, Complete;
    ReachableInv(s, loc);
    var rest := RunsThrough(s, loc, i);
    var s1 := Run(s, loc, rest);
    if !Somewhere(s.workers, s.workers[i].job, FailVideo) {
      FinishedAttempt(s, loc, rest, i, TAKEN);
    }
    FinishedJob(s1, loc, i, TAKEN);
    EndStatus(s1, loc, i, !Somewhere(s.workers, s.workers[i].job, FailVideo), Deleted(s, loc, rest, i));
    RunOneMore(s, loc, rest, Work(i, TAKEN));
    actions := rest + [Work(i, TAKEN)];
  }

  lemma EndStatus(s: State, loc: Locale, i: nat, sure: bool, deleted: bool)
    requires Inv(s, loc) && i < |s.workers| && s.workers[i].Busy? && s.workers[i].at == Summarize
    requires var w, s2 := s.workers[i], AfterWork(s, loc, i, TAKEN);
             && w.job in s2.db.jobs && s2.db.jobs[w.job].status == Completed
             && (sure ==> |w.vectors| == |Chunker.Sections(w.transcript.content)| && w.video in s2.db.videos
                          && ResultOf(s2.db, loc, w.video) == Expected(s.db, loc, w, TAKEN, deleted))
    ensures Complete(AfterWork(s, loc, i, TAKEN), s.workers[i].job, sure)
  {
    hide CoreOk, ClaimsOk, AfterWork;
    EndRows(s, loc, i, TAKEN, deleted);
  }

  /** Whatever happened before, a free worker can complete any pending job: then the job
      has one video, a completed one unless a worker still stands at the last write of an
      earlier attempt. */
  lemma PendingJobCanComplete(s: State, loc: Locale, i: nat, j: Id) returns (actions: seq<Action>)
    requires Reachable(s, loc) && i < |s.workers| && s.workers[i] == Idle
    requires j in s.db.jobs && s.db.jobs[j].status == Pending
    ensures var s2 := Run(s, loc, actions);
            && i < |s2.workers| && s2.workers[i] == Idle && Complete(s2, j, !Somewhere(s.workers, j, FailVideo))
  {
    hide Reachable, Inv, Run, Apply, AfterClaim, Somewhere, Complete;
    ReachableInv(s, loc);
    ClaimStarts(s, loc, i, j);
    RunOneMore(s, loc, [], Claim(i, j));
    NoActions(s, loc);
    assert [] + [Claim(i, j)] == [Claim(i, j)];
    ReachableOn(s, loc, [Claim(i, j)]);
    var rest := AttemptCanFinish(AfterClaim(s, i, j), loc, i);
    RunRun(s, loc, [Claim(i, j)], rest);
    actions := [Claim(i, j)] + rest;
  }

  lemma NoActions(s: State, loc: Locale)
    ensures Run(s, loc, []) == s
  {
  }

  lemma ClaimStarts(s: State, loc: Locale, i: nat, j: Id)
    requires Inv(s, loc) && i < |s.workers| && s.workers[i] == Idle
    requires j in s.db.jobs && s.db.jobs[j].status == Pending
    ensures var s1 := AfterClaim(s, i, j);
            && s1 == Apply(s, loc, Claim(i, j)) && Inv(s1, loc)
            && Somewhere(s1.workers, j, FailVideo) == Somewhere(s.workers, j, FailVideo)
            && |s1.workers| == |s.workers|
            && s1.workers[i].Busy? && s1.workers[i].at == Load && s1.workers[i].job == j
            && forall k | 0 <= k < |s.workers| && k != i :: s1.workers[k] == s.workers[k]
  {
    hide Inv, Somewhere;
    InvKept(s, loc, Claim(i, j));
    SomewhereElse(s.workers, i, AfterClaim(s, i, j).workers[i], j, FailVideo);
  }

  lemma FinishedJob(s: State, loc: Locale, i: nat, supply: Supply)
    requires Inv(s, loc) && i < |s.workers| && s.workers[i].Busy? && s.workers[i].at == Summarize
    ensures var s2 := AfterWork(s, loc, i, supply); var j := s.workers[i].job;
            && s2 == Apply(s, loc, Work(i, supply)) && j in s2.db.jobs && s2.db.jobs[j].status == Completed
            && |s2.workers| == |s.workers| && s2.workers[i] == Idle
  {
    hide CoreOk, ClaimsOk, AfterWork, Apply;
    FacingSummary(s, loc, i);
    SummaryEnds(s, loc, i, supply);
    ApplyWork(s, loc, i, supply);
  }

  lemma SummaryEnds(s: State, loc: Locale, i: nat, supply: Supply)
    requires i < |s.workers| && s.workers[i].Busy? && s.workers[i].at == Summarize
    ensures var s2 := AfterWork(s, loc, i, supply);
            s2.db.jobs == s.db.jobs && s2.workers == s.workers[i := Idle]
  {
  }

  // ---- the race, from an empty database

  const REQUEST := JobRequest(0, "k", "t", [])
  const DRAW := Draw(0, [], 0)
  const FIRST_JOB := NewJob(REQUEST, 0, VideoKind, 0)

  lemma EmptyState(loc: Locale) returns (s: State)
    ensures Reachable(s, loc) && s == State(EMPTY, [Idle, Idle], 0, map[])
  {
    s := State(EMPTY, [Idle, Idle], 0, map[]);
    assert Init(s) && s == Run(s, loc, []);
  }

  lemma FirstIntent(loc: Locale, s: State)
    requires s == State(EMPTY, [Idle, Idle], 0, map[])
    ensures AfterIntent(s, 0, 0, "k", "video/mp4", 1).db ==
            EMPTY.(intents := map[0 := Intent(0, "k", "video/mp4", Issued, 1, None)])
  {
  }

  lemma FirstCreate(loc: Locale, db: Db)
    requires db == EMPTY.(intents := map[0 := Intent(0, "k", "video/mp4", Issued, 1, None)])
    ensures var r := JobIntake.CreateJob(db, loc, REQUEST, DRAW);
            r.Success? && r.value.jobs == map[0 := FIRST_JOB]
  {
    assert Sql.IntentsByKey(db, 0, "k") == {0};
  }

  /** A state with a pending job and two free workers. */
  lemma PendingJobIsReachable(loc: Locale) returns (s: State)
    ensures Reachable(s, loc) && s.workers == [Idle, Idle]
    ensures 0 in s.db.jobs && s.db.jobs[0].status == Pending
  {
    var s0 := EmptyState(loc);
    var intent, create := CreateIntent(0, 0, "k", "video/mp4", 1), Create(REQUEST, DRAW);
    FirstIntent(loc, s0);
    var s1 := Apply(s0, loc, intent);
    FirstCreate(loc, s1.db);
    s := Apply(s1, loc, create);
    RunOneMore(s0, loc, [], intent);
    RunOneMore(s0, loc, [intent], create);
    assert [] + [intent] == [intent];
    ReachableOn(s0, loc, [intent] + [create]);
  }

  /** A worker whose cleanup fails has soon failed the job and not yet the video. */
  lemma FailureBegins(s: State, loc: Locale, i: nat)
    requires Inv(s, loc) && i < |s.workers| && s.workers[i].Busy? && s.workers[i].at == Load
    ensures var j := s.workers[i].job;
            var s2 := Run(s, loc, [Work(i, TAKEN), Work(i, LOST), Work(i, TAKEN)]);
            && |s2.workers| == |s.workers| && s2.workers[i].Busy? && s2.workers[i].at == FailVideo
            && s2.workers[i].job == j && j in s2.db.jobs && s2.db.jobs[j].status == Failed
            && forall k | 0 <= k < |s.workers| && k != i :: s2.workers[k] == s.workers[k]
  {
    hide Inv, Apply, Run;
    var a, b := Work(i, TAKEN), Work(i, LOST);
    var s1 := Apply(s, loc, a);
    var s2 := Apply(s1, loc, b);
    Loads(s, loc, i);
    CleanupLost(s1, loc, i);
    JobFails(s2, loc, i);
    RunThree(s, loc, a, b, a);
  }

  lemma Loads(s: State, loc: Locale, i: nat)
    requires Inv(s, loc) && i < |s.workers| && s.workers[i].Busy? && s.workers[i].at == Load
    ensures var w, s2 := s.workers[i], Apply(s, loc, Work(i, TAKEN));
            && w.job in s.db.jobs && s2.db == s.db
            && s2.workers == s.workers[i := w.(row := s.db.jobs[w.job], at := Cleanup)]
  {
    hide CoreOk, ClaimsOk;
    InsideJob(s, loc, i);
  }

  lemma CleanupLost(s: State, loc: Locale, i: nat)
    requires i < |s.workers| && s.workers[i].Busy? && s.workers[i].at == Cleanup
    ensures var w, s2 := s.workers[i], Apply(s, loc, Work(i, LOST));
            s2.db == s.db && s2.workers == s.workers[i := Failing(w)]
  {
  }

  lemma JobFails(s: State, loc: Locale, i: nat)
    requires i < |s.workers| && s.workers[i].Busy? && s.workers[i].at == FailJob
    requires s.workers[i].job in s.db.jobs && s.workers[i].row == s.db.jobs[s.workers[i].job]
    ensures var w, s2 := s.workers[i], Apply(s, loc, Work(i, TAKEN));
            && w.job in s2.db.jobs && s2.db.jobs[w.job].status == Failed
            && s2.workers == s.workers[i := w.(at := FailVideo)]
  {
  }

  /** From an empty database, two workers suffice to leave a completed job with nothing
      but a failed video. */
  lemma RaceHappens(loc: Locale) returns (s: State)
    ensures Reachable(s, loc) && 0 in s.db.jobs && s.db.jobs[0].status == Completed
    ensures VideosOf(s.db, 0) != {} && AllVideos(s.db, 0, VideoFailed)
  {
    hide Reachable, Inv, AllVideos;
    var s0 := PendingJobIsReachable(loc);
    ReachableInv(s0, loc);
    var s1 := AfterClaim(s0, 0, 0);
    ClaimStarts(s0, loc, 0, 0);
    FailureBegins(s1, loc, 0);
    var failing := [Work(0, TAKEN), Work(0, LOST), Work(0, TAKEN)];
    var s2 := Run(s1, loc, failing);
    RunOneMore(s0, loc, [], Claim(0, 0));
    assert [] + [Claim(0, 0)] == [Claim(0, 0)];
    ReachableOn(s0, loc, [Claim(0, 0)]);
    ReachableOn(s1, loc, failing);
    var actions := RetryRaceDisagrees(s2, loc, 0, 1);
    ReachableOn(s2, loc, actions);
    s := Run(s2, loc, actions);
  }

  // ---- rows that do not match, from an empty database

  /** A state in which a worker has completed the job and not yet its video. */
  lemma CompletingIsReachable(loc: Locale) returns (s: State)
    ensures Reachable(s, loc) && |s.workers| == 2 && s.workers[1] == Idle
    ensures s.workers[0].Busy? && s.workers[0].at == CompleteVideo && s.workers[0].job == 0
  {
    hide Reachable, Inv, Run, Along, Apply, AfterClaim, Somewhere;
    var s0 := PendingJobIsReachable(loc);
    ReachableInv(s0, loc);
    ClaimStarts(s0, loc, 0, 0);
    var s1 := AfterClaim(s0, 0, 0);
    ReachableNext(s0, loc, Claim(0, 0));
    var actions := RunsTo(s1, loc, 0, CompleteVideo);
    ReachableOn(s1, loc, actions);
    s := Run(s1, loc, actions);
  }

  lemma ReachableNext(s: State, loc: Locale, a: Action)
    requires Reachable(s, loc)
    ensures Reachable(Apply(s, loc, a), loc)
  {
    hide Reachable, Apply;
    RunOneMore(s, loc, [], a);
    NoActions(s, loc);
    ReachableOn(s, loc, [] + [a]);
  }

  /** The job is completed, nobody has it, and its rows do not match. */
  ghost predicate Disagrees(s: State, j: Id) {
    j in s.db.jobs && s.db.jobs[j].status == Completed && NoWorkerOn(s.workers, j) && !RowsMatch(s.db, j)
  }

  /** A death is enough, and so are three lost writes. */
  lemma DisagreementsHappen(loc: Locale) returns (dead: State, lost: State)
    ensures Reachable(dead, loc) && Disagrees(dead, 0)
    ensures Reachable(lost, loc) && Disagrees(lost, 0)
  {
    hide Reachable, Inv, Apply, Run, Agreed, RowsMatch;
    var s := CompletingIsReachable(loc);
    dead := Apply(s, loc, Die(0));
    ReachableNext(s, loc, Die(0));
    DeathDisagrees(s, loc, 0);
    Dies(s, loc);
    ReachableInv(dead, loc);
    MatchIsAgreement(dead, loc, 0);
    var writes := [Work(0, LOST), Work(0, LOST), Work(0, LOST)];
    lost := Run(s, loc, writes);
    ReachableOn(s, loc, writes);
    LostWritesDisagree(s, loc, 0);
    NoneMatches(lost.db, 0);
  }

  lemma Dies(s: State, loc: Locale)
    requires |s.workers| == 2 && s.workers[0].Busy? && s.workers[1] == Idle
    ensures Apply(s, loc, Die(0)).workers == [Idle, Idle] && Apply(s, loc, Die(0)).db == s.db
  {
  }

  lemma NoneMatches(db: Db, j: Id)
    requires j in db.jobs && db.jobs[j].status == Completed
    requires forall v | v in db.videos && db.videos[v].job == j :: db.videos[v].status != VideoCompleted
    ensures !RowsMatch(db, j)
  {
  }

  // ---- which jobs can still be completed

  ghost predicate CompletedAfter(s: State, loc: Locale, actions: seq<Action>, j: Id) {
    var s2 := Run(s, loc, actions);
    j in s2.db.jobs && s2.db.jobs[j].status == Completed
  }

  ghost predicate CanComplete(s: State, loc: Locale, j: Id) {
    exists actions :: CompletedAfter(s, loc, actions, j)
  }

  lemma FirstThen(s: State, loc: Locale, a: Action, j: Id)
    requires CanComplete(Apply(s, loc, a), loc, j)
    ensures CanComplete(s, loc, j)
  {
    hide Run, Apply;
    var rest :| CompletedAfter(Apply(s, loc, a), loc, rest, j);
    RunOneMore(s, loc, [], a);
    NoActions(s, loc);
    RunRun(s, loc, [] + [a], rest);
    assert CompletedAfter(s, loc, [] + [a] + rest, j);
  }

  /** Perhaps a worker has to be started anew first. */
  lemma PendingCanComplete(s: State, loc: Locale, j: Id)
    requires Reachable(s, loc) && s.workers != [] && j in s.db.jobs && s.db.jobs[j].status == Pending
    ensures CanComplete(s, loc, j)
  {
    hide Reachable, Run, Somewhere;
    if s.workers[0] == Idle {
      var actions := PendingJobCanComplete(s, loc, 0, j);
      assert CompletedAfter(s, loc, actions, j);
    } else {
      var s1 := Apply(s, loc, Die(0));
      ReachableNext(s, loc, Die(0));
      var actions := PendingJobCanComplete(s1, loc, 0, j);
      assert CompletedAfter(s1, loc, actions, j);
      hide CanComplete, Apply;
      FirstThen(s, loc, Die(0), j);
    }
  }

  lemma FailedCanComplete(s: State, loc: Locale, j: Id)
    requires Reachable(s, loc) && s.workers != [] && j in s.db.jobs && s.db.jobs[j].status == Failed
    ensures CanComplete(s, loc, j)
  {
    hide Reachable, CanComplete;
    var retry := Retry(j, s.db.jobs[j].tenant);
    ReachableNext(s, loc, retry);
    PendingCanComplete(Apply(s, loc, retry), loc, j);
    FirstThen(s, loc, retry, j);
  }

  lemma InsideCanComplete(s: State, loc: Locale, i: nat)
    requires Reachable(s, loc) && i < |s.workers| && Inside(s.workers[i])
    ensures CanComplete(s, loc, s.workers[i].job)
  {
    hide Reachable, CoreOk, ClaimsOk, Run, Apply, Along;
    var j := s.workers[i].job;
    ReachableInv(s, loc);
    if s.workers[i].at == FailJob {
      var a := Work(i, TAKEN);
      FailsNow(s, loc, i, TAKEN);
      WorkersGoOn(s, loc, a);
      ReachableNext(s, loc, a);
      FailedCanComplete(Apply(s, loc, a), loc, j);
      FirstThen(s, loc, a, j);
    } else {
      var actions := RunsThrough(s, loc, i);
      FacingSummary(Run(s, loc, actions), loc, i);
      assert CompletedAfter(s, loc, actions, j);
    }
  }

  /** A job can still be completed exactly when it is not lost: not left in processing by a
      worker that died, could not load it, or could not write its failure. */
  lemma CanCompleteExactlyWhen(s: State, loc: Locale, j: Id)
    requires Reachable(s, loc) && s.workers != [] && j in s.db.jobs
    ensures CanComplete(s, loc, j) <==> !Lost(s, j)
  {
    hide Reachable, Inv, Run;
    ReachableInv(s, loc);
    if Lost(s, j) {
      forall actions ensures !CompletedAfter(s, loc, actions, j) {
        LostForever(s, loc, actions, j);
      }
    } else {
      match s.db.jobs[j].status
      case Pending => PendingCanComplete(s, loc, j);
      case Failed => FailedCanComplete(s, loc, j);
      case Completed =>
        NoActions(s, loc);
        assert CompletedAfter(s, loc, [], j);
      case Processing =>
        var i :| 0 <= i < |s.workers| && Inside(s.workers[i]) && s.workers[i].job == j;
        InsideCanComplete(s, loc, i);
    }
  }
}
