/** One attempt at a job, from its claim to its end, in the middle of everything else:
    when its video ends up completed, whatever earlier attempts left behind. */
module JobAttempts {
  import opened Wrappers
  import opened Tables
  import opened Pipeline
  import opened JobInvariants
  import opened JobSystem
  import opened JobSteps
  import opened JobInductive
  import opened JobAgreement
  import opened JobProgress
  import Chunker
  import JobIntake
  import JobOutcomes
  import Sql

  /** The soft deletion hits the video of the worker's attempt. */
  predicate Hits(s: State, a: Action, i: nat) {
    && a.SoftDelete? && i < |s.workers| && s.workers[i].Busy? && 3 <= Rank(s.workers[i].at) <= 14
    && a.video == s.workers[i].video && a.tenant == s.workers[i].row.tenant
  }

  /** A client has deleted the attempt's video meanwhile. */
  ghost predicate Deleted(s: State, loc: Locale, actions: seq<Action>, i: nat) {
    actions != [] &&
    var init := actions[..|actions| - 1];
    Deleted(s, loc, init, i) || Hits(Run(s, loc, init), actions[|actions| - 1], i)
  }

  /** Nobody can fail the attempt's video any more, and at the end it is completed. */
  ghost predicate Sound(s: State, i: nat) {
    i < |s.workers| && s.workers[i].Busy? &&
    var w := s.workers[i];
    Rank(w.at) <= 14 ==>
      && !Somewhere(s.workers, w.job, FailVideo)
      && (w.at == Summarize ==> w.video in s.db.videos && s.db.videos[w.video].status == VideoCompleted)
  }

  /** The mark of the attempt's video says whether a client deleted it. */
  ghost predicate Marked(s: State, i: nat, deleted: bool) {
    i < |s.workers| && s.workers[i].Busy? &&
    var w := s.workers[i];
    && (Rank(w.at) < 3 ==> !deleted)
    && (3 <= Rank(w.at) <= 14 ==> w.video in s.db.videos && (s.db.videos[w.video].deletedAt.Some? <==> deleted))
  }

  // ---- the worker's own steps

  lemma EndsCompleted(db: Db, w: Worker, s: Supply)
    requires w.Busy? && w.at == CompleteVideo && w.video in db.videos
    ensures var (db2, w2) := DoCompleteVideo(db, w, s);
            && w2.Busy? && w2.video == w.video && w.video in db2.videos
            && db2.videos[w.video].deletedAt == db.videos[w.video].deletedAt
            && (w2.at == Summarize ==> db2.videos[w.video].status == VideoCompleted)
  {
  }

  lemma NotYetSummarize(db: Db, loc: Locale, w: Worker, s: Supply)
    requires w.Busy? && Rank(w.at) <= 14 && w.at != CompleteVideo
    ensures var (db2, w2) := Step(db, loc, w, s); w2.Busy? ==> w2.at != Summarize
  {
    if Rank(w.at) <= 11 {
      EarlyShape(db, loc, w, s);
    } else {
      hide Sql.UpdateJobStatus, Sql.UpsertSummary;
    }
  }

  lemma {:induction false} AttachKeepsVideos(db: Db, v: Id, segments: seq<Id>)
    ensures var r := Sql.AttachVideoSegments(db, v, segments); r.Some? ==> r.value.videos == db.videos
  {
    if segments != [] {
      AttachKeepsVideos(db, v, segments[..|segments| - 1]);
    }
  }

  lemma {:induction false} InsertKeepsVideos(db: Db, rows: seq<ChunkRow>)
    ensures var r := Sql.InsertChunks(db, rows); r.Some? ==> r.value.videos == db.videos
  {
    if rows != [] {
      InsertKeepsVideos(db, rows[..|rows| - 1]);
    }
  }

  /** The statement leaves the video rows as they are and the worker with its video. */
  ghost predicate SameVideoRows(db: Db, w: Worker, next: (Db, Worker))
    requires w.Busy?
  {
    next.0.videos == db.videos && next.1.Busy? && next.1.video == w.video
  }

  lemma ChunksKeepVideos(db: Db, w: Worker, s: Supply)
    requires w.Busy?
    ensures SameVideoRows(db, w, DoInsertChunks(db, w, s))
  {
    var sections := Chunker.Sections(w.transcript.content);
    if |s.vectors| == |sections| {
      InsertKeepsVideos(db, ChunkRows(w.video, w.row.tenant, sections, s.vectors));
    }
    hide Sql.InsertChunks, Chunker.Sections;
  }

  lemma SegmentsKeepVideos(db: Db, loc: Locale, w: Worker, s: Supply)
    requires w.Busy?
    ensures SameVideoRows(db, w, DoListNames(db, loc, w, s)) && SameVideoRows(db, w, DoEnsure(db, loc, w, s))
    ensures SameVideoRows(db, w, DoAttach(db, w, s))
  {
    AttachKeepsVideos(db, w.video, w.segments);
    hide Sql.AttachVideoSegments, ListNamesByJob, Sql.EnsuredSegment;
  }

  lemma JobRowsKeepVideos(db: Db, w: Worker, stage: Stage, next: Point, s: Supply)
    requires w.Busy?
    ensures SameVideoRows(db, w, SetStage(db, w, stage, next, s)) && SameVideoRows(db, w, DoCompleteJob(db, w, s))
    ensures SameVideoRows(db, w, DoStore(db, w, s))
  {
    hide Sql.UpdatedRow;
  }

  /** Between the insertion and the completion the video row stays as it is. */
  lemma MiddleStep(db: Db, loc: Locale, w: Worker, s: Supply)
    requires w.Busy? && 3 <= Rank(w.at) <= 12
    ensures SameVideoRows(db, w, Step(db, loc, w, s))
  {
    hide SameVideoRows, DoInsertChunks, DoListNames, DoEnsure, DoAttach, DoCompleteJob, DoStore, SetStage;
    if w.at == InsertChunks {
      ChunksKeepVideos(db, w, s);
    } else if Rank(w.at) <= 5 {
      SegmentsKeepVideos(db, loc, w, s);
    } else {
      JobRowsKeepVideos(db, w, Downloading, Recognize, s);
      JobRowsKeepVideos(db, w, RecognizeStage(w.row.kind), Store, s);
      JobRowsKeepVideos(db, w, Chunking, Embed, s);
      JobRowsKeepVideos(db, w, Embedding, InsertChunks, s);
    }
  }

  lemma FirstSteps(db: Db, loc: Locale, w: Worker, s: Supply)
    requires w.Busy? && Rank(w.at) <= 2
    ensures var (db2, w2) := Step(db, loc, w, s);
            w2.Busy? && 3 <= Rank(w2.at) <= 14 ==> w2.video in db2.videos && db2.videos[w2.video].deletedAt.None?
  {
    hide Sql.DeleteVideoByJobID;
  }

  lemma OwnStepSound(s: State, loc: Locale, i: nat, supply: Supply)
    requires CoreOk(s, loc) && Sound(s, i) && Rank(s.workers[i].at) <= 14
    ensures var s2 := AfterWork(s, loc, i, supply); Attempting(s2, i, s.workers[i].job) ==> Sound(s2, i)
  {
    hide CoreOk, Somewhere, Ready, GoodStep, Step, AfterWork;
    var w, sup := s.workers[i], supply.(now := s.now);
    var (db2, w2) := Step(s.db, loc, w, sup);
    InsideJob(s, loc, i);
    WorkResult(s, loc, i, supply);
    if w2.Busy? && Rank(w2.at) <= 14 && w2.job == w.job {
      SomewhereElse(s.workers, i, w2, w.job, FailVideo);
      if w.at == CompleteVideo {
        HasProgress(s.db, loc, w);
        EndsCompleted(s.db, w, sup);
        IsCompleting(s.db, loc, w, sup);
      } else {
        NotYetSummarize(s.db, loc, w, sup);
      }
    }
  }

  lemma IsCompleting(db: Db, loc: Locale, w: Worker, s: Supply)
    requires w.Busy? && w.at == CompleteVideo
    ensures Step(db, loc, w, s) == DoCompleteVideo(db, w, s)
  {
    hide DoCompleteVideo;
  }

  lemma HasProgress(db: Db, loc: Locale, w: Worker)
    requires Ready(db, loc, w) && 3 <= Rank(w.at) <= 14
    ensures w.video in db.videos && db.videos[w.video].job == w.job && db.videos[w.video].tenant == w.row.tenant
  {
    RowsExist(db, loc, w);
    hide TablesOk, JobOk;
  }

  lemma OwnStepMarked(s: State, loc: Locale, i: nat, supply: Supply, deleted: bool)
    requires CoreOk(s, loc) && i < |s.workers| && Inside(s.workers[i]) && Marked(s, i, deleted)
    ensures var s2 := AfterWork(s, loc, i, supply); Attempting(s2, i, s.workers[i].job) ==> Marked(s2, i, deleted)
  {
    hide CoreOk, Ready, GoodStep, Step, AfterWork, DoCompleteVideo;
    var w, sup := s.workers[i], supply.(now := s.now);
    var (db2, w2) := Step(s.db, loc, w, sup);
    InsideJob(s, loc, i);
    WorkResult(s, loc, i, supply);
    RanksGoUp(s.db, loc, w, sup);
    if Rank(w.at) <= 2 {
      FirstSteps(s.db, loc, w, sup);
    } else if Rank(w.at) <= 12 {
      MiddleStep(s.db, loc, w, sup);
    } else if w.at == CompleteVideo {
      HasProgress(s.db, loc, w);
      IsCompleting(s.db, loc, w, sup);
      EndsCompleted(s.db, w, sup);
    }
  }

  // ---- everybody else

  /** The worker is inside its run and nobody stands at the second write of `fail` for
      its job. */
  ghost predicate Alone(s: State, i: nat) {
    && i < |s.workers| && Inside(s.workers[i]) && Rank(s.workers[i].at) <= 14
    && !Somewhere(s.workers, s.workers[i].job, FailVideo)
  }

  /** What an action of others leaves of the attempt. */
  ghost predicate LeftAlone(s: State, s2: State, a: Action, i: nat)
    requires i < |s.workers| && s.workers[i].Busy?
  {
    var w := s.workers[i];
    && i < |s2.workers| && s2.workers[i] == w && !Somewhere(s2.workers, w.job, FailVideo)
    && (w.video in s.db.videos && s.db.videos[w.video].job == w.job ==>
          && w.video in s2.db.videos && s2.db.videos[w.video].status == s.db.videos[w.video].status
          && (3 <= Rank(w.at) && s.db.videos[w.video].tenant == w.row.tenant ==>
                (s2.db.videos[w.video].deletedAt.Some? <==> s.db.videos[w.video].deletedAt.Some? || Hits(s, a, i))))
  }

  /** The worker's video row is the same and the workers that matter are. */
  lemma SameRowLeavesAlone(s: State, s2: State, a: Action, i: nat)
    requires Alone(s, i) && !a.SoftDelete? && i < |s2.workers| && s2.workers[i] == s.workers[i]
    requires Somewhere(s2.workers, s.workers[i].job, FailVideo) == Somewhere(s.workers, s.workers[i].job, FailVideo)
    requires var v := s.workers[i].video;
             v in s.db.videos && s.db.videos[v].job == s.workers[i].job ==>
               v in s2.db.videos && s2.db.videos[v] == s.db.videos[v]
    ensures LeftAlone(s, s2, a, i)
  {
    hide Somewhere;
  }

  lemma OtherJob(s: State, i: nat, k: nat)
    requires Alone(s, i) && Exclusive(s.workers) && k < |s.workers| && k != i && s.workers[k].Busy?
    ensures s.workers[k].job != s.workers[i].job
  {
    if s.workers[k].at == FailVideo {
      StandsThere(s.workers, k);
    }
  }

  lemma FailedElsewhere(db: Db, v: Id, k: Id, tenant: Id)
    requires v in db.videos && db.videos[v].job != k
    ensures var db2 := Sql.FailVideoByJobID(db, k, tenant); v in db2.videos && db2.videos[v] == db.videos[v]
  {
  }

  lemma SameVideoRow(db: Db, db2: Db, j: Id, v: Id)
    requires Untouched(db, db2, j) && v in db.videos && db.videos[v].job == j
    ensures v in db2.videos && db2.videos[v] == db.videos[v]
  {
    assert SameVideo(db, db2, v);
  }

  lemma OtherWork(s: State, loc: Locale, k: nat, supply: Supply, i: nat)
    requires CoreOk(s, loc) && Alone(s, i) && k != i
    ensures LeftAlone(s, AfterWork(s, loc, k, supply), Work(k, supply), i)
  {
    var s2, j, v := AfterWork(s, loc, k, supply), s.workers[i].job, s.workers[i].video;
    if k < |s.workers| && s.workers[k].Busy? {
      var w, sup := s.workers[k], supply.(now := s.now);
      var (db2, w2) := Step(s.db, loc, w, sup);
      HereAgrees(s, loc, i);
      OtherJob(s, i, k);
      WorkResult(s, loc, k, supply);
      hide CoreOk, TablesOk, WorkerOk, JobOk, VideosOk, Exclusive, Step, AfterWork, GoodStep, Ready, Somewhere;
      if Inside(w) {
        InsideJob(s, loc, k);
        InsideJob(s, loc, i);
        InsideStep(s.db, loc, w, sup);
        UntouchedByGoodStep(s.db, db2, loc, w, w2, j);
        if v in s.db.videos && s.db.videos[v].job == j {
          SameVideoRow(s.db, db2, j, v);
        }
      } else {
        FailVideoOrNothing(s.db, loc, w, sup);
        if v in s.db.videos && s.db.videos[v].job == j {
          FailedElsewhere(s.db, v, w.job, w.row.tenant);
        }
      }
      OtherJobsWorkers(s.workers, k, w2, j);
    }
    hide Somewhere, AfterWork;
    SameRowLeavesAlone(s, s2, Work(k, supply), i);
  }

  lemma OtherDeath(s: State, k: nat, i: nat)
    requires Exclusive(s.workers) && Alone(s, i) && k != i
    ensures LeftAlone(s, AfterDeath(s, k), Die(k), i)
  {
    var s2 := AfterDeath(s, k);
    if k < |s.workers| && s.workers[k].Busy? {
      OtherJob(s, i, k);
      OtherJobsWorkers(s.workers, k, Idle, s.workers[i].job);
    }
    hide Somewhere;
    SameRowLeavesAlone(s, s2, Die(k), i);
  }

  lemma OtherClaim(s: State, k: nat, j: Id, i: nat)
    requires Alone(s, i)
    ensures LeftAlone(s, AfterClaim(s, k, j), Claim(k, j), i)
  {
    var s2 := AfterClaim(s, k, j);
    if s2 != s {
      SomewhereElse(s.workers, k, s2.workers[k], s.workers[i].job, FailVideo);
    }
    hide Somewhere;
    SameRowLeavesAlone(s, s2, Claim(k, j), i);
  }

  lemma OtherDeletion(s: State, v: Id, tenant: Id, i: nat)
    requires Alone(s, i)
    ensures LeftAlone(s, AfterSoftDelete(s, v, tenant), SoftDelete(v, tenant), i)
  {
    hide Somewhere;
  }

  lemma OtherCreate(s: State, loc: Locale, req: JobIntake.JobRequest, draw: JobIntake.Draw, i: nat)
    requires CoreOk(s, loc) && Alone(s, i)
    ensures LeftAlone(s, AfterCreate(s, loc, req, draw), Create(req, draw), i)
  {
    NewRow(s, loc, req, draw);
    hide CoreOk, Somewhere, AfterCreate;
    SameRowLeavesAlone(s, AfterCreate(s, loc, req, draw), Create(req, draw), i);
  }

  lemma OtherRow(s: State, loc: Locale, a: Action, i: nat)
    requires Alone(s, i) && (a.CreateIntent? || a.Retry? || a.Tick?)
    ensures LeftAlone(s, Apply(s, loc, a), a, i)
  {
    hide Somewhere;
    SameRowLeavesAlone(s, Apply(s, loc, a), a, i);
  }

  lemma OthersLeaveAlone(s: State, loc: Locale, a: Action, i: nat)
    requires CoreOk(s, loc) && Alone(s, i) && a != Die(i) && !(a.Work? && a.worker == i)
    ensures LeftAlone(s, Apply(s, loc, a), a, i)
  {
    ExclusiveOfCore(s, loc);
    hide CoreOk, LeftAlone, Alone, Exclusive, AfterWork, AfterDeath, AfterClaim, AfterSoftDelete, AfterCreate;
    match a
    case Work(k, supply) => OtherWork(s, loc, k, supply, i);
    case Die(k) => OtherDeath(s, k, i);
    case Claim(k, j) => OtherClaim(s, k, j, i);
    case SoftDelete(v, tenant) => OtherDeletion(s, v, tenant, i);
    case Create(req, draw) => OtherCreate(s, loc, req, draw, i);
    case _ => OtherRow(s, loc, a, i);
  }

  // ---- along the attempt

  lemma OthersKeepWorker(s: State, loc: Locale, a: Action, i: nat)
    requires i < |s.workers| && s.workers[i].Busy? && a != Die(i) && !(a.Work? && a.worker == i)
    ensures i < |Apply(s, loc, a).workers| && Apply(s, loc, a).workers[i] == s.workers[i]
  {
    hide Step, JobIntake.CreateJob;
  }

  lemma LeftSound(s: State, s2: State, loc: Locale, a: Action, i: nat, deleted: bool)
    requires CoreOk(s, loc) && Alone(s, i) && Sound(s, i) && LeftAlone(s, s2, a, i)
    ensures Sound(s2, i) && (Marked(s, i, deleted) ==> Marked(s2, i, deleted || Hits(s, a, i)))
  {
    var w := s.workers[i];
    if 3 <= Rank(w.at) <= 14 {
      InsideJob(s, loc, i);
      HasProgress(s.db, loc, w);
    }
    hide CoreOk, Somewhere, Ready;
  }

  lemma LateStep(s: State, loc: Locale, i: nat, supply: Supply)
    requires i < |s.workers| && s.workers[i].Busy? && Rank(s.workers[i].at) >= 15
    ensures var s2 := AfterWork(s, loc, i, supply);
            Attempting(s2, i, s.workers[i].job) ==> Sound(s2, i) && forall d :: Marked(s2, i, d)
  {
    WorkResult(s, loc, i, supply);
    RanksGoUp(s.db, loc, s.workers[i], supply.(now := s.now));
    hide Step, AfterWork, Somewhere;
  }

  lemma SoundStays(s: State, loc: Locale, a: Action, i: nat, deleted: bool)
    requires Inv(s, loc) && Sound(s, i) && Attempting(Apply(s, loc, a), i, s.workers[i].job)
    ensures Sound(Apply(s, loc, a), i)
    ensures Marked(s, i, deleted) ==> Marked(Apply(s, loc, a), i, deleted || Hits(s, a, i))
  {
    hide CoreOk, ClaimsOk, Somewhere, AfterWork, LeftAlone, AfterCreate, AfterClaim, AfterRetry, AfterSoftDelete;
    var w := s.workers[i];
    if a.Work? && a.worker == i {
      if Rank(w.at) <= 14 {
        OwnStepSound(s, loc, i, a.supply);
        if Marked(s, i, deleted) {
          OwnStepMarked(s, loc, i, a.supply, deleted);
        }
      } else {
        LateStep(s, loc, i, a.supply);
      }
    } else if a != Die(i) {
      if Rank(w.at) <= 14 {
        OthersLeaveAlone(s, loc, a, i);
        LeftSound(s, Apply(s, loc, a), loc, a, i, deleted);
      } else {
        OthersKeepWorker(s, loc, a, i);
      }
    }
  }

  lemma AlongPrefix(s: State, loc: Locale, actions: seq<Action>, m: nat, i: nat, j: Id)
    requires Along(s, loc, actions, i, j) && m <= |actions|
    ensures Along(s, loc, actions[..m], i, j) && Attempting(Run(s, loc, actions[..m]), i, j)
  {
    hide Run;
    forall n: nat | n <= m ensures Attempting(Run(s, loc, actions[..m][..n]), i, j) {
      assert actions[..m][..n] == actions[..n];
    }
  }

  lemma {:induction false} SoundAlong(s: State, loc: Locale, actions: seq<Action>, i: nat, j: Id)
    requires Inv(s, loc) && Sound(s, i) && s.workers[i].job == j && Along(s, loc, actions, i, j)
    ensures Sound(Run(s, loc, actions), i) && Run(s, loc, actions).workers[i].job == j
    ensures Marked(s, i, false) ==> Marked(Run(s, loc, actions), i, Deleted(s, loc, actions, i))
    decreases |actions|
  {
    hide Inv, Apply, Marked, Hits, Along;
    if actions != [] {
      var init, a := actions[..|actions| - 1], actions[|actions| - 1];
      AlongPrefix(s, loc, actions, |init|, i, j);
      AlongPrefix(s, loc, actions, |actions|, i, j);
      assert actions[..|actions|] == actions;
      SoundAlong(s, loc, init, i, j);
      RunInv(s, loc, init);
      hide Sound;
      SoundStays(Run(s, loc, init), loc, a, i, Deleted(s, loc, init, i));
    }
  }

  // ---- the theorem

  /** The run of the attempt has come to its end. */
  predicate AtTheEnd(s: State, i: nat, j: Id) {
    Attempting(s, i, j) && s.workers[i].at == Summarize
  }

  predicate EndsWell(s: State, i: nat) {
    i < |s.workers| && s.workers[i].Busy?
    && s.workers[i].video in s.db.videos && s.db.videos[s.workers[i].video].status == VideoCompleted
  }

  /** In every continuation in which the worker keeps the job, a run that comes to its end
      has completed its video. */
  ghost predicate AlwaysEndsWell(s: State, loc: Locale, i: nat, j: Id) {
    forall actions | Along(s, loc, actions, i, j) && AtTheEnd(Run(s, loc, actions), i, j) ::
      EndsWell(Run(s, loc, actions), i)
  }

  /** Whatever earlier attempts left behind, this is so if and only if no worker stands at
      the second write of `fail` for the job when the attempt begins. */
  lemma AttemptIsSoundExactlyWhen(s: State, loc: Locale, i: nat)
    requires Reachable(s, loc) && i < |s.workers| && Inside(s.workers[i]) && Rank(s.workers[i].at) <= 13
    ensures AlwaysEndsWell(s, loc, i, s.workers[i].job) <==> !Somewhere(s.workers, s.workers[i].job, FailVideo)
  {
    hide Reachable, Inv, Run, Along, Somewhere;
    var j := s.workers[i].job;
    ReachableInv(s, loc);
    if Somewhere(s.workers, j, FailVideo) {
      var actions := StaleWriteSpoils(s, loc, i);
    } else {
      forall actions | Along(s, loc, actions, i, j) && AtTheEnd(Run(s, loc, actions), i, j)
        ensures EndsWell(Run(s, loc, actions), i)
      {
        SoundAlong(s, loc, actions, i, j);
      }
    }
  }

  lemma StaleWriteSpoils(s: State, loc: Locale, i: nat) returns (actions: seq<Action>)
    requires Inv(s, loc) && i < |s.workers| && Inside(s.workers[i]) && Rank(s.workers[i].at) <= 13
    requires Somewhere(s.workers, s.workers[i].job, FailVideo)
    ensures Along(s, loc, actions, i, s.workers[i].job)
    ensures AtTheEnd(Run(s, loc, actions), i, s.workers[i].job) && !EndsWell(Run(s, loc, actions), i)
  {
    hide Inv, Apply, Along, Run, EndsWell;
    var j := s.workers[i].job;
    var k :| 0 <= k < |s.workers| && s.workers[k].Busy? && s.workers[k].job == j && s.workers[k].at == FailVideo;
    var rest := RunsThrough(s, loc, i);
    var s2 := Run(s, loc, rest);
    var last := Work(k, JobOutcomes.TAKEN);
    RunOneMore(s, loc, rest, last);
    assert s2.workers[k] == s.workers[k];
    Spoils(s2, loc, i, k);
    AlongLast(s, loc, rest, last, i, j);
    actions := rest + [last];
  }

  lemma Spoils(s: State, loc: Locale, i: nat, k: nat)
    requires Inv(s, loc) && i < |s.workers| && k < |s.workers| && i != k
    requires s.workers[i].Busy? && s.workers[i].at == Summarize
    requires s.workers[k].Busy? && s.workers[k].at == FailVideo && s.workers[k].job == s.workers[i].job
    ensures var s2 := Apply(s, loc, Work(k, JobOutcomes.TAKEN));
            && Attempting(s2, i, s.workers[i].job) && s2.workers[i] == s.workers[i] && !EndsWell(s2, i)
  {
    hide CoreOk, ClaimsOk, Apply, Ready, Progress, JobOutcomes.TAKEN;
    InsideJob(s, loc, i);
    HasProgress(s.db, loc, s.workers[i]);
    OutsideRow(s, loc, k);
    JobOutcomes.TakenFailure(s, loc, k);
    AllFailed(s.db, loc, s.workers[k]);
  }
}
