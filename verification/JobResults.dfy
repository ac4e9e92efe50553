/** What a finished attempt leaves behind, whatever came before it. */
module JobResults {
  import opened Wrappers
  import opened Tables
  import opened Pipeline
  import opened JobInvariants
  import opened JobSystem
  import opened JobInductive
  import opened JobAgreement
  import opened JobProgress
  import opened JobAttempts
  import Chunker

  /** The rows of a job's video, up to ids and times. */
  datatype JobResult = JobResult(tenant: Id, title: string, kind: Kind, fileKey: string, status: VideoStatus,
                                 deleted: bool, segments: set<string>, transcript: Option<Transcript>,
                                 chunks: map<nat, Chunk>, summary: Option<Summary>)

  function NamesOf(db: Db, loc: Locale, ids: set<Id>): set<string> {
    set s | s in ids && s in db.segments :: loc.lower(db.segments[s].name)
  }

  function ResultOf(db: Db, loc: Locale, v: Id): JobResult
    requires v in db.videos
  {
    var row := db.videos[v];
    JobResult(row.tenant, row.title, row.kind, row.fileKey, row.status, row.deletedAt.Some?,
              NamesOf(db, loc, SegsOfVideo(db, v)),
              Lookup(db.transcripts, v), ChunksOf(db, v), Lookup(db.summaries, v))
  }

  /** The result of an attempt as a function of the job, of what this attempt got from
      outside, and of whether a client deleted the video meanwhile; nothing in it speaks
      of earlier attempts. */
  function Expected(db: Db, loc: Locale, w: Worker, s: Supply, deleted: bool): JobResult
    requires w.Busy? && |w.vectors| == |Chunker.Sections(w.transcript.content)|
  {
    JobResult(w.row.tenant, w.row.title, w.row.kind, w.row.fileKey, VideoCompleted, deleted,
              NamesOf(db, loc, SegsOfJob(db, w.job)), Some(w.transcript), WorkerChunks(w),
              if w.transcript.content != "" && s.ok then Some(SummaryRow(s.summary, w.transcript.language)) else None)
  }

  /** All of the result but status and deletion mark, after any history of failed, dead or
      overlapping attempts. */
  lemma SummaryResult(db: Db, loc: Locale, w: Worker, s: Supply, deleted: bool)
    requires w.Busy? && w.at == Summarize && WorkerOk(db, loc, w) && VideosOk(db)
    ensures |w.vectors| == |Chunker.Sections(w.transcript.content)|
    ensures var db2 := DoSummarize(db, w, s).0;
            && w.video in db2.videos && VideosOf(db2, w.job) == {w.video} && db2.videos == db.videos
            && ResultOf(db2, loc, w.video) ==
               Expected(db, loc, w, s, deleted).(status := db.videos[w.video].status,
                                                 deleted := db.videos[w.video].deletedAt.Some?)
  {
    assert VideoMatches(db, w.video);
  }

  /** The attempt that begins with the claim in state s and comes to its end after the
      given actions of everybody. */
  ghost predicate Attempt(s: State, loc: Locale, actions: seq<Action>, i: nat) {
    && Reachable(s, loc) && i < |s.workers| && s.workers[i].Busy? && Rank(s.workers[i].at) <= 2
    && Along(s, loc, actions, i, s.workers[i].job)
    && AtTheEnd(Run(s, loc, actions), i, s.workers[i].job)
  }

  /** At its end the attempt's video is completed, and its mark is its own. */
  lemma AttemptEnds(s: State, loc: Locale, actions: seq<Action>, i: nat)
    requires Attempt(s, loc, actions, i) && !Somewhere(s.workers, s.workers[i].job, FailVideo)
    ensures var s1 := Run(s, loc, actions);
            && Inv(s1, loc) && AtTheEnd(s1, i, s.workers[i].job)
            && var v := s1.workers[i].video;
            && v in s1.db.videos && s1.db.videos[v].status == VideoCompleted
            && (s1.db.videos[v].deletedAt.Some? <==> Deleted(s, loc, actions, i))
  {
    hide Reachable, Run, Along, Deleted, Somewhere, CoreOk, ClaimsOk;
    ReachableInv(s, loc);
    RunInv(s, loc, actions);
    SoundAlong(s, loc, actions, i, s.workers[i].job);
  }

  /** When a run ends, its job has one video with exactly the expected rows, a completed
      one, whatever earlier attempts did or left undone, unless one of them still stood at
      its last write when this attempt began. */
  lemma FinishedAttempt(s: State, loc: Locale, actions: seq<Action>, i: nat, supply: Supply)
    requires Attempt(s, loc, actions, i) && !Somewhere(s.workers, s.workers[i].job, FailVideo)
    ensures var s1 := Run(s, loc, actions);
            var w, s2 := s1.workers[i], AfterWork(s1, loc, i, supply);
            && |w.vectors| == |Chunker.Sections(w.transcript.content)|
            && w.video in s2.db.videos && VideosOf(s2.db, w.job) == {w.video}
            && ResultOf(s2.db, loc, w.video) == Expected(s1.db, loc, w, supply, Deleted(s, loc, actions, i))
  {
    var s1 := Run(s, loc, actions);
    AttemptEnds(s, loc, actions, i);
    hide Reachable, Run, Along, Deleted, Somewhere, Inv, AfterWork, ResultOf, WorkerChunks, NamesOf;
    EndRows(s1, loc, i, supply, Deleted(s, loc, actions, i));
  }

  lemma EndRows(s: State, loc: Locale, i: nat, supply: Supply, deleted: bool)
    requires Inv(s, loc) && i < |s.workers| && s.workers[i].Busy? && s.workers[i].at == Summarize
    ensures var w, s2 := s.workers[i], AfterWork(s, loc, i, supply);
            && |w.vectors| == |Chunker.Sections(w.transcript.content)|
            && w.video in s.db.videos && w.video in s2.db.videos && VideosOf(s2.db, w.job) == {w.video}
            && ResultOf(s2.db, loc, w.video) ==
               Expected(s.db, loc, w, supply, deleted).(status := s.db.videos[w.video].status,
                                                        deleted := s.db.videos[w.video].deletedAt.Some?)
  {
    var w := s.workers[i];
    HereAgrees(s, loc, i);
    SummaryResult(s.db, loc, w, supply.(now := s.now), deleted);
    WorkResult(s, loc, i, supply);
    hide CoreOk, ClaimsOk, TablesOk, WorkerOk, JobOk, VideosOk, Exclusive, AfterWork, ResultOf, DoSummarize, VideosOf;
  }

  /** Retrying is idempotent: two attempts at the same request that got the same from
      outside leave the same rows, whatever happened before either of them. */
  lemma RetriesAreIdempotent(a: State, aActions: seq<Action>, i: nat, b: State, bActions: seq<Action>, k: nat,
                             loc: Locale, supply: Supply)
    requires Attempt(a, loc, aActions, i) && !Somewhere(a.workers, a.workers[i].job, FailVideo)
    requires Attempt(b, loc, bActions, k) && !Somewhere(b.workers, b.workers[k].job, FailVideo)
    requires Deleted(a, loc, aActions, i) == Deleted(b, loc, bActions, k)
    requires var a1, b1 := Run(a, loc, aActions), Run(b, loc, bActions);
             var v, w := a1.workers[i], b1.workers[k];
             && v.row.tenant == w.row.tenant && v.row.title == w.row.title && v.row.kind == w.row.kind
             && v.row.fileKey == w.row.fileKey
             && NamesOf(a1.db, loc, SegsOfJob(a1.db, v.job)) == NamesOf(b1.db, loc, SegsOfJob(b1.db, w.job))
             && v.transcript == w.transcript && v.vectors == w.vectors
    ensures var a1, b1 := Run(a, loc, aActions), Run(b, loc, bActions);
            var v, w := a1.workers[i].video, b1.workers[k].video;
            var a2, b2 := AfterWork(a1, loc, i, supply), AfterWork(b1, loc, k, supply);
            && v in a2.db.videos && w in b2.db.videos && ResultOf(a2.db, loc, v) == ResultOf(b2.db, loc, w)
            && a2.db.videos[v].status == VideoCompleted
  {
    hide Reachable, Run, Along, Deleted, Somewhere, AfterWork;
    FinishedAttempt(a, loc, aActions, i, supply);
    FinishedAttempt(b, loc, bActions, k, supply);
  }
}
