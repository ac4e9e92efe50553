/** No constraint ever refuses a statement of the worker program: with fresh ids and no
    outside failure a run goes through to its end, in every interleaving. */
module JobProgress {
  import opened Wrappers
  import opened Tables
  import opened Pipeline
  import opened JobInvariants
  import opened JobSystem
  import opened JobSteps
  import JobInductive
  import Chunker

  /** The outside world does its part in this step. */
  predicate Favourable(db: Db, w: Worker, s: Supply)
    requires w.Busy?
  {
    s.ok && s.newId !in db.videos && |s.vectors| == |Chunker.Sections(w.transcript.content)|
  }

  /** The worker gets on: to a later point, or to the next name. */
  predicate Advances(w: Worker, w2: Worker)
    requires w.Busy?
  {
    if w.at == Summarize then w2 == Idle
    else
      w2.Busy? && w2.job == w.job && Rank(w2.at) <= (if w.at == CompleteVideo then 14 else 13) &&
      (Rank(w2.at) > Rank(w.at)
       || (w.at == Ensure && w2.at == Ensure && |w.segments| < |w2.segments| <= |w2.names| == |w.names|))
  }

  lemma SegmentStepsAdvance(db: Db, loc: Locale, w: Worker, s: Supply)
    requires Ready(db, loc, w) && Favourable(db, w, s) && 3 <= Rank(w.at) <= 5
    ensures Advances(w, Step(db, loc, w, s).1)
  {
    hide IntentsMatchJobs, VideosOk, JobOk;
    if w.at == Ensure && |w.segments| < |w.names| {
      EnsureFindsOwn(db, loc, w, s);
    } else if w.at == Attach {
      AllEnsured(db, loc, w);
      AttachAll(db, w.video, w.segments);
    }
  }

  lemma ChunksAdvance(db: Db, loc: Locale, w: Worker, s: Supply)
    requires Ready(db, loc, w) && Favourable(db, w, s) && w.at == InsertChunks
    ensures Advances(w, Step(db, loc, w, s).1)
  {
    hide TablesOk, JobOk;
    InsertAll(db, w.video, ChunkRows(w.video, w.row.tenant, Chunker.Sections(w.transcript.content), s.vectors));
  }

  /** The rows a worker's updates address are there. */
  lemma RowsExist(db: Db, loc: Locale, w: Worker)
    requires Ready(db, loc, w)
    ensures w.job in db.jobs && db.jobs[w.job].tenant == w.row.tenant
    ensures 3 <= Rank(w.at) <= 14 ==> w.video in db.videos && db.videos[w.video].tenant == w.row.tenant
  {
    JobInductive.VideosOfTables(db, loc);
    hide TablesOk, JobOk;
    assert 3 <= Rank(w.at) <= 14 ==> VideoMatches(db, w.video);
  }

  lemma StageStepsAdvance(db: Db, loc: Locale, w: Worker, s: Supply)
    requires w.Busy? && w.job in db.jobs && db.jobs[w.job].tenant == w.row.tenant && s.ok
    requires w.at == Download || w.at == Recognize || w.at == Split || w.at == Embed
    ensures Advances(w, Step(db, loc, w, s).1)
  {
  }

  lemma ClosingStepsAdvance(db: Db, w: Worker, s: Supply)
    requires w.Busy? && w.job in db.jobs && db.jobs[w.job].tenant == w.row.tenant && s.ok
    requires w.video in db.videos && db.videos[w.video].tenant == w.row.tenant
    ensures w.at == Store ==> Advances(w, DoStore(db, w, s).1)
    ensures w.at == CompleteJob ==> Advances(w, DoCompleteJob(db, w, s).1)
    ensures w.at == CompleteVideo ==> Advances(w, DoCompleteVideo(db, w, s).1)
    ensures w.at == Summarize ==> Advances(w, DoSummarize(db, w, s).1)
  {
  }

  lemma OpeningStepsAdvance(db: Db, w: Worker, s: Supply)
    requires w.Busy? && w.job in db.jobs && s.ok
    ensures w.at == Load ==> Advances(w, DoLoad(db, w, s).1)
    ensures w.at == Cleanup ==> Advances(w, DoCleanup(db, w, s).1)
  {
  }

  lemma RowStepsAdvance(db: Db, loc: Locale, w: Worker, s: Supply)
    requires w.Busy? && w.job in db.jobs && db.jobs[w.job].tenant == w.row.tenant
    requires Rank(w.at) <= 1 || (6 <= Rank(w.at) <= 14 && w.at != InsertChunks)
    requires 3 <= Rank(w.at) ==> w.video in db.videos && db.videos[w.video].tenant == w.row.tenant
    requires Favourable(db, w, s)
    ensures Advances(w, Step(db, loc, w, s).1)
  {
    hide Advances, DoStore, DoCompleteJob, DoCompleteVideo, DoSummarize, DoLoad, DoCleanup;
    if w.at == Download || w.at == Recognize || w.at == Split || w.at == Embed {
      StageStepsAdvance(db, loc, w, s);
    } else if Rank(w.at) <= 1 {
      OpeningStepsAdvance(db, w, s);
    } else {
      ClosingStepsAdvance(db, w, s);
    }
  }

  /** Neither a unique column, nor a reference, nor a missing row stops a run. */
  lemma NeverRefused(db: Db, loc: Locale, w: Worker, s: Supply)
    requires Ready(db, loc, w) && Favourable(db, w, s) && w.at != FailJob
    ensures Advances(w, Step(db, loc, w, s).1)
  {
    hide TablesOk, WorkerOk, JobOk, Advances;
    if w.at == Insert {
      InsertAdvances(db, loc, w, s);
    } else if 3 <= Rank(w.at) <= 5 {
      SegmentStepsAdvance(db, loc, w, s);
    } else if w.at == InsertChunks {
      ChunksAdvance(db, loc, w, s);
    } else {
      RowsExist(db, loc, w);
      RankBelow(w);
      RowStepsAdvance(db, loc, w, s);
    }
  }

  lemma RankBelow(w: Worker)
    requires Inside(w) && w.at != FailJob
    ensures Rank(w.at) <= 14
  {
  }

  lemma InsertAdvances(db: Db, loc: Locale, w: Worker, s: Supply)
    requires Ready(db, loc, w) && Favourable(db, w, s) && w.at == Insert
    ensures Advances(w, Step(db, loc, w, s).1)
  {
    InsertNeverConflicts(db, loc, w);
  }

  // ---- a favourable run goes through

  lemma {:induction false} Bound(ids: set<Id>) returns (b: Id)
    ensures forall x | x in ids :: x < b
    decreases ids
  {
    if ids == {} {
      b := 0;
    } else {
      var x :| x in ids;
      var c := Bound(ids - {x});
      b := if x < c then c else x + 1;
      assert forall y | y in ids :: y == x || y in ids - {x};
    }
  }

  function RepeatVector(n: nat): (r: seq<Vector>)
    ensures |r| == n
  {
    seq(n, k => [])
  }

  /** Some supply is favourable. */
  lemma FavourableSupply(db: Db, w: Worker) returns (s: Supply)
    requires w.Busy?
    ensures forall now :: Favourable(db, w, s.(now := now))
    ensures s.ok
  {
    var id := Bound(db.videos.Keys);
    s := Supply(true, id, NO_TRANSCRIPT, RepeatVector(|Chunker.Sections(w.transcript.content)|),
                None, "", 0);
  }

  /** One more action at the end. */
  lemma RunOneMore(s: State, loc: Locale, actions: seq<Action>, a: Action)
    ensures Run(s, loc, actions + [a]) == Apply(Run(s, loc, actions), loc, a)
  {
    var all := actions + [a];
    assert all[..|all| - 1] == actions && all[|all| - 1] == a;
  }

  lemma RunThree(s: State, loc: Locale, a: Action, b: Action, c: Action)
    ensures Run(s, loc, [a, b, c]) == Apply(Apply(Apply(s, loc, a), loc, b), loc, c)
  {
    hide Apply;
    RunOneMore(s, loc, [], a);
    RunOneMore(s, loc, [a], b);
    RunOneMore(s, loc, [a, b], c);
    assert [] + [a] == [a] && [a] + [b] == [a, b] && [a, b] + [c] == [a, b, c];
  }

  lemma {:induction false} RunRun(s: State, loc: Locale, a: seq<Action>, b: seq<Action>)
    ensures Run(s, loc, a + b) == Run(Run(s, loc, a), loc, b)
    decreases |b|
  {
    if b == [] {
      assert a + b == a;
    } else {
      RunRun(s, loc, a, b[..|b| - 1]);
      assert (a + b)[..|a + b| - 1] == a + b[..|b| - 1];
    }
  }

  function Distance(w: Worker): (nat, nat)
    requires w.Busy?
  {
    (if Rank(w.at) <= 14 then 14 - Rank(w.at) else 0, if |w.segments| <= |w.names| then |w.names| - |w.segments| else 0)
  }

  /** All that another worker's progress leaves alone. */
  predicate OnlyWorker(s: State, s2: State, i: nat) {
    |s2.workers| == |s.workers|
    && forall k | 0 <= k < |s.workers| && k != i :: s2.workers[k] == s.workers[k]
  }

  lemma FavourableWork(s: State, loc: Locale, i: nat, supply: Supply)
    requires Inv(s, loc) && i < |s.workers| && Inside(s.workers[i]) && s.workers[i].at != FailJob
    requires Favourable(s.db, s.workers[i], supply.(now := s.now))
    ensures var s2 := AfterWork(s, loc, i, supply);
            Inv(s2, loc) && OnlyWorker(s, s2, i) && Advances(s.workers[i], s2.workers[i])
  {
    hide CoreOk, ClaimsOk, Ready, Advances, Favourable;
    JobInductive.InsideJob(s, loc, i);
    NeverRefused(s.db, loc, s.workers[i], supply.(now := s.now));
    JobInductive.InvKept(s, loc, Work(i, supply));
  }

  /** The worker has the job. */
  predicate Attempting(s: State, i: nat, j: Id) {
    i < |s.workers| && s.workers[i].Busy? && s.workers[i].job == j
  }

  /** One attempt: the worker has the job all along. */
  ghost predicate Along(s: State, loc: Locale, actions: seq<Action>, i: nat, j: Id) {
    forall n: nat | n <= |actions| :: Attempting(Run(s, loc, actions[..n]), i, j)
  }

  lemma AlongFirst(s: State, loc: Locale, a: Action, rest: seq<Action>, i: nat, j: Id)
    requires Attempting(s, i, j) && Along(Apply(s, loc, a), loc, rest, i, j)
    ensures Along(s, loc, [a] + rest, i, j)
  {
    hide Apply;
    var actions := [a] + rest;
    forall n: nat | n <= |actions| ensures Attempting(Run(s, loc, actions[..n]), i, j) {
      if n > 0 {
        RunOneMore(s, loc, [], a);
        RunRun(s, loc, [a], rest[..n - 1]);
        assert [] + [a] == [a] && actions[..n] == [a] + rest[..n - 1];
        assert Attempting(Run(Apply(s, loc, a), loc, rest[..n - 1]), i, j);
      }
    }
  }

  lemma AlongLast(s: State, loc: Locale, actions: seq<Action>, a: Action, i: nat, j: Id)
    requires Along(s, loc, actions, i, j) && Attempting(Run(s, loc, actions + [a]), i, j)
    ensures Along(s, loc, actions + [a], i, j)
  {
    hide Run;
    forall n: nat | n <= |actions + [a]| ensures Attempting(Run(s, loc, (actions + [a])[..n]), i, j) {
      if n <= |actions| {
        assert (actions + [a])[..n] == actions[..n];
      } else {
        assert (actions + [a])[..n] == actions + [a];
      }
    }
  }

  /** A worker that has not failed can always get to one of the last two points of its
      program, whatever the others have done so far. */
  lemma {:induction false} RunsTo(s: State, loc: Locale, i: nat, last: Point) returns (actions: seq<Action>)
    requires Inv(s, loc) && i < |s.workers| && Inside(s.workers[i]) && s.workers[i].at != FailJob
    requires Rank(s.workers[i].at) <= Rank(last) && (last == CompleteVideo || last == Summarize)
    ensures var s2 := Run(s, loc, actions);
            && Inv(s2, loc) && OnlyWorker(s, s2, i)
            && s2.workers[i].Busy? && s2.workers[i].job == s.workers[i].job && s2.workers[i].at == last
            && Along(s, loc, actions, i, s.workers[i].job)
    decreases Distance(s.workers[i]).0, Distance(s.workers[i]).1
  {
    hide Inv, Apply, AfterWork, Favourable;
    RankBelow(s.workers[i]);
    if s.workers[i].at == last {
      actions := [];
      assert forall n: nat | n <= 0 :: actions[..n] == [];
    } else {
      var supply := FavourableSupply(s.db, s.workers[i]);
      FavourableWork(s, loc, i, supply);
      var s1 := AfterWork(s, loc, i, supply);
      var rest := RunsTo(s1, loc, i, last);
      actions := [Work(i, supply)] + rest;
      RunOneMore(s, loc, [], Work(i, supply));
      RunRun(s, loc, [Work(i, supply)], rest);
      assert [] + [Work(i, supply)] == [Work(i, supply)];
      assert Apply(s, loc, Work(i, supply)) == s1 by {
        ApplyWork(s, loc, i, supply);
      }
      AlongFirst(s, loc, Work(i, supply), rest, i, s.workers[i].job);
    }
  }

  /** So it can get to the end. */
  lemma RunsThrough(s: State, loc: Locale, i: nat) returns (actions: seq<Action>)
    requires Inv(s, loc) && i < |s.workers| && Inside(s.workers[i]) && s.workers[i].at != FailJob
    ensures var s2 := Run(s, loc, actions);
            && Inv(s2, loc) && OnlyWorker(s, s2, i)
            && s2.workers[i].Busy? && s2.workers[i].job == s.workers[i].job && s2.workers[i].at == Summarize
            && Along(s, loc, actions, i, s.workers[i].job)
  {
    hide Inv, Run, Along;
    RankBelow(s.workers[i]);
    actions := RunsTo(s, loc, i, Summarize);
  }

  lemma ApplyWork(s: State, loc: Locale, i: nat, supply: Supply)
    ensures Apply(s, loc, Work(i, supply)) == AfterWork(s, loc, i, supply)
  {
  }
}
