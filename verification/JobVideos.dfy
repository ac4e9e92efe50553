/** What the rows of videos record, action by action, and what a search finds: exactly the
    sections of completed videos that nobody has deleted, for their own tenant. */
module JobVideos {
  import opened Wrappers
  import opened Tables
  import opened Pipeline
  import opened JobInvariants
  import opened JobSystem
  import opened JobSteps
  import opened JobInductive
  import opened JobAgreement
  import opened JobRequests
  import opened JobTheorems
  import Chunker
  import JobAttempts
  import JobFailures
  import Sql

  // ---- the record of a video

  /** The row of a video after a worker got through to the database: the cleanup removes
      the videos of its job, the insertion adds one with the columns of the job, and the
      last writes set the status. */
  function VideoWritten(db: Db, w: Worker, newId: Id, v: Id): Option<Video>
    requires w.Busy? && w.job in db.jobs
  {
    var before, row := Lookup(db.videos, v), db.jobs[w.job];
    match w.at
    case Cleanup => if before.Some? && before.value.job == w.job then None else before
    case Insert =>
      if v == newId && before.None?
      then Some(Video(row.tenant, w.job, row.title, row.kind, row.fileKey, VideoProcessing, None)) else before
    case CompleteVideo =>
      if v == w.video && before.Some? then Some(before.value.(status := VideoCompleted)) else before
    case FailVideo =>
      if before.Some? && before.value.job == w.job then Some(before.value.(status := VideoFailed)) else before
    case _ => before
  }

  /** The tenant of an undeleted video deletes it. */
  predicate Deletes(s: State, a: Action, v: Id) {
    a.SoftDelete? && a.video == v && v in s.db.videos && s.db.videos[v].tenant == a.tenant
    && s.db.videos[v].deletedAt.None?
  }

  /** The row of a video after the action. */
  function VideoRecorded(s: State, a: Action, v: Id): Option<Video> {
    if Deletes(s, a, v) then Some(s.db.videos[v].(deletedAt := Some(s.now)))
    else if a.Work? && a.worker < |s.workers| && s.workers[a.worker].Busy? && s.workers[a.worker].job in s.db.jobs
            && a.supply.ok
    then VideoWritten(s.db, s.workers[a.worker], a.supply.newId, v)
    else Lookup(s.db.videos, v)
  }

  // ---- the statements on videos

  /** The videos of the worker's job are of its tenant. */
  predicate OwnVideos(db: Db, w: Worker) {
    w.Busy? ==>
      w.job in db.jobs && SameOrigin(w.row, db.jobs[w.job])
      && forall v | v in db.videos && db.videos[v].job == w.job :: db.videos[v].tenant == w.row.tenant
  }

  lemma VideosAreOwn(s: State, loc: Locale, i: nat)
    requires CoreOk(s, loc) && i < |s.workers| && s.workers[i].Busy?
    ensures OwnVideos(s.db, s.workers[i])
  {
    OutsideRow(s, loc, i);
    hide CoreOk;
    assert forall v | v in s.db.videos :: VideoMatches(s.db, v);
  }

  lemma CleanupWritten(db: Db, w: Worker, s: Supply, v: Id)
    requires w.Busy? && w.at == Cleanup && OwnVideos(db, w)
    ensures Lookup(DoCleanup(db, w, s).0.videos, v) ==
            if s.ok then VideoWritten(db, w, s.newId, v) else Lookup(db.videos, v)
  {
  }

  lemma InsertWritten(db: Db, w: Worker, s: Supply, v: Id)
    requires w.Busy? && w.at == Insert && OwnVideos(db, w) && !Sql.VideoConflict(db, NewVideo(w.job, w.row))
    ensures Lookup(DoInsert(db, w, s).0.videos, v) ==
            if s.ok then VideoWritten(db, w, s.newId, v) else Lookup(db.videos, v)
  {
    hide Sql.VideoConflict;
  }

  lemma CompletionWritten(db: Db, w: Worker, s: Supply, v: Id)
    requires w.Busy? && w.at == CompleteVideo && OwnVideos(db, w) && w.video in db.videos
    requires db.videos[w.video].job == w.job
    ensures Lookup(DoCompleteVideo(db, w, s).0.videos, v) ==
            if s.ok then VideoWritten(db, w, s.newId, v) else Lookup(db.videos, v)
  {
  }

  lemma FailureWritten(db: Db, w: Worker, s: Supply, v: Id)
    requires w.Busy? && w.at == FailVideo && OwnVideos(db, w)
    ensures Lookup(DoFailVideo(db, w, s).0.videos, v) ==
            if s.ok then VideoWritten(db, w, s.newId, v) else Lookup(db.videos, v)
  {
  }

  lemma OthersWriteNoVideo(db: Db, loc: Locale, w: Worker, s: Supply)
    requires w.Busy? && w.at != Cleanup && w.at != Insert && w.at != CompleteVideo && w.at != FailVideo
    ensures Step(db, loc, w, s).0.videos == db.videos
  {
    if 3 <= Rank(w.at) <= 12 {
      JobAttempts.MiddleStep(db, loc, w, s);
      hide Step;
    } else {
      hide Sql.UpdateJobStatus;
      if s.ok {
      }
    }
  }

  lemma WorkWritten(s: State, loc: Locale, i: nat, supply: Supply, v: Id)
    requires Inv(s, loc) && i < |s.workers| && s.workers[i].Busy?
    ensures s.workers[i].job in s.db.jobs
    ensures Lookup(AfterWork(s, loc, i, supply).db.videos, v) ==
            if supply.ok then VideoWritten(s.db, s.workers[i], supply.newId, v) else Lookup(s.db.videos, v)
  {
    hide CoreOk, ClaimsOk, AfterWork, Ready;
    var w, sup := s.workers[i], supply.(now := s.now);
    VideosAreOwn(s, loc, i);
    WorkResult(s, loc, i, supply);
    hide VideoWritten, OwnVideos, DoCleanup, DoInsert, DoCompleteVideo, DoFailVideo;
    OwnJob(s.db, w);
    match w.at
    case Cleanup => CleanupWritten(s.db, w, sup, v);
    case Insert =>
      InsideJob(s, loc, i);
      InsertNeverConflicts(s.db, loc, w);
      InsertWritten(s.db, w, sup, v);
    case CompleteVideo =>
      InsideJob(s, loc, i);
      JobAttempts.HasProgress(s.db, loc, w);
      CompletionWritten(s.db, w, sup, v);
    case FailVideo => FailureWritten(s.db, w, sup, v);
    case _ =>
      OthersWriteNoVideo(s.db, loc, w, sup);
      NothingWritten(s.db, w, supply.newId, v);
  }

  lemma OwnJob(db: Db, w: Worker)
    requires w.Busy? && OwnVideos(db, w)
    ensures w.job in db.jobs
  {
  }

  lemma NothingWritten(db: Db, w: Worker, newId: Id, v: Id)
    requires w.Busy? && w.job in db.jobs
    requires w.at != Cleanup && w.at != Insert && w.at != CompleteVideo && w.at != FailVideo
    ensures VideoWritten(db, w, newId, v) == Lookup(db.videos, v)
  {
  }

  // ---- every action

  lemma DeletionRecorded(s: State, u: Id, tenant: Id, v: Id)
    ensures Lookup(AfterSoftDelete(s, u, tenant).db.videos, v) ==
            if Deletes(s, SoftDelete(u, tenant), v) then Some(s.db.videos[v].(deletedAt := Some(s.now)))
            else Lookup(s.db.videos, v)
  {
  }

  lemma ClientsKeepVideos(s: State, loc: Locale, a: Action)
    requires Inv(s, loc) && !a.Work? && !a.SoftDelete?
    ensures Apply(s, loc, a).db.videos == s.db.videos
  {
    hide CoreOk, ClaimsOk, AfterIntent, AfterCreate, AfterClaim, AfterRetry;
    match a
    case CreateIntent(id, tenant, fileKey, contentType, expiresAt) =>
      IntentKeepsVideos(s, id, tenant, fileKey, contentType, expiresAt);
    case Create(req, draw) => NewRow(s, loc, req, draw);
    case Claim(i, k) => ClaimKeepsVideos(s, i, k);
    case Die(i) =>
    case Retry(k, tenant) => RetryKeepsVideos(s, k, tenant);
    case Tick(elapsed) =>
  }

  lemma IntentKeepsVideos(s: State, id: Id, tenant: Id, fileKey: string, contentType: string, expiresAt: Time)
    ensures AfterIntent(s, id, tenant, fileKey, contentType, expiresAt).db.videos == s.db.videos
  {
    hide KindOf;
  }

  lemma ClaimKeepsVideos(s: State, i: nat, k: Id)
    ensures AfterClaim(s, i, k).db.videos == s.db.videos
  {
  }

  lemma RetryKeepsVideos(s: State, k: Id, tenant: Id)
    ensures AfterRetry(s, k, tenant).db.videos == s.db.videos
  {
  }

  /** After every action each video's row is the record of what was there and was done; a
      video that nobody inserted is not there. */
  lemma VideosRecordedExactly(s: State, loc: Locale, a: Action, v: Id)
    requires Inv(s, loc)
    ensures Lookup(Apply(s, loc, a).db.videos, v) == VideoRecorded(s, a, v)
  {
    hide Inv, AfterWork, AfterSoftDelete, VideoWritten;
    if a.Work? {
      if a.worker < |s.workers| && s.workers[a.worker].Busy? {
        WorkWritten(s, loc, a.worker, a.supply, v);
      } else {
        JobFailures.NothingDone(s, loc, a.worker, a.supply);
      }
    } else if a.SoftDelete? {
      DeletionRecorded(s, a.video, a.tenant, v);
    } else {
      ClientsKeepVideos(s, loc, a);
    }
  }

  // ---- deleted videos

  /** The video is not there, or its tenant has deleted it. */
  predicate Hidden(db: Db, v: Id) {
    v in db.videos ==> db.videos[v].deletedAt.Some?
  }

  /** A worker draws the identifier for a new video. */
  predicate Draws(a: Action, v: Id) {
    a.Work? && a.supply.newId == v
  }

  lemma HiddenKept(s: State, loc: Locale, a: Action, v: Id)
    requires Inv(s, loc) && Hidden(s.db, v) && (Draws(a, v) ==> v in s.db.videos)
    ensures Hidden(Apply(s, loc, a).db, v)
  {
    hide Inv, Apply;
    VideosRecordedExactly(s, loc, a, v);
  }

  lemma HiddenIsNotFound(db: Db, loc: Locale, v: Id)
    requires Hidden(db, v)
    ensures forall t, segment, i :: (v, i) !in Sql.SearchChunks(db, loc, t, segment)
  {
  }

  lemma {:induction false} HiddenForever(s: State, loc: Locale, v: Id, more: seq<Action>)
    requires Inv(s, loc) && Hidden(s.db, v)
    requires forall n: nat | n < |more| && Draws(more[n], v) :: v in Run(s, loc, more[..n]).db.videos
    ensures Hidden(Run(s, loc, more).db, v)
    decreases |more|
  {
    hide Inv, Hidden, Draws, Apply;
    if more != [] {
      var init := more[..|more| - 1];
      forall n: nat | n < |init| && Draws(init[n], v) ensures v in Run(s, loc, init[..n]).db.videos {
        assert init[..n] == more[..n];
      }
      HiddenForever(s, loc, v, init);
      RunInv(s, loc, init);
      HiddenKept(Run(s, loc, init), loc, more[|more| - 1], v);
    }
  }

  /** Once its tenant has deleted a video, no search of anybody finds it again: ever, if it
      was completed, and otherwise as long as no worker draws the same identifier for a new
      video. */
  lemma DeletedIsNeverFound(s: State, loc: Locale, v: Id, tenant: Id, more: seq<Action>)
    requires Reachable(s, loc) && Deletes(s, SoftDelete(v, tenant), v)
    requires s.db.videos[v].status == VideoCompleted || forall a | a in more :: !Draws(a, v)
    ensures var db2 := Run(Apply(s, loc, SoftDelete(v, tenant)), loc, more).db;
            forall t, segment, i :: (v, i) !in Sql.SearchChunks(db2, loc, t, segment)
  {
    ReachableInv(s, loc);
    hide Reachable, Inv, Apply, Run, Draws, Settled, SameContent;
    var s1 := Apply(s, loc, SoftDelete(v, tenant));
    VideosRecordedExactly(s, loc, SoftDelete(v, tenant), v);
    InvKept(s, loc, SoftDelete(v, tenant));
    forall n: nat | n < |more| && Draws(more[n], v) ensures v in Run(s1, loc, more[..n]).db.videos {
      assert more[n] in more;
      StillThere(s1, loc, v, more[..n]);
    }
    HiddenForever(s1, loc, v, more);
    HiddenIsNotFound(Run(s1, loc, more).db, loc, v);
  }

  lemma StillThere(s: State, loc: Locale, v: Id, more: seq<Action>)
    requires Inv(s, loc) && v in s.db.videos && s.db.videos[v].status == VideoCompleted
    ensures v in Run(s, loc, more).db.videos
  {
    hide CoreOk, ClaimsOk, Settled, Run;
    CompletedIsSettled(s, loc, v);
    SettledForever(s, loc, s.db.videos[v].job, v, more);
  }

  /** Only a deletion by its tenant marks a video, with the time of the deletion. */
  lemma {:induction false} MarkedByDeletion(s0: State, loc: Locale, actions: seq<Action>, v: Id) returns (n: nat)
    requires Init(s0)
    requires v in Run(s0, loc, actions).db.videos && Run(s0, loc, actions).db.videos[v].deletedAt.Some?
    ensures n < |actions| && Deletes(Run(s0, loc, actions[..n]), actions[n], v)
    ensures Run(s0, loc, actions).db.videos[v].deletedAt == Some(Run(s0, loc, actions[..n]).now)
    decreases |actions|
  {
    hide Inv, Apply, Deletes;
    n := 0;
    if actions != [] {
      var init, a := actions[..|actions| - 1], actions[|actions| - 1];
      var s := Run(s0, loc, init);
      InitInv(s0, loc);
      RunInv(s0, loc, init);
      VideosRecordedExactly(s, loc, a, v);
      if Deletes(s, a, v) {
        n := |actions| - 1;
      } else {
        MarkWasThere(s, a, v);
        n := MarkedByDeletion(s0, loc, init, v);
        assert init[..n] == actions[..n];
      }
    }
  }

  lemma MarkWasThere(s: State, a: Action, v: Id)
    requires !Deletes(s, a, v) && VideoRecorded(s, a, v).Some? && VideoRecorded(s, a, v).value.deletedAt.Some?
    ensures v in s.db.videos && s.db.videos[v].deletedAt == VideoRecorded(s, a, v).value.deletedAt
  {
  }

  // ---- what a search finds

  /** In every reachable state a search finds exactly the sections of the transcripts of
      completed videos that nobody has deleted, for their own tenant, and with a segment
      name only where a segment of the job bears it. */
  lemma SearchFindsExactly(s: State, loc: Locale, tenant: Id, segment: Option<string>, v: Id, i: nat)
    requires Reachable(s, loc)
    ensures (v, i) in Sql.SearchChunks(s.db, loc, tenant, segment) <==>
              && v in s.db.videos && s.db.videos[v].status == VideoCompleted && s.db.videos[v].deletedAt == None
              && s.db.videos[v].tenant == tenant && v in s.db.transcripts
              && i < |Chunker.Sections(s.db.transcripts[v].content)|
              && (segment == None || Borne(s.db, loc, s.db.videos[v].job, segment.value))
  {
    ReachableInv(s, loc);
    hide Reachable, CoreOk, ClaimsOk;
    VideosAndLinks(s, loc);
    if v in s.db.videos && s.db.videos[v].status == VideoCompleted {
      CompletedVideo(s, loc, v);
      SearchOfVideo(s.db, loc, tenant, segment, v, i);
    }
  }

  lemma HasTranscript(s: State, loc: Locale, v: Id)
    requires Reachable(s, loc) && v in s.db.videos && s.db.videos[v].status == VideoCompleted
    ensures v in s.db.transcripts
  {
    CompletedIsIngested(s, loc, v);
  }

  lemma VideosAndLinks(s: State, loc: Locale)
    requires CoreOk(s, loc)
    ensures VideosOk(s.db) && LinksOk(s.db)
  {
  }

  lemma SearchOfVideo(db: Db, loc: Locale, tenant: Id, segment: Option<string>, v: Id, i: nat)
    requires v in db.videos && db.videos[v].status == VideoCompleted && Ingested(db, v) && VideosOk(db) && LinksOk(db)
    ensures (v, i) in Sql.SearchChunks(db, loc, tenant, segment) <==>
              && db.videos[v].deletedAt == None && db.videos[v].tenant == tenant && v in db.transcripts
              && i < |Chunker.Sections(db.transcripts[v].content)|
              && (segment == None || Borne(db, loc, db.videos[v].job, segment.value))
  {
    hide Chunker.Sections;
    assert VideoMatches(db, v);
    ChunksFound(db, loc, tenant, segment, v, i);
    if segment.Some? && db.videos[v].tenant == tenant {
      SegmentsBear(db, loc, tenant, segment.value, v);
    }
    hide Sql.SearchChunks;
  }

  lemma ChunksFound(db: Db, loc: Locale, tenant: Id, segment: Option<string>, v: Id, i: nat)
    requires v in db.videos && v in db.transcripts
    requires HoldsSections(ChunksOf(db, v), db.videos[v].tenant, Chunker.Sections(db.transcripts[v].content))
    ensures (v, i) in Sql.SearchChunks(db, loc, tenant, segment) <==>
              && i < |Chunker.Sections(db.transcripts[v].content)| && db.videos[v].tenant == tenant
              && db.videos[v].status == VideoCompleted && db.videos[v].deletedAt == None
              && (segment.None? || SegsOfVideo(db, v) * Sql.SegmentsByName(db, loc, tenant, segment.value) != {})
  {
    hide Chunker.Sections, Sql.SegmentsByName;
    assert i in ChunksOf(db, v) <==> i < |Chunker.Sections(db.transcripts[v].content)|;
    assert i in ChunksOf(db, v) ==> ChunksOf(db, v)[i].tenant == db.videos[v].tenant;
  }

  lemma SegmentsBear(db: Db, loc: Locale, tenant: Id, name: string, v: Id)
    requires v in db.videos && SegsOfVideo(db, v) == SegsOfJob(db, db.videos[v].job) && LinksOk(db)
    requires VideoMatches(db, v) && db.videos[v].tenant == tenant
    ensures SegsOfVideo(db, v) * Sql.SegmentsByName(db, loc, tenant, name) != {} <==>
            Borne(db, loc, db.videos[v].job, name)
  {
    if Borne(db, loc, db.videos[v].job, name) {
      var t :| t in SegsOfJob(db, db.videos[v].job) && t in db.segments
               && loc.lower(db.segments[t].name) == loc.lower(name);
      assert t in SegsOfVideo(db, v) * Sql.SegmentsByName(db, loc, tenant, name);
    }
  }
}
