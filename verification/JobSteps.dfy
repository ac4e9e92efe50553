/** Every statement of the worker program keeps the facts of `JobInvariants`, and
    disturbs no job but its own. One lemma per kind of statement. */
module JobSteps {
  import opened Wrappers
  import opened Tables
  import opened Pipeline
  import opened JobInvariants
  import Sql
  import Chunker

  /** A step of a worker that is inside a run, as the rest of the system sees it. */
  ghost predicate GoodStep(db: Db, db2: Db, loc: Locale, w: Worker, w2: Worker)
    requires w.Busy?
  {
    && TablesOk(db2, loc) && SameJobs(db, db2) && db2.segments == db.segments
    && db2.intents == db.intents && db2.jobSegments == db.jobSegments
    && (forall k | k in db.jobs && k != w.job :: Untouched(db, db2, k))
    && JobOk(db2, w.job) && WorkerOk(db2, loc, w2) && (w2.Busy? ==> w2.job == w.job)
    && Counted(db, db2, w.job)
  }

  /** The job is not queued, and not counted as retried. */
  predicate Counted(db: Db, db2: Db, j: Id) {
    j in db.jobs && j in db2.jobs && db2.jobs[j].retryCount == db.jobs[j].retryCount
    && db.jobs[j].status != Pending && db2.jobs[j].status != Pending
  }

  lemma NotQueued(db: Db, loc: Locale, w: Worker)
    requires Inside(w) && WorkerOk(db, loc, w)
    ensures Counted(db, db, w.job)
  {
  }

  ghost predicate Ready(db: Db, loc: Locale, w: Worker) {
    Inside(w) && TablesOk(db, loc) && WorkerOk(db, loc, w) && JobOk(db, w.job)
  }

  lemma QuietStep(db: Db, loc: Locale, w: Worker, w2: Worker)
    requires Ready(db, loc, w) && WorkerOk(db, loc, w2) && (w2.Busy? ==> w2.job == w.job)
    ensures GoodStep(db, db, loc, w, w2)
  {
    hide TablesOk, JobOk, WorkerOk;
    NotQueued(db, loc, w);
  }

  lemma GivingUp(db: Db, loc: Locale, w: Worker)
    requires Ready(db, loc, w) && Rank(w.at) <= 13
    ensures GoodStep(db, db, loc, w, Failing(w))
  {
    hide GoodStep;
    GivingUpIsOk(db, loc, w);
    QuietStep(db, loc, w, Failing(w));
  }

  // ---- statements on the job row

  lemma JobRowStep(db: Db, db2: Db, loc: Locale, w: Worker, w2: Worker, row: Job)
    requires Ready(db, loc, w) && SameOrigin(row, db.jobs[w.job]) && db2 == db.(jobs := db.jobs[w.job := row])
    requires row.retryCount == db.jobs[w.job].retryCount && row.status != Pending
    requires JobOk(db2, w.job) && WorkerOk(db2, loc, w2) && (w2.Busy? ==> w2.job == w.job)
    ensures GoodStep(db, db2, loc, w, w2)
  {
    hide JobOk;
    NotQueued(db, loc, w);
    JobRowIsLocal(db, db2, w.job, row);
    TablesFrame(db, db2, loc);
  }

  /** What a status update leaves of the facts about its job. */
  lemma StatusKeepsFacts(db: Db, db2: Db, loc: Locale, w: Worker, status: JobStatus)
    requires Inside(w) && WorkerOk(db, loc, w) && JobOk(db, w.job)
    requires db2 == db.(jobs := db2.jobs) && db2.jobs.Keys == db.jobs.Keys
    requires db2.jobs[w.job].status == status && TimesOk(db2.jobs[w.job])
    ensures NoneCompleted(db, w.job) ==> NoneCompleted(db2, w.job)
    ensures status != Completed && NoneCompleted(db, w.job) ==> JobOk(db2, w.job)
    ensures 6 <= Rank(w.at) <= 14 ==> Progress(db2, loc, w)
  {
  }

  lemma StageFacts(db: Db, db2: Db, loc: Locale, w: Worker, stage: Stage, next: Point, s: Supply)
    requires Inside(w) && WorkerOk(db, loc, w) && JobOk(db, w.job)
    requires 6 <= Rank(w.at) <= 10 && Rank(next) == Rank(w.at) + 1 && w.at != Store && next != Split
    requires Sql.UpdateJobStatus(db, w.job, w.row.tenant, Processing, stage, None, s.now) == Some(db2)
    ensures JobOk(db2, w.job) && WorkerOk(db2, loc, w.(row := w.row.(stage := stage), at := next))
  {
    StatusKeepsFacts(db, db2, loc, w, Processing);
  }

  lemma StageStep(db: Db, loc: Locale, w: Worker, stage: Stage, next: Point, s: Supply)
    requires Ready(db, loc, w) && 6 <= Rank(w.at) <= 10 && Rank(next) == Rank(w.at) + 1
    requires w.at != Store && next != Split
    ensures var (db2, w2) := SetStage(db, w, stage, next, s); GoodStep(db, db2, loc, w, w2)
  {
    hide GoodStep;
    var r := Sql.UpdateJobStatus(db, w.job, w.row.tenant, Processing, stage, None, s.now);
    if s.ok && r.Some? {
      var w2 := w.(row := w.row.(stage := stage), at := next);
      StageFacts(db, r.value, loc, w, stage, next, s);
      JobRowStep(db, r.value, loc, w, w2, r.value.jobs[w.job]);
    } else {
      GivingUp(db, loc, w);
    }
  }

  lemma CompleteJobFacts(db: Db, db2: Db, loc: Locale, w: Worker, s: Supply)
    requires Inside(w) && WorkerOk(db, loc, w) && JobOk(db, w.job) && VideosOk(db) && w.at == CompleteJob
    requires Sql.UpdateJobStatus(db, w.job, w.row.tenant, Completed, Finished, None, s.now) == Some(db2)
    ensures JobOk(db2, w.job) && WorkerOk(db2, loc, w.(at := CompleteVideo))
  {
    WorkIsIngested(db, loc, w);
    assert Ingested(db2, w.video);
    hide Progress, VideosOk;
    StatusKeepsFacts(db, db2, loc, w, Completed);
  }

  lemma CompleteJobStep(db: Db, loc: Locale, w: Worker, s: Supply)
    requires Ready(db, loc, w) && w.at == CompleteJob
    ensures var (db2, w2) := DoCompleteJob(db, w, s); GoodStep(db, db2, loc, w, w2)
  {
    hide GoodStep;
    var r := Sql.UpdateJobStatus(db, w.job, w.row.tenant, Completed, Finished, None, s.now);
    if s.ok && r.Some? {
      CompleteJobFacts(db, r.value, loc, w, s);
      JobRowStep(db, r.value, loc, w, w.(at := CompleteVideo), r.value.jobs[w.job]);
    } else {
      GivingUp(db, loc, w);
    }
  }

  /** By the time the job is to be completed everything is in the tables. */
  lemma WorkIsIngested(db: Db, loc: Locale, w: Worker)
    requires w.Busy? && 12 <= Rank(w.at) <= 14 && WorkerOk(db, loc, w) && VideosOk(db)
    ensures Ingested(db, w.video)
  {
    assert VideoMatches(db, w.video);
    assert w.transcript == db.transcripts[w.video];
  }

  lemma FailJobFacts(db: Db, db2: Db, loc: Locale, w: Worker, s: Supply)
    requires Inside(w) && WorkerOk(db, loc, w) && JobOk(db, w.job) && w.at == FailJob
    requires Sql.UpdateJobStatus(db, w.job, w.row.tenant, Failed, w.row.stage, Some(s.message), s.now) == Some(db2)
    ensures JobOk(db2, w.job) && WorkerOk(db2, loc, w.(at := FailVideo))
  {
    StatusKeepsFacts(db, db2, loc, w, Failed);
  }

  lemma FailVideoIsOk(db: Db, loc: Locale, w: Worker)
    requires w.Busy? && w.at == FailJob && WorkerOk(db, loc, w)
    ensures WorkerOk(db, loc, w.(at := FailVideo))
  {
    hide NoneCompleted, Progress;
  }

  lemma FailJobStep(db: Db, loc: Locale, w: Worker, s: Supply)
    requires Ready(db, loc, w) && w.at == FailJob
    ensures var (db2, w2) := DoFailJob(db, w, s); GoodStep(db, db2, loc, w, w2)
  {
    hide GoodStep, WorkerOk, TablesOk, JobOk;
    var r := Sql.UpdateJobStatus(db, w.job, w.row.tenant, Failed, w.row.stage, Some(s.message), s.now);
    if s.ok && r.Some? {
      FailJobFacts(db, r.value, loc, w, s);
      JobOfReady(db, loc, w);
      JobRowStep(db, r.value, loc, w, w.(at := FailVideo), r.value.jobs[w.job]);
    } else {
      FailVideoIsOk(db, loc, w);
      QuietStep(db, loc, w, w.(at := FailVideo));
    }
  }

  lemma JobOfReady(db: Db, loc: Locale, w: Worker)
    requires Ready(db, loc, w)
    ensures w.job in db.jobs && SameOrigin(w.row, db.jobs[w.job])
  {
    hide TablesOk, JobOk, NoneCompleted, Progress;
  }

  // ---- the video row

  /** The insert can fail on neither unique column, nor on the job reference. */
  lemma InsertNeverConflicts(db: Db, loc: Locale, w: Worker)
    requires Ready(db, loc, w) && w.at == Insert
    ensures !Sql.VideoConflict(db, NewVideo(w.job, w.row)) && w.job in db.jobs
  {
    forall v | v in db.videos
      ensures db.videos[v].job != w.job && db.videos[v].fileKey != w.row.fileKey
    {
      assert v !in VideosOf(db, w.job);
      assert VideoMatches(db, v);
      SameKeySameJob(db, db.videos[v].job, w.job);
    }
  }

  lemma SameKeySameJob(db: Db, j: Id, k: Id)
    requires IntentsMatchJobs(db) && j in db.jobs && k in db.jobs
    ensures db.jobs[j].fileKey == db.jobs[k].fileKey ==> j == k
  {
    assert Backed(db, j) && Backed(db, k);
  }

  /** A step that changes the job's video and what hangs on it, and no job row. */
  lemma VideoStep(db: Db, db2: Db, loc: Locale, w: Worker, w2: Worker)
    requires Ready(db, loc, w) && TablesOk(db2, loc)
    requires db2.jobs == db.jobs && db2.intents == db.intents && db2.jobSegments == db.jobSegments
    requires db2.segments == db.segments
    requires forall k | k in db.jobs && k != w.job :: Untouched(db, db2, k)
    requires JobOk(db2, w.job) && WorkerOk(db2, loc, w2) && (w2.Busy? ==> w2.job == w.job)
    ensures GoodStep(db, db2, loc, w, w2)
  {
    hide TablesOk, JobOk, WorkerOk;
    NotQueued(db, loc, w);
  }

  // ---- deleting and inserting the video

  lemma DeleteVideos(db: Db, db2: Db, j: Id)
    requires VideosOk(db) && j in db.jobs && db2 == Sql.DeleteVideoByJobID(db, j, db.jobs[j].tenant)
    ensures VideosOk(db2) && VideosOf(db2, j) == {}
  {
    forall v | v in db.videos && db.videos[v].job == j ensures v !in db2.videos {
      assert VideoMatches(db, v);
    }
    forall v | v in db2.videos ensures VideoMatches(db2, v) {
      assert VideoMatches(db, v);
    }
  }

  lemma DeleteTables(db: Db, db2: Db, loc: Locale, j: Id)
    requires TablesOk(db, loc) && j in db.jobs && db2 == Sql.DeleteVideoByJobID(db, j, db.jobs[j].tenant)
    ensures TablesOk(db2, loc) && VideosOf(db2, j) == {}
  {
    hide IntentsMatchJobs, VideosOk, SegmentsUnique, VideosOf;
    IntentsFrame(db, db2);
    LinksFrame(db, db2);
    DeleteVideos(db, db2, j);
    assert SegmentsUnique(db2, loc) by {
      SegmentsFrame(db, db2, loc);
    }
  }

  lemma SegmentsFrame(db: Db, db2: Db, loc: Locale)
    requires SegmentsUnique(db, loc) && db2.segments == db.segments
    ensures SegmentsUnique(db2, loc)
  {
  }

  lemma DeleteIsLocal(db: Db, db2: Db, j: Id)
    requires j in db.jobs && db2 == Sql.DeleteVideoByJobID(db, j, db.jobs[j].tenant)
    ensures forall k | k in db.jobs && k != j :: Untouched(db, db2, k)
  {
  }

  lemma CleanupStep(db: Db, loc: Locale, w: Worker, s: Supply)
    requires Ready(db, loc, w) && w.at == Cleanup
    ensures var (db2, w2) := DoCleanup(db, w, s); GoodStep(db, db2, loc, w, w2)
  {
    hide GoodStep;
    if s.ok {
      var db2, w2 := Sql.DeleteVideoByJobID(db, w.job, w.row.tenant), w.(at := Insert);
      DeleteTables(db, db2, loc, w.job);
      DeleteIsLocal(db, db2, w.job);
      assert NoneCompleted(db2, w.job) by {
        assert forall v | v in db2.videos :: db2.videos[v].job == w.job ==> v in VideosOf(db2, w.job);
      }
      VideoStep(db, db2, loc, w, w2);
    } else {
      GivingUp(db, loc, w);
    }
  }

  lemma InsertVideos(db: Db, db2: Db, w: Worker, v: Id)
    requires VideosOk(db) && w.Busy? && w.job in db.jobs && SameOrigin(w.row, db.jobs[w.job])
    requires Sql.CreateVideo(db, v, NewVideo(w.job, w.row)) == Some(db2)
    ensures VideosOk(db2)
  {
    forall u | u in db2.videos ensures VideoMatches(db2, u) {
      assert u != v ==> VideoMatches(db, u);
    }
    forall u, x | u in db2.videos && x in db2.videos && db2.videos[u].job == db2.videos[x].job ensures u == x {
      assert u != v ==> u in db.videos;
      assert x != v ==> x in db.videos;
    }
  }

  lemma InsertTables(db: Db, db2: Db, loc: Locale, w: Worker, v: Id)
    requires Ready(db, loc, w) && w.at == Insert
    requires Sql.CreateVideo(db, v, NewVideo(w.job, w.row)) == Some(db2)
    ensures TablesOk(db2, loc)
  {
    hide IntentsMatchJobs, VideosOk, SegmentsUnique, JobOk;
    IntentsFrame(db, db2);
    LinksFrame(db, db2);
    InsertVideos(db, db2, w, v);
    SegmentsFrame(db, db2, loc);
  }

  lemma InsertIsLocal(db: Db, db2: Db, w: Worker, v: Id)
    requires w.Busy? && Sql.CreateVideo(db, v, NewVideo(w.job, w.row)) == Some(db2)
    ensures forall k | k in db.jobs && k != w.job :: Untouched(db, db2, k)
  {
  }

  lemma InsertFacts(db: Db, db2: Db, loc: Locale, w: Worker, v: Id)
    requires Inside(w) && w.at == Insert && WorkerOk(db, loc, w) && JobOk(db, w.job) && ChildrenOk(db)
    requires Sql.CreateVideo(db, v, NewVideo(w.job, w.row)) == Some(db2)
    ensures JobOk(db2, w.job) && WorkerOk(db2, loc, w.(video := v, at := ListNames))
  {
  }

  lemma InsertStep(db: Db, loc: Locale, w: Worker, s: Supply)
    requires Ready(db, loc, w) && w.at == Insert
    ensures var (db2, w2) := DoInsert(db, w, s); GoodStep(db, db2, loc, w, w2)
  {
    hide GoodStep;
    var r := Sql.CreateVideo(db, s.newId, NewVideo(w.job, w.row));
    if s.ok && r.Some? {
      InsertTables(db, r.value, loc, w, s.newId);
      InsertIsLocal(db, r.value, w, s.newId);
      InsertFacts(db, r.value, loc, w, s.newId);
      VideoStep(db, r.value, loc, w, w.(video := s.newId, at := ListNames));
    } else {
      GivingUp(db, loc, w);
    }
  }

  // ---- copying the segments

  lemma FirstOfListing(db: Db, loc: Locale, ids: set<Id>) returns (id: Id)
    requires ids != {} && ids <= db.segments.Keys
    ensures id in ids && forall o | o in ids :: Sql.ListedBefore(db, loc, id, o)
    ensures NamesInOrder(db, loc, ids) == [db.segments[id].name] + NamesInOrder(db, loc, ids - {id})
  {
    FirstListedExists(db, loc, ids);
    id :| id in ids && (forall o | o in ids :: Sql.ListedBefore(db, loc, id, o))
          && NamesInOrder(db, loc, ids) == [db.segments[id].name] + NamesInOrder(db, loc, ids - {id});
  }

  /** The listing names the segments and nothing else. */
  lemma {:induction false} ListingNames(db: Db, loc: Locale, ids: set<Id>)
    requires ids <= db.segments.Keys
    ensures var names := NamesInOrder(db, loc, ids);
            && (forall s | s in ids :: db.segments[s].name in names)
            && (forall k | 0 <= k < |names| :: NamesOne(db, ids, names[k]))
    decreases ids
  {
    if ids != {} {
      hide NamesInOrder;
      var id := FirstOfListing(db, loc, ids);
      ListingNames(db, loc, ids - {id});
      var names, rest := NamesInOrder(db, loc, ids), NamesInOrder(db, loc, ids - {id});
      forall s | s in ids ensures db.segments[s].name in names {
        assert names[0] == db.segments[id].name;
        assert s == id || s in ids - {id};
      }
      forall k | 0 <= k < |names| ensures NamesOne(db, ids, names[k]) {
        if k > 0 {
          assert names[k] == rest[k - 1] && NamesOne(db, ids - {id}, rest[k - 1]);
        }
      }
    }
  }

  lemma AfterFirst(db: Db, loc: Locale, ids: set<Id>, id: Id, name: string)
    requires ids <= db.segments.Keys && id in ids && NamesOne(db, ids - {id}, name)
    requires forall o | o in ids :: Sql.ListedBefore(db, loc, id, o)
    ensures loc.collate(db.segments[id].name) <= loc.collate(name)
  {
  }

  /** The names come in the order of their collation, one for each segment. */
  lemma {:induction false} ListingIsSorted(db: Db, loc: Locale, ids: set<Id>)
    requires ids <= db.segments.Keys
    ensures var names := NamesInOrder(db, loc, ids);
            && |names| == |ids|
            && (forall k | 0 <= k < |names| :: NamesOne(db, ids, names[k]))
            && forall a, b | 0 <= a < b < |names| :: loc.collate(names[a]) <= loc.collate(names[b])
    decreases ids
  {
    ListingNames(db, loc, ids);
    if ids != {} {
      hide NamesInOrder, NamesOne;
      var id := FirstOfListing(db, loc, ids);
      ListingIsSorted(db, loc, ids - {id});
      var names, rest := NamesInOrder(db, loc, ids), NamesInOrder(db, loc, ids - {id});
      forall b | 0 < b < |names| ensures loc.collate(names[0]) <= loc.collate(names[b]) {
        assert NamesOne(db, ids - {id}, rest[b - 1]);
        AfterFirst(db, loc, ids, id, names[b]);
      }
      forall a, b | 0 <= a < b < |names| ensures loc.collate(names[a]) <= loc.collate(names[b]) {
        if a > 0 {
          assert names[a] == rest[a - 1] && names[b] == rest[b - 1];
        }
      }
    }
  }

  lemma ListNamesFacts(db: Db, loc: Locale, w: Worker)
    requires Inside(w) && w.at == ListNames && WorkerOk(db, loc, w) && LinksOk(db)
    ensures WorkerOk(db, loc, EnsureNext(w.(names := ListNamesByJob(db, loc, w.job), segments := [])))
  {
    var segs := SegsOfJob(db, w.job);
    assert segs * db.segments.Keys == segs;
    ListingNames(db, loc, segs);
  }

  lemma ListNamesStep(db: Db, loc: Locale, w: Worker, s: Supply)
    requires Ready(db, loc, w) && w.at == ListNames
    ensures var (db2, w2) := DoListNames(db, loc, w, s); GoodStep(db, db2, loc, w, w2)
  {
    hide GoodStep;
    if s.ok {
      ListNamesFacts(db, loc, w);
      QuietStep(db, loc, w, EnsureNext(w.(names := ListNamesByJob(db, loc, w.job), segments := [])));
    } else {
      GivingUp(db, loc, w);
    }
  }

  /** Ensuring a name listed for the job finds the job's own segment: no segment is
      created. */
  lemma EnsureFindsOwn(db: Db, loc: Locale, w: Worker, s: Supply)
    requires Inside(w) && w.at == Ensure && WorkerOk(db, loc, w) && LinksOk(db) && SegmentsUnique(db, loc)
    requires |w.segments| < |w.names|
    ensures var name := w.names[|w.segments|];
            var id := Sql.EnsuredSegment(db, loc, s.newId, w.row.tenant, name);
            && Sql.EnsureSegment(db, loc, s.newId, w.row.tenant, name) == Some(db)
            && id in SegsOfJob(db, w.job) && db.segments[id].name == name
  {
    var name := w.names[|w.segments|];
    assert NamesOne(db, SegsOfJob(db, w.job), name);
    var own :| own in SegsOfJob(db, w.job) && own in db.segments && db.segments[own].name == name;
    assert own in Sql.SegmentsByName(db, loc, w.row.tenant, name);
  }

  lemma EnsureFacts(db: Db, loc: Locale, w: Worker, id: Id)
    requires Inside(w) && w.at == Ensure && WorkerOk(db, loc, w) && |w.segments| < |w.names|
    requires id in SegsOfJob(db, w.job) && id in db.segments && db.segments[id].name == w.names[|w.segments|]
    ensures WorkerOk(db, loc, EnsureNext(w.(segments := w.segments + [id])))
  {
    var w2 := EnsureNext(w.(segments := w.segments + [id]));
    assert NamesOk(db, loc, w);
    assert NamesOk(db, loc, w2);
  }

  lemma EnsureStep(db: Db, loc: Locale, w: Worker, s: Supply)
    requires Ready(db, loc, w) && w.at == Ensure
    ensures var (db2, w2) := DoEnsure(db, loc, w, s); GoodStep(db, db2, loc, w, w2)
  {
    hide GoodStep, IntentsMatchJobs, VideosOk, JobOk;
    if |w.segments| >= |w.names| {
      assert WorkerOk(db, loc, w.(at := Attach)) by {
        assert NamesOk(db, loc, w);
      }
      QuietStep(db, loc, w, w.(at := Attach));
    } else if s.ok {
      EnsureFindsOwn(db, loc, w, s);
      var id := Sql.EnsuredSegment(db, loc, s.newId, w.row.tenant, w.names[|w.segments|]);
      EnsureFacts(db, loc, w, id);
      QuietStep(db, loc, w, EnsureNext(w.(segments := w.segments + [id])));
    } else {
      GivingUp(db, loc, w);
    }
  }

  /** Once a segment is ensured for every name, they are exactly the job's segments. */
  lemma AllEnsured(db: Db, loc: Locale, w: Worker)
    requires w.Busy? && NamesOk(db, loc, w) && |w.segments| == |w.names|
    requires LinksOk(db) && SegmentsUnique(db, loc) && w.job in db.jobs
    ensures (set s | s in w.segments) == SegsOfJob(db, w.job)
  {
    forall s | s in SegsOfJob(db, w.job) ensures s in w.segments {
      var k :| 0 <= k < |w.names| && w.names[k] == db.segments[s].name;
      assert w.segments[k] == s;
    }
  }

  /** Attaching a list of existing segments to an existing video adds exactly them. */
  lemma {:induction false} AttachAll(db: Db, v: Id, segments: seq<Id>)
    requires v in db.videos && forall s | s in segments :: s in db.segments
    ensures var r := Sql.AttachVideoSegments(db, v, segments);
            && r.Some? && r.value == db.(videoSegments := r.value.videoSegments)
            && (forall u | u in r.value.videoSegments :: u in db.videoSegments || u == v)
            && (forall u | u != v :: SegsOfVideo(r.value, u) == SegsOfVideo(db, u))
            && SegsOfVideo(r.value, v) == SegsOfVideo(db, v) + (set s | s in segments)
  {
    if segments != [] {
      var init := segments[..|segments| - 1];
      assert segments == init + [segments[|segments| - 1]];
      AttachAll(db, v, init);
    }
  }

  lemma AttachFacts(db: Db, db2: Db, loc: Locale, w: Worker)
    requires Inside(w) && w.at == Attach && WorkerOk(db, loc, w) && JobOk(db, w.job)
    requires db2 == db.(videoSegments := db2.videoSegments)
    requires SegsOfVideo(db2, w.video) == SegsOfJob(db, w.job)
    ensures JobOk(db2, w.job) && WorkerOk(db2, loc, w.(at := Download))
  {
    assert NoneCompleted(db, w.job);
  }

  lemma SegmentsAreChildren(db: Db, db2: Db, v: Id)
    requires ChildrenOk(db) && v in db.videos && db2 == db.(videoSegments := db2.videoSegments)
    requires forall u | u in db2.videoSegments :: u in db.videoSegments || u == v
    requires forall u | u != v :: SegsOfVideo(db2, u) == SegsOfVideo(db, u)
    ensures OnlyChildrenOf(db, db2, v)
  {
  }

  lemma AttachStep(db: Db, loc: Locale, w: Worker, s: Supply)
    requires Ready(db, loc, w) && w.at == Attach
    ensures var (db2, w2) := DoAttach(db, w, s); GoodStep(db, db2, loc, w, w2)
  {
    hide GoodStep, IntentsMatchJobs, VideosOk, JobOk, OnlyChildrenOf, NoneCompleted;
    if s.ok {
      AllEnsured(db, loc, w);
      AttachAll(db, w.video, w.segments);
      var db2 := Sql.AttachVideoSegments(db, w.video, w.segments).value;
      AttachFacts(db, db2, loc, w);
      SegmentsAreChildren(db, db2, w.video);
      ChildStep(db, db2, loc, w, w.(at := Download));
    } else {
      GivingUp(db, loc, w);
    }
  }

  // ---- what hangs on the video

  lemma ChildStep(db: Db, db2: Db, loc: Locale, w: Worker, w2: Worker)
    requires Ready(db, loc, w) && w.video in db.videos && db.videos[w.video].job == w.job
    requires OnlyChildrenOf(db, db2, w.video)
    requires JobOk(db2, w.job) && WorkerOk(db2, loc, w2) && (w2.Busy? ==> w2.job == w.job)
    ensures GoodStep(db, db2, loc, w, w2)
  {
    hide JobOk, WorkerOk, GoodStep;
    ChildrenAreLocal(db, db2, w.video);
    TablesFrame(db, db2, loc);
    VideoStep(db, db2, loc, w, w2);
  }

  lemma StoreFacts(db: Db, db2: Db, loc: Locale, w: Worker, s: Supply)
    requires Inside(w) && w.at == Store && WorkerOk(db, loc, w) && JobOk(db, w.job)
    requires Sql.UpsertTranscript(db, w.video, s.transcript) == Some(db2)
    ensures JobOk(db2, w.job) && WorkerOk(db2, loc, w.(transcript := s.transcript, at := Split))
  {
    assert NoneCompleted(db, w.job);
  }

  lemma TranscriptIsChild(db: Db, db2: Db, v: Id, row: Transcript)
    requires ChildrenOk(db) && Sql.UpsertTranscript(db, v, row) == Some(db2)
    ensures OnlyChildrenOf(db, db2, v)
  {
  }

  lemma StoreStep(db: Db, loc: Locale, w: Worker, s: Supply)
    requires Ready(db, loc, w) && w.at == Store
    ensures var (db2, w2) := DoStore(db, w, s); GoodStep(db, db2, loc, w, w2)
  {
    hide GoodStep, IntentsMatchJobs, VideosOk, JobOk, OnlyChildrenOf;
    var r := Sql.UpsertTranscript(db, w.video, s.transcript);
    if s.ok && r.Some? {
      StoreFacts(db, r.value, loc, w, s);
      TranscriptIsChild(db, r.value, w.video, s.transcript);
      ChildStep(db, r.value, loc, w, w.(transcript := s.transcript, at := Split));
    } else {
      GivingUp(db, loc, w);
    }
  }

  /** Inserting rows 0..n-1 for a video without chunks never hits the unique index, and
      leaves it with exactly those rows. */
  lemma {:induction false} InsertAll(db: Db, v: Id, rows: seq<ChunkRow>)
    requires v in db.videos && ChunksOf(db, v) == map[]
    requires forall k | 0 <= k < |rows| :: rows[k].video == v && rows[k].index == k
    ensures var r := Sql.InsertChunks(db, rows);
            && r.Some? && r.value == db.(chunks := r.value.chunks)
            && (forall u | u in r.value.chunks :: u in db.chunks || u == v)
            && (forall u | u != v :: ChunksOf(r.value, u) == ChunksOf(db, u))
            && ChunksOf(r.value, v) == (map i: nat | i < |rows| :: rows[i].chunk)
  {
    if rows != [] {
      InsertAll(db, v, rows[..|rows| - 1]);
    }
  }

  lemma ChunksFacts(db: Db, db2: Db, loc: Locale, w: Worker, vectors: seq<Vector>)
    requires Inside(w) && w.at == InsertChunks && WorkerOk(db, loc, w) && JobOk(db, w.job)
    requires |vectors| == |Chunker.Sections(w.transcript.content)|
    requires db2 == db.(chunks := db2.chunks)
    requires ChunksOf(db2, w.video) == WorkerChunks(w.(vectors := vectors))
    ensures JobOk(db2, w.job) && WorkerOk(db2, loc, w.(vectors := vectors, at := CompleteJob))
  {
    assert NoneCompleted(db, w.job);
  }

  lemma ChunksAreChildren(db: Db, db2: Db, v: Id)
    requires ChildrenOk(db) && v in db.videos && db2 == db.(chunks := db2.chunks)
    requires forall u | u in db2.chunks :: u in db.chunks || u == v
    requires forall u | u != v :: ChunksOf(db2, u) == ChunksOf(db, u)
    ensures OnlyChildrenOf(db, db2, v)
  {
  }

  lemma InsertChunksStep(db: Db, loc: Locale, w: Worker, s: Supply)
    requires Ready(db, loc, w) && w.at == InsertChunks
    ensures var (db2, w2) := DoInsertChunks(db, w, s); GoodStep(db, db2, loc, w, w2)
  {
    hide GoodStep, IntentsMatchJobs, VideosOk, JobOk, OnlyChildrenOf;
    var sections := Chunker.Sections(w.transcript.content);
    if sections == [] {
      assert ChunksOf(db, w.video) == WorkerChunks(w.(vectors := []));
      ChunksFacts(db, db, loc, w, []);
      QuietStep(db, loc, w, w.(vectors := [], at := CompleteJob));
    } else if !s.ok || |s.vectors| != |sections| {
      GivingUp(db, loc, w);
    } else {
      var rows := ChunkRows(w.video, w.row.tenant, sections, s.vectors);
      InsertAll(db, w.video, rows);
      var db2 := Sql.InsertChunks(db, rows).value;
      assert ChunksOf(db2, w.video) == WorkerChunks(w.(vectors := s.vectors));
      ChunksFacts(db, db2, loc, w, s.vectors);
      ChunksAreChildren(db, db2, w.video);
      ChildStep(db, db2, loc, w, w.(vectors := s.vectors, at := CompleteJob));
    }
  }

  lemma SummaryFacts(db: Db, db2: Db, loc: Locale, w: Worker, row: Summary)
    requires Inside(w) && w.at == Summarize && WorkerOk(db, loc, w) && JobOk(db, w.job) && VideosOk(db)
    requires Sql.UpsertSummary(db, w.video, row) == Some(db2)
    ensures JobOk(db2, w.job)
  {
    WorkIsIngested(db, loc, w);
    assert Ingested(db2, w.video);
  }

  lemma SummaryIsChild(db: Db, db2: Db, v: Id, row: Summary)
    requires ChildrenOk(db) && Sql.UpsertSummary(db, v, row) == Some(db2)
    ensures OnlyChildrenOf(db, db2, v)
  {
  }

  lemma SummarizeStep(db: Db, loc: Locale, w: Worker, s: Supply)
    requires Ready(db, loc, w) && w.at == Summarize
    ensures var (db2, w2) := DoSummarize(db, w, s); GoodStep(db, db2, loc, w, w2)
  {
    hide GoodStep, IntentsMatchJobs, VideosOk, JobOk, OnlyChildrenOf;
    var row := SummaryRow(s.summary, w.transcript.language);
    var r := Sql.UpsertSummary(db, w.video, row);
    if w.transcript.content != "" && s.ok && r.Some? {
      SummaryFacts(db, r.value, loc, w, row);
      SummaryIsChild(db, r.value, w.video, row);
      ChildStep(db, r.value, loc, w, Idle);
    } else {
      QuietStep(db, loc, w, Idle);
    }
  }

  lemma CompleteVideoFacts(db: Db, db2: Db, loc: Locale, w: Worker)
    requires Inside(w) && w.at == CompleteVideo && WorkerOk(db, loc, w) && JobOk(db, w.job) && VideosOk(db)
    requires Sql.UpdateVideoStatus(db, w.video, w.row.tenant, VideoCompleted) == Some(db2)
    ensures JobOk(db2, w.job) && WorkerOk(db2, loc, w.(at := Summarize))
  {
    WorkIsIngested(db, loc, w);
    assert Ingested(db2, w.video);
  }

  lemma CompleteVideoStep(db: Db, loc: Locale, w: Worker, s: Supply)
    requires Ready(db, loc, w) && w.at == CompleteVideo
    ensures var (db2, w2) := DoCompleteVideo(db, w, s); GoodStep(db, db2, loc, w, w2)
  {
    hide GoodStep;
    var r := Sql.UpdateVideoStatus(db, w.video, w.row.tenant, VideoCompleted);
    if s.ok && r.Some? {
      CompleteVideoFacts(db, r.value, loc, w);
      VideoRowIsLocal(db, r.value, w.video, r.value.videos[w.video]);
      TablesFrame(db, r.value, loc);
      VideoStep(db, r.value, loc, w, w.(at := Summarize));
    } else {
      GivingUp(db, loc, w);
    }
  }

  lemma LoadStep(db: Db, loc: Locale, w: Worker, s: Supply)
    requires Ready(db, loc, w) && w.at == Load
    ensures var (db2, w2) := DoLoad(db, w, s); GoodStep(db, db2, loc, w, w2)
  {
    hide GoodStep;
    var w2 := DoLoad(db, w, s).1;
    assert WorkerOk(db, loc, w2);
    QuietStep(db, loc, w, w2);
  }

  // ---- all of them

  lemma InsideStep(db: Db, loc: Locale, w: Worker, s: Supply)
    requires Ready(db, loc, w)
    ensures var (db2, w2) := Step(db, loc, w, s); GoodStep(db, db2, loc, w, w2)
  {
    hide TablesOk, JobOk, WorkerOk, GoodStep;
    match w.at
    case Load => LoadStep(db, loc, w, s);
    case Cleanup => CleanupStep(db, loc, w, s);
    case Insert => InsertStep(db, loc, w, s);
    case ListNames => ListNamesStep(db, loc, w, s);
    case Ensure => EnsureStep(db, loc, w, s);
    case Attach => AttachStep(db, loc, w, s);
    case Download => StageStep(db, loc, w, Downloading, Recognize, s);
    case Recognize => StageStep(db, loc, w, RecognizeStage(w.row.kind), Store, s);
    case Store => StoreStep(db, loc, w, s);
    case Split => StageStep(db, loc, w, Chunking, Embed, s);
    case Embed => StageStep(db, loc, w, Embedding, InsertChunks, s);
    case InsertChunks => InsertChunksStep(db, loc, w, s);
    case CompleteJob => CompleteJobStep(db, loc, w, s);
    case CompleteVideo => CompleteVideoStep(db, loc, w, s);
    case Summarize => SummarizeStep(db, loc, w, s);
    case FailJob => FailJobStep(db, loc, w, s);
  }

  /** A statement leads to a later point, or to the next name. */
  lemma RanksGoUp(db: Db, loc: Locale, w: Worker, s: Supply)
    requires w.Busy?
    ensures var (db2, w2) := Step(db, loc, w, s);
            w2.Busy? ==> Rank(w2.at) > Rank(w.at) || (w.at == Ensure && w2.at == Ensure)
  {
    hide Sql.UpdateJobStatus, Sql.DeleteVideoByJobID, Sql.CreateVideo, Sql.EnsureSegment, Sql.EnsuredSegment;
    hide Sql.AttachVideoSegments, Sql.UpsertTranscript, Sql.InsertChunks, ListNamesByJob, Chunker.Sections;
    hide Sql.UpdateVideoStatus, Sql.FailVideoByJobID, Sql.UpsertSummary;
  }

  /** Each statement that succeeds leads to the very next one, with one turn for each name,
      and a run ends only at its last statement, after failing, or when the job cannot be
      loaded. */
  lemma NoStatementIsSkipped(db: Db, loc: Locale, w: Worker, s: Supply)
    requires w.Busy?
    ensures var w2 := Step(db, loc, w, s).1;
            && (w2.Busy? && w2.at != FailJob ==>
                  || Rank(w2.at) == Rank(w.at) + 1
                  || (w.at == Ensure && w2.at == Ensure && |w2.segments| == |w.segments| + 1)
                  || (w.at == ListNames && w2.at == Attach && w2.names == []))
            && (w2 == Idle ==> w.at == Load || w.at == Summarize || w.at == FailVideo)
            && (w2.Busy? && w2.at == FailJob ==> 1 <= Rank(w.at) <= 13)
  {
    hide Sql.UpdateJobStatus, Sql.DeleteVideoByJobID, Sql.CreateVideo, Sql.EnsureSegment, Sql.EnsuredSegment;
    hide Sql.AttachVideoSegments, Sql.UpsertTranscript, Sql.InsertChunks, ListNamesByJob, Chunker.Sections;
    hide Sql.UpdateVideoStatus, Sql.FailVideoByJobID, Sql.UpsertSummary;
  }
}
