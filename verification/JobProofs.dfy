/** Every action keeps the invariant of `JobSystem`. */
module JobProofs {
  import opened Wrappers
  import opened Tables
  import opened Pipeline
  import opened JobInvariants
  import opened JobSystem
  import opened JobSteps
  import JobIntake
  import Sql

  // ---- a worker inside its run

  lemma OthersKept(db: Db, db2: Db, loc: Locale, workers: seq<Worker>, i: nat, w2: Worker)
    requires i < |workers| && Inside(workers[i]) && Exclusive(workers) && WorkersOk(db, loc, workers)
    requires LinksOk(db) && GoodStep(db, db2, loc, workers[i], w2)
    ensures WorkersOk(db2, loc, workers[i := w2]) && Exclusive(workers[i := w2])
  {
    hide TablesOk, JobOk, WorkerOk;
    forall k | 0 <= k < |workers| && k != i ensures WorkerOk(db2, loc, workers[k]) {
      var w := workers[k];
      if Inside(w) {
        assert w.job != workers[i].job;
        HasJobRow(db, loc, w);
        WorkerKept(db, db2, loc, w);
      } else {
        OutsideKept(db, db2, loc, w);
      }
    }
  }

  lemma HasJobRow(db: Db, loc: Locale, w: Worker)
    requires w.Busy? && WorkerOk(db, loc, w)
    ensures w.job in db.jobs
  {
  }

  lemma OutsideKept(db: Db, db2: Db, loc: Locale, w: Worker)
    requires !Inside(w) && WorkerOk(db, loc, w) && SameJobs(db, db2)
    ensures WorkerOk(db2, loc, w)
  {
  }

  lemma JobsKept(db: Db, db2: Db, loc: Locale, w: Worker, w2: Worker)
    requires Inside(w) && JobsOk(db) && GoodStep(db, db2, loc, w, w2)
    ensures JobsOk(db2)
  {
    hide TablesOk, WorkerOk, JobOk;
    forall j | j in db2.jobs ensures JobOk(db2, j) {
      if j != w.job {
        JobKept(db, db2, j);
      }
    }
  }

  // ---- marks on video rows

  /** Nothing changes but deletion marks and statuses that become failed. */
  ghost predicate MarksOnly(db: Db, db2: Db) {
    && db2 == db.(videos := db2.videos) && SameVideos(db, db2)
    && forall v | v in db.videos ::
         db2.videos[v].status == db.videos[v].status || db2.videos[v].status == VideoFailed
  }

  lemma MarksKeepJob(db: Db, db2: Db, j: Id)
    requires JobOk(db, j) && MarksOnly(db, db2)
    ensures JobOk(db2, j)
  {
    if db.jobs[j].status == Completed {
      var v :| v in db.videos && db.videos[v].job == j && Ingested(db, v);
      assert Ingested(db2, v);
    }
  }

  lemma MarksKeepWorker(db: Db, db2: Db, loc: Locale, w: Worker)
    requires WorkerOk(db, loc, w) && MarksOnly(db, db2)
    ensures WorkerOk(db2, loc, w)
  {
    if w.Busy? {
      assert w.at == Insert ==> VideosOf(db2, w.job) == VideosOf(db, w.job);
      if 3 <= Rank(w.at) <= 14 {
        assert w.video in db2.videos && db2.videos[w.video].job == w.job;
        assert 4 <= Rank(w.at) <= 5 ==> NamesOk(db2, loc, w);
      }
    }
  }

  lemma MarksKeepCore(s: State, loc: Locale, db2: Db, workers2: seq<Worker>)
    requires CoreOk(s, loc) && MarksOnly(s.db, db2) && |workers2| == |s.workers|
    requires forall i | 0 <= i < |workers2| :: workers2[i] == s.workers[i] || workers2[i] == Idle
    ensures CoreOk(s.(db := db2, workers := workers2), loc)
  {
    hide JobOk, TablesOk, MarksOnly;
    MarksKeepTables(s.db, db2, loc);
    forall j | j in db2.jobs ensures JobOk(db2, j) {
      MarksKeepJob(s.db, db2, j);
    }
    forall i | 0 <= i < |workers2| ensures WorkerOk(db2, loc, workers2[i]) {
      if workers2[i].Busy? {
        MarksKeepWorker(s.db, db2, loc, s.workers[i]);
      }
    }
  }

  lemma MarksKeepTables(db: Db, db2: Db, loc: Locale)
    requires TablesOk(db, loc) && MarksOnly(db, db2)
    ensures TablesOk(db2, loc) && db2.jobs == db.jobs
  {
    TablesFrame(db, db2, loc);
  }

  lemma FailingVideosMarksOnly(db: Db, j: Id, tenant: Id)
    ensures MarksOnly(db, Sql.FailVideoByJobID(db, j, tenant))
  {
  }

  lemma DeletingSoftlyMarksOnly(db: Db, db2: Db, v: Id, tenant: Id, now: Time)
    requires Sql.SoftDeleteVideo(db, v, tenant, now) == Some(db2)
    ensures MarksOnly(db, db2)
  {
  }

  // ---- a job row that no run is inside of

  lemma FreeJobRow(s: State, loc: Locale, j: Id, row: Job, workers2: seq<Worker>)
    requires CoreOk(s, loc) && j in s.db.jobs && SameOrigin(row, s.db.jobs[j])
    requires s.db.jobs[j].status == Pending || s.db.jobs[j].status == Failed
    requires row.status == Pending || row.status == Processing
    requires TimesOk(row) && |workers2| == |s.workers|
    requires forall i | 0 <= i < |workers2| ::
               workers2[i] == s.workers[i] || (workers2[i] == Start(j, row) && s.workers[i] == Idle)
    requires forall a, b | 0 <= a < b < |workers2| ::
               workers2[a] == s.workers[a] || workers2[b] == s.workers[b]
    requires workers2 != s.workers ==> row.status == Processing
    ensures CoreOk(s.(db := s.db.(jobs := s.db.jobs[j := row]), workers := workers2), loc)
  {
    var db2 := s.db.(jobs := s.db.jobs[j := row]);
    NobodyInside(s, loc, j);
    JobRowIsLocal(s.db, db2, j, row);
    assert TablesOk(db2, loc) by {
      hide JobOk, WorkerOk;
      TablesFrame(s.db, db2, loc);
    }
    assert JobsOk(db2) by {
      FreeJobKeepsJobs(s.db, db2, j);
    }
    assert WorkersOk(db2, loc, workers2) by {
      FreeJobKeepsWorkers(s, loc, j, row, workers2);
    }
  }

  lemma NobodyInside(s: State, loc: Locale, j: Id)
    requires WorkersOk(s.db, loc, s.workers) && j in s.db.jobs
    requires s.db.jobs[j].status == Pending || s.db.jobs[j].status == Failed
    ensures forall i | 0 <= i < |s.workers| && Inside(s.workers[i]) :: s.workers[i].job != j
  {
    forall i | 0 <= i < |s.workers| && Inside(s.workers[i]) ensures s.workers[i].job != j {
      assert WorkerOk(s.db, loc, s.workers[i]);
    }
  }

  lemma FreeJobKeepsJobs(db: Db, db2: Db, j: Id)
    requires JobsOk(db) && j in db.jobs && j in db2.jobs && db2 == db.(jobs := db.jobs[j := db2.jobs[j]])
    requires db.jobs[j].status != Completed && db2.jobs[j].status != Completed && TimesOk(db2.jobs[j])
    requires forall k | k in db.jobs && k != j :: Untouched(db, db2, k)
    ensures JobsOk(db2)
  {
    forall k | k in db2.jobs ensures JobOk(db2, k) {
      assert JobOk(db, k);
      if k != j {
        JobKept(db, db2, k);
      }
    }
  }

  lemma FreeJobKeepsWorkers(s: State, loc: Locale, j: Id, row: Job, workers2: seq<Worker>)
    requires WorkersOk(s.db, loc, s.workers) && LinksOk(s.db) && |workers2| == |s.workers|
    requires j in s.db.jobs && SameOrigin(row, s.db.jobs[j])
    requires forall i | 0 <= i < |s.workers| && Inside(s.workers[i]) :: s.workers[i].job != j
    requires forall i | 0 <= i < |workers2| :: workers2[i] == s.workers[i] || workers2[i] == Start(j, row)
    requires workers2 != s.workers ==> row.status == Processing
    ensures WorkersOk(s.db.(jobs := s.db.jobs[j := row]), loc, workers2)
  {
    hide WorkerOk;
    var db2 := s.db.(jobs := s.db.jobs[j := row]);
    JobRowIsLocal(s.db, db2, j, row);
    forall i | 0 <= i < |workers2| ensures WorkerOk(db2, loc, workers2[i]) {
      if workers2[i] != s.workers[i] {
        JustStarted(db2, loc, j, row);
      } else if Inside(workers2[i]) {
        HasJobRow(s.db, loc, workers2[i]);
        WorkerKept(s.db, db2, loc, workers2[i]);
      } else {
        OutsideKept(s.db, db2, loc, workers2[i]);
      }
    }
  }

  lemma JustStarted(db: Db, loc: Locale, j: Id, row: Job)
    requires j in db.jobs && db.jobs[j] == row && row.status == Processing
    ensures WorkerOk(db, loc, Start(j, row))
  {
  }

  // ---- new rows

  lemma OldJobsKept(db: Db, db2: Db, loc: Locale, workers: seq<Worker>)
    requires JobsOk(db) && WorkersOk(db, loc, workers) && LinksOk(db)
    requires SegmentsKept(db, db2) && forall k | k in db.jobs :: Untouched(db, db2, k)
    ensures WorkersOk(db2, loc, workers) && forall k | k in db.jobs :: JobOk(db2, k)
  {
    hide WorkerOk, JobOk, LinksOk;
    forall i | 0 <= i < |workers| ensures WorkerOk(db2, loc, workers[i]) {
      if workers[i].Busy? {
        HasJobRow(db, loc, workers[i]);
        WorkerKept(db, db2, loc, workers[i]);
      } else {
        OutsideKept(db, db, loc, workers[i]);
        IdleIsOk(db2, loc);
      }
    }
    forall k | k in db.jobs ensures JobOk(db2, k) {
      JobKept(db, db2, k);
    }
  }

  lemma IdleIsOk(db: Db, loc: Locale)
    ensures WorkerOk(db, loc, Idle)
  {
  }

  lemma IntentTables(db: Db, db2: Db, loc: Locale, id: Id, row: Intent)
    requires TablesOk(db, loc) && row.status == Issued && Sql.CreateIntent(db, id, row) == Some(db2)
    ensures TablesOk(db2, loc)
  {
    hide IntentsMatchJobs, SegmentsUnique, LinksOk, VideosOk;
    NewIntent(db, db2, id, row);
    SegmentsFrame(db, db2, loc);
    LinksFrame(db, db2);
    VideosFrame(db, db2);
  }

  lemma IntentCore(s: State, loc: Locale, id: Id, row: Intent, db2: Db)
    requires CoreOk(s, loc) && row.status == Issued && Sql.CreateIntent(s.db, id, row) == Some(db2)
    ensures CoreOk(s.(db := db2), loc)
  {
    hide TablesOk, JobOk, WorkerOk;
    IntentTables(s.db, db2, loc, id, row);
    LinksOfTables(s.db, loc);
    OldJobsKept(s.db, db2, loc, s.workers);
  }

  lemma LinksOfTables(db: Db, loc: Locale)
    requires TablesOk(db, loc)
    ensures LinksOk(db)
  {
  }

  lemma NewIntent(db: Db, db2: Db, id: Id, row: Intent)
    requires IntentsMatchJobs(db) && row.status == Issued && Sql.CreateIntent(db, id, row) == Some(db2)
    ensures IntentsMatchJobs(db2)
  {
    forall j | j in db2.jobs ensures Backed(db2, j) {
      assert Backed(db, j);
    }
    forall i | i in db2.intents && db2.intents[i].status == Consumed ensures HasJob(db2, i) {
      assert HasJob(db, i);
    }
  }

  lemma CreateCore(s: State, loc: Locale, req: JobIntake.JobRequest, draw: JobIntake.Draw, db2: Db)
    requires CoreOk(s, loc) && |draw.segmentIds| == |req.segments|
    requires JobIntake.CreateJob(s.db, loc, req, draw) == Success(db2)
    ensures CoreOk(s.(db := db2), loc)
  {
    hide JobOk, WorkerOk;
    var i, ids := JobIntake.CreatedJob(s.db, db2, loc, req, draw);
    var kind := KindOf(s.db.intents[i].contentType).value;
    JobIntake.IntentsAfter(s.db, db2, req, draw, i);
    CreateTables(s.db, db2, loc, req, draw, i, JobIntake.NewJob(req, i, kind, draw.now), ids);
    OldJobsKept(s.db, db2, loc, s.workers);
    FreshJob(s.db, db2, draw.jobId);
  }

  lemma CreateTables(db: Db, db2: Db, loc: Locale, req: JobIntake.JobRequest, draw: JobIntake.Draw, i: Id, row: Job,
                     ids: seq<Id>)
    requires TablesOk(db, loc) && i in db.intents && IntentsMatchJobs(db2) && row.tenant == req.tenant
    requires JobIntake.Added(JobIntake.Consume(db, i, draw.now), db2, loc, req, draw, row, ids)
    ensures TablesOk(db2, loc) && SegmentsKept(db, db2) && forall k | k in db.jobs :: Untouched(db, db2, k)
  {
    hide IntentsMatchJobs;
    forall v | v in db2.videos ensures VideoMatches(db2, v) {
      assert VideoMatches(db, v);
    }
    forall j, s | j in db2.jobSegments && s in db2.jobSegments[j]
      ensures j in db2.jobs && s in db2.segments && db2.segments[s].tenant == db2.jobs[j].tenant
    {
      assert s in SegsOfJob(db2, j);
      if j != draw.jobId {
        assert s in SegsOfJob(db, j);
      }
    }
  }

  lemma FreshJob(db: Db, db2: Db, j: Id)
    requires VideosOk(db) && j !in db.jobs && db2.videos == db.videos
    requires j in db2.jobs && db2.jobs[j].status == Pending && TimesOk(db2.jobs[j])
    ensures JobOk(db2, j)
  {
    forall v | v in db.videos ensures db.videos[v].job != j {
      assert VideoMatches(db, v);
    }
  }

  // ---- the core of the invariant

  lemma WorkCore(s: State, loc: Locale, i: nat, supply: Supply)
    requires CoreOk(s, loc) && i < |s.workers| && s.workers[i].Busy?
    ensures CoreOk(Apply(s, loc, Work(i, supply)), loc)
  {
    hide TablesOk, JobOk, WorkerOk, GoodStep, MarksOnly;
    var w, sup := s.workers[i], supply.(now := s.now);
    var (db2, w2) := Step(s.db, loc, w, sup);
    LinksOfTables(s.db, loc);
    if Inside(w) {
      HasJobRow(s.db, loc, w);
      InsideStep(s.db, loc, w, sup);
      OthersKept(s.db, db2, loc, s.workers, i, w2);
      JobsKept(s.db, db2, loc, w, w2);
      TablesOfGoodStep(s.db, db2, loc, w, w2);
    } else {
      FailingVideosMarksOnly(s.db, w.job, w.row.tenant);
      NoMarks(s.db);
      MarksKeepCore(s, loc, db2, s.workers[i := Idle]);
    }
  }

  lemma NoMarks(db: Db)
    ensures MarksOnly(db, db)
  {
  }

  lemma TablesOfGoodStep(db: Db, db2: Db, loc: Locale, w: Worker, w2: Worker)
    requires w.Busy? && GoodStep(db, db2, loc, w, w2)
    ensures TablesOk(db2, loc)
  {
  }

  lemma ClaimCore(s: State, loc: Locale, i: nat, j: Id)
    requires CoreOk(s, loc)
    ensures CoreOk(Apply(s, loc, Claim(i, j)), loc)
  {
    hide TablesOk, WorkerOk;
    var r := Sql.ClaimJob(s.db, j, s.now);
    if i < |s.workers| && s.workers[i] == Idle && r.Some? {
      var row := r.value.jobs[j];
      assert JobOk(s.db, j);
      FreeJobRow(s, loc, j, row, s.workers[i := Start(j, row)]);
      NobodyInside(s, loc, j);
    }
  }

  lemma RetryCore(s: State, loc: Locale, j: Id, tenant: Id)
    requires CoreOk(s, loc)
    ensures CoreOk(Apply(s, loc, Retry(j, tenant)), loc)
  {
    hide TablesOk, WorkerOk;
    var r := Sql.RetryJob(s.db, j, tenant);
    if r.Some? {
      FreeJobRow(s, loc, j, r.value.jobs[j], s.workers);
    }
  }

  lemma DieCore(s: State, loc: Locale, i: nat)
    requires CoreOk(s, loc)
    ensures CoreOk(Apply(s, loc, Die(i)), loc)
  {
    hide TablesOk, JobOk, MarksOnly;
    if i < |s.workers| {
      NoMarks(s.db);
      MarksKeepCore(s, loc, s.db, s.workers[i := Idle]);
    }
  }

  /** No action breaks the tables' facts, any job's, any worker's, or exclusivity. */
  lemma CoreKept(s: State, loc: Locale, a: Action)
    requires CoreOk(s, loc)
    ensures CoreOk(Apply(s, loc, a), loc)
  {
    hide CoreOk;
    match a
    case CreateIntent(id, tenant, fileKey, contentType, expiresAt) =>
      var row := Intent(tenant, fileKey, contentType, Issued, expiresAt, None);
      var r := Sql.CreateIntent(s.db, id, row);
      if KindOf(contentType).Some? && r.Some? {
        IntentCore(s, loc, id, row, r.value);
      }
    case Create(req, draw) =>
      if |draw.segmentIds| == |req.segments| {
        var r := JobIntake.CreateJob(s.db, loc, req, draw.(now := s.now));
        if r.Success? {
          CreateCore(s, loc, req, draw.(now := s.now), r.value);
          OnlyTablesAndWorkers(s.(db := r.value), Apply(s, loc, a), loc);
        }
      }
    case Claim(i, j) => ClaimCore(s, loc, i, j);
    case Work(i, supply) =>
      if i < |s.workers| && s.workers[i].Busy? {
        WorkCore(s, loc, i, supply);
      }
    case Die(i) => DieCore(s, loc, i);
    case Retry(j, tenant) => RetryCore(s, loc, j, tenant);
    case SoftDelete(v, tenant) =>
      var r := Sql.SoftDeleteVideo(s.db, v, tenant, s.now);
      if r.Some? {
        DeletingSoftlyMarksOnly(s.db, r.value, v, tenant, s.now);
        MarksKeepCore(s, loc, r.value, s.workers);
      }
    case Tick(elapsed) => OnlyTablesAndWorkers(s, Apply(s, loc, a), loc);
  }

  lemma OnlyTablesAndWorkers(s: State, s2: State, loc: Locale)
    requires CoreOk(s, loc) && s2.db == s.db && s2.workers == s.workers
    ensures CoreOk(s2, loc)
  {
    hide TablesOk, JobsOk, WorkersOk, Exclusive;
  }
}
