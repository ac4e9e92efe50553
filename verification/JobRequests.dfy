/** Requests in running systems: intents and jobs match one to one, requests are never
    refused by a constraint, and a job keeps the segments it was created with. */
module JobRequests {
  import opened Wrappers
  import opened Tables
  import opened Pipeline
  import opened JobInvariants
  import opened JobSystem
  import opened JobSteps
  import opened JobInductive
  import opened JobIntake
  import Sql

  /** An intent is consumed exactly when a job references it; then it is one job, of the
      intent's tenant and file key, and of the kind of its content type. */
  lemma IntentsAndJobs(s: State, loc: Locale)
    requires Reachable(s, loc)
    ensures forall i | i in s.db.intents :: s.db.intents[i].status == Consumed <==> HasJob(s.db, i)
    ensures forall j, k | j in s.db.jobs && k in s.db.jobs && s.db.jobs[j].intent == s.db.jobs[k].intent :: j == k
    ensures forall j, k | j in s.db.jobs && k in s.db.jobs && s.db.jobs[j].fileKey == s.db.jobs[k].fileKey :: j == k
    ensures forall j | j in s.db.jobs :: Backed(s.db, j)
  {
    ReachableInv(s, loc);
    assert IntentsMatchJobs(s.db) by {
      TablesParts(s.db, loc);
    }
    hide Reachable, CoreOk, ClaimsOk;
    assert forall j | j in s.db.jobs :: Backed(s.db, j);
    forall j, k | j in s.db.jobs && k in s.db.jobs && s.db.jobs[j].fileKey == s.db.jobs[k].fileKey ensures j == k {
      SameKeySameJob(s.db, j, k);
    }
  }

  // ---- requests are only refused for the reasons the handler names

  /** Ids nobody has used. */
  predicate FreshDraw(db: Db, req: JobRequest, draw: Draw) {
    && |draw.segmentIds| == |req.segments| && draw.jobId !in db.jobs
    && (forall k | 0 <= k < |draw.segmentIds| :: draw.segmentIds[k] !in db.segments)
    && (forall k, l | 0 <= k < l < |draw.segmentIds| :: draw.segmentIds[k] != draw.segmentIds[l])
  }

  lemma {:induction false} EnsuringSucceeds(db: Db, loc: Locale, tenant: Id, names: seq<string>, ids: seq<Id>)
    requires |ids| == |names| && forall k | 0 <= k < |ids| :: ids[k] !in db.segments
    requires forall k, l | 0 <= k < l < |ids| :: ids[k] != ids[l]
    ensures var r := EnsureNames(db, loc, tenant, names, ids);
            r.Some? && forall s | s in r.value.segments :: s in db.segments || s in ids
    decreases |names|
  {
    if names != [] {
      var n := |names| - 1;
      EnsuringSucceeds(db, loc, tenant, names[..n], ids[..n]);
      assert ids[n] !in ids[..n];
    }
  }

  lemma InsertingSucceeds(db: Db, loc: Locale, req: JobRequest, draw: Draw, i: Id, kind: Kind)
    requires SegmentsUnique(db, loc) && FreshDraw(db, req, draw) && i in db.intents
    requires !Sql.JobConflict(db, NewJob(req, i, kind, draw.now))
    ensures InsertJob(db, loc, req, draw, i, kind).Success?
  {
    EnsuringSucceeds(db, loc, req.tenant, req.segments, draw.segmentIds);
    EnsureAll(db, loc, req.tenant, req.segments, draw.segmentIds);
    var d1 := EnsureNames(db, loc, req.tenant, req.segments, draw.segmentIds).value;
    var row := NewJob(req, i, kind, draw.now);
    assert !Sql.JobConflict(d1, row);
    AttachAllSegments(Sql.CreateJob(d1, draw.jobId, row).value, draw.jobId,
                      EnsuredIds(db, loc, req.tenant, req.segments, draw.segmentIds));
  }

  /** With fresh ids a request succeeds exactly when its intent is there, issued, not
      expired and of an accepted type: no unique column of jobs or segments ever refuses
      it. */
  lemma CreateSucceedsExactlyWhen(s: State, loc: Locale, req: JobRequest, draw: Draw)
    requires Reachable(s, loc) && FreshDraw(s.db, req, draw)
    ensures JobIntake.CreateJob(s.db, loc, req, draw).Success? <==> exists i :: Consumable(s.db, req, draw, i)
    ensures JobIntake.CreateJob(s.db, loc, req, draw) != Failure(DbError)
  {
    ReachableInv(s, loc);
    TablesParts(s.db, loc);
    hide Reachable, CoreOk, ClaimsOk, TablesOk, LinksOk, VideosOk, InsertJob, Backed;
    var found := Sql.IntentsByKey(s.db, req.tenant, req.fileKey);
    assert forall i, k | i in found && k in found :: i == k;
    if i :| i in found {
      var kind := KindOf(s.db.intents[i].contentType);
      if Consumable(s.db, req, draw, i) {
        JobIntake.InsertNeverConflicts(s.db, req, draw, i, kind.value);
        InsertingSucceeds(Consume(s.db, i, draw.now), loc, req, draw, i, kind.value);
      }
    }
    assert forall i | Consumable(s.db, req, draw, i) :: i in found;
  }

  // ---- segments of a job

  lemma WorkKeepsSegments(s: State, loc: Locale, i: nat, supply: Supply)
    requires CoreOk(s, loc)
    ensures AfterWork(s, loc, i, supply).db.segments == s.db.segments
    ensures AfterWork(s, loc, i, supply).db.jobSegments == s.db.jobSegments
    ensures AfterWork(s, loc, i, supply).db.jobs.Keys == s.db.jobs.Keys
  {
    hide CoreOk, TablesOk, JobOk, WorkerOk;
    if i < |s.workers| && s.workers[i].Busy? && Inside(s.workers[i]) {
      InsideJob(s, loc, i);
      InsideStep(s.db, loc, s.workers[i], supply.(now := s.now));
    }
  }

  /** Workers create no segment: copying a job's segments finds them all. */
  lemma CopyCreatesNoSegment(s: State, loc: Locale, i: nat, supply: Supply)
    requires Reachable(s, loc)
    ensures AfterWork(s, loc, i, supply).db.segments == s.db.segments
  {
    ReachableInv(s, loc);
    WorkKeepsSegments(s, loc, i, supply);
  }

  /** Past the copy, the worker's video has exactly the segments of its job. */
  lemma CopiedSegments(s: State, loc: Locale, i: nat)
    requires Reachable(s, loc) && i < |s.workers| && s.workers[i].Busy? && 6 <= Rank(s.workers[i].at) <= 14
    ensures SegsOfVideo(s.db, s.workers[i].video) == SegsOfJob(s.db, s.workers[i].job)
  {
    ReachableInv(s, loc);
    hide TablesOk, JobsOk, Exclusive, ClaimsOk;
    assert WorkerOk(s.db, loc, s.workers[i]);
  }

  /** The segment rows of a job, once it exists, and what they are called. */
  ghost predicate SameSegments(db: Db, db2: Db, j: Id) {
    j in db2.jobs && SegsOfJob(db2, j) == SegsOfJob(db, j) && SegmentsKept(db, db2)
  }

  lemma IntentKeepsSegments(s: State, id: Id, tenant: Id, fileKey: string, contentType: string, expiresAt: Time, j: Id)
    requires j in s.db.jobs
    ensures SameSegments(s.db, AfterIntent(s, id, tenant, fileKey, contentType, expiresAt).db, j)
  {
    if Sql.CreateIntent(s.db, id, Intent(tenant, fileKey, contentType, Issued, expiresAt, None)).Some? {
    }
  }

  lemma ClaimKeepsSegments(s: State, i: nat, k: Id, j: Id)
    requires j in s.db.jobs
    ensures SameSegments(s.db, AfterClaim(s, i, k).db, j)
  {
    if Sql.ClaimJob(s.db, k, s.now).Some? {
    }
  }

  lemma RetryKeepsSegments(s: State, k: Id, tenant: Id, j: Id)
    requires j in s.db.jobs
    ensures SameSegments(s.db, AfterRetry(s, k, tenant).db, j)
  {
    hide Somewhere;
    if Sql.RetryJob(s.db, k, tenant).Some? {
    }
  }

  lemma SoftDeleteKeepsSegments(s: State, v: Id, tenant: Id, j: Id)
    requires j in s.db.jobs
    ensures SameSegments(s.db, AfterSoftDelete(s, v, tenant).db, j)
  {
    if Sql.SoftDeleteVideo(s.db, v, tenant, s.now).Some? {
    }
  }

  lemma AddedKeepsSegments(db: Db, db2: Db, loc: Locale, req: JobRequest, draw: Draw, i: Id, row: Job, ids: seq<Id>,
                           j: Id)
    requires i in db.intents && Added(Consume(db, i, draw.now), db2, loc, req, draw, row, ids) && j in db.jobs
    ensures SameSegments(db, db2, j)
  {
    hide NamedSo, SegmentsUnique;
  }

  lemma CreateKeepsSegments(s: State, loc: Locale, req: JobRequest, draw: Draw, j: Id)
    requires CoreOk(s, loc) && j in s.db.jobs
    ensures SameSegments(s.db, AfterCreate(s, loc, req, draw).db, j)
  {
    TablesParts(s.db, loc);
    hide CoreOk, TablesOk, JobIntake.CreateJob, Added;
    var d := draw.(now := s.now);
    var s2 := AfterCreate(s, loc, req, draw);
    if |draw.segmentIds| == |req.segments| && JobIntake.CreateJob(s.db, loc, req, d).Success? {
      var i, ids := CreatedJob(s.db, s2.db, loc, req, d);
      var row := NewJob(req, i, KindOf(s.db.intents[i].contentType).value, s.now);
      AddedKeepsSegments(s.db, s2.db, loc, req, d, i, row, ids, j);
    }
  }

  lemma ActionKeepsSegments(s: State, loc: Locale, a: Action, j: Id)
    requires CoreOk(s, loc) && j in s.db.jobs
    ensures SameSegments(s.db, Apply(s, loc, a).db, j)
  {
    hide CoreOk, AfterIntent, AfterCreate, AfterClaim, AfterWork, AfterRetry, AfterSoftDelete;
    match a
    case Create(req, draw) => CreateKeepsSegments(s, loc, req, draw, j);
    case Work(i, supply) => WorkKeepsSegments(s, loc, i, supply);
    case CreateIntent(id, tenant, fileKey, contentType, expiresAt) =>
      IntentKeepsSegments(s, id, tenant, fileKey, contentType, expiresAt, j);
    case Claim(i, k) => ClaimKeepsSegments(s, i, k, j);
    case Die(i) =>
    case Retry(k, tenant) => RetryKeepsSegments(s, k, tenant, j);
    case SoftDelete(v, tenant) => SoftDeleteKeepsSegments(s, v, tenant, j);
    case Tick(elapsed) =>
  }

  lemma {:induction false} RunKeepsSegments(s: State, loc: Locale, more: seq<Action>, j: Id)
    requires Inv(s, loc) && j in s.db.jobs
    ensures SameSegments(s.db, Run(s, loc, more).db, j)
    decreases |more|
  {
    hide CoreOk, ClaimsOk, Apply;
    if more != [] {
      var init := more[..|more| - 1];
      RunKeepsSegments(s, loc, init, j);
      RunInv(s, loc, init);
      ActionKeepsSegments(Run(s, loc, init), loc, more[|more| - 1], j);
    }
  }

  /** A segment of the job bears the name, up to case. */
  ghost predicate Borne(db: Db, loc: Locale, j: Id, name: string) {
    exists t :: t in SegsOfJob(db, j) && t in db.segments && loc.lower(db.segments[t].name) == loc.lower(name)
  }

  /** Each segment of the job bears a requested name up to case, and each requested name is
      borne by one. */
  ghost predicate NamedAsAsked(db: Db, loc: Locale, req: JobRequest, j: Id) {
    && (forall t | t in SegsOfJob(db, j) ::
          t in db.segments && loc.lower(db.segments[t].name) in Lowered(loc, req.segments))
    && forall k | 0 <= k < |req.segments| :: Borne(db, loc, j, req.segments[k])
  }

  /** A new job has as many segments as requested names that differ by more than case,
      each segment bears a requested name up to case and each requested name is borne, and
      so it stays. */
  lemma SegmentsOfNewJob(s: State, loc: Locale, req: JobRequest, draw: Draw, more: seq<Action>)
    requires Reachable(s, loc) && |draw.segmentIds| == |req.segments|
    requires JobIntake.CreateJob(s.db, loc, req, draw.(now := s.now)).Success?
    ensures var db2 := Run(Apply(s, loc, Create(req, draw)), loc, more).db;
            && |SegsOfJob(db2, draw.jobId)| == |Elements(Lowered(loc, req.segments))|
            && NamedAsAsked(db2, loc, req, draw.jobId)
  {
    ReachableInv(s, loc);
    var s1 := Apply(s, loc, Create(req, draw));
    InvKept(s, loc, Create(req, draw));
    TablesParts(s.db, loc);
    hide CoreOk, ClaimsOk, Reachable, SegmentsKept, NamedAsAsked;
    var i, ids := CreatedJob(s.db, s1.db, loc, req, draw.(now := s.now));
    CaseDistinctCount(s1.db, loc, req.tenant, req.segments, ids);
    RunKeepsSegments(s1, loc, more, draw.jobId);
    NamesStay(s1.db, Run(s1, loc, more).db, loc, req, ids, draw.jobId);
  }

  lemma AllBorne(db: Db, loc: Locale, req: JobRequest, ids: seq<Id>, j: Id, k: nat)
    requires NamedSo(db, loc, req.tenant, req.segments, ids) && SegsOfJob(db, j) == Elements(ids)
    requires k < |req.segments|
    ensures Borne(db, loc, j, req.segments[k])
  {
    assert ids[k] in Elements(ids);
  }

  lemma NamesStay(db: Db, db2: Db, loc: Locale, req: JobRequest, ids: seq<Id>, j: Id)
    requires SameSegments(db, db2, j) && NamedSo(db, loc, req.tenant, req.segments, ids)
    requires SegsOfJob(db, j) == Elements(ids)
    ensures NamedAsAsked(db2, loc, req, j)
  {
    assert NamedSo(db2, loc, req.tenant, req.segments, ids) && SegsOfJob(db2, j) == Elements(ids);
    hide SameSegments;
    forall k | 0 <= k < |req.segments| ensures Borne(db2, loc, j, req.segments[k]) {
      AllBorne(db2, loc, req, ids, j, k);
    }
    forall t | t in SegsOfJob(db2, j)
      ensures t in db2.segments && loc.lower(db2.segments[t].name) in Lowered(loc, req.segments)
    {
      var k :| 0 <= k < |ids| && ids[k] == t;
      assert Lowered(loc, req.segments)[k] == loc.lower(db2.segments[t].name);
    }
  }
}
