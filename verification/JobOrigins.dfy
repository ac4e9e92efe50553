/** What becomes of a request in the running system: the job keeps what was asked for, a
    refusal has its exact reason, and the job's videos are found under the names asked for. */
module JobOrigins {
  import opened Wrappers
  import opened Tables
  import opened JobInvariants
  import opened JobSystem
  import opened JobInductive
  import opened JobIntake
  import opened JobRecords
  import opened JobRequests
  import opened JobSteps
  import opened Pipeline
  import Chunker
  import JobProgress
  import JobVideos
  import Sql

  // ---- content types

  /** The accepted content types and their kinds. */
  predicate OfKind(contentType: string, kind: Kind) {
    match kind
    case VideoKind => contentType == "video/mp4" || contentType == "video/quicktime"
    case AudioKind => contentType == "audio/mpeg" || contentType == "audio/wav"
    case PdfKind => contentType == "application/pdf"
  }

  lemma KindsOfTypes(contentType: string, kind: Kind)
    ensures KindOf(contentType) == Some(kind) <==> OfKind(contentType, kind)
  {
  }

  predicate Accepted(contentType: string) {
    OfKind(contentType, VideoKind) || OfKind(contentType, AudioKind) || OfKind(contentType, PdfKind)
  }

  lemma AcceptedTypes(contentType: string)
    ensures KindOf(contentType).Some? <==> Accepted(contentType)
  {
  }

  // ---- refusals

  /** The intent of the tenant with the file key. */
  predicate Own(db: Db, req: JobRequest, i: Id) {
    i in db.intents && db.intents[i].tenant == req.tenant && db.intents[i].fileKey == req.fileKey
  }

  lemma OnlyOwn(db: Db, req: JobRequest, i: Id)
    requires IntentsMatchJobs(db) && Own(db, req, i)
    ensures Sql.IntentsByKey(db, req.tenant, req.fileKey) == {i}
  {
  }

  lemma NoneOwn(db: Db, loc: Locale, req: JobRequest, draw: Draw)
    requires |draw.segmentIds| == |req.segments| && forall i :: !Own(db, req, i)
    ensures JobIntake.CreateJob(db, loc, req, draw) == Failure(NotFound)
  {
    assert forall i | i in Sql.IntentsByKey(db, req.tenant, req.fileKey) :: Own(db, req, i);
  }

  /** Each refusal has its reason: no intent, one that is consumed, one that has expired by
      now, or one of a type that is not accepted; with fresh ids nothing else is refused. */
  lemma WhyRefused(s: State, loc: Locale, req: JobRequest, draw: Draw)
    requires Reachable(s, loc) && FreshDraw(s.db, req, draw)
    ensures var r := JobIntake.CreateJob(s.db, loc, req, draw);
            && (r == Failure(NotFound) <==> forall i :: !Own(s.db, req, i))
            && (r == Failure(AlreadyConsumed) <==> exists i :: Own(s.db, req, i) && s.db.intents[i].status == Consumed)
            && (r == Failure(Expired) <==>
                  exists i :: Own(s.db, req, i) && s.db.intents[i].status == Issued
                              && s.db.intents[i].expiresAt <= draw.now)
            && (r == Failure(UnsupportedContentType) <==>
                  exists i :: Own(s.db, req, i) && s.db.intents[i].status == Issued
                              && draw.now < s.db.intents[i].expiresAt && !Accepted(s.db.intents[i].contentType))
            && r != Failure(DbError)
  {
    CreateSucceedsExactlyWhen(s, loc, req, draw);
    ReachableInv(s, loc);
    TablesParts(s.db, loc);
    hide Reachable, CoreOk, ClaimsOk, TablesOk, Accepted, InsertJob, Consumable, LinksOk, VideosOk, KindOf;
    if i :| Own(s.db, req, i) {
      OnlyOwn(s.db, req, i);
      AcceptedTypes(s.db.intents[i].contentType);
      OneReason(s.db, loc, req, draw, i);
      assert forall k | Own(s.db, req, k) :: k == i;
    } else {
      NoneOwn(s.db, loc, req, draw);
    }
  }

  lemma OneReason(db: Db, loc: Locale, req: JobRequest, draw: Draw, i: Id)
    requires |draw.segmentIds| == |req.segments| && Own(db, req, i)
    requires Sql.IntentsByKey(db, req.tenant, req.fileKey) == {i}
    ensures var r, row := JobIntake.CreateJob(db, loc, req, draw), db.intents[i];
            if row.status != Issued then r == Failure(AlreadyConsumed)
            else if draw.now >= row.expiresAt then r == Failure(Expired)
            else if KindOf(row.contentType).None? then r == Failure(UnsupportedContentType)
            else r.Success? || r == Failure(DbError)
  {
  }

  // ---- the columns a job keeps

  lemma ReachableTold(s: State, loc: Locale)
    requires Reachable(s, loc)
    ensures Inv(s, loc) && Told(s)
  {
    hide Inv, Told, Init;
    var s0, actions :| Init(s0) && s == Run(s0, loc, actions);
    RunTold(s0, loc, actions);
  }

  lemma OriginRecorded(s: State, a: Action, j: Id)
    requires j in s.db.jobs
    ensures SameOrigin(Recorded(s, a, j), s.db.jobs[j])
  {
  }

  lemma {:induction false} OriginStays(s: State, loc: Locale, more: seq<Action>, j: Id)
    requires Inv(s, loc) && Told(s) && j in s.db.jobs
    ensures var s2 := Run(s, loc, more);
            Inv(s2, loc) && Told(s2) && j in s2.db.jobs && SameOrigin(s2.db.jobs[j], s.db.jobs[j])
    decreases |more|
  {
    hide Inv, Told, Apply, Recorded;
    if more != [] {
      var init, a := more[..|more| - 1], more[|more| - 1];
      OriginStays(s, loc, init, j);
      var s1 := Run(s, loc, init);
      InvKept(s1, loc, a);
      ToldKept(s1, loc, a);
      RecordedExactly(s1, loc, a, j);
      OriginRecorded(s1, a, j);
    }
  }

  /** The row bears what was requested. */
  predicate AsRequested(row: Job, req: JobRequest, at: Time) {
    row.tenant == req.tenant && row.title == req.title && row.fileKey == req.fileKey && row.createdAt == at
  }

  lemma InsertedAsRequested(s: State, loc: Locale, req: JobRequest, draw: Draw)
    requires Inv(s, loc) && |draw.segmentIds| == |req.segments|
    requires JobIntake.CreateJob(s.db, loc, req, draw.(now := s.now)).Success?
    ensures var db2 := Apply(s, loc, Create(req, draw)).db;
            && draw.jobId !in s.db.jobs && draw.jobId in db2.jobs
            && AsRequested(db2.jobs[draw.jobId], req, s.now) && Fresh(db2.jobs[draw.jobId])
  {
    TablesParts(s.db, loc);
    hide CoreOk, ClaimsOk, TablesOk, JobIntake.CreateJob, NamedSo, SegmentsUnique, SegmentsKept;
    var i, ids := CreatedJob(s.db, Apply(s, loc, Create(req, draw)).db, loc, req, draw.(now := s.now));
  }

  /** What a successful request asked for stays with its job in every continuation: tenant,
      title, file key, the time of the request and the kind of the uploaded file; and every
      video of the job bears them too. */
  lemma RequestStays(s: State, loc: Locale, req: JobRequest, draw: Draw, more: seq<Action>)
    requires Reachable(s, loc) && |draw.segmentIds| == |req.segments|
    requires JobIntake.CreateJob(s.db, loc, req, draw.(now := s.now)).Success?
    ensures Fresh(Apply(s, loc, Create(req, draw)).db.jobs[draw.jobId])
    ensures var db2 := Run(Apply(s, loc, Create(req, draw)), loc, more).db;
            && draw.jobId in db2.jobs && AsRequested(db2.jobs[draw.jobId], req, s.now)
            && db2.jobs[draw.jobId].intent in db2.intents
            && OfKind(db2.intents[db2.jobs[draw.jobId].intent].contentType, db2.jobs[draw.jobId].kind)
            && forall v | v in db2.videos && db2.videos[v].job == draw.jobId ::
                 && db2.videos[v].tenant == req.tenant && db2.videos[v].title == req.title
                 && db2.videos[v].fileKey == req.fileKey && db2.videos[v].kind == db2.jobs[draw.jobId].kind
  {
    ReachableTold(s, loc);
    hide Reachable, CoreOk, ClaimsOk, Told, Apply, Run, Fresh, JobIntake.CreateJob, KindOf;
    var a := Create(req, draw);
    var s1 := Apply(s, loc, a);
    InsertedAsRequested(s, loc, req, draw);
    InvKept(s, loc, a);
    ToldKept(s, loc, a);
    OriginStays(s1, loc, more, draw.jobId);
    var s2 := Run(s1, loc, more);
    TablesParts(s2.db, loc);
    hide TablesOk, VideosOk, IntentsMatchJobs, LinksOk;
    BackedKind(s2.db, draw.jobId);
    VideosAsRequested(s2.db, draw.jobId);
  }

  lemma VideosAsRequested(db: Db, j: Id)
    requires VideosOk(db) && j in db.jobs
    ensures forall v | v in db.videos && db.videos[v].job == j ::
              && db.videos[v].tenant == db.jobs[j].tenant && db.videos[v].title == db.jobs[j].title
              && db.videos[v].fileKey == db.jobs[j].fileKey && db.videos[v].kind == db.jobs[j].kind
  {
    assert forall v | v in db.videos :: VideoMatches(db, v);
  }

  lemma BackedKind(db: Db, j: Id)
    requires IntentsMatchJobs(db) && j in db.jobs
    ensures db.jobs[j].intent in db.intents && OfKind(db.intents[db.jobs[j].intent].contentType, db.jobs[j].kind)
  {
    assert Backed(db, j);
    KindsOfTypes(db.intents[db.jobs[j].intent].contentType, db.jobs[j].kind);
  }

  // ---- the record of an intent

  /** The request found its intent and added its job. */
  ghost predicate Adds(s: State, loc: Locale, a: Action) {
    a.Create? && a.draw.jobId !in s.db.jobs && a.draw.jobId in Apply(s, loc, a).db.jobs
  }

  /** An accepted upload is announced under a new identifier and a new file key. */
  predicate Announces(s: State, a: Action, i: Id) {
    a.CreateIntent? && a.id == i && i !in s.db.intents && Accepted(a.contentType)
    && forall k | k in s.db.intents :: s.db.intents[k].fileKey != a.fileKey
  }

  ghost function IntentRecorded(s: State, loc: Locale, a: Action, i: Id): Option<Intent> {
    if Announces(s, a, i) then Some(Intent(a.tenant, a.fileKey, a.contentType, Issued, a.expiresAt, None))
    else if Adds(s, loc, a) && Own(s.db, a.req, i) then
      Some(s.db.intents[i].(status := Consumed, consumedAt := Some(s.now)))
    else Lookup(s.db.intents, i)
  }

  lemma AnnouncementRecorded(s: State, id: Id, tenant: Id, fileKey: string, contentType: string, expiresAt: Time, i: Id)
    ensures Lookup(AfterIntent(s, id, tenant, fileKey, contentType, expiresAt).db.intents, i) ==
            if Announces(s, CreateIntent(id, tenant, fileKey, contentType, expiresAt), i)
            then Some(Intent(tenant, fileKey, contentType, Issued, expiresAt, None)) else Lookup(s.db.intents, i)
  {
    AcceptedTypes(contentType);
    hide Accepted, KindOf;
  }

  lemma ConsumptionRecorded(s: State, loc: Locale, req: JobRequest, draw: Draw, i: Id)
    requires Inv(s, loc)
    ensures Lookup(AfterCreate(s, loc, req, draw).db.intents, i) ==
            if Adds(s, loc, Create(req, draw)) && Own(s.db, req, i)
            then Some(s.db.intents[i].(status := Consumed, consumedAt := Some(s.now))) else Lookup(s.db.intents, i)
  {
    TablesParts(s.db, loc);
    hide CoreOk, ClaimsOk, TablesOk, JobIntake.CreateJob, NamedSo, SegmentsUnique, SegmentsKept, KindOf;
    var d, s2 := draw.(now := s.now), AfterCreate(s, loc, req, draw);
    if |draw.segmentIds| == |req.segments| && JobIntake.CreateJob(s.db, loc, req, d).Success? {
      var k, ids := CreatedJob(s.db, s2.db, loc, req, d);
      assert forall l | Own(s.db, req, l) :: l == k;
    }
  }

  lemma OthersKeepIntents(s: State, loc: Locale, a: Action)
    requires Inv(s, loc) && !a.CreateIntent? && !a.Create?
    ensures Apply(s, loc, a).db.intents == s.db.intents
  {
    hide CoreOk, ClaimsOk, AfterWork, AfterClaim, AfterRetry, AfterSoftDelete;
    match a
    case Claim(i, k) => ClaimKeepsIntents(s, i, k);
    case Work(i, supply) => WorkKeepsIntents(s, loc, i, supply);
    case Die(i) =>
    case Retry(k, tenant) => RetryKeepsIntents(s, k, tenant);
    case SoftDelete(v, tenant) => DeletionKeepsIntents(s, v, tenant);
    case Tick(elapsed) =>
  }

  lemma ClaimKeepsIntents(s: State, i: nat, k: Id)
    ensures AfterClaim(s, i, k).db.intents == s.db.intents
  {
  }

  lemma RetryKeepsIntents(s: State, k: Id, tenant: Id)
    ensures AfterRetry(s, k, tenant).db.intents == s.db.intents
  {
  }

  lemma DeletionKeepsIntents(s: State, v: Id, tenant: Id)
    ensures AfterSoftDelete(s, v, tenant).db.intents == s.db.intents
  {
  }

  lemma WorkKeepsIntents(s: State, loc: Locale, i: nat, supply: Supply)
    requires CoreOk(s, loc)
    ensures AfterWork(s, loc, i, supply).db.intents == s.db.intents
  {
    hide CoreOk, TablesOk, JobOk, WorkerOk;
    if i < |s.workers| && Inside(s.workers[i]) {
      InsideJob(s, loc, i);
      InsideStep(s.db, loc, s.workers[i], supply.(now := s.now));
    }
  }

  /** After every action each intent is the record of what was there and was done. */
  lemma IntentsRecordedExactly(s: State, loc: Locale, a: Action, i: Id)
    requires Inv(s, loc)
    ensures Lookup(Apply(s, loc, a).db.intents, i) == IntentRecorded(s, loc, a, i)
  {
    hide Inv, AfterWork, AfterIntent, AfterCreate, Announces, Adds;
    match a
    case CreateIntent(id, tenant, fileKey, contentType, expiresAt) =>
      AnnouncementRecorded(s, id, tenant, fileKey, contentType, expiresAt, i);
      NotAdding(s, loc, a);
    case Create(req, draw) =>
      ConsumptionRecorded(s, loc, req, draw, i);
      NotAnnouncing(s, a, i);
    case _ =>
      OthersKeepIntents(s, loc, a);
      NotAdding(s, loc, a);
      NotAnnouncing(s, a, i);
  }

  lemma NotAdding(s: State, loc: Locale, a: Action)
    requires !a.Create?
    ensures !Adds(s, loc, a)
  {
  }

  lemma NotAnnouncing(s: State, a: Action, i: Id)
    requires !a.CreateIntent?
    ensures !Announces(s, a, i)
  {
  }

  // ---- the names asked for

  lemma {:induction false} NewNames(db: Db, loc: Locale, tenant: Id, names: seq<string>, ids: seq<Id>)
    requires |ids| == |names| && EnsureNames(db, loc, tenant, names, ids).Some?
    ensures var d := EnsureNames(db, loc, tenant, names, ids).value;
            forall t | t in d.segments && t !in db.segments ::
              d.segments[t].tenant == tenant && d.segments[t].name in names
    decreases |names|
  {
    if names != [] {
      var n := |names| - 1;
      NewNames(db, loc, tenant, names[..n], ids[..n]);
      assert names == names[..n] + [names[n]];
    }
  }

  /** A request creates segments under no other names than those it asks for, letter for
      letter, and for its tenant. */
  lemma SegmentsAreAsRequested(s: State, loc: Locale, req: JobRequest, draw: Draw)
    requires Inv(s, loc)
    ensures var db2 := AfterCreate(s, loc, req, draw).db;
            forall t | t in db2.segments && t !in s.db.segments ::
              db2.segments[t].tenant == req.tenant && db2.segments[t].name in req.segments
  {
    var d := draw.(now := s.now);
    hide Inv;
    if |draw.segmentIds| == |req.segments| && JobIntake.CreateJob(s.db, loc, req, d).Success? {
      InsertedSegments(s.db, loc, req, d);
    }
  }

  lemma InsertedNames(d: Db, d3: Db, loc: Locale, req: JobRequest, draw: Draw, i: Id, kind: Kind)
    requires |draw.segmentIds| == |req.segments| && InsertJob(d, loc, req, draw, i, kind) == Success(d3)
    ensures forall t | t in d3.segments && t !in d.segments ::
              d3.segments[t].tenant == req.tenant && d3.segments[t].name in req.segments
  {
    NewNames(d, loc, req.tenant, req.segments, draw.segmentIds);
    var d1 := EnsureNames(d, loc, req.tenant, req.segments, draw.segmentIds).value;
    var d2 := Sql.CreateJob(d1, draw.jobId, NewJob(req, i, kind, draw.now)).value;
    AttachingKeepsSegments(d2, draw.jobId, EnsuredIds(d, loc, req.tenant, req.segments, draw.segmentIds));
  }

  lemma InsertedSegments(db: Db, loc: Locale, req: JobRequest, draw: Draw)
    requires |draw.segmentIds| == |req.segments| && JobIntake.CreateJob(db, loc, req, draw).Success?
    ensures var db2 := JobIntake.CreateJob(db, loc, req, draw).value;
            forall t | t in db2.segments && t !in db.segments ::
              db2.segments[t].tenant == req.tenant && db2.segments[t].name in req.segments
  {
    hide InsertJob;
    var db2 := JobIntake.CreateJob(db, loc, req, draw).value;
    var i :| i in Sql.IntentsByKey(db, req.tenant, req.fileKey) && Consumable(db, req, draw, i)
             && InsertJob(Consume(db, i, draw.now), loc, req, draw, i, KindOf(db.intents[i].contentType).value)
                == Success(db2);
    var kind := KindOf(db.intents[i].contentType);
    assert Consumable(db, req, draw, i);
    assert kind.Some?;
    InsertedNames(Consume(db, i, draw.now), db2, loc, req, draw, i, kind.value);
  }

  lemma {:induction false} AttachingKeepsSegments(db: Db, job: Id, ids: seq<Id>)
    ensures var r := JobIntake.AttachSegments(db, job, ids); r.Some? ==> r.value.segments == db.segments
  {
    if ids != [] {
      AttachingKeepsSegments(db, job, ids[..|ids| - 1]);
    }
  }

  /** A video of the job that is completed and not deleted is found by its tenant and nobody
      else, section by section, under exactly the names that were requested, up to case. */
  lemma FoundByRequestedNames(s: State, loc: Locale, req: JobRequest, draw: Draw, more: seq<Action>,
                              tenant: Id, name: string, v: Id, i: nat)
    requires Reachable(s, loc) && |draw.segmentIds| == |req.segments|
    requires JobIntake.CreateJob(s.db, loc, req, draw.(now := s.now)).Success?
    requires var db2 := Run(Apply(s, loc, Create(req, draw)), loc, more).db;
             && v in db2.videos && db2.videos[v].job == draw.jobId && db2.videos[v].status == VideoCompleted
             && db2.videos[v].deletedAt == None
    ensures var db2 := Run(Apply(s, loc, Create(req, draw)), loc, more).db;
            && v in db2.transcripts
            && ((v, i) in Sql.SearchChunks(db2, loc, tenant, Some(name)) <==>
                  tenant == req.tenant && i < |Chunker.Sections(db2.transcripts[v].content)|
                  && exists k :: 0 <= k < |req.segments| && loc.lower(req.segments[k]) == loc.lower(name))
  {
    hide CoreOk, ClaimsOk, Apply, Run, JobIntake.CreateJob, Sql.SearchChunks, Chunker.Sections, Fresh, Reachable;
    hide NamedAsAsked, Borne;
    var s1 := Apply(s, loc, Create(req, draw));
    var s2 := Run(s1, loc, more);
    RequestStays(s, loc, req, draw, more);
    SegmentsOfNewJob(s, loc, req, draw, more);
    ReachesOn(s, loc, Create(req, draw), more);
    JobVideos.SearchFindsExactly(s2, loc, tenant, Some(name), v, i);
    JobVideos.HasTranscript(s2, loc, v);
    BornNames(s2.db, loc, req, draw.jobId, name);
  }

  lemma ReachesOn(s: State, loc: Locale, a: Action, more: seq<Action>)
    requires Reachable(s, loc)
    ensures Reachable(Run(Apply(s, loc, a), loc, more), loc)
  {
    hide Apply, Init;
    var s0, before :| Init(s0) && s == Run(s0, loc, before);
    JobProgress.RunOneMore(s0, loc, before, a);
    JobProgress.RunRun(s0, loc, before + [a], more);
  }

  lemma BornNames(db: Db, loc: Locale, req: JobRequest, j: Id, name: string)
    requires NamedAsAsked(db, loc, req, j)
    ensures Borne(db, loc, j, name) <==>
            exists k :: 0 <= k < |req.segments| && loc.lower(req.segments[k]) == loc.lower(name)
  {
    if Borne(db, loc, j, name) {
      var t :| t in SegsOfJob(db, j) && t in db.segments && loc.lower(db.segments[t].name) == loc.lower(name);
      var k :| 0 <= k < |req.segments| && Lowered(loc, req.segments)[k] == loc.lower(db.segments[t].name);
      assert loc.lower(req.segments[k]) == loc.lower(name);
    }
    if k :| 0 <= k < |req.segments| && loc.lower(req.segments[k]) == loc.lower(name) {
      assert Borne(db, loc, j, req.segments[k]);
    }
  }
}
