/** Claims are counted, and the invariant holds in every run. */
module JobInductive {
  import opened Wrappers
  import opened Tables
  import opened Pipeline
  import opened JobInvariants
  import opened JobSystem
  import opened JobSteps
  import JobProofs
  import JobIntake

  // ---- counting claims

  lemma InsideJob(s: State, loc: Locale, i: nat)
    requires CoreOk(s, loc) && i < |s.workers| && Inside(s.workers[i])
    ensures Ready(s.db, loc, s.workers[i]) && s.workers[i].job in s.db.jobs
  {
    hide TablesOk;
    assert WorkerOk(s.db, loc, s.workers[i]);
  }

  lemma WorkCounts(s: State, loc: Locale, i: nat, supply: Supply)
    requires CoreOk(s, loc) && ClaimsOk(s) && i < |s.workers| && s.workers[i].Busy?
    ensures ClaimsOk(Apply(s, loc, Work(i, supply)))
  {
    hide CoreOk, TablesOk, JobOk, WorkerOk;
    var w, sup := s.workers[i], supply.(now := s.now);
    var (db2, w2) := Step(s.db, loc, w, sup);
    if Inside(w) {
      InsideJob(s, loc, i);
      InsideStep(s.db, loc, w, sup);
      forall j | j in db2.jobs
        ensures j in s.claims
        ensures s.claims[j] + (if db2.jobs[j].status == Pending then 1 else 0) == db2.jobs[j].retryCount + 1
      {
        assert j in s.db.jobs && (j != w.job ==> Untouched(s.db, db2, j));
      }
    }
  }

  lemma ClaimsKept(s: State, loc: Locale, a: Action)
    requires CoreOk(s, loc) && ClaimsOk(s)
    ensures ClaimsOk(Apply(s, loc, a))
  {
    hide TablesOk, JobOk, WorkerOk;
    match a
    case CreateIntent(id, tenant, fileKey, contentType, expiresAt) =>
    case Create(req, draw) =>
      var d := draw.(now := s.now);
      if |draw.segmentIds| == |req.segments| {
        var r := JobIntake.CreateJob(s.db, loc, req, d);
        if r.Success? {
          TablesParts(s.db, loc);
          var i, ids := JobIntake.CreatedJob(s.db, r.value, loc, req, d);
        }
      }
    case Claim(i, j) =>
    case Work(i, supply) =>
      if i < |s.workers| && s.workers[i].Busy? {
        WorkCounts(s, loc, i, supply);
      }
    case Die(i) =>
    case Retry(j, tenant) =>
    case SoftDelete(v, tenant) =>
    case Tick(elapsed) =>
  }

  lemma TablesParts(db: Db, loc: Locale)
    requires TablesOk(db, loc)
    ensures IntentsMatchJobs(db) && SegmentsUnique(db, loc) && LinksOk(db) && VideosOk(db) && ChildrenOk(db)
  {
  }

  // ---- facts that the invariant holds

  lemma VideosOfTables(db: Db, loc: Locale)
    requires TablesOk(db, loc)
    ensures VideosOk(db)
  {
  }

  lemma JobOfGoodStep(db: Db, db2: Db, loc: Locale, w: Worker, w2: Worker)
    requires w.Busy? && GoodStep(db, db2, loc, w, w2)
    ensures w.job in db2.jobs && WorkerOk(db2, loc, w2) && (w2.Busy? ==> w2.job == w.job)
  {
  }

  lemma ExclusiveOfCore(s: State, loc: Locale)
    requires CoreOk(s, loc)
    ensures Exclusive(s.workers)
  {
  }

  lemma OutsideRow(s: State, loc: Locale, i: nat)
    requires CoreOk(s, loc) && i < |s.workers| && s.workers[i].Busy?
    ensures VideosOk(s.db) && s.workers[i].job in s.db.jobs
    ensures SameOrigin(s.workers[i].row, s.db.jobs[s.workers[i].job])
  {
    assert WorkerOk(s.db, loc, s.workers[i]);
  }

  // ---- every run

  lemma InvKept(s: State, loc: Locale, a: Action)
    requires Inv(s, loc)
    ensures Inv(Apply(s, loc, a), loc)
  {
    hide CoreOk, ClaimsOk;
    JobProofs.CoreKept(s, loc, a);
    ClaimsKept(s, loc, a);
  }

  lemma {:induction false} RunInv(s: State, loc: Locale, actions: seq<Action>)
    requires Inv(s, loc)
    ensures Inv(Run(s, loc, actions), loc)
    decreases |actions|
  {
    hide Inv;
    if actions != [] {
      RunInv(s, loc, actions[..|actions| - 1]);
      InvKept(Run(s, loc, actions[..|actions| - 1]), loc, actions[|actions| - 1]);
    }
  }

  lemma InitInv(s: State, loc: Locale)
    requires Init(s)
    ensures Inv(s, loc)
  {
  }

  /** The invariant holds in every run. */
  lemma ReachableInv(s: State, loc: Locale)
    requires Reachable(s, loc)
    ensures Inv(s, loc)
  {
    hide Inv, Init;
    var s0, actions :| Init(s0) && s == Run(s0, loc, actions);
    InitInv(s0, loc);
    RunInv(s0, loc, actions);
  }
}
