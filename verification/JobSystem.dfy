/** The running system: the tables, any number of workers, and a clock. Each action is
    one committed transaction or one statement; a run is any sequence of actions, so
    every interleaving of workers and clients is a run. An action that is not enabled,
    or whose transaction is refused, changes nothing. */
module JobSystem {
  import opened Wrappers
  import opened Tables
  import opened Pipeline
  import opened JobInvariants
  import opened JobIntake
  import Sql

  /** `claims` counts how often each job was claimed. */
  datatype State = State(db: Db, workers: seq<Worker>, now: Time, claims: map<Id, nat>)

  datatype Action =
    | CreateIntent(id: Id, tenant: Id, fileKey: string, contentType: string, expiresAt: Time)
    | Create(req: JobRequest, draw: Draw)
    | Claim(worker: nat, job: Id)
    | Work(worker: nat, supply: Supply)
    | Die(worker: nat)
    | Retry(job: Id, tenant: Id)
    | SoftDelete(video: Id, tenant: Id)
    | Tick(elapsed: nat)

  /** Some worker stands at the point with the job. */
  predicate Somewhere(workers: seq<Worker>, j: Id, p: Point) {
    exists i :: 0 <= i < |workers| && workers[i].Busy? && workers[i].job == j && workers[i].at == p
  }

  function AfterIntent(s: State, id: Id, tenant: Id, fileKey: string, contentType: string, expiresAt: Time): State {
    var r := Sql.CreateIntent(s.db, id, Intent(tenant, fileKey, contentType, Issued, expiresAt, None));
    if KindOf(contentType).Some? && r.Some? then s.(db := r.value) else s
  }

  ghost function AfterCreate(s: State, loc: Locale, req: JobRequest, draw: Draw): State {
    if |draw.segmentIds| != |req.segments| then s else
    var r := JobIntake.CreateJob(s.db, loc, req, draw.(now := s.now));
    if r.Success? then s.(db := r.value, claims := s.claims[draw.jobId := 0]) else s
  }

  function AfterClaim(s: State, i: nat, j: Id): State {
    var r := Sql.ClaimJob(s.db, j, s.now);
    if i < |s.workers| && s.workers[i] == Idle && r.Some? then
      s.(db := r.value, workers := s.workers[i := Start(j, r.value.jobs[j])],
         claims := s.claims[j := 1 + if j in s.claims then s.claims[j] else 0])
    else s
  }

  ghost function AfterWork(s: State, loc: Locale, i: nat, supply: Supply): State {
    if i < |s.workers| && s.workers[i].Busy? then
      var w := s.workers[i];
      var (db2, w2) := Step(s.db, loc, w, supply.(now := s.now));
      s.(db := db2, workers := s.workers[i := w2])
    else s
  }

  function AfterDeath(s: State, i: nat): State {
    if i < |s.workers| && s.workers[i].Busy? then
      s.(workers := s.workers[i := Idle])
    else s
  }

  function AfterRetry(s: State, j: Id, tenant: Id): State {
    var r := Sql.RetryJob(s.db, j, tenant);
    if r.Some? then s.(db := r.value)
    else s
  }

  function AfterSoftDelete(s: State, v: Id, tenant: Id): State {
    var r := Sql.SoftDeleteVideo(s.db, v, tenant, s.now);
    if r.Some? then s.(db := r.value) else s
  }

  ghost function Apply(s: State, loc: Locale, a: Action): State {
    match a
    case CreateIntent(id, tenant, fileKey, contentType, expiresAt) =>
      AfterIntent(s, id, tenant, fileKey, contentType, expiresAt)
    case Create(req, draw) => AfterCreate(s, loc, req, draw)
    case Claim(i, j) => AfterClaim(s, i, j)
    case Work(i, supply) => AfterWork(s, loc, i, supply)
    case Die(i) => AfterDeath(s, i)
    case Retry(j, tenant) => AfterRetry(s, j, tenant)
    case SoftDelete(v, tenant) => AfterSoftDelete(s, v, tenant)
    case Tick(elapsed) => s.(now := s.now + elapsed)
  }

  /** An empty database and idle workers. */
  predicate Init(s: State) {
    s.db == EMPTY && s.claims == map[] && forall i | 0 <= i < |s.workers| :: s.workers[i] == Idle
  }

  /** The state after a sequence of actions. */
  ghost function Run(s: State, loc: Locale, actions: seq<Action>): State {
    if actions == [] then s
    else Apply(Run(s, loc, actions[..|actions| - 1]), loc, actions[|actions| - 1])
  }

  /** Some run from an empty database leads here. */
  ghost predicate Reachable(s: State, loc: Locale) {
    exists s0, actions :: Init(s0) && s == Run(s0, loc, actions)
  }

  // ---- the invariant

  ghost predicate JobsOk(db: Db) {
    forall j | j in db.jobs :: JobOk(db, j)
  }

  ghost predicate WorkersOk(db: Db, loc: Locale, workers: seq<Worker>) {
    forall i | 0 <= i < |workers| :: WorkerOk(db, loc, workers[i])
  }

  /** No job is inside two runs. */
  predicate Exclusive(workers: seq<Worker>) {
    forall a, b | 0 <= a < b < |workers| && Inside(workers[a]) && Inside(workers[b]) ::
      workers[a].job != workers[b].job
  }

  ghost predicate CoreOk(s: State, loc: Locale) {
    TablesOk(s.db, loc) && JobsOk(s.db) && WorkersOk(s.db, loc, s.workers) && Exclusive(s.workers)
  }

  predicate ClaimsOk(s: State) {
    forall j | j in s.db.jobs :: j in s.claims
      && s.claims[j] + (if s.db.jobs[j].status == Pending then 1 else 0) == s.db.jobs[j].retryCount + 1
  }

  ghost predicate Inv(s: State, loc: Locale) {
    CoreOk(s, loc) && ClaimsOk(s)
  }
}
