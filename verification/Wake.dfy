/** How workers learn of pending jobs: a channel of wake-ups that never blocks a sender,
    workers that drain the queue after each wake-up, and shutdown. The claim takes two
    steps here, a row lock that other claims skip and the update. */
module Wake {
  type Id = nat

  const BUFFER_SIZE := 32
  const DEFAULT_WORKERS := 3
  const MAX_WORKERS := 5

  /** Where a worker stands: at the select, about to claim, holding the lock of a row,
      inside a job, or gone. */
  datatype Stage = Waiting | Draining | Claiming(job: Id) | Processing(job: Id) | Exited

  /** `signalled` holds the jobs that were pending when a wake-up was sent and have been
      pending ever since. */
  datatype State = State(shutdown: bool, buffer: nat, workers: seq<Stage>, pending: set<Id>, signalled: set<Id>)

  datatype Action =
    | Arrive(job: Id)             // a job is created, or retried
    | Send(chosen: bool)          // by the listener or the ticker
    | Receive(worker: nat)
    | Lock(worker: nat, job: Id)
    | FindNothing(worker: nat)
    | Claim(worker: nat)
    | ClaimFails(worker: nat)
    | Finish(worker: nat)
    | Shutdown
    | Leave(worker: nat)

  /** The configured number of workers within 1 to 5. */
  function Concurrency(configured: int): nat {
    if configured <= 0 then DEFAULT_WORKERS else if configured > MAX_WORKERS then MAX_WORKERS else configured
  }

  function Init(configured: int): State {
    State(false, 0, seq(Concurrency(configured), i => Waiting), {}, {})
  }

  function Locked(workers: seq<Stage>): set<Id> {
    set i | 0 <= i < |workers| && workers[i].Claiming? :: workers[i].job
  }

  predicate IsAt(s: State, i: nat, stage: Stage) {
    i < |s.workers| && s.workers[i] == stage
  }

  function Move(s: State, i: nat, stage: Stage): State
    requires i < |s.workers|
  {
    s.(workers := s.workers[i := stage])
  }

  /** Adds a wake-up unless the buffer is full; during shutdown the select may also take
      its other branch. */
  function Sent(s: State, chosen: bool): State {
    if s.shutdown && !chosen then s
    else s.(buffer := if s.buffer < BUFFER_SIZE then s.buffer + 1 else s.buffer, signalled := s.signalled + s.pending)
  }

  /** The action takes effect in the state. */
  predicate Enabled(s: State, a: Action) {
    match a
    case Arrive(j) => j !in s.pending
    case Send(_) => true
    case Receive(i) => IsAt(s, i, Waiting) && s.buffer > 0
    case Lock(i, j) => IsAt(s, i, Draining) && j in s.pending && j !in Locked(s.workers)
    case FindNothing(i) => IsAt(s, i, Draining) && s.pending <= Locked(s.workers)
    case Claim(i) => i < |s.workers| && s.workers[i].Claiming?
    case ClaimFails(i) => i < |s.workers| && (s.workers[i] == Draining || s.workers[i].Claiming?)
    case Finish(i) => i < |s.workers| && s.workers[i].Processing?
    case Shutdown => true
    case Leave(i) => IsAt(s, i, Waiting) && s.shutdown
  }

  function Next(s: State, a: Action): State {
    if !Enabled(s, a) then s else
    match a
    case Arrive(j) => s.(pending := s.pending + {j})
    case Send(chosen) => Sent(s, chosen)
    case Receive(i) => Move(s, i, Draining).(buffer := s.buffer - 1)
    case Lock(i, j) => Move(s, i, Claiming(j))
    case FindNothing(i) => Move(s, i, Waiting)
    case Claim(i) =>
      var j := s.workers[i].job;
      Move(s, i, Processing(j)).(pending := s.pending - {j}, signalled := s.signalled - {j})
    case ClaimFails(i) => Move(s, i, if s.shutdown then Exited else Draining)
    case Finish(i) => Move(s, i, if s.shutdown then Exited else Draining)
    case Shutdown => s.(shutdown := true)
    case Leave(i) => Move(s, i, Exited)
  }

  function Run(s: State, actions: seq<Action>): State {
    if actions == [] then s else Next(Run(s, actions[..|actions| - 1]), actions[|actions| - 1])
  }

  // ---- no wake-up is lost

  /** The worker will ask for a job again before it waits. */
  predicate Active(stage: Stage) {
    stage == Draining || stage.Claiming? || stage.Processing?
  }

  ghost predicate SomeActive(workers: seq<Stage>) {
    exists i :: 0 <= i < |workers| && Active(workers[i])
  }

  ghost predicate Inv(s: State) {
    && (!s.shutdown && s.signalled != {} ==> s.buffer > 0 || SomeActive(s.workers))
    && s.signalled <= s.pending && s.buffer <= BUFFER_SIZE
    && (forall i | 0 <= i < |s.workers| && s.workers[i].Claiming? :: s.workers[i].job in s.pending)
    && (forall i, k | 0 <= i < k < |s.workers| && s.workers[i].Claiming? && s.workers[k].Claiming? ::
          s.workers[i].job != s.workers[k].job)
    && (!s.shutdown ==> forall i | 0 <= i < |s.workers| :: s.workers[i] != Exited)
  }

  lemma StillActive(s: State, i: nat, stage: Stage)
    requires i < |s.workers| && Active(stage)
    ensures SomeActive(Move(s, i, stage).workers)
  {
    assert Active(Move(s, i, stage).workers[i]);
  }

  lemma LockKeepsInv(s: State, i: nat, j: Id)
    requires Inv(s) && Enabled(s, Lock(i, j))
    ensures Inv(Next(s, Lock(i, j)))
  {
    StillActive(s, i, Claiming(j));
    assert forall k | 0 <= k < |s.workers| && s.workers[k].Claiming? :: s.workers[k].job in Locked(s.workers);
  }

  lemma FindNothingKeepsInv(s: State, i: nat)
    requires Inv(s) && Enabled(s, FindNothing(i))
    ensures Inv(Next(s, FindNothing(i)))
  {
    if j :| j in s.signalled {
      assert j in Locked(s.workers);
      var k :| 0 <= k < |s.workers| && s.workers[k].Claiming? && s.workers[k].job == j;
      assert Active(Next(s, FindNothing(i)).workers[k]);
    }
  }

  lemma WorkerKeepsInv(s: State, a: Action)
    requires Inv(s) && Enabled(s, a) && (a.Receive? || a.Claim? || a.ClaimFails? || a.Finish?)
    ensures Inv(Next(s, a))
  {
    match a
    case Receive(i) => StillActive(s, i, Draining);
    case Claim(i) => StillActive(s, i, Processing(s.workers[i].job));
    case ClaimFails(i) => StillActive(s, i, Draining);
    case Finish(i) => StillActive(s, i, Draining);
  }

  lemma NextKeepsInv(s: State, a: Action)
    requires Inv(s)
    ensures Inv(Next(s, a))
  {
    if Enabled(s, a) {
      match a
      case Lock(i, j) => LockKeepsInv(s, i, j);
      case FindNothing(i) => FindNothingKeepsInv(s, i);
      case Receive(_) => WorkerKeepsInv(s, a);
      case Claim(_) => WorkerKeepsInv(s, a);
      case ClaimFails(_) => WorkerKeepsInv(s, a);
      case Finish(_) => WorkerKeepsInv(s, a);
      case Arrive(_) =>
      case Send(_) =>
      case Shutdown =>
      case Leave(_) =>
    }
  }

  lemma {:induction false} RunInv(configured: int, actions: seq<Action>)
    ensures Inv(Run(Init(configured), actions))
    decreases |actions|
  {
    if actions != [] {
      RunInv(configured, actions[..|actions| - 1]);
      NextKeepsInv(Run(Init(configured), actions[..|actions| - 1]), actions[|actions| - 1]);
    }
  }

  /** While not shutting down, a job that was pending when a wake-up was sent, even one
      dropped on a full buffer, and is pending still has a wake-up in the buffer or a
      worker that will claim again. */
  lemma NoWakeUpIsLost(configured: int, actions: seq<Action>)
    requires var s := Run(Init(configured), actions); !s.shutdown && s.signalled != {}
    ensures var s := Run(Init(configured), actions); s.buffer > 0 || SomeActive(s.workers)
  {
    RunInv(configured, actions);
  }

  /** No two workers hold or update the same row: the claim in two steps is as good as one
      atomic step, for its job is still pending at the second. */
  lemma ClaimsAreExclusive(configured: int, actions: seq<Action>, i: nat, k: nat)
    requires var s := Run(Init(configured), actions);
             i < |s.workers| && k < |s.workers| && s.workers[i].Claiming? && s.workers[k].Claiming?
    ensures var s := Run(Init(configured), actions);
            s.workers[i].job in s.pending && (s.workers[i].job == s.workers[k].job ==> i == k)
  {
    RunInv(configured, actions);
  }

  // ---- draining ends

  function Weight(stage: Stage): nat {
    match stage
    case Draining => 2
    case Claiming(_) => 1
    case Processing(_) => 3
    case Waiting => 0
    case Exited => 0
  }

  function Weights(workers: seq<Stage>): nat {
    if workers == [] then 0 else Weights(workers[..|workers| - 1]) + Weight(workers[|workers| - 1])
  }

  lemma {:induction false} WeightMoves(workers: seq<Stage>, i: nat, stage: Stage)
    requires i < |workers|
    ensures Weights(workers[i := stage]) == Weights(workers) - Weight(workers[i]) + Weight(stage)
    decreases |workers|
  {
    var n := |workers| - 1;
    if i < n {
      WeightMoves(workers[..n], i, stage);
      assert workers[i := stage][..n] == workers[..n][i := stage];
    } else {
      assert workers[i := stage][..n] == workers[..n];
    }
  }

  /** How many steps the workers have before them at most. */
  function Potential(s: State): nat {
    3 * |s.pending| + 3 * s.buffer + Weights(s.workers)
  }

  /** What the workers do of themselves: no arrivals, no wake-ups, no claim errors. */
  predicate Quiet(a: Action) {
    a.Receive? || a.Lock? || a.FindNothing? || a.Claim? || a.Finish?
  }

  /** Every quiet step that takes effect uses the potential up. */
  lemma QuietStepFalls(s: State, a: Action)
    requires Inv(s) && !s.shutdown && Quiet(a) && Enabled(s, a)
    ensures Potential(Next(s, a)) < Potential(s)
  {
    var i := a.worker;
    WeightMoves(s.workers, i, Next(s, a).workers[i]);
    assert Next(s, a).workers == s.workers[i := Next(s, a).workers[i]];
    if a.Claim? {
      var j := s.workers[i].job;
      assert s.pending == (s.pending - {j}) + {j};
    }
  }

  predicate AllQuiet(actions: seq<Action>) {
    forall a | a in actions :: Quiet(a)
  }

  /** How many of the actions take effect. */
  function Effects(s: State, actions: seq<Action>): nat {
    if actions == [] then 0
    else
      var init, a := actions[..|actions| - 1], actions[|actions| - 1];
      Effects(s, init) + if Enabled(Run(s, init), a) then 1 else 0
  }

  /** So a quiet run takes no more steps than the potential it starts with. */
  lemma {:induction false} QuietRunsAreShort(s: State, actions: seq<Action>)
    requires Inv(s) && !s.shutdown && AllQuiet(actions)
    ensures Effects(s, actions) + Potential(Run(s, actions)) <= Potential(s)
    ensures Inv(Run(s, actions)) && !Run(s, actions).shutdown
    decreases |actions|
  {
    if actions != [] {
      var init, a := actions[..|actions| - 1], actions[|actions| - 1];
      QuietRunsAreShort(s, init);
      assert a in actions;
      NextKeepsInv(Run(s, init), a);
      if Enabled(Run(s, init), a) {
        QuietStepFalls(Run(s, init), a);
      }
    }
  }

  ghost predicate Stuck(s: State) {
    forall a :: Quiet(a) ==> !Enabled(s, a)
  }

  lemma ActiveCanStep(s: State, i: nat)
    requires i < |s.workers| && Active(s.workers[i])
    ensures exists a :: Quiet(a) && Enabled(s, a)
  {
    match s.workers[i]
    case Claiming(_) => assert Enabled(s, Claim(i));
    case Processing(_) => assert Enabled(s, Finish(i));
    case Draining =>
      if s.pending <= Locked(s.workers) {
        assert Enabled(s, FindNothing(i));
      } else {
        var j :| j in s.pending && j !in Locked(s.workers);
        assert Enabled(s, Lock(i, j));
      }
  }

  /** When the workers have nothing left to do, no signalled job is pending. */
  lemma StuckHasNoSignalled(s: State)
    requires Inv(s) && !s.shutdown && |s.workers| > 0 && Stuck(s)
    ensures s.signalled == {} && forall i | 0 <= i < |s.workers| :: s.workers[i] == Waiting
  {
    forall i | 0 <= i < |s.workers| ensures s.workers[i] == Waiting {
      if Active(s.workers[i]) {
        ActiveCanStep(s, i);
      }
    }
    assert !Enabled(s, Receive(0));
  }

  /** In any run, once arrivals, wake-ups and claim errors cease, the workers stop after
      finitely many steps, and then no job is left that a wake-up was sent for. */
  lemma Drains(configured: int, actions: seq<Action>, quiet: seq<Action>)
    requires !Run(Init(configured), actions).shutdown && AllQuiet(quiet)
    ensures var s := Run(Init(configured), actions);
            && Effects(s, quiet) <= Potential(s)
            && (Stuck(Run(s, quiet)) ==> Run(s, quiet).signalled == {})
  {
    RunInv(configured, actions);
    var s := Run(Init(configured), actions);
    QuietRunsAreShort(s, quiet);
    WorkersStay(configured, actions);
    WorkersStayOn(s, quiet);
    if Stuck(Run(s, quiet)) {
      StuckHasNoSignalled(Run(s, quiet));
    }
  }

  lemma {:induction false} WorkersStayOn(s: State, actions: seq<Action>)
    ensures |Run(s, actions).workers| == |s.workers|
    decreases |actions|
  {
    if actions != [] {
      WorkersStayOn(s, actions[..|actions| - 1]);
    }
  }

  lemma WorkersStay(configured: int, actions: seq<Action>)
    ensures var n := |Run(Init(configured), actions).workers|;
            && (configured <= 0 ==> n == 3) && (1 <= configured <= 5 ==> n == configured)
            && (configured > 5 ==> n == 5)
  {
    WorkersStayOn(Init(configured), actions);
  }

  // ---- jobs without a wake-up of their own

  /** Somebody will look at the queue again. */
  ghost predicate Awake(s: State) {
    s.buffer > 0 || SomeActive(s.workers)
  }

  /** A pending job keeps somebody looking, while the workers go on by themselves. */
  lemma QuietStepStaysAwake(s: State, a: Action)
    requires Inv(s) && !s.shutdown && Quiet(a) && (s.pending != {} ==> Awake(s))
    ensures Next(s, a).pending != {} ==> Awake(Next(s, a))
  {
    if Enabled(s, a) {
      match a
      case Receive(i) => StillActive(s, i, Draining);
      case Lock(i, j) => StillActive(s, i, Claiming(j));
      case Claim(i) => StillActive(s, i, Processing(s.workers[i].job));
      case Finish(i) => StillActive(s, i, Draining);
      case FindNothing(i) =>
        if j :| j in s.pending {
          assert j in Locked(s.workers);
          var k :| 0 <= k < |s.workers| && s.workers[k].Claiming? && s.workers[k].job == j;
          assert Active(Next(s, a).workers[k]);
        }
    }
  }

  lemma {:induction false} QuietRunStaysAwake(s: State, quiet: seq<Action>)
    requires Inv(s) && !s.shutdown && AllQuiet(quiet) && (s.pending != {} ==> Awake(s))
    ensures Run(s, quiet).pending != {} ==> Awake(Run(s, quiet))
    decreases |quiet|
  {
    if quiet != [] {
      var init, a := quiet[..|quiet| - 1], quiet[|quiet| - 1];
      QuietRunStaysAwake(s, init);
      QuietRunsAreShort(s, init);
      assert a in quiet;
      hide Inv, Awake, Next;
      QuietStepStaysAwake(Run(s, init), a);
    }
  }

  lemma QuietNeedsSomebody(s: State, a: Action)
    requires Quiet(a) && Enabled(s, a)
    ensures Awake(s)
  {
    if !a.Receive? {
      assert Active(s.workers[a.worker]);
    }
  }

  /** With nobody awake nothing quiet happens. */
  lemma {:induction false} AsleepStays(s: State, quiet: seq<Action>)
    requires Inv(s) && !s.shutdown && !Awake(s) && AllQuiet(quiet)
    ensures Run(s, quiet) == s
    decreases |quiet|
  {
    if quiet != [] {
      var a := quiet[|quiet| - 1];
      AsleepStays(s, quiet[..|quiet| - 1]);
      assert a in quiet;
      if Enabled(s, a) {
        QuietNeedsSomebody(s, a);
      }
    }
  }

  /** A job that becomes pending without a notification, as a retried one does, is claimed
      by the workers of themselves if and only if there is a wake-up in the buffer or a
      worker that will claim again when it arrives. Otherwise only a later wake-up, of a
      tick or of another job, gets it claimed. */
  lemma PickedUpExactlyWhenAwake(configured: int, actions: seq<Action>, job: Id, quiet: seq<Action>)
    requires var s := Run(Init(configured), actions); !s.shutdown && job !in s.pending
    requires AllQuiet(quiet) && Stuck(Run(Next(Run(Init(configured), actions), Arrive(job)), quiet))
    ensures var s := Run(Init(configured), actions);
            job !in Run(Next(s, Arrive(job)), quiet).pending <==> Awake(s)
  {
    var s := Run(Init(configured), actions);
    var s1 := Next(s, Arrive(job));
    RunInv(configured, actions);
    NextKeepsInv(s, Arrive(job));
    assert Awake(s1) == Awake(s);
    if Awake(s) {
      QuietRunStaysAwake(s1, quiet);
      QuietRunsAreShort(s1, quiet);
      WorkersStay(configured, actions);
      WorkersStayOn(s1, quiet);
      StuckIsAsleep(Run(s1, quiet));
    } else {
      AsleepStays(s1, quiet);
    }
  }

  lemma StuckIsAsleep(s: State)
    requires Inv(s) && !s.shutdown && |s.workers| > 0 && Stuck(s)
    ensures !Awake(s)
  {
    StuckHasNoSignalled(s);
    assert !Enabled(s, Receive(0));
  }

  // ---- no wake-up is made up or thrown away

  /** The action puts a wake-up into the buffer, which has room for 32. */
  predicate Wakes(s: State, a: Action) {
    a.Send? && (a.chosen || !s.shutdown) && s.buffer < 32
  }

  predicate Receives(s: State, a: Action) {
    a.Receive? && IsAt(s, a.worker, Waiting) && s.buffer > 0
  }

  function Sends(s: State, actions: seq<Action>): nat {
    if actions == [] then 0
    else
      var init, a := actions[..|actions| - 1], actions[|actions| - 1];
      Sends(s, init) + if Wakes(Run(s, init), a) then 1 else 0
  }

  function Receipts(s: State, actions: seq<Action>): nat {
    if actions == [] then 0
    else
      var init, a := actions[..|actions| - 1], actions[|actions| - 1];
      Receipts(s, init) + if Receives(Run(s, init), a) then 1 else 0
  }

  /** The wake-ups in the buffer are those sent and not received. */
  lemma {:induction false} WakeUpsAreConserved(s: State, actions: seq<Action>)
    ensures Run(s, actions).buffer + Receipts(s, actions) == s.buffer + Sends(s, actions)
    decreases |actions|
  {
    if actions != [] {
      WakeUpsAreConserved(s, actions[..|actions| - 1]);
    }
  }

  // ---- shutdown

  /** How often worker i finishes a job or fails to claim one. */
  function Endings(s: State, actions: seq<Action>, i: nat): nat {
    if actions == [] then 0
    else
      var init, a := actions[..|actions| - 1], actions[|actions| - 1];
      Endings(s, init, i) + if (a == Finish(i) || a == ClaimFails(i)) && Enabled(Run(s, init), a) then 1 else 0
  }

  lemma OneEnding(s: State, a: Action, i: nat)
    requires s.shutdown
    ensures Next(s, a).shutdown
    ensures IsAt(s, i, Exited) ==>
            IsAt(Next(s, a), i, Exited) && !((a == Finish(i) || a == ClaimFails(i)) && Enabled(s, a))
    ensures (a == Finish(i) || a == ClaimFails(i)) && Enabled(s, a) ==> IsAt(Next(s, a), i, Exited)
  {
  }

  /** Once the process shuts down a worker ends at most one job or claim more, and then it
      is gone. */
  lemma {:induction false} ShutdownEndsWorkers(s: State, more: seq<Action>, i: nat)
    requires s.shutdown
    ensures Run(s, more).shutdown && Endings(s, more, i) <= 1
    ensures Endings(s, more, i) == 1 ==> IsAt(Run(s, more), i, Exited)
    decreases |more|
  {
    if more != [] {
      ShutdownEndsWorkers(s, more[..|more| - 1], i);
      OneEnding(Run(s, more[..|more| - 1]), more[|more| - 1], i);
      hide Next, Enabled, IsAt;
    }
  }
}
