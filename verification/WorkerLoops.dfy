/** The loops around the wake-up channel, as the goroutines run them: the workers, the
    ticker and the listener. A script fixes what is not theirs to decide: what the others
    do before each of their steps, which ready branch a select takes, and which claims
    fail. Given the script, what a loop does is one definite course of actions. */
module WorkerLoops {
  import opened Wake
  import opened Backoff
  import opened Wrappers

  const FIRST_RECONNECT := 1
  const LAST_RECONNECT := 30

  /** The worker that takes the action. */
  function ActorOf(a: Action): Option<nat> {
    match a
    case Receive(i) => Some(i)
    case Lock(i, _) => Some(i)
    case FindNothing(i) => Some(i)
    case Claim(i) => Some(i)
    case ClaimFails(i) => Some(i)
    case Finish(i) => Some(i)
    case Leave(i) => Some(i)
    case _ => None
  }

  /** A state and the actions that led to it. */
  datatype Course = Course(state: State, trace: seq<Action>)

  function Act(c: Course, a: Action): Course {
    Course(Next(c.state, a), c.trace + [a])
  }

  /** An action of somebody else that is possible now. */
  predicate Foreign(s: State, me: Option<nat>, a: Action) {
    Enabled(s, a) && (me.None? || ActorOf(a) != me)
  }

  /** The others act; what is impossible at its turn does not happen. */
  function OthersAct(c: Course, me: Option<nat>, others: seq<Action>): Course {
    if others == [] then c
    else
      var d := OthersAct(c, me, others[..|others| - 1]);
      var a := others[|others| - 1];
      if Foreign(d.state, me, a) then Act(d, a) else d
  }

  lemma {:induction false} OthersKeepMe(c: Course, me: nat, others: seq<Action>)
    requires me < |c.state.workers|
    ensures var d := OthersAct(c, Some(me), others);
            me < |d.state.workers| && d.state.workers[me] == c.state.workers[me]
    decreases |others|
  {
    if others != [] {
      OthersKeepMe(c, me, others[..|others| - 1]);
      var d, a := OthersAct(c, Some(me), others[..|others| - 1]), others[|others| - 1];
      if Foreign(d.state, Some(me), a) {
        OneKeepsMe(d.state, a, me);
      }
    }
  }

  lemma OneKeepsMe(s: State, a: Action, me: nat)
    requires me < |s.workers| && ActorOf(a) != Some(me)
    ensures me < |Next(s, a).workers| && Next(s, a).workers[me] == s.workers[me]
  {
  }

  // ---- the course of a worker

  /** What one step of a worker does not decide itself. */
  datatype Round = Round(others: seq<Action>, done: bool, fails: bool)

  type Script = nat -> Round

  predicate IsOldest(free: set<Id>, j: Id) {
    j in free && forall o | o in free :: j <= o
  }

  /** The job that the claim picks, the oldest; ids are in the order of creation. */
  ghost function Oldest(free: set<Id>): Id
    requires free != {}
  {
    OldestExists(free);
    var j :| IsOldest(free, j);
    j
  }

  lemma {:induction false} OldestExists(free: set<Id>)
    requires free != {}
    ensures exists j :: IsOldest(free, j)
    decreases free
  {
    var a :| a in free;
    var rest := free - {a};
    assert forall o | o in free :: o == a || o in rest;
    if rest == {} {
      assert IsOldest(free, a);
    } else {
      OldestExists(rest);
      var b :| IsOldest(rest, b);
      if a < b {
        assert IsOldest(free, a);
      } else {
        assert IsOldest(free, b);
      }
    }
  }

  /** The one action the worker takes next, if it is not blocked. */
  ghost function MyAction(s: State, me: nat, r: Round): Option<Action>
    requires me < |s.workers|
  {
    match s.workers[me]
    case Waiting =>
      if s.shutdown && (r.done || s.buffer == 0) then Some(Leave(me))
      else if s.buffer > 0 then Some(Receive(me)) else None
    case Draining =>
      var free := s.pending - Locked(s.workers);
      if r.fails then Some(ClaimFails(me))
      else if free == {} then Some(FindNothing(me))
      else Some(Lock(me, Oldest(free)))
    case Claiming(_) => if r.fails then Some(ClaimFails(me)) else Some(Claim(me))
    case Processing(_) => Some(Finish(me))
    case Exited => None
  }

  ghost function Step(c: Course, me: nat, r: Round): Course
    requires me < |c.state.workers|
  {
    if c.state.workers[me] == Exited then c
    else
      OthersKeepMe(c, me, r.others);
      var d := OthersAct(c, Some(me), r.others);
      match MyAction(d.state, me, r)
      case Some(a) => Act(d, a)
      case None => d
  }

  lemma StepKeepsMe(c: Course, me: nat, r: Round)
    requires me < |c.state.workers|
    ensures me < |Step(c, me, r).state.workers|
  {
    OthersKeepMe(c, me, r.others);
    hide OthersAct;
  }

  /** The first n steps of a worker. */
  ghost function Live(c: Course, me: nat, script: Script, n: nat): (d: Course)
    requires me < |c.state.workers|
    ensures me < |d.state.workers|
  {
    if n == 0 then c
    else
      var d := Live(c, me, script, n - 1);
      StepKeepsMe(d, me, script(n - 1));
      Step(d, me, script(n - 1))
  }

  lemma {:induction false} ExitedForGood(c: Course, me: nat, script: Script, n: nat, m: nat)
    requires me < |c.state.workers| && n <= m && Live(c, me, script, n).state.workers[me] == Exited
    ensures Live(c, me, script, m) == Live(c, me, script, n)
    decreases m
  {
    if n < m {
      ExitedForGood(c, me, script, n, m - 1);
    }
  }

  // ---- courses are runs

  /** The actions lead from the one state to the other, and each takes effect. */
  predicate Leads(from: State, c: Course) {
    Run(from, c.trace) == c.state && Effects(from, c.trace) == |c.trace|
  }

  lemma LeadsOn(from: State, c: Course, a: Action)
    requires Leads(from, c) && Enabled(c.state, a)
    ensures Leads(from, Act(c, a))
  {
    assert (c.trace + [a])[..|c.trace|] == c.trace;
  }

  lemma {:induction false} OthersLead(from: State, c: Course, me: Option<nat>, others: seq<Action>)
    requires Leads(from, c)
    ensures Leads(from, OthersAct(c, me, others))
    decreases |others|
  {
    hide Leads, Act;
    if others != [] {
      OthersLead(from, c, me, others[..|others| - 1]);
      var d, a := OthersAct(c, me, others[..|others| - 1]), others[|others| - 1];
      if Foreign(d.state, me, a) {
        LeadsOn(from, d, a);
      }
    }
  }

  /** Whatever the script, a worker only ever does what is possible, so its course is a run
      of the protocol, and it exits only at shutdown. */
  lemma {:induction false} WorkersRunTheProtocol(from: State, me: nat, script: Script, n: nat)
    requires me < |from.workers| && from.workers[me] == Waiting
    ensures var c := Live(Course(from, []), me, script, n);
            Leads(from, c) && (c.state.workers[me] == Exited ==> c.state.shutdown)
    decreases n
  {
    hide Live, OthersAct, Leads, MyAction, Act;
    var start := Course(from, []);
    if n == 0 {
      LiveStarts(start, me, script);
      NothingLeads(from);
    } else {
      WorkersRunTheProtocol(from, me, script, n - 1);
      var c := Live(start, me, script, n - 1);
      if c.state.workers[me] == Exited {
        ExitedForGood(start, me, script, n - 1, n);
      } else {
        LiveGoesOn(start, me, script, n - 1);
        OthersKeepMe(c, me, script(n - 1).others);
        OthersLead(from, c, Some(me), script(n - 1).others);
        OneMore(from, me, script(n - 1), OthersAct(c, Some(me), script(n - 1).others));
      }
    }
  }

  lemma OneMore(from: State, me: nat, r: Round, d: Course)
    requires Leads(from, d) && me < |d.state.workers| && d.state.workers[me] != Exited
    ensures var c := match MyAction(d.state, me, r) case Some(a) => Act(d, a) case None => d;
            && Leads(from, c) && me < |c.state.workers| && (c.state.workers[me] == Exited ==> c.state.shutdown)
  {
    MineIsPossible(d.state, me, r);
    hide Leads, Enabled, MyAction;
    if MyAction(d.state, me, r).Some? {
      LeadsOn(from, d, MyAction(d.state, me, r).value);
    }
  }

  lemma MineIsPossible(s: State, me: nat, r: Round)
    requires me < |s.workers| && s.workers[me] != Exited
    ensures var a := MyAction(s, me, r);
            && (a.Some? ==> Enabled(s, a.value) && me < |Next(s, a.value).workers|)
            && (a.Some? && Next(s, a.value).workers[me] == Exited ==> Next(s, a.value).shutdown)
  {
    if s.workers[me] == Draining {
      assert s.pending == (s.pending - Locked(s.workers)) + s.pending * Locked(s.workers);
    }
  }

  /** A worker that is blocked has nothing to receive and nothing to end it. */
  lemma BlockedExactlyWhen(s: State, me: nat, r: Round)
    requires me < |s.workers|
    ensures MyAction(s, me, r).None? <==>
            s.workers[me] == Exited || (s.workers[me] == Waiting && s.buffer == 0 && !s.shutdown)
  {
  }

  // ---- the courses of ticker and listener

  /** The branch the select of a sender takes. */
  predicate Chooses(s: State, other: bool) {
    !(s.shutdown && (other || s.buffer >= BUFFER_SIZE))
  }

  function SendOn(c: Course, other: bool): Course {
    Act(c, Send(Chooses(c.state, other)))
  }

  datatype Tick = Tick(others: seq<Action>, done: bool, other: bool)

  /** What a sender has come to: how many wake-ups it has sent, and whether it is over. */
  datatype Beat = Beat(course: Course, sent: nat, over: bool)

  function Ticked(b: Beat, ticks: seq<Tick>): Beat {
    if ticks == [] then b
    else
      var d, t := Ticked(b, ticks[..|ticks| - 1]), ticks[|ticks| - 1];
      if d.over then d
      else
        var c := OthersAct(d.course, None, t.others);
        if c.state.shutdown && t.done then Beat(c, d.sent, true) else Beat(SendOn(c, t.other), d.sent + 1, false)
  }

  lemma {:induction false} OthersShutDown(c: Course, me: Option<nat>, others: seq<Action>)
    ensures c.state.shutdown ==> OthersAct(c, me, others).state.shutdown
    decreases |others|
  {
    if others != [] {
      OthersShutDown(c, me, others[..|others| - 1]);
    }
  }

  /** Until the process shuts down there is a wake-up at the start and at each tick. */
  lemma {:induction false} EveryTickSends(from: State, other: bool, ticks: seq<Tick>)
    ensures var b := Ticked(Beat(SendOn(Course(from, []), other), 1, false), ticks);
            && Leads(from, b.course) && (b.over ==> b.course.state.shutdown)
            && (!b.over ==> b.sent == 1 + |ticks|)
    decreases |ticks|
  {
    hide Leads;
    if ticks == [] {
      NothingLeads(from);
      LeadsOn(from, Course(from, []), Send(Chooses(from, other)));
    } else {
      var init, t := ticks[..|ticks| - 1], ticks[|ticks| - 1];
      EveryTickSends(from, other, init);
      var d := Ticked(Beat(SendOn(Course(from, []), other), 1, false), init);
      OthersLead(from, d.course, None, t.others);
      var c := OthersAct(d.course, None, t.others);
      LeadsOn(from, c, Send(Chooses(c.state, t.other)));
    }
  }

  lemma NothingLeads(s: State)
    ensures Leads(s, Course(s, []))
  {
  }

  /** A notification, which wakes only if it carries a job. */
  datatype Notice = Notice(others: seq<Action>, payload: bool, other: bool)

  /** A session of the listener: what it hears, what the others do until its connection
      ends and during the pause after it, and whether the pause runs to its end though the
      process shuts down. */
  datatype Session = Session(notices: seq<Notice>, others: seq<Action>, meanwhile: seq<Action>, pauseEnds: bool)

  function Listened(b: Beat, notices: seq<Notice>): Beat {
    if notices == [] then b
    else
      var d, n := Listened(b, notices[..|notices| - 1]), notices[|notices| - 1];
      var c := OthersAct(d.course, None, n.others);
      if n.payload then Beat(SendOn(c, n.other), d.sent + 1, d.over) else Beat(c, d.sent, d.over)
  }

  /** Everything until the connection of the session ends. */
  function Ended(b: Beat, s: Session): Beat {
    var d := Listened(b, s.notices);
    d.(course := OthersAct(d.course, None, s.others))
  }

  /** The sessions one after the other, with the number of pauses: a session that ends while
      the process shuts down is the last, and so is one whose pause the shutdown cuts off. */
  function Heard(b: Beat, sessions: seq<Session>): (Beat, nat) {
    if sessions == [] then (b, 0)
    else
      var (d, pauses) := Heard(b, sessions[..|sessions| - 1]);
      var s := sessions[|sessions| - 1];
      if d.over then (d, pauses)
      else
        var e := Ended(d, s);
        if e.course.state.shutdown then (e.(over := true), pauses)
        else
          var c := OthersAct(e.course, None, s.meanwhile);
          (Beat(c, e.sent, c.state.shutdown && !s.pauseEnds), pauses + 1)
  }

  function Payloads(notices: seq<Notice>): nat {
    if notices == [] then 0
    else Payloads(notices[..|notices| - 1]) + if notices[|notices| - 1].payload then 1 else 0
  }

  /** A wake-up for each notification that carries a job. */
  lemma {:induction false} EveryNotificationSends(from: State, b: Beat, notices: seq<Notice>)
    requires Leads(from, b.course)
    ensures var d := Listened(b, notices);
            Leads(from, d.course) && d.sent == b.sent + Payloads(notices) && d.over == b.over
    decreases |notices|
  {
    hide Leads;
    if notices != [] {
      var init, n := notices[..|notices| - 1], notices[|notices| - 1];
      EveryNotificationSends(from, b, init);
      var d := Listened(b, init);
      OthersLead(from, d.course, None, n.others);
      var c := OthersAct(d.course, None, n.others);
      LeadsOn(from, c, Send(Chooses(c.state, n.other)));
    }
  }

  function AllPayloads(sessions: seq<Session>): nat {
    if sessions == [] then 0
    else AllPayloads(sessions[..|sessions| - 1]) + Payloads(sessions[|sessions| - 1].notices)
  }

  lemma SessionRuns(from: State, b: Beat, s: Session)
    requires Leads(from, b.course)
    ensures var e := Ended(b, s);
            && Leads(from, e.course) && e.over == b.over && e.sent == b.sent + Payloads(s.notices)
            && Leads(from, OthersAct(e.course, None, s.meanwhile))
  {
    hide Leads, Listened, OthersAct, Payloads;
    EveryNotificationSends(from, b, s.notices);
    var d := Listened(b, s.notices);
    OthersLead(from, d.course, None, s.others);
    OthersLead(from, Ended(b, s).course, None, s.meanwhile);
  }

  /** The listener ends only when the process shuts down. Until then it reconnects after
      every session, with a pause, and has sent a wake-up for each notification of each
      session that carries a job. */
  lemma {:induction false} ListensUntilShutdown(from: State, sessions: seq<Session>)
    ensures var (d, pauses) := Heard(Beat(Course(from, []), 0, false), sessions);
            && Leads(from, d.course) && (d.over ==> d.course.state.shutdown) && pauses <= |sessions|
            && (!d.over ==> pauses == |sessions| && d.sent == AllPayloads(sessions))
    decreases |sessions|
  {
    hide Leads, OthersAct, Ended;
    if sessions == [] {
      NothingLeads(from);
    } else {
      var init, s := sessions[..|sessions| - 1], sessions[|sessions| - 1];
      ListensUntilShutdown(from, init);
      SessionRuns(from, Heard(Beat(Course(from, []), 0, false), init).0, s);
    }
  }

  // ---- the loops

  datatype ClaimResult = Error | Empty | Claimed | Cut

  class Pool {
    var shutdown: bool
    var buffer: nat
    var stages: seq<Stage>
    var pending: set<Id>
    var signalled: set<Id>
    /** Everything that happened since the pool was created. */
    ghost var trace: seq<Action>

    function Now(): State
      reads this
    {
      State(shutdown, buffer, stages, pending, signalled)
    }

    ghost function SoFar(): Course
      reads this
    {
      Course(Now(), trace)
    }

    constructor (configured: int)
      ensures Now() == Init(configured) && trace == []
    {
      shutdown, buffer, pending, signalled := false, 0, {}, {};
      stages := seq(Concurrency(configured), i => Waiting);
      trace := [];
    }

    /** The others do what the script says. */
    method Others(me: Option<nat>, others: seq<Action>)
      modifies this
      ensures SoFar() == OthersAct(old(SoFar()), me, others)
    {
      hide Next, Enabled;
      for n := 0 to |others|
        invariant SoFar() == OthersAct(old(SoFar()), me, others[..n])
      {
        assert others[..n + 1][..n] == others[..n];
        var a := others[n];
        if Enabled(Now(), a) && (me.None? || ActorOf(a) != me) {
          var s := Next(Now(), a);
          shutdown, buffer, stages, pending, signalled := s.shutdown, s.buffer, s.workers, s.pending, s.signalled;
          trace := trace + [a];
        }
      }
      assert others[..|others|] == others;
    }

    /** Never blocks: a full buffer drops the wake-up, and a process that shuts down may
        take the other branch of the select. */
    method SendWake(other: bool)
      modifies this
      ensures SoFar() == SendOn(old(SoFar()), other)
      ensures !old(shutdown) ==> signalled == old(signalled) + pending && buffer > 0
      ensures !old(shutdown) && old(buffer) <= 32 ==> buffer == Min(old(buffer) + 1, 32)
    {
      ghost var chosen := Chooses(Now(), other);
      trace := trace + [Send(chosen)];
      if shutdown && (other || buffer >= BUFFER_SIZE) {
        return;
      }
      if buffer < BUFFER_SIZE {
        buffer := buffer + 1;
      }
      signalled := signalled + pending;
    }

    /** The ticker: a first wake-up for what was there before, then one at each tick. */
    method TickerLoop(other: bool, ticks: seq<Tick>) returns (sent: nat, over: bool)
      modifies this
      ensures Beat(SoFar(), sent, over) == Ticked(Beat(SendOn(old(SoFar()), other), 1, false), ticks)
    {
      hide SendOn, OthersAct;
      SendWake(other);
      ghost var start := Beat(SoFar(), 1, false);
      sent, over := 1, false;
      for t := 0 to |ticks|
        invariant Beat(SoFar(), sent, over) == Ticked(start, ticks[..t]) && !over
      {
        assert ticks[..t + 1][..t] == ticks[..t];
        Others(None, ticks[t].others);
        if shutdown && ticks[t].done {
          over := true;
          OverStays(start, ticks, t + 1);
          return;
        }
        SendWake(ticks[t].other);
        sent := sent + 1;
      }
      assert ticks[..|ticks|] == ticks;
    }

    /** One LISTEN session: a wake-up for each notification with a payload. */
    method Listen(notices: seq<Notice>, ghost b: Beat) returns (sent: nat)
      requires b.course == SoFar()
      modifies this
      ensures Beat(SoFar(), b.sent + sent, b.over) == Listened(b, notices)
    {
      hide SendOn, OthersAct;
      sent := 0;
      for n := 0 to |notices|
        invariant Beat(SoFar(), b.sent + sent, b.over) == Listened(b, notices[..n])
      {
        assert notices[..n + 1][..n] == notices[..n];
        Others(None, notices[n].others);
        if !notices[n].payload {
          continue;
        }
        SendWake(notices[n].other);
        sent := sent + 1;
      }
      assert notices[..|notices|] == notices;
    }

    /** The listener: sessions, and after each lost connection a pause that doubles up to
        the cap. */
    method NotifyListener(sessions: seq<Session>) returns (sent: nat, pauses: seq<int>, over: bool)
      modifies this
      ensures (Beat(SoFar(), sent, over), |pauses|) == Heard(Beat(old(SoFar()), 0, false), sessions)
      ensures forall k | 0 <= k < |pauses| :: pauses[k] == Min(Pow2(k), 30)
    {
      hide Wait, Min, Pow2, Listened, OthersAct;
      ghost var start := Beat(SoFar(), 0, false);
      sent, pauses, over := 0, [], false;
      var backoff := FIRST_RECONNECT;
      WaitsDouble(FIRST_RECONNECT, LAST_RECONNECT, 1);
      for n := 0 to |sessions|
        invariant (Beat(SoFar(), sent, over), |pauses|) == Heard(start, sessions[..n]) && !over
        invariant backoff == Wait(FIRST_RECONNECT, LAST_RECONNECT, |pauses| + 1)
        invariant forall k | 0 <= k < |pauses| :: pauses[k] == Min(FIRST_RECONNECT * Pow2(k), LAST_RECONNECT)
      {
        assert sessions[..n + 1][..n] == sessions[..n];
        var more := Listen(sessions[n].notices, Beat(SoFar(), sent, over));
        sent := sent + more;
        Others(None, sessions[n].others);
        if shutdown {
          over := true;
          HeardStays(start, sessions, n + 1);
          return;
        }
        WaitIsCappedDoubling(FIRST_RECONNECT, LAST_RECONNECT, |pauses| + 1);
        WaitsDouble(FIRST_RECONNECT, LAST_RECONNECT, |pauses| + 1);
        pauses := pauses + [backoff];
        Others(None, sessions[n].meanwhile);
        if shutdown && !sessions[n].pauseEnds {
          over := true;
          HeardStays(start, sessions, n + 1);
          return;
        }
        backoff := NextWait(backoff, LAST_RECONNECT);
      }
      assert sessions[..|sessions|] == sessions;
    }

    /** A worker: it waits for a wake-up and then drains the queue. It is followed for the
        given number of steps. */
    method WorkerLoop(me: nat, script: Script, steps: nat)
      requires me < |stages| && stages[me] == Waiting
      modifies this
      ensures SoFar() == Live(old(SoFar()), me, script, steps)
    {
      hide Live, OthersAct;
      ghost var start := SoFar();
      LiveStarts(start, me, script);
      var k := 0;
      while k < steps
        invariant k <= steps && me < |stages| && (k < steps ==> stages[me] == Waiting)
        invariant SoFar() == Live(start, me, script, k)
      {
        OthersKeepMe(SoFar(), me, script(k).others);
        LiveGoesOn(start, me, script, k);
        Others(Some(me), script(k).others);
        var done := script(k).done;
        k := k + 1;
        if shutdown && (done || buffer == 0) {
          stages := stages[me := Exited];
          trace := trace + [Leave(me)];
          ExitedForGood(start, me, script, k, steps);
          return;
        }
        if buffer > 0 {
          buffer := buffer - 1;
          stages := stages[me := Draining];
          trace := trace + [Receive(me)];
          k := Drain(me, script, k, steps, start);
          if stages[me] == Exited {
            ExitedForGood(start, me, script, k, steps);
            return;
          }
        }
      }
    }

    /** Claims and processes jobs until there is none to claim. */
    method Drain(me: nat, script: Script, from: nat, steps: nat, ghost start: Course) returns (k: nat)
      requires me < |stages| && stages[me] == Draining && from <= steps && me < |start.state.workers|
      requires SoFar() == Live(start, me, script, from)
      modifies this
      ensures from <= k <= steps && me < |stages| && SoFar() == Live(start, me, script, k)
      ensures stages[me] == Waiting || stages[me] == Exited || k == steps
    {
      hide Live, OthersAct;
      k := from;
      while k < steps
        invariant from <= k <= steps && me < |stages| && SoFar() == Live(start, me, script, k)
        invariant k < steps ==> stages[me] == Draining
      {
        var claimed;
        claimed, k := ClaimNextPending(me, script, k, steps, start);
        match claimed {
          case Error =>
            if stages[me] == Exited {
              return;
            }
          case Empty => return;
          case Cut => return;
          case Claimed =>
            if k == steps {
              return;
            }
            OthersKeepMe(SoFar(), me, script(k).others);
            LiveGoesOn(start, me, script, k);
            Others(Some(me), script(k).others);
            k := k + 1;
            stages := stages[me := if shutdown then Exited else Draining];
            trace := trace + [Finish(me)];
            if shutdown {
              return;
            }
        }
      }
    }

    /** Locks the oldest pending row that nobody else has locked, if there is one. */
    method LockNextPending(me: nat, script: Script, from: nat, ghost start: Course)
      returns (claimed: ClaimResult)
      requires me < |stages| && stages[me] == Draining && me < |start.state.workers|
      requires SoFar() == Live(start, me, script, from)
      modifies this
      ensures me < |stages| && SoFar() == Live(start, me, script, from + 1)
      ensures match claimed
              case Error => stages[me] == if shutdown then Exited else Draining
              case Empty => stages[me] == Waiting
              case Claimed => stages[me].Claiming?
              case Cut => false
    {
      hide Live, OthersAct, Oldest, IsOldest;
      OthersKeepMe(SoFar(), me, script(from).others);
      LiveGoesOn(start, me, script, from);
      Others(Some(me), script(from).others);
      if script(from).fails {
        stages := stages[me := if shutdown then Exited else Draining];
        trace := trace + [ClaimFails(me)];
        return Error;
      }
      var free := pending - Locked(stages);
      if free == {} {
        assert pending == free + pending * Locked(stages);
        stages := stages[me := Waiting];
        trace := trace + [FindNothing(me)];
        return Empty;
      }
      var job := OldestOf(free);
      OldestIsThere(free);
      stages := stages[me := Claiming(job)];
      trace := trace + [Lock(me, job)];
      claimed := Claimed;
    }

    /** Updates the locked row. */
    method UpdateLocked(me: nat, script: Script, from: nat, ghost start: Course) returns (claimed: ClaimResult)
      requires me < |stages| && stages[me].Claiming? && me < |start.state.workers|
      requires SoFar() == Live(start, me, script, from)
      modifies this
      ensures me < |stages| && SoFar() == Live(start, me, script, from + 1)
      ensures match claimed
              case Error => stages[me] == if shutdown then Exited else Draining
              case Claimed => stages[me].Processing?
              case _ => false
    {
      hide Live, OthersAct;
      var job := stages[me].job;
      OthersKeepMe(SoFar(), me, script(from).others);
      LiveGoesOn(start, me, script, from);
      Others(Some(me), script(from).others);
      if script(from).fails {
        stages := stages[me := if shutdown then Exited else Draining];
        trace := trace + [ClaimFails(me)];
        return Error;
      }
      pending, signalled := pending - {job}, signalled - {job};
      stages := stages[me := Processing(job)];
      trace := trace + [Claim(me)];
      claimed := Claimed;
    }

    /** The claim: the row lock and the update. */
    method ClaimNextPending(me: nat, script: Script, from: nat, steps: nat, ghost start: Course)
      returns (claimed: ClaimResult, k: nat)
      requires me < |stages| && stages[me] == Draining && from < steps && me < |start.state.workers|
      requires SoFar() == Live(start, me, script, from)
      modifies this
      ensures from < k <= steps && me < |stages| && SoFar() == Live(start, me, script, k)
      ensures match claimed
              case Error => stages[me] == if shutdown then Exited else Draining
              case Empty => stages[me] == Waiting
              case Claimed => stages[me].Processing?
              case Cut => stages[me].Claiming? && k == steps
    {
      hide Live;
      claimed := LockNextPending(me, script, from, start);
      k := from + 1;
      if claimed == Claimed {
        if k == steps {
          return Cut, k;
        }
        claimed := UpdateLocked(me, script, k, start);
        k := k + 1;
      }
    }
  }

  lemma OldestIsThere(free: set<Id>)
    requires free != {}
    ensures Oldest(free) in free
  {
    OldestExists(free);
  }

  method OldestOf(free: set<Id>) returns (oldest: Id)
    requires free != {}
    ensures oldest == Oldest(free)
  {
    oldest :| oldest in free;
    var seen := {oldest};
    while free - seen != {}
      invariant seen <= free && IsOldest(seen, oldest)
      decreases free - seen
    {
      var j :| j in free - seen;
      seen := seen + {j};
      if j < oldest {
        oldest := j;
      }
    }
    assert free == seen + (free - seen);
    OldestExists(free);
  }

  // ---- what the loops need to know of the courses

  lemma LiveStarts(c: Course, me: nat, script: Script)
    requires me < |c.state.workers|
    ensures Live(c, me, script, 0) == c
  {
  }

  lemma LiveGoesOn(c: Course, me: nat, script: Script, k: nat)
    requires me < |c.state.workers| && Live(c, me, script, k).state.workers[me] != Exited
    ensures var d := OthersAct(Live(c, me, script, k), Some(me), script(k).others);
            me < |d.state.workers| && Live(c, me, script, k + 1) ==
            match MyAction(d.state, me, script(k))
            case Some(a) => Act(d, a)
            case None => d
  {
    OthersKeepMe(Live(c, me, script, k), me, script(k).others);
    hide MyAction, OthersAct;
  }

  lemma {:induction false} OverStays(b: Beat, ticks: seq<Tick>, n: nat)
    requires n <= |ticks| && Ticked(b, ticks[..n]).over
    ensures Ticked(b, ticks) == Ticked(b, ticks[..n])
    decreases |ticks|
  {
    if n < |ticks| {
      assert ticks[..|ticks| - 1][..n] == ticks[..n];
      OverStays(b, ticks[..|ticks| - 1], n);
    } else {
      assert ticks[..n] == ticks;
    }
  }

  lemma {:induction false} HeardStays(b: Beat, sessions: seq<Session>, n: nat)
    requires n <= |sessions| && Heard(b, sessions[..n]).0.over
    ensures Heard(b, sessions) == Heard(b, sessions[..n])
    decreases |sessions|
  {
    if n < |sessions| {
      assert sessions[..|sessions| - 1][..n] == sessions[..n];
      HeardStays(b, sessions[..|sessions| - 1], n);
    } else {
      assert sessions[..n] == sessions;
    }
  }

  lemma WaitsDouble(first: int, last: int, k: nat)
    requires k >= 1
    ensures Wait(first, last, 1) == first && Wait(first, last, k + 1) == NextWait(Wait(first, last, k), last)
  {
  }
}
