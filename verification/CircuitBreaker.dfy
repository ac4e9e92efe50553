/** The circuit breaker in front of the providers: an object whose methods run one at a
    time, and the runs of any number of concurrent calls against it. */
module CircuitBreaker {
  import opened Wrappers
  import opened Arithmetic

  type Time = int

  datatype Mode = Closed | Open | HalfOpen

  datatype Config = Config(maxFailures: int, timeout: int, halfOpenMaxCalls: int)

  /** The fields of a breaker. */
  datatype Core = Core(mode: Mode, failures: nat, openedAt: Time, halfOpenCalls: nat)

  const NEW := Core(Closed, 0, 0, 0)

  // ---- what the methods do to the fields

  function Evaluate(cfg: Config, c: Core, now: Time): Core {
    if c.mode == Open && cfg.timeout > 0 && now - c.openedAt >= cfg.timeout
    then c.(mode := HalfOpen, halfOpenCalls := 0) else c
  }

  function Acquire(cfg: Config, c: Core, now: Time): (Core, bool) {
    var e := Evaluate(cfg, c, now);
    match e.mode
    case Open => (e, false)
    case Closed => (e, true)
    case HalfOpen =>
      if cfg.halfOpenMaxCalls > 0 && e.halfOpenCalls >= cfg.halfOpenMaxCalls then (e, false)
      else (e.(halfOpenCalls := e.halfOpenCalls + 1), true)
  }

  function Opened(c: Core, now: Time): Core {
    c.(mode := Open, openedAt := now, halfOpenCalls := 0)
  }

  function Record(cfg: Config, c: Core, ok: bool, now: Time): Core {
    if ok then c.(failures := 0, halfOpenCalls := 0, mode := if c.mode == HalfOpen then Closed else c.mode)
    else
      match c.mode
      case Open => c
      case HalfOpen => Opened(c, now)
      case Closed =>
        var d := c.(failures := c.failures + 1);
        if cfg.maxFailures > 0 && d.failures >= cfg.maxFailures then Opened(d, now) else d
  }

  // ---- runs of concurrent calls

  datatype Phase = InFlight | Recorded | Cancelled

  /** A call that was let in, as a probe of a half-open period or while closed. */
  datatype Call = Call(probe: Option<nat>, phase: Phase)

  datatype Event =
    | Try(now: Time)
    | Finish(call: nat, ok: bool, now: Time)
    | Cancel(call: nat)
    | Look(now: Time)

  /** The breaker with the history of its calls: how many half-open periods there were,
      every call let in, when it opened, and the results that were recorded. */
  datatype World = World(core: Core, periods: nat, calls: seq<Call>, openings: seq<Time>, results: seq<bool>)

  const START := World(NEW, 0, [], [], [])

  function Looked(cfg: Config, w: World, now: Time): World {
    var c := Evaluate(cfg, w.core, now);
    w.(core := c, periods := w.periods + if c.mode == w.core.mode then 0 else 1)
  }

  function Tried(cfg: Config, w: World, now: Time): World {
    var (c, admitted) := Acquire(cfg, w.core, now);
    var v := Looked(cfg, w, now).(core := c);
    var call := Call(if c.mode == HalfOpen then Some(v.periods) else None, InFlight);
    if admitted then v.(calls := v.calls + [call]) else v
  }

  function Finished(cfg: Config, w: World, k: nat, ok: bool, now: Time): World {
    if k >= |w.calls| || w.calls[k].phase != InFlight then w else
    var c := Record(cfg, w.core, ok, now);
    w.(core := c, calls := w.calls[k := w.calls[k].(phase := Recorded)], results := w.results + [ok],
       openings := if c.mode == Open && w.core.mode != Open then w.openings + [now] else w.openings)
  }

  function Next(cfg: Config, w: World, e: Event): World {
    match e
    case Try(now) => Tried(cfg, w, now)
    case Finish(k, ok, now) => Finished(cfg, w, k, ok, now)
    case Cancel(k) =>
      if k >= |w.calls| || w.calls[k].phase != InFlight then w
      else w.(calls := w.calls[k := w.calls[k].(phase := Cancelled)])
    case Look(now) => Looked(cfg, w, now)
  }

  function Run(cfg: Config, w: World, events: seq<Event>): World {
    if events == [] then w
    else Next(cfg, Run(cfg, w, events[..|events| - 1]), events[|events| - 1])
  }

  // ---- accounting, for any clock

  /** The probes of the current half-open period. */
  function Probes(w: World): set<nat> {
    set k | 0 <= k < |w.calls| && w.calls[k].probe == Some(w.periods)
  }

  predicate Active(w: World, k: nat) {
    k < |w.calls| && w.calls[k].phase == InFlight
  }

  /** How many results at the end are failures. */
  function Streak(results: seq<bool>): nat {
    if results == [] || results[|results| - 1] then 0 else 1 + Streak(results[..|results| - 1])
  }

  ghost predicate Accounted(cfg: Config, w: World) {
    && (w.core.mode == HalfOpen ==>
          && |Probes(w)| == w.core.halfOpenCalls
          && (forall k | k in Probes(w) :: w.calls[k].phase != Recorded)
          && (cfg.halfOpenMaxCalls > 0 ==> w.core.halfOpenCalls <= cfg.halfOpenMaxCalls))
    && (w.core.mode != HalfOpen ==> w.core.halfOpenCalls == 0)
    && (w.core.mode == Closed ==>
          w.core.failures == Streak(w.results) && (cfg.maxFailures > 0 ==> w.core.failures < cfg.maxFailures))
    && (forall k | 0 <= k < |w.calls| && w.calls[k].probe.Some? :: w.calls[k].probe.value <= w.periods)
  }

  lemma LookedKeeps(cfg: Config, w: World, now: Time)
    requires Accounted(cfg, w)
    ensures Accounted(cfg, Looked(cfg, w, now))
  {
    var v := Looked(cfg, w, now);
    if v.core.mode != w.core.mode {
      assert Probes(v) == {};
    } else {
      assert Probes(v) == Probes(w);
    }
  }

  lemma LetInKeeps(cfg: Config, w: World, c: Call)
    requires Accounted(cfg, w) && w.core.mode != Open
    requires c == Call(if w.core.mode == HalfOpen then Some(w.periods) else None, InFlight)
    requires cfg.halfOpenMaxCalls > 0 && w.core.mode == HalfOpen ==> w.core.halfOpenCalls < cfg.halfOpenMaxCalls
    ensures var core := if w.core.mode == HalfOpen then w.core.(halfOpenCalls := w.core.halfOpenCalls + 1) else w.core;
            Accounted(cfg, w.(core := core, calls := w.calls + [c]))
  {
    var core := if w.core.mode == HalfOpen then w.core.(halfOpenCalls := w.core.halfOpenCalls + 1) else w.core;
    var v := w.(core := core, calls := w.calls + [c]);
    if w.core.mode == HalfOpen {
      assert Probes(v) == Probes(w) + {|w.calls|};
      assert |w.calls| !in Probes(w);
    }
  }

  lemma TriedKeeps(cfg: Config, w: World, now: Time)
    requires Accounted(cfg, w)
    ensures Accounted(cfg, Tried(cfg, w, now))
  {
    LookedKeeps(cfg, w, now);
    var u := Looked(cfg, w, now);
    var (c, admitted) := Acquire(cfg, w.core, now);
    if admitted {
      LetInKeeps(cfg, u, Call(if c.mode == HalfOpen then Some(u.periods) else None, InFlight));
    }
    hide Accounted;
  }

  lemma FinishedKeeps(cfg: Config, w: World, k: nat, ok: bool, now: Time)
    requires Accounted(cfg, w)
    ensures Accounted(cfg, Finished(cfg, w, k, ok, now))
  {
    if k < |w.calls| && w.calls[k].phase == InFlight {
      assert (w.results + [ok])[..|w.results|] == w.results;
    }
  }

  lemma CancelledKeeps(cfg: Config, w: World, k: nat)
    requires Accounted(cfg, w)
    ensures Accounted(cfg, Next(cfg, w, Cancel(k)))
  {
    assert Probes(Next(cfg, w, Cancel(k))) == Probes(w);
  }

  /** In every run of any number of calls, with any clock: while half-open, the counter is
      the number of probes let in this period, all of them still in flight or cancelled,
      and never above the limit; it is zero otherwise. While closed, `failures` is the
      number of failures since the last success and below the limit. */
  lemma {:induction false} RunIsAccounted(cfg: Config, events: seq<Event>)
    ensures Accounted(cfg, Run(cfg, START, events))
    decreases |events|
  {
    if events == [] {
      assert Probes(START) == {};
    } else {
      RunIsAccounted(cfg, events[..|events| - 1]);
      var w := Run(cfg, START, events[..|events| - 1]);
      match events[|events| - 1]
      case Try(now) => TriedKeeps(cfg, w, now);
      case Finish(k, ok, now) => FinishedKeeps(cfg, w, k, ok, now);
      case Cancel(k) => CancelledKeeps(cfg, w, k);
      case Look(now) => LookedKeeps(cfg, w, now);
    }
  }

  /** The breaker is not closed, and a success has been recorded since it was. */
  predicate LateSuccess(cfg: Config, events: seq<Event>) {
    events != [] &&
    var init, e := events[..|events| - 1], events[|events| - 1];
    var before := Run(cfg, START, init);
    Run(cfg, START, events).core.mode != Closed && (LateSuccess(cfg, init) || Succeeds(before, e))
  }

  predicate Succeeds(w: World, e: Event) {
    e.Finish? && e.ok && Active(w, e.call)
  }

  /** While it is not closed the count of failures is that with which it opened, or zero
      after a late success: failures are counted while closed only. */
  lemma {:induction false} CountStandsStill(cfg: Config, events: seq<Event>)
    ensures var c := Run(cfg, START, events).core;
            c.mode != Closed ==>
              cfg.maxFailures > 0 && c.failures == if LateSuccess(cfg, events) then 0 else cfg.maxFailures
    decreases |events|
  {
    if events != [] {
      var init, e := events[..|events| - 1], events[|events| - 1];
      CountStandsStill(cfg, init);
      RunIsAccounted(cfg, init);
      CountAfter(cfg, Run(cfg, START, init), e, LateSuccess(cfg, init));
    }
  }

  lemma CountAfter(cfg: Config, w: World, e: Event, late: bool)
    requires w.core.mode == Closed && cfg.maxFailures > 0 ==> w.core.failures < cfg.maxFailures
    requires w.core.mode == Closed ==> !late
    requires w.core.mode != Closed ==>
               cfg.maxFailures > 0 && w.core.failures == if late then 0 else cfg.maxFailures
    ensures var c := Next(cfg, w, e).core;
            c.mode != Closed ==>
              cfg.maxFailures > 0 && c.failures == if late || Succeeds(w, e) then 0 else cfg.maxFailures
  {
  }

  /** Exactly when a call is let in: closed, or past the timeout, or half-open with fewer
      probes in flight or cancelled than the limit. */
  lemma LetInExactlyWhen(cfg: Config, events: seq<Event>, now: Time)
    ensures var w := Run(cfg, START, events);
            Acquire(cfg, w.core, now).1 <==>
              match w.core.mode
              case Closed => true
              case Open => cfg.timeout > 0 && now >= w.core.openedAt + cfg.timeout
              case HalfOpen => cfg.halfOpenMaxCalls <= 0 || |Probes(w)| < cfg.halfOpenMaxCalls
  {
    RunIsAccounted(cfg, events);
  }

  /** With nothing in flight and no probe cancelled, the first call after the timeout gets
      in. */
  lemma RecoversAfterTimeout(cfg: Config, events: seq<Event>, now: Time)
    requires cfg.timeout > 0 && cfg.halfOpenMaxCalls > 0
    requires var w := Run(cfg, START, events);
             && now >= w.core.openedAt + cfg.timeout && (forall k: nat :: !Active(w, k))
             && (w.core.mode == HalfOpen ==> forall k | k in Probes(w) :: w.calls[k].phase != Cancelled)
    ensures Acquire(cfg, Run(cfg, START, events).core, now).1
  {
    RunIsAccounted(cfg, events);
    var w := Run(cfg, START, events);
    if w.core.mode == HalfOpen {
      assert forall k | k in Probes(w) :: Active(w, k);
      if k :| k in Probes(w) {
        assert false;
      }
    }
  }

  /** A cancelled probe never gives its slot back: once cancelled probes fill the limit and
      nothing is in flight, no call is let in ever again. */
  lemma {:induction false} WedgedForever(cfg: Config, w: World, more: seq<Event>, now: Time)
    requires Accounted(cfg, w) && w.core.mode == HalfOpen && 0 < cfg.halfOpenMaxCalls <= |Probes(w)|
    requires forall k: nat :: !Active(w, k)
    ensures Run(cfg, w, more) == w && !Acquire(cfg, Run(cfg, w, more).core, now).1
    decreases |more|
  {
    if more != [] {
      WedgedForever(cfg, w, more[..|more| - 1], now);
      match more[|more| - 1]
      case Finish(k, ok, t) => assert !Active(w, k);
      case Cancel(k) => assert !Active(w, k);
      case Try(t) =>
      case Look(t) =>
    }
  }

  /** Open without a timeout is for ever too. */
  lemma {:induction false} OpenForever(cfg: Config, w: World, more: seq<Event>, now: Time)
    requires w.core.mode == Open && cfg.timeout <= 0
    ensures Run(cfg, w, more).core.mode == Open && !Acquire(cfg, Run(cfg, w, more).core, now).1
    decreases |more|
  {
    if more != [] {
      OpenForever(cfg, w, more[..|more| - 1], now);
    }
  }

  predicate LetsIn(cfg: Config, w: World, more: seq<Event>, now: Time) {
    Acquire(cfg, Run(cfg, w, more).core, now).1
  }

  /** Open without a timeout, or half-open with nothing in flight and cancelled probes up to
      the limit. */
  ghost predicate Wedged(cfg: Config, w: World) {
    match w.core.mode
    case Closed => false
    case Open => cfg.timeout <= 0
    case HalfOpen => 0 < cfg.halfOpenMaxCalls <= |Probes(w)| && forall k: nat :: !Active(w, k)
  }

  /** Some way of going on lets a call in exactly when the breaker is not wedged. */
  lemma CanRecoverExactlyWhen(cfg: Config, w: World)
    requires Accounted(cfg, w)
    ensures (exists more, now :: LetsIn(cfg, w, more, now)) <==> !Wedged(cfg, w)
  {
    if Wedged(cfg, w) {
      forall more, now ensures !LetsIn(cfg, w, more, now) {
        if w.core.mode == Open {
          OpenForever(cfg, w, more, now);
        } else {
          WedgedForever(cfg, w, more, now);
        }
      }
    } else {
      var more, now := WayIn(cfg, w);
    }
  }

  /** At once, after the timeout, or when a call in flight succeeds. */
  lemma WayIn(cfg: Config, w: World) returns (more: seq<Event>, now: Time)
    requires Accounted(cfg, w) && !Wedged(cfg, w)
    ensures LetsIn(cfg, w, more, now)
  {
    more, now := [], w.core.openedAt + cfg.timeout;
    if w.core.mode == HalfOpen && 0 < cfg.halfOpenMaxCalls <= |Probes(w)| {
      var k: nat :| Active(w, k);
      more := [Finish(k, true, now)];
      assert more[..0] == [];
      assert Run(cfg, w, more) == Next(cfg, w, more[0]);
    }
  }

  /** That state is reached: one failure, the timeout, and a probe that is cancelled. */
  lemma WedgedExample()
    ensures var cfg := Config(1, 10, 1);
            var w := Run(cfg, START, [Try(0), Finish(0, false, 0), Try(10), Cancel(1)]);
            w.core.mode == HalfOpen && |Probes(w)| == 1 && forall k: nat :: !Active(w, k)
  {
    var cfg := Config(1, 10, 1);
    var events := [Try(0), Finish(0, false, 0), Try(10), Cancel(1)];
    var w1 := Next(cfg, START, events[0]);
    var w2 := Next(cfg, w1, events[1]);
    var w3 := Next(cfg, w2, events[2]);
    var w4 := Next(cfg, w3, events[3]);
    assert events[..3] == [Try(0), Finish(0, false, 0), Try(10)];
    assert events[..3][..2] == [Try(0), Finish(0, false, 0)];
    assert events[..3][..2][..1] == [Try(0)];
    assert events[..3][..2][..1][..0] == [];
    assert Run(cfg, START, events[..3][..2][..1]) == w1;
    assert Run(cfg, START, events[..3][..2]) == w2;
    assert Run(cfg, START, events[..3]) == w3;
    assert Probes(w4) == {1};
  }

  /** It opens exactly when a half-open probe fails or the streak of failures reaches the
      limit, and never leaves open but through the timeout. */
  lemma OpensExactlyWhen(cfg: Config, events: seq<Event>, k: nat, ok: bool, now: Time)
    requires Active(Run(cfg, START, events), k)
    ensures var w := Run(cfg, START, events);
            var v := Finished(cfg, w, k, ok, now);
            v.core.mode == Open <==>
              match w.core.mode
              case Open => true
              case HalfOpen => !ok
              case Closed => !ok && cfg.maxFailures > 0 && Streak(v.results) == cfg.maxFailures
  {
    RunIsAccounted(cfg, events);
    var w := Run(cfg, START, events);
    assert (w.results + [ok])[..|w.results|] == w.results;
  }

  // ---- with a clock that never steps back

  function At(e: Event): Option<Time> {
    match e
    case Try(now) => Some(now)
    case Finish(_, _, now) => Some(now)
    case Look(now) => Some(now)
    case Cancel(_) => None
  }

  /** The events happen in the order of their times, none after `until`. */
  predicate Monotone(events: seq<Event>, until: Time) {
    events == [] ||
    var t := At(events[|events| - 1]).UnwrapOr(until);
    t <= until && Monotone(events[..|events| - 1], t)
  }

  predicate Spaced(times: seq<Time>, gap: int) {
    |times| < 2 || (times[|times| - 2] + gap <= times[|times| - 1] && Spaced(times[..|times| - 1], gap))
  }

  function Last(times: seq<Time>): Option<Time> {
    if times == [] then None else Some(times[|times| - 1])
  }

  /** Since the last opening the breaker is open, or a timeout has passed. */
  predicate OpenOrPast(cfg: Config, c: Core, last: Option<Time>, now: Time) {
    match last
    case None => c.mode == Closed
    case Some(t) => if c.mode == Open then c.openedAt == t <= now else cfg.timeout > 0 && t + cfg.timeout <= now
  }

  /** Openings are a timeout apart, and unless open the last one is a timeout ago. */
  predicate Timed(cfg: Config, w: World, now: Time) {
    Spaced(w.openings, cfg.timeout) && OpenOrPast(cfg, w.core, Last(w.openings), now)
  }

  lemma SpacedOn(times: seq<Time>, gap: int, t: Time)
    requires Spaced(times, gap) && (times == [] || times[|times| - 1] + gap <= t)
    ensures Spaced(times + [t], gap) && Last(times + [t]) == Some(t)
  {
    assert (times + [t])[..|times|] == times;
  }

  lemma LookingIsTimed(cfg: Config, c: Core, last: Option<Time>, now: Time)
    requires OpenOrPast(cfg, c, last, now)
    ensures OpenOrPast(cfg, Evaluate(cfg, c, now), last, now)
    ensures OpenOrPast(cfg, Acquire(cfg, c, now).0, last, now)
  {
  }

  lemma RecordingIsTimed(cfg: Config, c: Core, last: Option<Time>, ok: bool, now: Time)
    requires OpenOrPast(cfg, c, last, now)
    ensures var d := Record(cfg, c, ok, now);
            if d.mode == Open && c.mode != Open
            then (last.Some? ==> last.value + cfg.timeout <= now) && OpenOrPast(cfg, d, Some(now), now)
            else OpenOrPast(cfg, d, last, now)
  {
  }

  lemma FinishIsTimed(cfg: Config, w: World, k: nat, ok: bool, now: Time)
    requires Timed(cfg, w, now)
    ensures Timed(cfg, Finished(cfg, w, k, ok, now), now)
  {
    RecordingIsTimed(cfg, w.core, Last(w.openings), ok, now);
    hide Spaced, OpenOrPast, Record;
    if Record(cfg, w.core, ok, now).mode == Open && w.core.mode != Open {
      SpacedOn(w.openings, cfg.timeout, now);
    }
  }

  lemma LaterIsTimed(cfg: Config, w: World, now: Time, until: Time)
    requires Timed(cfg, w, now) && now <= until
    ensures Timed(cfg, w, until)
  {
    hide Spaced;
  }

  lemma NextIsTimed(cfg: Config, w: World, e: Event, now: Time, until: Time)
    requires Timed(cfg, w, now) && now == At(e).UnwrapOr(until) && now <= until
    ensures Timed(cfg, Next(cfg, w, e), until)
  {
    hide Spaced, OpenOrPast, Evaluate, Acquire, Finished;
    LookingIsTimed(cfg, w.core, Last(w.openings), now);
    if e.Finish? {
      FinishIsTimed(cfg, w, e.call, e.ok, now);
    }
    LaterIsTimed(cfg, Next(cfg, w, e), now, until);
  }

  lemma {:induction false} RunIsTimed(cfg: Config, events: seq<Event>, until: Time)
    requires Monotone(events, until)
    ensures Timed(cfg, Run(cfg, START, events), until)
    decreases |events|
  {
    if events != [] {
      var init, e := events[..|events| - 1], events[|events| - 1];
      var now := At(e).UnwrapOr(until);
      RunIsTimed(cfg, init, now);
      hide Timed;
      NextIsTimed(cfg, Run(cfg, START, init), e, now, until);
    }
  }

  lemma {:induction false} SpacedFar(times: seq<Time>, gap: int, i: nat, j: nat)
    requires Spaced(times, gap) && i <= j < |times|
    ensures times[i] + (j - i) * gap <= times[j]
    decreases |times|
  {
    var n := |times| - 1;
    if i < j {
      if j < n {
        SpacedFar(times[..n], gap, i, j);
      } else {
        SpacedFar(times[..n], gap, i, j - 1);
        assert (j - i) * gap == (j - 1 - i) * gap + gap;
      }
    }
  }

  /** No call is let in from an opening until a timeout later, whatever late results
      arrive; with no timeout, never again. */
  lemma NoStartWhileOpen(cfg: Config, events: seq<Event>, now: Time, i: nat)
    requires Monotone(events, now) && i < |Run(cfg, START, events).openings|
    requires Acquire(cfg, Run(cfg, START, events).core, now).1
    ensures cfg.timeout > 0 && now >= Run(cfg, START, events).openings[i] + cfg.timeout
  {
    RunIsTimed(cfg, events, now);
    var openings := Run(cfg, START, events).openings;
    hide Run, Spaced;
    SpacedFar(openings, cfg.timeout, i, |openings| - 1);
    Multiply(0, |openings| - 1 - i, if cfg.timeout > 0 then cfg.timeout else 0);
  }

  function Interval(lo: int, hi: int): (r: set<int>)
    requires lo <= hi
    ensures |r| == hi - lo && forall k :: k in r <==> lo <= k < hi
    decreases hi - lo
  {
    if lo == hi then {} else Interval(lo, hi - 1) + {hi - 1}
  }

  lemma SubsetSize<T>(a: set<T>, b: set<T>)
    requires a <= b
    ensures |a| <= |b|
  {
    assert b == a + (b - a);
  }

  /** The openings in the window of the given length. */
  function Within(openings: seq<Time>, from: Time, length: nat): set<int> {
    set k | 0 <= k < |openings| && from <= openings[k] <= from + length
  }

  lemma {:induction false} SpacedCount(times: seq<Time>, gap: int, from: Time, length: nat)
    requires gap > 0 && Spaced(times, gap)
    ensures |Within(times, from, length)| <= 1 + length / gap
    decreases |times|
  {
    var n := |times| - 1;
    if times == [] {
      assert Within(times, from, length) == {};
    } else if from <= times[n] <= from + length {
      forall k | k in Within(times, from, length) ensures n - length / gap <= k {
        SpacedFar(times, gap, k, n);
        FitsIn(n - k, gap, length);
      }
      SubsetSize(Within(times, from, length), Interval(n - length / gap, n + 1));
    } else {
      SpacedCount(times[..n], gap, from, length);
      assert Within(times, from, length) == Within(times[..n], from, length);
    }
  }

  /** Any window of time holds at most one opening more than timeouts fit into it. */
  lemma FewOpenings(cfg: Config, events: seq<Event>, until: Time, from: Time, length: nat)
    requires Monotone(events, until) && cfg.timeout > 0
    ensures |Within(Run(cfg, START, events).openings, from, length)| <= 1 + length / cfg.timeout
  {
    RunIsTimed(cfg, events, until);
    SpacedCount(Run(cfg, START, events).openings, cfg.timeout, from, length);
  }

  /** Without a timeout it opens at most once, and stays open. */
  lemma {:induction false} WithoutTimeout(cfg: Config, events: seq<Event>, until: Time)
    requires Monotone(events, until) && cfg.timeout <= 0
    ensures var w := Run(cfg, START, events);
            |w.openings| <= 1 && (w.core.mode == Open <==> |w.openings| == 1) && w.core.mode != HalfOpen
    decreases |events|
  {
    if events != [] {
      WithoutTimeout(cfg, events[..|events| - 1], At(events[|events| - 1]).UnwrapOr(until));
    }
  }

  // ---- the object

  datatype Outcome<+T> = Refused | Done(value: T) | Failed(value: T) | Abandoned

  class Breaker {
    const config: Config
    var mode: Mode
    var failures: nat
    var openedAt: Time
    var halfOpenCalls: nat

    function Fields(): Core
      reads this
    {
      Core(mode, failures, openedAt, halfOpenCalls)
    }

    constructor (config: Config)
      ensures this.config == config && Fields() == NEW
    {
      this.config := config;
      mode, failures, openedAt, halfOpenCalls := Closed, 0, 0, 0;
    }

    method EvaluateTimeout(now: Time)
      modifies this
      ensures Fields() == Evaluate(config, old(Fields()), now)
    {
      if mode != Open {
        return;
      }
      if config.timeout <= 0 {
        return;
      }
      if now - openedAt >= config.timeout {
        mode := HalfOpen;
        halfOpenCalls := 0;
      }
    }

    method State(now: Time) returns (m: Mode)
      modifies this
      ensures Fields() == Evaluate(config, old(Fields()), now) && m == Fields().mode
    {
      EvaluateTimeout(now);
      m := mode;
    }

    method AllowAcquire(now: Time) returns (ok: bool)
      modifies this
      ensures (Fields(), ok) == Acquire(config, old(Fields()), now)
    {
      EvaluateTimeout(now);
      match mode {
        case Open => ok := false;
        case HalfOpen =>
          if config.halfOpenMaxCalls > 0 && halfOpenCalls >= config.halfOpenMaxCalls {
            return false;
          }
          halfOpenCalls := halfOpenCalls + 1;
          ok := true;
        case Closed => ok := true;
      }
    }

    method MoveToOpen(now: Time)
      modifies this
      ensures Fields() == Opened(old(Fields()), now)
    {
      mode := Open;
      openedAt := now;
      halfOpenCalls := 0;
    }

    method RecordResult(ok: bool, now: Time)
      modifies this
      ensures Fields() == Record(config, old(Fields()), ok, now)
    {
      if ok {
        failures := 0;
        halfOpenCalls := 0;
        if mode == HalfOpen {
          mode := Closed;
        }
        return;
      }
      if mode == HalfOpen {
        MoveToOpen(now);
      } else if mode == Closed {
        failures := failures + 1;
        if config.maxFailures > 0 && failures >= config.maxFailures {
          MoveToOpen(now);
        }
      }
    }

    /** Other calls use the breaker. */
    method OtherCalls(others: seq<Use>)
      modifies this
      ensures Fields() == Used(config, old(Fields()), others)
    {
      for k := 0 to |others|
        invariant Fields() == Used(config, old(Fields()), others[..k])
      {
        assert others[..k + 1][..k] == others[..k];
        match others[k] {
          case UseAcquire(now) =>
            var admitted := AllowAcquire(now);
          case UseState(now) =>
            var m := State(now);
          case UseRecord(ok, now) =>
            RecordResult(ok, now);
        }
      }
      assert others[..|others|] == others;
    }

    /** Runs the function if the breaker lets it. The function takes its time, during which
        others use the breaker; a call whose context is done first returns without a
        record. */
    method Execute<T>(fn: () -> (T, bool), started: Time, finished: Time, others: seq<Use>, cancellable: bool,
                      doneFirst: bool)
      returns (r: Outcome<T>)
      modifies this
      ensures var (c, admitted) := Acquire(config, old(Fields()), started);
              var d := Used(config, c, others);
              if !admitted then r == Refused && Fields() == c
              else if cancellable && doneFirst then r == Abandoned && Fields() == d
              else
                var (value, ok) := fn();
                r == (if ok then Done(value) else Outcome.Failed(value)) && Fields() == Record(config, d, ok, finished)
    {
      hide Acquire, Record, Used, UseOnce;
      var admitted := AllowAcquire(started);
      if !admitted {
        return Refused;
      }
      OtherCalls(others);
      if cancellable && doneFirst {
        return Abandoned;
      }
      var (value, ok) := fn();
      RecordResult(ok, finished);
      r := if ok then Done(value) else Outcome.Failed(value);
    }
  }

  datatype Use = UseAcquire(now: Time) | UseState(now: Time) | UseRecord(ok: bool, now: Time)

  function UseOnce(cfg: Config, c: Core, use: Use): Core {
    match use
    case UseAcquire(now) => Acquire(cfg, c, now).0
    case UseState(now) => Evaluate(cfg, c, now)
    case UseRecord(ok, now) => Record(cfg, c, ok, now)
  }

  /** The fields after other calls used the breaker. */
  ghost function Used(cfg: Config, c: Core, uses: seq<Use>): Core {
    if uses == [] then c else UseOnce(cfg, Used(cfg, c, uses[..|uses| - 1]), uses[|uses| - 1])
  }

  /** What opening means to callers: whatever is asked and recorded before the timeout is
      up, the breaker stays open since the same time, with its count of failures until a
      success is recorded; a call then gets in exactly when the timeout has passed. */
  lemma {:induction false} OpenForATimeout(cfg: Config, c: Core, since: Time, uses: seq<Use>, now: Time)
    requires forall u | u in uses :: cfg.timeout <= 0 || u.now < since + cfg.timeout
    ensures var d := Used(cfg, Opened(c, since), uses);
            && d.mode == Open && d.openedAt == since && d.halfOpenCalls == 0
            && ((forall u | u in uses :: !(u.UseRecord? && u.ok)) ==> d.failures == c.failures)
            && (Acquire(cfg, d, now).1 <==> cfg.timeout > 0 && now >= since + cfg.timeout)
    decreases |uses|
  {
    if uses != [] {
      OpenForATimeout(cfg, c, since, uses[..|uses| - 1], now);
      assert uses[|uses| - 1] in uses;
    }
  }

  /** The method a call uses at an event; a cancelled call uses none. */
  function UseAt(w: World, e: Event): seq<Use> {
    match e
    case Try(now) => [UseAcquire(now)]
    case Look(now) => [UseState(now)]
    case Finish(k, ok, now) => if k < |w.calls| && w.calls[k].phase == InFlight then [UseRecord(ok, now)] else []
    case Cancel(_) => []
  }

  function Uses(cfg: Config, events: seq<Event>): seq<Use> {
    if events == [] then []
    else
      var init := events[..|events| - 1];
      Uses(cfg, init) + UseAt(Run(cfg, START, init), events[|events| - 1])
  }

  lemma NextUses(cfg: Config, w: World, e: Event)
    ensures var uses := UseAt(w, e);
            && |uses| <= 1
            && Next(cfg, w, e).core == if uses == [] then w.core else UseOnce(cfg, w.core, uses[0])
  {
  }

  /** The runs are those of the object's methods: the history beside the fields never
      decides anything but which calls may still record. */
  lemma {:induction false} RunsUseTheMethods(cfg: Config, events: seq<Event>)
    ensures Run(cfg, START, events).core == Used(cfg, NEW, Uses(cfg, events))
    decreases |events|
  {
    if events != [] {
      var init, e := events[..|events| - 1], events[|events| - 1];
      RunsUseTheMethods(cfg, init);
      NextUses(cfg, Run(cfg, START, init), e);
      hide Next, UseAt, UseOnce;
      var uses, more := Uses(cfg, init), UseAt(Run(cfg, START, init), e);
      if more == [] {
        assert uses + more == uses;
      } else {
        assert (uses + more)[..|uses + more| - 1] == uses;
      }
    }
  }
}
