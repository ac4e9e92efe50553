/** Delays that double up to a cap: between HTTP attempts and between LISTEN sessions. */
module Backoff {
  function NextWait(wait: int, maxWait: int): int {
    if wait * 2 > maxWait then maxWait else wait * 2
  }

  /** The k-th delay, counted from 1, as the loops compute it. */
  function Wait(initial: int, maxWait: int, k: nat): int
    requires k >= 1
  {
    if k == 1 then initial else NextWait(Wait(initial, maxWait, k - 1), maxWait)
  }

  function Pow2(n: nat): nat {
    if n == 0 then 1 else 2 * Pow2(n - 1)
  }

  function Min(a: int, b: int): int {
    if a < b then a else b
  }

  /** The closed form: the first delay is the initial one, every later one is the initial
      one doubled each time, but no more than the cap. */
  lemma {:induction false} WaitIsCappedDoubling(initial: nat, maxWait: nat, k: nat)
    requires k >= 1
    ensures k >= 2 || initial <= maxWait ==> Wait(initial, maxWait, k) == Min(initial * Pow2(k - 1), maxWait)
    ensures Wait(initial, maxWait, 1) == initial
  {
    if k >= 2 {
      WaitIsCappedDoubling(initial, maxWait, k - 1);
      assert initial * Pow2(k - 1) == 2 * (initial * Pow2(k - 2));
    }
  }
}

/** The two retry loops of the HTTP client. */
module HttpRetry {
  import opened Backoff

  datatype Body = Built | NoBody | BodyError

  datatype Reply = NetworkError | Status(code: int)

  /** How one attempt goes: whether its body and its request can be built, what the server
      answers, whether the context is done by then, and whether the pause after it runs to
      its end. */
  datatype Attempt = Attempt(body: Body, requestBuilt: bool, reply: Reply, contextDone: bool, pauseEnds: bool)

  datatype Outcome = Response(code: int) | NetworkFailed | ContextDone | RequestFailed | BodyFailed

  /** What the attempts would be, counted from 1. */
  type Script = nat -> Attempt

  datatype Settings = Settings(maxRetries: int, initialWait: int, maxWait: int)

  predicate RetryableStatus(code: int) {
    code == 429 || code == 500 || code == 502 || code == 503 || code == 504
  }

  // ---- the one specification

  /** The attempt got nowhere, but may be repeated. */
  predicate Pauses(cfg: Settings, a: Attempt, k: nat) {
    a.body == Built && a.requestBuilt && k <= cfg.maxRetries &&
    match a.reply
    case NetworkError => !a.contextDone
    case Status(code) => RetryableStatus(code)
  }

  /** There is another attempt after attempt k. */
  predicate Repeats(cfg: Settings, a: Attempt, k: nat) {
    Pauses(cfg, a, k) && a.pauseEnds
  }

  /** What the caller gets when attempt k is the last. */
  function Ending(cfg: Settings, a: Attempt, k: nat): Outcome {
    if a.body != Built then BodyFailed
    else if !a.requestBuilt then RequestFailed
    else if Pauses(cfg, a, k) then ContextDone
    else
      match a.reply
      case NetworkError => if a.contextDone then ContextDone else NetworkFailed
      case Status(code) => Response(code)
  }

  function Waits(cfg: Settings, n: nat): (waits: seq<int>)
    ensures |waits| == n
  {
    seq(n, i requires 0 <= i < n => Wait(cfg.initialWait, cfg.maxWait, i + 1))
  }

  /** Attempts 1 to n were made, with a pause after each that did not settle it. */
  ghost predicate Obeys(cfg: Settings, script: Script, n: nat, r: Outcome, pauses: seq<int>) {
    && n >= 1 && (forall k: nat | 1 <= k < n :: Repeats(cfg, script(k), k)) && !Repeats(cfg, script(n), n)
    && r == Ending(cfg, script(n), n)
    && pauses == Waits(cfg, if Pauses(cfg, script(n), n) then n else n - 1)
  }

  /** The specification leaves nothing open. */
  lemma ObeysIsUnique(cfg: Settings, script: Script, n1: nat, r1: Outcome, pauses1: seq<int>,
                      n2: nat, r2: Outcome, pauses2: seq<int>)
    requires Obeys(cfg, script, n1, r1, pauses1) && Obeys(cfg, script, n2, r2, pauses2)
    ensures n1 == n2 && r1 == r2 && pauses1 == pauses2
  {
    assert n1 < n2 ==> Repeats(cfg, script(n1), n1);
    assert n2 < n1 ==> Repeats(cfg, script(n2), n2);
  }

  function Max0(n: int): nat {
    if n > 0 then n else 0
  }

  /** At most maxRetries attempts more than one; a retryable status reaches the caller only
      from the very last attempt allowed; every pause is the capped doubling. */
  lemma RetryGuarantees(cfg: Settings, script: Script, n: nat, r: Outcome, pauses: seq<int>)
    requires Obeys(cfg, script, n, r, pauses) && 0 <= cfg.initialWait <= cfg.maxWait
    ensures n <= Max0(cfg.maxRetries) + 1 && |pauses| <= Max0(cfg.maxRetries)
    ensures r.Response? && r.code in {429, 500, 502, 503, 504} ==> n == Max0(cfg.maxRetries) + 1
    ensures forall k | 0 <= k < |pauses| :: pauses[k] == Min(cfg.initialWait * Pow2(k), cfg.maxWait)
  {
    assert n > 1 ==> Repeats(cfg, script(n - 1), n - 1);
    forall k | 0 <= k < |pauses| ensures pauses[k] == Min(cfg.initialWait * Pow2(k), cfg.maxWait) {
      WaitIsCappedDoubling(cfg.initialWait, cfg.maxWait, k + 1);
    }
  }

  /** What the caller gets, from the last attempt: an error that kept it from being made, the
      response, the network's error when no attempt is left, or that of the context. */
  lemma WhatTheCallerGets(cfg: Settings, script: Script, n: nat, r: Outcome, pauses: seq<int>)
    requires Obeys(cfg, script, n, r, pauses)
    ensures var a := script(n);
            var made := a.body == Built && a.requestBuilt;
            && (r == BodyFailed <==> a.body != Built)
            && (r == RequestFailed <==> a.body == Built && !a.requestBuilt)
            && (r == NetworkFailed <==>
                  made && a.reply == NetworkError && !a.contextDone && n == Max0(cfg.maxRetries) + 1)
            && (forall code :: r == Response(code) <==>
                  made && a.reply == Status(code)
                  && (code in {429, 500, 502, 503, 504} ==> n == Max0(cfg.maxRetries) + 1))
            && (r == ContextDone <==> made && ((a.reply == NetworkError && a.contextDone) || |pauses| == n))
            && (|pauses| == n ==> n <= Max0(cfg.maxRetries) && !a.pauseEnds)
  {
    assert n > 1 ==> Repeats(cfg, script(n - 1), n - 1);
  }

  /** The same script with bodies that always build. */
  function WithBodies(script: Script): Script {
    (k: nat) => script(k).(body := Built)
  }

  /** On every script whose bodies build, the two loops do the same. */
  lemma LoopsAgree(cfg: Settings, script: Script, n1: nat, r1: Outcome, pauses1: seq<int>,
                   n2: nat, r2: Outcome, pauses2: seq<int>)
    requires forall k: nat :: script(k).body == Built
    requires Obeys(cfg, WithBodies(script), n1, r1, pauses1) && Obeys(cfg, script, n2, r2, pauses2)
    ensures n1 == n2 && r1 == r2 && pauses1 == pauses2
  {
    assert forall k: nat :: WithBodies(script)(k) == script(k);
    assert forall k: nat | 1 <= k < n1 :: Repeats(cfg, WithBodies(script)(k), k);
    assert Obeys(cfg, script, n1, r1, pauses1);
    ObeysIsUnique(cfg, script, n1, r1, pauses1, n2, r2, pauses2);
  }

  /** The attempts 1 to n. */
  function Upto(n: nat): seq<nat> {
    seq(n, i requires 0 <= i < n => i + 1)
  }

  // ---- the loops

  class HTTPClient {
    const cfg: Settings

    constructor (cfg: Settings)
      ensures this.cfg == cfg
    {
      this.cfg := cfg;
    }

    method DoWithRetry(script: Script) returns (r: Outcome, n: nat, pauses: seq<int>)
      ensures Obeys(cfg, WithBodies(script), n, r, pauses)
    {
      n, pauses := 0, [];
      var wait := cfg.initialWait;
      while true
        invariant forall k: nat | 1 <= k <= n :: Repeats(cfg, WithBodies(script)(k), k)
        invariant pauses == Waits(cfg, n) && wait == Wait(cfg.initialWait, cfg.maxWait, n + 1)
        decreases cfg.maxRetries - n
      {
        n := n + 1;
        var a := script(n);
        if !a.requestBuilt {
          return RequestFailed, n, pauses;
        }
        match a.reply {
          case NetworkError =>
            if a.contextDone {
              return ContextDone, n, pauses;
            }
            if n > cfg.maxRetries {
              return NetworkFailed, n, pauses;
            }
          case Status(code) =>
            if !(RetryableStatus(code) && n <= cfg.maxRetries) {
              return Response(code), n, pauses;
            }
        }
        pauses := pauses + [wait];
        if !a.pauseEnds {
          return ContextDone, n, pauses;
        }
        wait := NextWait(wait, cfg.maxWait);
      }
    }

    /** Builds the body anew for each attempt, once; every body built is closed, but for
        the one that went out with the attempt whose response is returned. */
    method DoWithRetryReader(script: Script)
      returns (r: Outcome, n: nat, pauses: seq<int>, ghost bodies: nat, ghost closed: seq<nat>)
      ensures Obeys(cfg, script, n, r, pauses) && bodies == n
      ensures closed == Upto(if r == BodyFailed || r.Response? then n - 1 else n)
    {
      n, pauses, bodies, closed := 0, [], 0, [];
      var wait := cfg.initialWait;
      while true
        invariant forall k: nat | 1 <= k <= n :: Repeats(cfg, script(k), k)
        invariant pauses == Waits(cfg, n) && wait == Wait(cfg.initialWait, cfg.maxWait, n + 1)
        invariant bodies == n && closed == Upto(n)
        decreases cfg.maxRetries - n
      {
        n := n + 1;
        var a := script(n);
        bodies := bodies + 1;
        if a.body == BodyError {
          r := BodyFailed;
          return;
        }
        if a.body == NoBody {
          r := BodyFailed;
          return;
        }
        if !a.requestBuilt {
          closed := closed + [n];
          r := RequestFailed;
          return;
        }
        match a.reply {
          case NetworkError =>
            closed := closed + [n];
            if a.contextDone {
              r := ContextDone;
              return;
            }
            if n > cfg.maxRetries {
              r := NetworkFailed;
              return;
            }
          case Status(code) =>
            if !(RetryableStatus(code) && n <= cfg.maxRetries) {
              r := Response(code);
              return;
            }
            closed := closed + [n];
        }
        pauses := pauses + [wait];
        if !a.pauseEnds {
          r := ContextDone;
          return;
        }
        wait := NextWait(wait, cfg.maxWait);
      }
    }
  }
}
