/** The rate limiter: buckets that are refilled lazily, proved to admit exactly what the
    arrival curve capacity + refill * time allows. Tokens and times are reals. */
module RateLimit {
  import opened Wrappers

  /** A call to Allow, when it came and how it was answered. */
  datatype Call = Call(at: real, admitted: bool)

  function Later(a: real, b: real): real {
    if a < b then b else a
  }

  /** The tokens that come in over a time. */
  function Gain(refill: real, elapsed: real): real {
    elapsed * refill
  }

  // ---- the arrival curve, on the history of a key

  /** How many calls were admitted. */
  function Admitted(h: seq<Call>): real {
    if h == [] then 0.0 else Admitted(h[..|h| - 1]) + if h[|h| - 1].admitted then 1.0 else 0.0
  }

  /** The largest time seen. */
  function Latest(h: seq<Call>): real
    requires h != []
  {
    if |h| == 1 then h[0].at else Later(Latest(h[..|h| - 1]), h[|h| - 1].at)
  }

  /** The largest time seen up to call k; the call at hand counts as the last one. */
  function SeenBy(h: seq<Call>, now: real, k: nat): real
    requires k <= |h|
  {
    if k < |h| then Latest(h[..k + 1]) else if h == [] then now else Later(Latest(h), now)
  }

  /** What is left, at a time, of a curve that starts at another, after some admissions. */
  function Left(capacity: real, refill: real, now: real, from: real, admitted: real): real {
    capacity + Gain(refill, now - from) - admitted
  }

  /** What is left of the curve that starts at call k, before the call at hand. */
  function Room(capacity: real, refill: real, h: seq<Call>, now: real, k: nat): real
    requires k <= |h|
  {
    Left(capacity, refill, SeenBy(h, now, |h|), SeenBy(h, now, k), Admitted(h[k..]))
  }

  /** The call at hand and all admitted ones from call k on fit under the curve. */
  predicate Fits(capacity: real, refill: real, h: seq<Call>, now: real, k: nat)
    requires k <= |h|
  {
    Admitted(h[k..]) + 1.0 <= capacity + Gain(refill, SeenBy(h, now, |h|) - SeenBy(h, now, k))
  }

  /** They fit under every curve that starts at an earlier call of the key or at this one. */
  ghost predicate FitsAll(capacity: real, refill: real, h: seq<Call>, now: real) {
    forall k: nat | k <= |h| :: Fits(capacity, refill, h, now, k)
  }

  // ---- the tokens, on the history of a key

  function Refilled(capacity: real, refill: real, tokens: real, last: real, now: real): real {
    if now <= last then tokens
    else if tokens + Gain(refill, now - last) > capacity then capacity
    else tokens + Gain(refill, now - last)
  }

  /** The tokens the call at hand finds after the refill. */
  function Available(capacity: real, refill: real, h: seq<Call>, now: real): real
    decreases |h|, 1
  {
    if h == [] then capacity
    else Refilled(capacity, refill, Tokens(capacity, refill, h), Latest(h), now)
  }

  /** The tokens after the calls of a history. */
  function Tokens(capacity: real, refill: real, h: seq<Call>): real
    requires h != []
    decreases |h|, 0
  {
    var c := h[|h| - 1];
    Available(capacity, refill, h[..|h| - 1], c.at) - if c.admitted then 1.0 else 0.0
  }

  lemma LeftLater(capacity: real, refill: real, later: real, now: real, from: real, admitted: real, more: real)
    ensures Left(capacity, refill, later, from, admitted + more) ==
            Left(capacity, refill, now, from, admitted) - more + Gain(refill, later - now)
  {
    GainsAdd(refill, later, now, from);
    hide Gain;
  }

  lemma GainsAdd(refill: real, x: real, y: real, z: real)
    ensures Gain(refill, x - z) == Gain(refill, y - z) + Gain(refill, x - y)
  {
  }

  lemma AdmittedSteps(h: seq<Call>, k: nat)
    requires k < |h|
    ensures Admitted(h[k..]) == Admitted(h[..|h| - 1][k..]) + if h[|h| - 1].admitted then 1.0 else 0.0
  {
    assert h[k..][..|h[k..]| - 1] == h[..|h| - 1][k..];
  }

  lemma SeenSteps(h: seq<Call>, now: real, k: nat)
    requires k < |h|
    ensures var c, init := h[|h| - 1], h[..|h| - 1];
            && SeenBy(h, now, k) == SeenBy(init, c.at, k) && SeenBy(init, c.at, |init|) == Latest(h)
            && SeenBy(h, now, |h|) == Later(Latest(h), now)
  {
    var init := h[..|h| - 1];
    if k < |init| {
      assert h[..k + 1] == init[..k + 1];
    } else {
      assert h[..k + 1] == h;
    }
  }

  lemma RoomSteps(capacity: real, refill: real, h: seq<Call>, now: real, k: nat)
    requires k < |h|
    ensures var c, init := h[|h| - 1], h[..|h| - 1];
            Room(capacity, refill, h, now, k) ==
            Room(capacity, refill, init, c.at, k) - (if c.admitted then 1.0 else 0.0)
              + Gain(refill, Later(Latest(h), now) - Latest(h))
  {
    hide Admitted, Latest, Gain, Later, SeenBy, Left;
    var c, init := h[|h| - 1], h[..|h| - 1];
    AdmittedSteps(h, k);
    SeenSteps(h, now, k);
    LeftLater(capacity, refill, SeenBy(h, now, |h|), SeenBy(init, c.at, |init|), SeenBy(h, now, k),
              Admitted(init[k..]), if c.admitted then 1.0 else 0.0);
  }

  /** The lazily refilled tokens are the least room of all curves. */
  lemma {:induction false} TokensAreTheLeastRoom(capacity: real, refill: real, h: seq<Call>, now: real)
    ensures forall k: nat | k <= |h| :: Available(capacity, refill, h, now) <= Room(capacity, refill, h, now, k)
    ensures exists k: nat :: k <= |h| && Available(capacity, refill, h, now) == Room(capacity, refill, h, now, k)
    decreases |h|
  {
    FullRoom(capacity, refill, h, now);
    if h != [] {
      var c, init := h[|h| - 1], h[..|h| - 1];
      TokensAreTheLeastRoom(capacity, refill, init, c.at);
      FullRoom(capacity, refill, init, c.at);
      var least: nat :| least <= |init|
                        && Available(capacity, refill, init, c.at) == Room(capacity, refill, init, c.at, least);
      var gained := Gain(refill, Later(Latest(h), now) - Latest(h));
      var tokens := Tokens(capacity, refill, h);
      Gains(capacity, refill, tokens, Latest(h), now);
      hide Room, Refilled, Latest, Gain;
      forall k: nat | k <= |h|
        ensures Available(capacity, refill, h, now) <= Room(capacity, refill, h, now, k)
      {
        if k < |h| {
          RoomSteps(capacity, refill, h, now, k);
          assert Available(capacity, refill, init, c.at) <= Room(capacity, refill, init, c.at, k);
        }
      }
      RoomSteps(capacity, refill, h, now, least);
      assert Available(capacity, refill, h, now) == Room(capacity, refill, h, now, least)
             || Available(capacity, refill, h, now) == Room(capacity, refill, h, now, |h|);
    }
  }

  lemma FullRoom(capacity: real, refill: real, h: seq<Call>, now: real)
    ensures Room(capacity, refill, h, now, |h|) == capacity
  {
    assert h[|h|..] == [];
  }

  /** A refill gains for the time past, up to the capacity. */
  lemma Gains(capacity: real, refill: real, tokens: real, last: real, now: real)
    requires tokens <= capacity
    ensures var gained := Gain(refill, Later(last, now) - last);
            Refilled(capacity, refill, tokens, last, now) ==
            if tokens + gained <= capacity then tokens + gained else capacity
  {
    assert now > last ==> Later(last, now) == now;
  }

  /** A token is available exactly when the call fits under every curve that starts at an
      earlier call of the key, or at this one. */
  lemma AvailableExactlyWhenItFits(capacity: real, refill: real, h: seq<Call>, now: real)
    ensures Available(capacity, refill, h, now) >= 1.0 <==> FitsAll(capacity, refill, h, now)
  {
    TokensAreTheLeastRoom(capacity, refill, h, now);
    assert forall k: nat | k <= |h| ::
             Fits(capacity, refill, h, now, k) <==> Room(capacity, refill, h, now, k) >= 1.0;
  }

  // ---- what follows for the caller

  /** Histories in which every answer was right. */
  predicate Answered(capacity: real, refill: real, h: seq<Call>) {
    h == [] ||
    (Answered(capacity, refill, h[..|h| - 1]) &&
     (h[|h| - 1].admitted <==> Available(capacity, refill, h[..|h| - 1], h[|h| - 1].at) >= 1.0))
  }

  /** Between any two calls of a key no more are admitted than capacity + refill * time. */
  lemma NeverAboveTheCurve(capacity: real, refill: real, h: seq<Call>, j: nat, k: nat)
    requires Answered(capacity, refill, h) && j <= k < |h| && h[k].admitted
    ensures Admitted(h[j..k + 1]) <= capacity + Gain(refill, Latest(h[..k + 1]) - Latest(h[..j + 1]))
  {
    hide Gain, Tokens;
    PrefixAnswered(capacity, refill, h, k + 1);
    var g := h[..k + 1];
    assert g[..|g| - 1] == h[..k];
    AvailableExactlyWhenItFits(capacity, refill, h[..k], h[k].at);
    assert Fits(capacity, refill, h[..k], h[k].at, j);
    assert h[j..k + 1][..k - j] == h[..k][j..];
    assert j < k ==> h[..k][..j + 1] == h[..j + 1];
    assert SeenBy(h[..k], h[k].at, k) == Latest(g);
  }

  lemma {:induction false} PrefixAnswered(capacity: real, refill: real, h: seq<Call>, n: nat)
    requires Answered(capacity, refill, h) && n <= |h|
    ensures Answered(capacity, refill, h[..n])
    decreases |h|
  {
    if n < |h| {
      PrefixAnswered(capacity, refill, h[..|h| - 1], n);
      assert h[..|h| - 1][..n] == h[..n];
    } else {
      assert h[..n] == h;
    }
  }

  lemma Nothing(capacity: real, refill: real)
    ensures Answered(capacity, refill, [])
  {
  }

  lemma OneMoreCall(capacity: real, refill: real, h: seq<Call>, c: Call)
    requires Answered(capacity, refill, h) && (c.admitted <==> Available(capacity, refill, h, c.at) >= 1.0)
    ensures Answered(capacity, refill, h + [c])
    ensures Tokens(capacity, refill, h + [c]) == Available(capacity, refill, h, c.at) - if c.admitted then 1.0 else 0.0
    ensures Latest(h + [c]) == if h == [] then c.at else Later(Latest(h), c.at)
  {
    assert (h + [c])[..|h|] == h;
  }

  // ---- the limiter

  class Bucket {
    var tokens: real
    var last: real

    constructor (tokens: real, last: real)
      ensures this.tokens == tokens && this.last == last
    {
      this.tokens, this.last := tokens, last;
    }
  }

  class TokenBucket {
    const capacity: real
    const refill: real
    var buckets: map<string, Bucket>
    /** The calls of each key since its bucket was created. */
    ghost var history: map<string, seq<Call>>

    /** The bucket of a key is what the calls of the key amount to. */
    ghost predicate Tracks(key: string)
      requires key in buckets && key in history
      reads this, buckets.Values
    {
      Holds(buckets[key], history[key])
    }

    ghost predicate Holds(b: Bucket, h: seq<Call>)
      reads b
    {
      Answered(capacity, refill, h) &&
      if h == [] then b.tokens == capacity else b.tokens == Tokens(capacity, refill, h) && b.last == Latest(h)
    }

    ghost predicate Valid()
      reads this, buckets.Values
    {
      Sound() && forall key | key in history :: history[key] != []
    }

    ghost predicate Sound()
      reads this, buckets.Values
    {
      && history.Keys == buckets.Keys
      && (forall a, b | a in buckets && b in buckets && a != b :: buckets[a] != buckets[b])
      && forall key | key in buckets :: Tracks(key)
    }

    /** The buckets of all other keys are sound; nothing about this key's bucket matters. */
    ghost predicate OthersSound(key: string)
      requires key in buckets
      reads this, buckets.Values - {buckets[key]}
    {
      && history.Keys == buckets.Keys
      && (forall a, b | a in buckets && b in buckets && a != b :: buckets[a] != buckets[b])
      && forall k | k in buckets && k != key :: Holds(buckets[k], history[k]) && history[k] != []
    }

    ghost function Calls(key: string): seq<Call>
      reads this
    {
      Lookup(history, key).UnwrapOr([])
    }

    constructor (capacity: real, perSecond: real)
      ensures Valid() && this.capacity == capacity && refill == perSecond && history == map[]
    {
      this.capacity, refill := capacity, perSecond;
      buckets, history := map[], map[];
    }

    /** Admits a call exactly when, from every earlier call of the key and from this one,
        all admitted calls and this one fit under capacity + refill * time seen. Other keys
        have no part in it. */
    method Allow(key: string, now: real) returns (ok: bool)
      requires Valid()
      modifies this, buckets.Values
      ensures Valid() && fresh(buckets.Values - old(buckets.Values))
      ensures ok <==> FitsAll(capacity, refill, old(Calls(key)), now)
      ensures history == old(history)[key := old(Calls(key)) + [Call(now, ok)]]
    {
      hide Holds, FitsAll, OthersSound, Sound, Valid;
      ghost var h := Calls(key);
      var b := Find(key, now);
      ok := Take(b, h, now);
      Note(key, h + [Call(now, ok)]);
    }

    /** Adds to the history of a key. */
    ghost method Note(key: string, h: seq<Call>)
      requires key in buckets && OthersSound(key) && Holds(buckets[key], h) && h != []
      modifies this`history
      ensures Valid() && history == old(history)[key := h]
    {
      hide Holds;
      history := history[key := h];
    }

    lemma OthersToo(key: string)
      requires Valid() && key in buckets
      ensures OthersSound(key)
    {
      hide Holds;
      forall k | k in buckets ensures Holds(buckets[k], history[k]) {
        assert Tracks(k);
      }
    }

    method Add(key: string, now: real) returns (b: Bucket)
      requires Valid() && key !in buckets
      modifies this
      ensures fresh(b) && b.last == now && Holds(b, []) && buckets == old(buckets)[key := b] && OthersSound(key)
      ensures history == old(history)[key := []]
    {
      hide Answered, Tokens, Latest;
      b := new Bucket(capacity, now);
      Nothing(capacity, refill);
      assert Holds(b, []);
      hide Holds;
      forall k | k in buckets ensures Holds(buckets[k], history[k]) {
        assert Tracks(k);
      }
      buckets := buckets[key := b];
      history := history[key := []];
    }

    /** The bucket of the key; an unknown key gets a fresh, full one. */
    method Find(key: string, now: real) returns (b: Bucket)
      requires Valid()
      modifies this
      ensures key in buckets && b == buckets[key] && Holds(b, old(Calls(key))) && OthersSound(key)
      ensures history == old(history)[key := old(Calls(key))]
      ensures old(Calls(key)) == [] ==> b.last == now
      ensures buckets.Values - old(buckets.Values) <= {b} && fresh(buckets.Values - old(buckets.Values))
    {
      hide Holds;
      if key in buckets {
        b := buckets[key];
        assert Tracks(key);
        hide Sound;
        OthersToo(key);
      } else {
        b := Add(key, now);
      }
    }

    /** Refills the bucket and takes a token if there is one. */
    method Take(b: Bucket, ghost h: seq<Call>, now: real) returns (ok: bool)
      requires Holds(b, h) && (h == [] ==> b.last == now)
      modifies b
      ensures ok <==> FitsAll(capacity, refill, h, now)
      ensures Holds(b, h + [Call(now, ok)])
    {
      hide Answered, Tokens, Latest, FitsAll;
      AvailableExactlyWhenItFits(capacity, refill, h, now);
      RefillBucket(b, now);
      ok := b.tokens >= 1.0;
      if ok {
        b.tokens := b.tokens - 1.0;
      }
      OneMoreCall(capacity, refill, h, Call(now, ok));
    }

    method RefillBucket(b: Bucket, now: real)
      modifies b
      ensures b.tokens == Refilled(capacity, refill, old(b.tokens), old(b.last), now)
      ensures b.last == Later(old(b.last), now)
    {
      var elapsed := now - b.last;
      if elapsed <= 0.0 {
        return;
      }
      b.tokens := b.tokens + elapsed * refill;
      if b.tokens > capacity {
        b.tokens := capacity;
      }
      b.last := now;
    }

    method Reset()
      modifies this
      ensures Valid() && history == map[]
    {
      buckets, history := map[], map[];
    }
  }
}
