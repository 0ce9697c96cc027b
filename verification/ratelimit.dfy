/** The distributed token bucket. */
module RateLimit {
  import opened Board

  /** What is stored for a caller: tokens left and when they were counted, in milliseconds. */
  datatype Bucket = Bucket(tokens: real, ts: int)

  /** Tokens per second, and the burst size. */
  datatype Config = Config(rate: real, capacity: nat)

  function Min(a: real, b: real): real { if a < b then a else b }

  /** Tokens gained over a stretch of milliseconds; a clock that steps back gains nothing. */
  function Gain(c: Config, ms: int): real {
    if ms <= 0 then 0.0 else ms as real / 1000.0 * c.rate
  }

  /** The tokens at hand at time `now`; a caller without a bucket has a full one. */
  function Refilled(c: Config, b: Option<Bucket>, now: int): real {
    match b
    case None => c.capacity as real
    case Some(Bucket(tokens, ts)) => Min(c.capacity as real, tokens + Gain(c, now - ts))
  }

  predicate Allows(c: Config, b: Option<Bucket>, now: int) {
    Refilled(c, b, now) >= 1.0
  }

  /** The bucket after a request at time `now`. */
  function After(c: Config, b: Option<Bucket>, now: int): Bucket {
    var tokens := Refilled(c, b, now);
    Bucket(if tokens >= 1.0 then tokens - 1.0 else tokens, now)
  }

  // ---- Requests and grants ----

  /** How many of the requests are let through, starting from bucket `b`. */
  function Granted(c: Config, b: Option<Bucket>, times: seq<int>): nat
    decreases times
  {
    if times == [] then 0
    else (if Allows(c, b, times[0]) then 1 else 0) + Granted(c, Some(After(c, b, times[0])), times[1..])
  }

  lemma GainAdds(c: Config, x: int, y: int)
    requires x >= 0 && y >= 0
    ensures Gain(c, x + y) == Gain(c, x) + Gain(c, y)
  {}

  lemma GainMonotone(c: Config, x: int)
    requires c.rate > 0.0
    ensures Gain(c, x) >= 0.0
  {}

  /** How far the clock rises, step by step, over the times after `t`; steps back do not count. */
  function RiseFrom(t: int, times: seq<int>): (r: int)
    ensures r >= 0
    decreases times
  {
    if times == [] then 0 else (if times[0] > t then times[0] - t else 0) + RiseFrom(times[0], times[1..])
  }

  function Rise(window: seq<int>): (r: int)
    requires window != []
    ensures r >= 0
  {
    RiseFrom(window[0], window[1..])
  }

  /** A rise is never less than the net change of the clock. */
  lemma {:induction false} RiseIsNet(t: int, times: seq<int>)
    ensures RiseFrom(t, times) >= (if times == [] then t else times[|times| - 1]) - t
    decreases times
  {
    if times != [] {
      RiseIsNet(times[0], times[1..]);
    }
  }

  /** From a bucket counted at time `ts`, requests use at most its tokens plus what flows in while
      the clock rises. */
  lemma {:induction false} GrantedFrom(c: Config, b: Bucket, times: seq<int>)
    requires c.rate > 0.0 && b.tokens >= 0.0
    ensures Granted(c, Some(b), times) as real <= b.tokens + Gain(c, RiseFrom(b.ts, times))
    decreases times
  {
    if times != [] {
      var step := if times[0] > b.ts then times[0] - b.ts else 0;
      GainMonotone(c, times[0] - b.ts);
      GrantedFrom(c, After(c, Some(b), times[0]), times[1..]);
      GainAdds(c, step, RiseFrom(times[0], times[1..]));
    }
  }

  /** The part of a run of requests between positions i and j. */
  function BucketAt(c: Config, b: Option<Bucket>, times: seq<int>): Option<Bucket>
    decreases times
  {
    if times == [] then b else BucketAt(c, Some(After(c, b, times[0])), times[1..])
  }

  lemma {:induction false} BucketBounded(c: Config, b: Option<Bucket>, times: seq<int>)
    requires c.rate > 0.0 && (b.Some? ==> 0.0 <= b.value.tokens <= c.capacity as real)
    ensures var e := BucketAt(c, b, times); e.Some? ==> 0.0 <= e.value.tokens <= c.capacity as real
    decreases times
  {
    if times != [] {
      if b.Some? {
        GainMonotone(c, times[0] - b.value.ts);
      }
      BucketBounded(c, Some(After(c, b, times[0])), times[1..]);
    }
  }

  // ---- Forgetting idle buckets ----

  /** How long an idle bucket is kept: the time to refill, rounded up, and a second more. */
  function TimeToLive(c: Config): int
    requires c.rate > 0.0
  {
    Ceil(c.capacity as real / c.rate * 1000.0) + 1000
  }

  function Ceil(x: real): (n: int)
    ensures n as real >= x
  {
    if x.Floor as real == x then x.Floor else x.Floor + 1
  }

  /** The time to live exceeds the time to refill by a second, and by less than a millisecond more. */
  lemma TimeToLiveIs(c: Config)
    requires c.rate > 0.0
    ensures var fill := c.capacity as real / c.rate * 1000.0;
      fill + 1000.0 <= TimeToLive(c) as real < fill + 1001.0
  {}

  /** A bucket may have expired by `now` once it has been idle for its time to live. */
  predicate MayForget(c: Config, b: Option<Bucket>, now: int)
    requires c.rate > 0.0
  {
    b.Some? ==> now - b.value.ts >= TimeToLive(c)
  }

  /** A bucket idle that long is full again. */
  lemma IdleIsFull(c: Config, b: Bucket, now: int)
    requires c.rate > 0.0 && b.tokens >= 0.0 && MayForget(c, Some(b), now)
    ensures Refilled(c, Some(b), now) == c.capacity as real
  {
    var full := c.capacity as real;
    var ms := now - b.ts;
    var need := full / c.rate;
    assert need * c.rate == full;
    assert need >= 0.0;
    assert ms as real >= need * 1000.0;
    assert ms as real / 1000.0 >= need;
    MulMonotone(need, ms as real / 1000.0, c.rate);
  }

  lemma MulMonotone(a: real, b: real, k: real)
    requires a <= b && k > 0.0
    ensures a * k <= b * k
  {}

  /** The answers to a sequence of requests, where `forgotten` says before which of them the stored
      bucket was found expired. */
  function Answers(c: Config, b: Option<Bucket>, times: seq<int>, forgotten: seq<bool>): (answers: seq<bool>)
    requires |forgotten| == |times|
    ensures |answers| == |times|
    decreases times
  {
    if times == [] then []
    else
      var found := if forgotten[0] then None else b;
      [Allows(c, found, times[0])] + Answers(c, Some(After(c, found, times[0])), times[1..], forgotten[1..])
  }

  function Never(n: nat): seq<bool> { seq(n, _ => false) }

  /** A key is found expired only when its bucket would be full again by the callers' clock. */
  predicate ForgetsFull(c: Config, b: Option<Bucket>, times: seq<int>, forgotten: seq<bool>)
    requires |forgotten| == |times|
    decreases times
  {
    times == [] || (
      (forgotten[0] ==> Refilled(c, b, times[0]) == c.capacity as real) &&
      ForgetsFull(c, Some(After(c, if forgotten[0] then None else b, times[0])), times[1..], forgotten[1..]))
  }

  /** It is so found only when it was idle for its time to live by the callers' clock. */
  predicate ForgetsRightly(c: Config, b: Option<Bucket>, times: seq<int>, forgotten: seq<bool>)
    requires |forgotten| == |times| && c.rate > 0.0
    decreases times
  {
    times == [] || (
      (forgotten[0] ==> MayForget(c, b, times[0])) &&
      ForgetsRightly(c, Some(After(c, if forgotten[0] then None else b, times[0])), times[1..], forgotten[1..]))
  }

  /** The time to live is long enough. */
  lemma {:induction false} RightlyIsFull(c: Config, b: Option<Bucket>, times: seq<int>, forgotten: seq<bool>)
    requires c.rate > 0.0 && |forgotten| == |times| && (b.Some? ==> b.value.tokens >= 0.0)
    requires ForgetsRightly(c, b, times, forgotten)
    ensures ForgetsFull(c, b, times, forgotten)
    decreases times
  {
    if times != [] {
      if b.Some? {
        GainMonotone(c, times[0] - b.value.ts);
        if forgotten[0] {
          IdleIsFull(c, b.value, times[0]);
        }
      }
      RightlyIsFull(c, Some(After(c, if forgotten[0] then None else b, times[0])), times[1..], forgotten[1..]);
    }
  }

  /** A limiter whose full buckets expire answers exactly as one that never forgets. */
  lemma {:induction false} ForgettingIsInvisible(c: Config, b: Option<Bucket>, times: seq<int>, forgotten: seq<bool>)
    requires |forgotten| == |times| && ForgetsFull(c, b, times, forgotten)
    ensures Answers(c, b, times, forgotten) == Answers(c, b, times, Never(|times|))
    decreases times
  {
    if times != [] {
      var found := if forgotten[0] then None else b;
      assert Refilled(c, found, times[0]) == Refilled(c, b, times[0]);
      ForgettingIsInvisible(c, Some(After(c, b, times[0])), times[1..], forgotten[1..]);
      assert Never(|times|)[1..] == Never(|times[1..]|);
    }
  }

  /** How many answers let the request through. */
  function Trues(answers: seq<bool>): nat {
    if answers == [] then 0 else (if answers[0] then 1 else 0) + Trues(answers[1..])
  }

  lemma {:induction false} GrantedIsTrues(c: Config, b: Option<Bucket>, times: seq<int>)
    ensures Trues(Answers(c, b, times, Never(|times|))) == Granted(c, b, times)
    decreases times
  {
    if times != [] {
      GrantedIsTrues(c, Some(After(c, b, times[0])), times[1..]);
      assert Never(|times|)[1..] == Never(|times[1..]|);
    }
  }

  // ---- When losing a bucket is harmless ----

  /** Requests all at one time. */
  function Burst(now: int, n: nat): seq<int> { seq(n, _ => now) }

  lemma {:induction false} BurstGranted(c: Config, b: Bucket, n: nat)
    requires b.tokens == n as real <= c.capacity as real
    ensures Granted(c, Some(b), Burst(b.ts, n)) == n
    decreases n
  {
    if n > 0 {
      var next := After(c, Some(b), b.ts);
      assert next == Bucket((n - 1) as real, b.ts);
      BurstGranted(c, next, n - 1);
      assert Burst(b.ts, n)[1..] == Burst(b.ts, n - 1);
    }
  }

  lemma {:induction false} BurstRise(now: int, n: nat)
    ensures RiseFrom(now, Burst(now, n)) == 0
  {
    if n > 0 {
      BurstRise(now, n - 1);
      assert Burst(now, n)[1..] == Burst(now, n - 1);
    }
  }

  /** The answers after the bucket is lost are those that would have been given, whatever follows. */
  ghost predicate Harmless(c: Config, b: Bucket, now: int) {
    forall future: seq<int> :: SameAnswers(c, b, now, future)
  }

  ghost predicate SameAnswers(c: Config, b: Bucket, now: int, future: seq<int>) {
    var times := [now] + future;
    Answers(c, Some(b), times, [true] + Never(|future|)) == Answers(c, Some(b), times, Never(|times|))
  }

  lemma {:induction false} AnswersLost(c: Config, b: Option<Bucket>, now: int, future: seq<int>)
    ensures var times, lost := [now] + future, [true] + Never(|future|);
      Answers(c, b, times, lost) == Answers(c, None, times, Never(|times|))
  {
    var times, lost := [now] + future, [true] + Never(|future|);
    assert times[1..] == future && lost[1..] == Never(|future|) == Never(|times|)[1..];
  }

  /** Losing a bucket is harmless exactly when it would be full by the callers' clock. */
  lemma {:induction false} HarmlessIff(c: Config, b: Bucket, now: int)
    requires c.rate > 0.0 && 0.0 <= b.tokens <= c.capacity as real
    ensures Harmless(c, b, now) <==> Refilled(c, Some(b), now) == c.capacity as real
  {
    GainMonotone(c, now - b.ts);
    if Refilled(c, Some(b), now) == c.capacity as real {
      forall future: seq<int> ensures SameAnswers(c, b, now, future) {
        AnswersLost(c, Some(b), now, future);
        SameRefill(c, Some(b), None, [now] + future);
      }
    } else {
      ShortBurst(c, b, now);
    }
  }

  lemma {:induction false} SameRefill(c: Config, b: Option<Bucket>, b': Option<Bucket>, times: seq<int>)
    requires times != [] && Refilled(c, b, times[0]) == Refilled(c, b', times[0])
    ensures Answers(c, b, times, Never(|times|)) == Answers(c, b', times, Never(|times|))
  {}

  /** A burst as large as the capacity tells a full bucket from any other. */
  lemma {:induction false} ShortBurst(c: Config, b: Bucket, now: int)
    requires c.rate > 0.0 && 0.0 <= b.tokens && Refilled(c, Some(b), now) < c.capacity as real
    ensures !Harmless(c, b, now)
  {
    GainMonotone(c, now - b.ts);
    var n := c.capacity - 1;
    var times, future := Burst(now, n + 1), Burst(now, n);
    assert times == [now] + future;
    FullBurst(c, now);
    PartBurst(c, b, now, n + 1);
    AnswersLost(c, Some(b), now, future);
    GrantedIsTrues(c, None, times);
    GrantedIsTrues(c, Some(b), times);
    assert !SameAnswers(c, b, now, future);
  }

  lemma {:induction false} FullBurst(c: Config, now: int)
    requires c.capacity > 0
    ensures Granted(c, None, Burst(now, c.capacity)) == c.capacity
  {
    var n := c.capacity - 1;
    BurstGranted(c, Bucket(n as real, now), n);
    assert After(c, None, now) == Bucket(n as real, now);
    assert Burst(now, n + 1)[1..] == Burst(now, n);
  }

  lemma {:induction false} PartBurst(c: Config, b: Bucket, now: int, n: nat)
    requires c.rate > 0.0 && 0.0 <= b.tokens && n > 0
    ensures Granted(c, Some(b), Burst(now, n)) as real <= Refilled(c, Some(b), now)
  {
    GainMonotone(c, now - b.ts);
    var next := After(c, Some(b), now);
    GrantedFrom(c, next, Burst(now, n - 1));
    BurstRise(now, n - 1);
    assert Burst(now, n)[1..] == Burst(now, n - 1);
  }

  // ---- Every window ----

  lemma {:induction false} GrantedInWindow(c: Config, before: seq<int>, window: seq<int>)
    requires c.rate > 0.0 && window != []
    ensures Granted(c, BucketAt(c, None, before), window) as real <= c.capacity as real + Gain(c, Rise(window))
  {
    var b := BucketAt(c, None, before);
    BucketBounded(c, None, before);
    if b.Some? {
      GainMonotone(c, window[0] - b.value.ts);
    }
    GainMonotone(c, Rise(window));
    GrantedFrom(c, After(c, b, window[0]), window[1..]);
  }

  /** How many requests of a window are let through, the past and expired keys included. */
  function Permitted(c: Config, before: seq<int>, window: seq<int>, forgotten: seq<bool>): nat
    requires |forgotten| == |before| + |window|
  {
    Trues(Answers(c, None, before + window, forgotten)[|before|..])
  }

  lemma {:induction false} AnswersSplit(c: Config, b: Option<Bucket>, before: seq<int>, window: seq<int>)
    ensures Answers(c, b, before + window, Never(|before + window|)) ==
      Answers(c, b, before, Never(|before|)) + Answers(c, BucketAt(c, b, before), window, Never(|window|))
    decreases before
  {
    var all := before + window;
    if before == [] {
      assert all == window;
    } else {
      assert all[1..] == before[1..] + window && all[0] == before[0];
      assert Never(|all|)[1..] == Never(|all[1..]|) && Never(|before|)[1..] == Never(|before[1..]|);
      AnswersSplit(c, Some(After(c, b, before[0])), before[1..], window);
    }
  }

  /** Expired full buckets included, what is let through is what an unforgetting limiter grants. */
  lemma {:induction false} PermittedIsGranted(c: Config, before: seq<int>, window: seq<int>, forgotten: seq<bool>)
    requires |forgotten| == |before| + |window| && ForgetsFull(c, None, before + window, forgotten)
    ensures Permitted(c, before, window, forgotten) == Granted(c, BucketAt(c, None, before), window)
  {
    ForgettingIsInvisible(c, None, before + window, forgotten);
    AnswersSplit(c, None, before, window);
    GrantedIsTrues(c, BucketAt(c, None, before), window);
  }

  /** In any window of any request sequence, whatever the clock does, at most capacity + rate * (how
      far the clock rises) requests are let through, as long as only full buckets expire. */
  lemma {:induction false} RiseBound(c: Config, before: seq<int>, window: seq<int>, forgotten: seq<bool>)
    requires c.rate > 0.0 && window != []
    requires |forgotten| == |before| + |window| && ForgetsFull(c, None, before + window, forgotten)
    ensures Permitted(c, before, window, forgotten) as real <= c.capacity as real + Gain(c, Rise(window))
  {
    GrantedInWindow(c, before, window);
    PermittedIsGranted(c, before, window, forgotten);
  }

  /** The promised bound: capacity + rate * (the length of the window). */
  ghost predicate WindowHolds(c: Config, before: seq<int>, window: seq<int>, forgotten: seq<bool>)
    requires window != [] && |forgotten| == |before| + |window|
  {
    Permitted(c, before, window, forgotten) as real
      <= c.capacity as real + Gain(c, window[|window| - 1] - window[0])
  }

  /** The clock does not rise at all, or it rises no further than from the first request to the last. */
  predicate Steady(window: seq<int>)
    requires window != []
  {
    Rise(window) == 0 || Rise(window) <= window[|window| - 1] - window[0]
  }

  lemma GainOrdered(c: Config, x: int, y: int)
    requires c.rate > 0.0 && x <= y
    ensures Gain(c, x) <= Gain(c, y)
  {
    if x > 0 {
      GainAdds(c, x, y - x);
      GainMonotone(c, y - x);
    } else {
      GainMonotone(c, y);
    }
  }

  /** In any window over which the clock is steady the promised bound holds. */
  lemma {:induction false} WindowBound(c: Config, before: seq<int>, window: seq<int>, forgotten: seq<bool>)
    requires c.rate > 0.0 && window != [] && Steady(window)
    requires |forgotten| == |before| + |window| && ForgetsFull(c, None, before + window, forgotten)
    ensures WindowHolds(c, before, window, forgotten)
  {
    RiseBound(c, before, window, forgotten);
    if Rise(window) == 0 {
      GainMonotone(c, window[|window| - 1] - window[0]);
    } else {
      GainOrdered(c, Rise(window), window[|window| - 1] - window[0]);
    }
  }

  /** A bucket of one token that is filled up by the whole rise lets a request through. */
  lemma {:induction false} RiseGrants(c: Config, b: Bucket, times: seq<int>)
    requires c.rate > 0.0 && c.capacity == 1 && 0.0 <= b.tokens < 1.0
    requires b.tokens + Gain(c, RiseFrom(b.ts, times)) >= 1.0
    ensures Granted(c, Some(b), times) >= 1
    decreases times
  {
    if times != [] {
      var step := if times[0] > b.ts then times[0] - b.ts else 0;
      GainAdds(c, step, RiseFrom(times[0], times[1..]));
      if !Allows(c, Some(b), times[0]) {
        GainMonotone(c, times[0] - b.ts);
        RiseGrants(c, After(c, Some(b), times[0]), times[1..]);
      }
    }
  }

  /** Otherwise a limiter of one token that refills once in the whole rise exceeds the bound. */
  lemma {:induction false} UnsteadyExceeds(window: seq<int>) returns (c: Config)
    requires window != [] && !Steady(window)
    ensures c.rate > 0.0 && !WindowHolds(c, [], window, Never(|window|))
  {
    var rise := Rise(window);
    c := Config(1000.0 / rise as real, 1);
    assert Gain(c, rise) == 1.0;
    var first := After(c, None, window[0]);
    assert first == Bucket(0.0, window[0]);
    RiseGrants(c, first, window[1..]);
    assert Granted(c, None, window) >= 2;
    NeverIsFull(c, None, window);
    assert [] + window == window;
    PermittedIsGranted(c, [], window, Never(|window|));
    PartOfRise(c, window[|window| - 1] - window[0], rise);
  }

  lemma GainPositive(c: Config, x: int)
    requires c.rate > 0.0 && x > 0
    ensures Gain(c, x) > 0.0
  {}

  lemma PartOfRise(c: Config, x: int, rise: int)
    requires c.rate > 0.0 && rise > 0 && x < rise && Gain(c, rise) == 1.0
    ensures Gain(c, x) < 1.0
  {
    if x > 0 {
      GainAdds(c, x, rise - x);
      GainPositive(c, rise - x);
    }
  }

  lemma {:induction false} NeverIsFull(c: Config, b: Option<Bucket>, times: seq<int>)
    ensures ForgetsFull(c, b, times, Never(|times|))
    decreases times
  {
    if times != [] {
      NeverIsFull(c, Some(After(c, b, times[0])), times[1..]);
      assert Never(|times|)[1..] == Never(|times[1..]|);
    }
  }

  /** The bound holds of every limiter, every past and every expiry of full buckets. */
  ghost predicate AlwaysHolds(window: seq<int>)
    requires window != []
  {
    forall c: Config, before: seq<int>, forgotten: seq<bool> ::
      c.rate > 0.0 && |forgotten| == |before| + |window| && ForgetsFull(c, None, before + window, forgotten)
      ==> WindowHolds(c, before, window, forgotten)
  }

  /** That is so exactly for the steady windows. */
  lemma {:induction false} WindowBoundIff(window: seq<int>)
    requires window != []
    ensures AlwaysHolds(window) <==> Steady(window)
  {
    if Steady(window) {
      forall c: Config, before: seq<int>, forgotten: seq<bool>
        | c.rate > 0.0 && |forgotten| == |before| + |window| && ForgetsFull(c, None, before + window, forgotten)
        ensures WindowHolds(c, before, window, forgotten)
      {
        WindowBound(c, before, window, forgotten);
      }
    } else {
      var c := UnsteadyExceeds(window);
      NeverIsFull(c, None, window);
      assert [] + window == window;
      assert !WindowHolds(c, [], window, Never(|window|));
    }
  }

  ghost predicate NonDecreasing(times: seq<int>) {
    forall i, j :: 0 <= i < j < |times| ==> times[i] <= times[j]
  }

  /** A clock that never steps back is steady over every window. */
  lemma {:induction false} NonDecreasingIsSteady(window: seq<int>)
    requires window != [] && NonDecreasing(window)
    ensures Steady(window)
    decreases window
  {
    if |window| > 1 {
      NonDecreasingIsSteady(window[1..]);
    }
  }

  /** One step back and forth already refills a bucket twice. */
  lemma {:induction false} BackwardClockExceeds()
    ensures !Steady([1000, 0, 1000]) && !WindowHolds(Config(1.0, 1), [], [1000, 0, 1000], Never(3))
  {
    var c := Config(1.0, 1);
    var b1 := After(c, None, 1000);
    var b2 := After(c, Some(b1), 0);
    assert b1 == Bucket(0.0, 1000) && b2 == Bucket(0.0, 0);
    assert Gain(c, 1000) == 1.0;
    assert [1000, 0, 1000][1..] == [0, 1000] && [0, 1000][1..] == [1000] && [1000][1..] == [];
    assert RiseFrom(0, [1000]) == 1000 && RiseFrom(1000, [0, 1000]) == 1000;
    assert Granted(c, Some(b2), [1000]) == 1;
    assert Granted(c, Some(b1), [0, 1000]) == 1;
    NeverIsFull(c, None, [1000, 0, 1000]);
    assert [] + [1000, 0, 1000] == [1000, 0, 1000];
    PermittedIsGranted(c, [], [1000, 0, 1000], Never(3));
  }

  /** Keys expire on the server's clock. When that one runs ahead of the callers', a bucket that is
      not yet full is lost, and even a steady window exceeds the bound. */
  lemma {:induction false} EarlyExpiryExceeds()
    ensures var c, window, forgotten := Config(1.0, 1), [3600000, 2000], [false, true];
      Steady(window) && !ForgetsFull(c, None, [] + window, forgotten) && !WindowHolds(c, [], window, forgotten)
  {
    var c, window, forgotten := Config(1.0, 1), [3600000, 2000], [false, true];
    var b := After(c, None, 3600000);
    assert b == Bucket(0.0, 3600000) && Refilled(c, Some(b), 2000) == 0.0;
    assert [] + window == window && window[1..] == [2000] && forgotten[1..] == [true] && [2000][1..] == [];
    assert Answers(c, Some(b), [2000], [true]) == [true];
    assert Answers(c, None, window, forgotten) == [true, true];
    assert [true, true][0..] == [true, true] && [true, true][1..] == [true] && [true][1..] == [];
    assert Trues([true]) == 1 && Trues([true, true]) == 2;
  }

  // ---- The stored bucket ----

  /** One caller's key in Redis, on which the script runs atomically. */
  class Key {
    const config: Config
    var bucket: Option<Bucket>

    constructor (config: Config)
      ensures this.config == config && bucket == None
    {
      this.config, bucket := config, None;
    }

    method Allow(now: int) returns (allowed: bool, left: int)
      modifies this
      ensures allowed <==> Allows(config, old(bucket), now)
      ensures bucket == Some(After(config, old(bucket), now)) && left == bucket.value.tokens.Floor
    {
      var tokens, ts := config.capacity as real, now;
      if bucket.Some? {
        tokens, ts := bucket.value.tokens, bucket.value.ts;
      }
      var elapsed := (if now - ts > 0 then now - ts else 0) as real / 1000.0;
      var refilled := Min(config.capacity as real, tokens + elapsed * config.rate);
      assert refilled == Refilled(config, bucket, now);
      allowed := false;
      if refilled >= 1.0 {
        refilled := refilled - 1.0;
        allowed := true;
      }
      bucket := Some(Bucket(refilled, now));
      left := refilled.Floor;
    }
  }
}
