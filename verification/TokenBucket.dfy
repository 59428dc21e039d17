/** The token bucket of the pacing governor; time is in seconds, as an exact real. */
module TokenBuckets {
  import opened Wrappers

  /** The machine epsilon of a double, which guards a zero refill period. */
  const EPSILON: real := 1.0 / 4503599627370496.0

  datatype Bucket = Bucket(capacity: real, period: real, tokens: real, lastRefill: real, lastConsume: Option<real>) {
    function Rate(): real { capacity / Max(period, EPSILON) }

    /** The tokens held at `now`: linear refill since the last one, up to the capacity. */
    function TokensAt(now: real): real {
      Min(tokens + Max(now - lastRefill, 0.0) * Rate(), capacity)
    }

    ghost predicate Valid() { 0.0 <= tokens <= capacity }
  }

  function NewBucket(capacity: nat, period: real, now: real): Bucket {
    Bucket(capacity as real, period, capacity as real, now, None)
  }

  /** How long until one token is there, at the current rate. */
  function Hint(b: Bucket, tokens: real): real {
    Max(if b.Rate() > 0.0 then (1.0 - tokens) / b.Rate() else b.period, 0.0)
  }

  /** One attempt: Ok, or the wait after which to try again. */
  function Attempt(b: Bucket, now: real): (Bucket, Result<(), real>) {
    var tokens := b.TokensAt(now);
    if tokens >= 1.0
    then (b.(tokens := tokens - 1.0, lastRefill := now, lastConsume := Some(now)), Ok(()))
    else (b.(tokens := tokens, lastRefill := now), Err(Hint(b, tokens)))
  }

  predicate Grants(b: Bucket, now: real) { Attempt(b, now).1.Ok? }

  /** The bucket after attempts at the given times. */
  function After(b: Bucket, times: seq<real>): Bucket
    decreases |times|
  {
    if times == [] then b else Attempt(After(b, times[..|times| - 1]), times[|times| - 1]).0
  }

  /** How many of the attempts succeed. */
  function Granted(b: Bucket, times: seq<real>): nat
    decreases |times|
  {
    if times == [] then 0
    else Granted(b, times[..|times| - 1])
         + if Grants(After(b, times[..|times| - 1]), times[|times| - 1]) then 1 else 0
  }

  ghost predicate Ordered(times: seq<real>) { forall i, j | 0 <= i <= j < |times| :: times[i] <= times[j] }

  // ---------------------------------------------------------------- the window bound

  lemma {:induction false} RateNonNeg(b: Bucket)
    requires b.Valid()
    ensures b.Rate() >= 0.0
  {
  }

  /** One attempt trades a token for a grant and gains no more than the refill. */
  lemma {:induction false} AttemptStep(b: Bucket, now: real, rate: real)
    requires b.Valid() && rate == b.Rate()
    ensures var r := Attempt(b, now).0;
            && r.Valid() && r.lastRefill == now && r.capacity == b.capacity && r.period == b.period
            && r.tokens + (if Grants(b, now) then 1.0 else 0.0) == b.TokensAt(now)
            && b.TokensAt(now) <= b.capacity
            && b.TokensAt(now) <= b.tokens + Max(now - b.lastRefill, 0.0) * rate
  {
    RateNonNeg(b);
    assert Max(now - b.lastRefill, 0.0) * rate >= 0.0;
  }

  lemma {:induction false} AfterValid(b: Bucket, times: seq<real>)
    requires b.Valid()
    ensures var r := After(b, times);
            && r.Valid() && r.capacity == b.capacity && r.period == b.period
            && r.lastRefill == if times == [] then b.lastRefill else times[|times| - 1]
    decreases |times|
  {
    if times != [] {
      AfterValid(b, times[..|times| - 1]);
      var before := After(b, times[..|times| - 1]);
      AttemptStep(before, times[|times| - 1], before.Rate());
    }
  }

  /** Grants so far plus tokens left never exceed a full bucket plus the refill of `seconds`. */
  ghost predicate Covered(granted: nat, tokens: real, capacity: real, seconds: real, rate: real) {
    granted as real + tokens <= capacity + seconds * rate
  }

  lemma {:induction false} CoverStep(granted: nat, tokens: real, capacity: real, first: real, prev: real, now: real,
                                     rate: real, grant: nat, tokens': real)
    requires Covered(granted, tokens, capacity, prev - first, rate)
    requires Covered(grant, tokens', tokens, now - prev, rate)
    ensures Covered(granted + grant, tokens', capacity, now - first, rate)
  {
    Distribute(prev - first, now - prev, rate);
  }

  lemma {:induction false} FirstCover(grant: nat, tokens: real, capacity: real, rate: real)
    requires tokens + grant as real <= capacity
    ensures Covered(grant, tokens, capacity, 0.0, rate)
  {
    assert 0.0 * rate == 0.0;
  }

  /** An attempt by its outcome: the bucket it leaves, and 1 if it was granted. */
  lemma {:induction false} AttemptOutcome(b: Bucket, now: real, rate: real) returns (r: Bucket, grant: nat)
    requires b.Valid() && rate == b.Rate() && now >= b.lastRefill
    ensures r == Attempt(b, now).0 && grant == if Grants(b, now) then 1 else 0
    ensures Covered(grant, r.tokens, b.tokens, now - b.lastRefill, rate)
    ensures Covered(grant, r.tokens, b.capacity, 0.0, rate)
  {
    AttemptStep(b, now, rate);
    r := Attempt(b, now).0;
    grant := if Grants(b, now) then 1 else 0;
    FirstCover(grant, r.tokens, b.capacity, rate);
  }

  lemma {:induction false} GrantsNext(b: Bucket, times: seq<real>, r: Bucket, grant: nat)
    requires times != []
    requires var before := After(b, times[..|times| - 1]); var now := times[|times| - 1];
             r == Attempt(before, now).0 && grant == if Grants(before, now) then 1 else 0
    ensures After(b, times) == r && Granted(b, times) == Granted(b, times[..|times| - 1]) + grant
  {
  }

  /** The last attempt of a run: how many were granted before it, and what it leaves. */
  lemma {:induction false} LastAttempt(b: Bucket, times: seq<real>, rate: real)
    returns (before: Bucket, granted: nat, grant: nat)
    requires b.Valid() && rate == b.Rate() && times != [] && Ordered(times) && times[0] >= b.lastRefill
    ensures before == After(b, times[..|times| - 1]) && granted == Granted(b, times[..|times| - 1])
    ensures Granted(b, times) == granted + grant
    ensures before.lastRefill == if |times| == 1 then b.lastRefill else times[|times| - 2]
    ensures Covered(grant, After(b, times).tokens, before.tokens, times[|times| - 1] - before.lastRefill, rate)
    ensures Covered(grant, After(b, times).tokens, b.capacity, 0.0, rate)
  {
    var init := times[..|times| - 1];
    AfterValid(b, init);
    before := After(b, init);
    granted := Granted(b, init);
    var r;
    r, grant := AttemptOutcome(before, times[|times| - 1], rate);
    GrantsNext(b, times, r, grant);
  }

  ghost predicate RunCovered(b: Bucket, times: seq<real>, rate: real)
    requires times != []
  {
    Covered(Granted(b, times), After(b, times).tokens, b.capacity, times[|times| - 1] - times[0], rate)
  }

  lemma {:induction false} RunCoverStep(b: Bucket, times: seq<real>, rate: real)
    requires b.Valid() && rate == b.Rate() && |times| > 1 && Ordered(times) && times[0] >= b.lastRefill
    requires RunCovered(b, times[..|times| - 1], rate)
    ensures RunCovered(b, times, rate)
  {
    var before, granted, grant := LastAttempt(b, times, rate);
    CoverStep(granted, before.tokens, b.capacity, times[0], times[|times| - 2], times[|times| - 1], rate, grant,
              After(b, times).tokens);
  }

  lemma {:induction false} GrantsAndTokens(b: Bucket, times: seq<real>, rate: real)
    requires b.Valid() && rate == b.Rate() && times != [] && Ordered(times) && times[0] >= b.lastRefill
    ensures RunCovered(b, times, rate)
    decreases |times|
  {
    if |times| == 1 {
      var before, granted, grant := LastAttempt(b, times, rate);
    } else {
      GrantsAndTokens(b, times[..|times| - 1], rate);
      RunCoverStep(b, times, rate);
    }
  }

  lemma {:induction false} OneAttempt(b: Bucket, times: seq<real>, now: real)
    ensures After(b, times + [now]) == Attempt(After(b, times), now).0
    ensures Granted(b, times + [now]) == Granted(b, times) + if Grants(After(b, times), now) then 1 else 0
  {
    assert (times + [now])[..|times|] == times;
  }

  /** Attempts after `xs` start from the bucket that `xs` leave behind. */
  lemma {:induction false} GrantedSplit(b: Bucket, xs: seq<real>, ys: seq<real>)
    ensures After(b, xs + ys) == After(After(b, xs), ys)
    ensures Granted(b, xs + ys) == Granted(b, xs) + Granted(After(b, xs), ys)
    decreases |ys|
  {
    if ys == [] {
      assert xs + ys == xs;
    } else {
      assert (xs + ys)[..|xs + ys| - 1] == xs + ys[..|ys| - 1];
      GrantedSplit(b, xs, ys[..|ys| - 1]);
    }
  }

  lemma {:induction false} WindowSplit(b: Bucket, times: seq<real>, i: nat, j: nat) returns (start: Bucket)
    requires i < j <= |times|
    ensures start == After(b, times[..i])
    ensures Granted(b, times[..j]) == Granted(b, times[..i]) + Granted(start, times[i..j])
  {
    start := After(b, times[..i]);
    assert times[..j] == times[..i] + times[i..j];
    GrantedSplit(b, times[..i], times[i..j]);
  }

  lemma {:induction false} WindowGrants(b: Bucket, times: seq<real>, i: nat, j: nat, rate: real)
    returns (granted: nat, tokens: real)
    requires b.Valid() && Ordered(times) && i < j <= |times| && times[0] >= b.lastRefill && rate == b.Rate()
    ensures Granted(b, times[..j]) == Granted(b, times[..i]) + granted
    ensures tokens >= 0.0 && Covered(granted, tokens, b.capacity, times[j - 1] - times[i], rate)
  {
    var start := WindowSplit(b, times, i, j);
    granted := Granted(start, times[i..j]);
    AfterValid(b, times[..i]);
    GrantsAndTokens(start, times[i..j], rate);
    AfterValid(start, times[i..j]);
    tokens := After(start, times[i..j]).tokens;
  }

  lemma {:induction false} WindowBoundAt(b: Bucket, times: seq<real>, i: nat, j: nat, width: real, rate: real)
    requires b.Valid() && Ordered(times) && i < j <= |times| && times[j - 1] - times[i] <= width
    requires times[0] >= b.lastRefill && rate == b.Rate()
    ensures (Granted(b, times[..j]) - Granted(b, times[..i])) as real <= b.capacity + width * rate
  {
    var granted, tokens := WindowGrants(b, times, i, j, rate);
    RateNonNeg(b);
    Widened(granted, tokens, b.capacity, times[j - 1] - times[i], width, rate);
  }

  /** In any run with a clock that never goes back, a window of `width` seconds holds a bounded number of grants. */
  lemma {:induction false} WindowBound(b: Bucket, times: seq<real>, i: nat, j: nat, width: real)
    requires b.Valid() && Ordered(times) && i < j <= |times| && times[j - 1] - times[i] <= width
    requires times[0] >= b.lastRefill
    ensures (Granted(b, times[..j]) - Granted(b, times[..i])) as real <= b.capacity + width * b.Rate()
  {
    WindowBoundAt(b, times, i, j, width, b.Rate());
  }

  lemma {:induction false} Widened(granted: nat, tokens: real, capacity: real, x: real, y: real, rate: real)
    requires Covered(granted, tokens, capacity, x, rate) && tokens >= 0.0 && rate >= 0.0 && x <= y
    ensures granted as real <= capacity + y * rate
  {
    ScaleBelow(x, y, rate);
  }

  lemma {:induction false} PeriodRefills(b: Bucket)
    requires b.period >= EPSILON
    ensures b.period * b.Rate() == b.capacity
  {
    assert b.period * (b.capacity / b.period) == b.capacity;
  }

  /** Over one refill period no more than twice the capacity is granted. */
  lemma {:induction false} TwiceTheCapacity(b: Bucket, times: seq<real>, i: nat, j: nat)
    requires b.Valid() && Ordered(times) && i < j <= |times| && b.period >= EPSILON
    requires times[0] >= b.lastRefill && times[j - 1] - times[i] <= b.period
    ensures (Granted(b, times[..j]) - Granted(b, times[..i])) as real <= 2.0 * b.capacity
  {
    WindowBoundAt(b, times, i, j, b.period, b.Rate());
    PeriodRefills(b);
  }

  // ---------------------------------------------------------------- the bound is attained

  function Burst(n: nat, t: real): seq<real> { seq(n, i => t) }

  lemma {:induction false} BurstDrains(b: Bucket, n: nat, t: real)
    requires b.Valid() && b.TokensAt(t) >= n as real && n > 0
    ensures Granted(b, Burst(n, t)) == n
    ensures After(b, Burst(n, t)).tokens == b.TokensAt(t) - n as real && After(b, Burst(n, t)).lastRefill == t
  {
    assert Burst(n, t)[..n - 1] == Burst(n - 1, t);
    AfterValid(b, Burst(n - 1, t));
    if n > 1 {
      BurstDrains(b, n - 1, t);
      NoRefill(After(b, Burst(n - 1, t)), t);
    }
  }

  lemma {:induction false} NoRefill(b: Bucket, t: real)
    requires b.Valid() && b.lastRefill == t
    ensures b.TokensAt(t) == b.tokens
  {
    assert 0.0 * b.Rate() == 0.0;
  }

  lemma {:induction false} FullRefill(b: Bucket, t: real)
    requires b.Valid() && b.tokens == 0.0 && b.period >= EPSILON && t == b.lastRefill + b.period
    ensures b.TokensAt(t) == b.capacity
  {
    PeriodRefills(b);
  }

  ghost predicate Drained(b: Bucket, n: nat, t: real) {
    b.Valid() && b.tokens == 0.0 && b.lastRefill == t && b.capacity == n as real
  }

  lemma {:induction false} FirstBurst(n: nat, period: real, t: real) returns (drained: Bucket)
    requires n > 0
    ensures Granted(NewBucket(n, period, t), Burst(n, t)) == n
    ensures drained == After(NewBucket(n, period, t), Burst(n, t))
    ensures Drained(drained, n, t) && drained.period == period
  {
    var b := NewBucket(n, period, t);
    NoRefill(b, t);
    BurstDrains(b, n, t);
    AfterValid(b, Burst(n, t));
    drained := After(b, Burst(n, t));
  }

  lemma {:induction false} SecondBurst(b: Bucket, n: nat, t: real)
    requires n > 0 && Drained(b, n, t) && b.period >= EPSILON
    ensures Granted(b, Burst(n, t + b.period)) == n
  {
    FullRefill(b, t + b.period);
    BurstDrains(b, n, t + b.period);
  }

  /**
   The bound is attained: n attempts at once and n more one period later are all granted, so a cap
   of n in a rolling window of that length, as the module documentation has it, does not hold.
   */
  lemma {:induction false} TwiceTheCapacityIsReached(n: nat, period: real, t: real)
    requires n > 0 && period >= EPSILON
    ensures var times := Burst(n, t) + Burst(n, t + period);
            Ordered(times) && Granted(NewBucket(n, period, t), times) == 2 * n
  {
    var drained := FirstBurst(n, period, t);
    SecondBurst(drained, n, t);
    GrantedSplit(NewBucket(n, period, t), Burst(n, t), Burst(n, t + period));
  }

  // ---------------------------------------------------------------- when the rolling cap does hold

  /** Whatever attempts are made in the period that opens at t, no more than the capacity n are granted. */
  ghost predicate RollingCap(b: Bucket, n: nat, t: real) {
    forall times | times != [] && Ordered(times) && t <= times[0] && times[|times| - 1] <= t + b.period ::
      Granted(b, times) <= n
  }

  /** Tokens held later are at most those held before plus the refill in between. */
  lemma {:induction false} TokensGrow(b: Bucket, t: real, u: real, rate: real)
    requires b.Valid() && rate == b.Rate() && b.lastRefill <= t <= u
    ensures b.TokensAt(u) <= b.TokensAt(t) + (u - t) * rate
  {
    RateNonNeg(b);
    Distribute(t - b.lastRefill, u - t, rate);
    Product(u - t, rate);
  }

  lemma {:induction false} FirstFrom(b: Bucket, t: real, now: real, rate: real) returns (r: Bucket, grant: nat)
    requires b.Valid() && rate == b.Rate() && b.lastRefill <= t <= now
    ensures r == Attempt(b, now).0 && grant == if Grants(b, now) then 1 else 0
    ensures Covered(grant, r.tokens, b.TokensAt(t), now - t, rate)
  {
    AttemptStep(b, now, rate);
    TokensGrow(b, t, now, rate);
    r := Attempt(b, now).0;
    grant := if Grants(b, now) then 1 else 0;
  }

  /** Grants from t on are covered by the tokens held at t and the refill since. */
  lemma {:induction false} GrantsFrom(b: Bucket, times: seq<real>, t: real, rate: real)
    requires b.Valid() && rate == b.Rate() && times != [] && Ordered(times) && b.lastRefill <= t <= times[0]
    ensures Covered(Granted(b, times), After(b, times).tokens, b.TokensAt(t), times[|times| - 1] - t, rate)
    decreases |times|
  {
    if |times| == 1 {
      var r, grant := FirstFrom(b, t, times[0], rate);
      GrantsNext(b, times, r, grant);
    } else {
      GrantsFrom(b, times[..|times| - 1], t, rate);
      var before, granted, grant := LastAttempt(b, times, rate);
      CoverStep(granted, before.tokens, b.TokensAt(t), t, times[|times| - 2], times[|times| - 1], rate, grant,
                After(b, times).tokens);
    }
  }

  ghost predicate Refills(period: real, rate: real, capacity: real) { rate >= 0.0 && period * rate == capacity }

  lemma {:induction false} RefillRate(b: Bucket) returns (rate: real)
    requires b.Valid() && b.period >= EPSILON
    ensures rate == b.Rate() && Refills(b.period, rate, b.capacity)
  {
    rate := b.Rate();
    RateNonNeg(b);
    PeriodRefills(b);
  }

  lemma {:induction false} WithinCapacity(granted: nat, tokens: real, held: real, seconds: real, period: real,
                                          rate: real, capacity: real, n: nat)
    requires Covered(granted, tokens, held, seconds, rate) && tokens >= 0.0 && held < 1.0
    requires seconds <= period && Refills(period, rate, capacity) && capacity == n as real
    ensures granted <= n
  {
    Widened(granted, tokens, held, seconds, period, rate);
  }

  lemma {:induction false} SpentFrom(b: Bucket, times: seq<real>, t: real, rate: real)
    returns (granted: nat, tokens: real, held: real)
    requires b.Valid() && rate == b.Rate() && times != [] && Ordered(times) && b.lastRefill <= t <= times[0]
    ensures granted == Granted(b, times) && tokens >= 0.0 && held == b.TokensAt(t)
    ensures Covered(granted, tokens, held, times[|times| - 1] - t, rate)
  {
    GrantsFrom(b, times, t, rate);
    AfterValid(b, times);
    granted, tokens, held := Granted(b, times), After(b, times).tokens, b.TokensAt(t);
  }

  lemma {:induction false} CapFromEmpty(b: Bucket, n: nat, t: real, times: seq<real>)
    requires b.Valid() && b.capacity == n as real && b.period >= EPSILON && b.lastRefill <= t && b.TokensAt(t) < 1.0
    requires times != [] && Ordered(times) && t <= times[0] && times[|times| - 1] <= t + b.period
    ensures Granted(b, times) <= n
  {
    var rate := RefillRate(b);
    var granted, tokens, held := SpentFrom(b, times, t, rate);
    WithinCapacity(granted, tokens, held, times[|times| - 1] - t, b.period, rate, b.capacity, n);
  }

  lemma {:induction false} RefillsToCapacity(b: Bucket, t: real)
    requires b.Valid() && b.lastRefill == t && b.period >= EPSILON
    ensures b.TokensAt(t + b.period) == b.capacity
  {
    PeriodRefills(b);
  }

  /** One attempt when the period opens and n when it ends. */
  function OnePlus(n: nat, t: real, period: real): seq<real> { Burst(1, t) + Burst(n, t + period) }

  lemma {:induction false} FirstOf(b: Bucket, t: real) returns (rest: Bucket)
    requires b.Valid() && b.TokensAt(t) >= 1.0
    ensures rest == After(b, Burst(1, t)) && Granted(b, Burst(1, t)) == 1 && b.capacity >= 1.0
    ensures rest.Valid() && rest.capacity == b.capacity && rest.period == b.period && rest.lastRefill == t
  {
    BurstDrains(b, 1, t);
    AfterValid(b, Burst(1, t));
    rest := After(b, Burst(1, t));
  }

  lemma {:induction false} BurstAfter(b: Bucket, n: nat, t: real)
    requires b.Valid() && b.capacity == n as real && n > 0 && b.lastRefill == t && b.period >= EPSILON
    ensures Granted(b, Burst(n, t + b.period)) == n
  {
    RefillsToCapacity(b, t);
    BurstDrains(b, n, t + b.period);
  }

  lemma {:induction false} OneTooMany(b: Bucket, n: nat, t: real)
    requires b.Valid() && b.capacity == n as real && b.period >= EPSILON && b.TokensAt(t) >= 1.0
    ensures n > 0 && Ordered(OnePlus(n, t, b.period)) && Granted(b, OnePlus(n, t, b.period)) == n + 1
  {
    var rest := FirstOf(b, t);
    BurstAfter(rest, n, t);
    GrantedSplit(b, Burst(1, t), Burst(n, t + b.period));
  }

  /** The cap of n in the period that opens at t holds exactly when less than one token is held at t. */
  lemma {:induction false} RollingCapIff(b: Bucket, n: nat, t: real)
    requires b.Valid() && b.capacity == n as real && b.period >= EPSILON && b.lastRefill <= t
    ensures RollingCap(b, n, t) <==> b.TokensAt(t) < 1.0
  {
    if b.TokensAt(t) < 1.0 {
      forall times | times != [] && Ordered(times) && t <= times[0] && times[|times| - 1] <= t + b.period
        ensures Granted(b, times) <= n
      {
        CapFromEmpty(b, n, t, times);
      }
    } else {
      OneTooMany(b, n, t);
      assert Granted(b, OnePlus(n, t, b.period)) > n;
    }
  }

  // ---------------------------------------------------------------- the wait hint

  lemma {:induction false} Reaches(tokens: real, rate: real, dt: real)
    requires rate > 0.0 && tokens < 1.0
    ensures tokens + dt * rate >= 1.0 <==> dt >= (1.0 - tokens) / rate
  {
    var need := (1.0 - tokens) / rate;
    assert need * rate == 1.0 - tokens;
    if dt >= need { ScaleBelow(need, dt, rate); }
    if dt < need { assert (need - dt) * rate > 0.0; Distribute(need - dt, dt, rate); }
  }

  /** Undisturbed, a retry succeeds exactly from the hinted wait on, and never if the bucket cannot hold a token. */
  lemma {:induction false} RetrySucceedsFromTheHint(b: Bucket, now: real, later: real)
    requires b.Valid() && !Grants(b, now) && later >= now
    ensures var (refused, outcome) := Attempt(b, now);
            Grants(refused, later) <==> b.capacity >= 1.0 && later - now >= outcome.error
  {
    var refused := Attempt(b, now).0;
    AttemptStep(b, now, b.Rate());
    if b.capacity > 0.0 {
      PositiveRate(b);
      Reaches(refused.tokens, b.Rate(), later - now);
      HintIsWait(b, refused.tokens, b.Rate());
    }
  }

  lemma {:induction false} PositiveRate(b: Bucket)
    requires b.capacity > 0.0
    ensures b.Rate() > 0.0
  {
  }

  lemma {:induction false} HintIsWait(b: Bucket, tokens: real, rate: real)
    requires rate == b.Rate() && rate > 0.0 && tokens < 1.0
    ensures Hint(b, tokens) == (1.0 - tokens) / rate > 0.0
  {
  }

  /** The bucket as a shared object; the lock makes each attempt one step. */
  class TokenBucket {
    const capacity: real
    const refillPeriod: real
    var tokens: real
    var lastRefill: real
    var lastConsume: Option<real>

    function View(): Bucket
      reads this
    {
      Bucket(capacity, refillPeriod, tokens, lastRefill, lastConsume)
    }

    constructor (cap: nat, period: real, now: real)
      ensures View() == NewBucket(cap, period, now) && View().Valid()
    {
      capacity, refillPeriod, tokens := cap as real, period, cap as real;
      lastRefill, lastConsume := now, None;
    }

    method TryAcquire(now: real) returns (outcome: Result<(), real>)
      requires View().Valid()
      modifies this
      ensures (View(), outcome) == Attempt(old(View()), now)
      ensures View().Valid()
    {
      AttemptStep(View(), now, View().Rate());
      var elapsed := Max(now - lastRefill, 0.0);
      var rate := View().Rate();
      ghost var before := View();
      tokens := Min(tokens + elapsed * rate, capacity);
      assert tokens == before.TokensAt(now);
      lastRefill := now;
      if tokens >= 1.0 {
        tokens := tokens - 1.0;
        lastConsume := Some(now);
        outcome := Ok(());
      } else {
        outcome := Err(Hint(View(), tokens));
      }
    }
  }
}
