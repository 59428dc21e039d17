/** The cooldown under overlapping calls: when a configuration keeps it in every run, and how it fails. */
module PacingOverlap {
  import opened Wrappers
  import opened TokenBuckets
  import opened Pacing

  // ---------------------------------------------------------------- two calls on one key

  /** Two calls begin at t, pass the total bucket at t and u, and the key's bucket at u and v. */
  function Overlap(h: int, t: real, u: real, v: real): seq<Action> {
    [Begin(1, h, t), Begin(2, h, t), Resume(1, t), Resume(2, u), Resume(1, u), Resume(2, v)]
  }

  /** The bucket grants at both times. */
  ghost predicate GrantsTwice(b: Bucket, first: real, second: real) {
    Grants(b, first) && Grants(Attempt(b, first).0, second)
  }

  lemma {:induction false} OverlapBegins(cfg: Config, h: int, t: real, u: real, v: real)
    ensures var run := Overlap(h, t, u, v)[..2]; var key := NewBucket(cfg.burst, KEY_PERIOD, t);
            && Possible(cfg, t, run)
            && Pacing.After(cfg, t, run) == Start(cfg, t).(
              perKey := map[h := key], calls := map[1 := Call(h, Total, t, 0.0), 2 := Call(h, Total, t, 0.0)])
  {
    var run, key := Overlap(h, t, u, v), NewBucket(cfg.burst, KEY_PERIOD, t);
    Extend(cfg, t, [], run[0]);
    assert run[..1] == [] + [run[0]];
    Extend(cfg, t, run[..1], run[1]);
    assert run[..2] == run[..1] + [run[1]];
    assert Start(cfg, t).perKey[h := key][h := key] == map[h := key];
  }

  /** Check and consume are separate steps: when both buckets grant twice, both calls succeed. */
  lemma {:induction false} OverlapGrants(cfg: Config, h: int, t: real, u: real, v: real)
    requires t <= u <= v
    requires GrantsTwice(NewBucket(cfg.historicalMax, TOTAL_PERIOD, t), t, u)
    requires GrantsTwice(NewBucket(cfg.burst, KEY_PERIOD, t), u, v)
    ensures Possible(cfg, t, Overlap(h, t, u, v))
            && Pacing.After(cfg, t, Overlap(h, t, u, v)).granted == [(h, u), (h, v)]
  {
    var run := Overlap(h, t, u, v);
    OverlapBegins(cfg, h, t, u, v);
    Extend(cfg, t, run[..2], run[2]);
    assert run[..3] == run[..2] + [run[2]];
    Extend(cfg, t, run[..3], run[3]);
    assert run[..4] == run[..3] + [run[3]];
    Extend(cfg, t, run[..4], run[4]);
    assert run[..5] == run[..4] + [run[4]];
    Extend(cfg, t, run[..5], run[5]);
    assert run == run[..5] + [run[5]];
  }

  lemma {:induction false} TwoAtOnce(n: nat, period: real, t: real)
    requires n >= 2
    ensures GrantsTwice(NewBucket(n, period, t), t, t)
  {
    NoRefill(NewBucket(n, period, t), t);
    NoRefill(Attempt(NewBucket(n, period, t), t).0, t);
  }

  /** Overlapping calls on one key both succeed at one instant, whatever the cooldown. */
  lemma {:induction false} OverlapDefeatsCooldown(cfg: Config, h: int, t: real)
    requires cfg.historicalMax >= 2 && cfg.burst >= 2
    ensures Possible(cfg, t, Overlap(h, t, t, t))
            && Pacing.After(cfg, t, Overlap(h, t, t, t)).granted == [(h, t), (h, t)]
  {
    TwoAtOnce(cfg.historicalMax, TOTAL_PERIOD, t);
    TwoAtOnce(cfg.burst, KEY_PERIOD, t);
    OverlapGrants(cfg, h, t, t, t);
  }

  // ---------------------------------------------------------------- the gap the key's bucket enforces

  /** How far apart the burst bucket alone keeps two grants. */
  function BurstGap(cfg: Config): real { if cfg.burst == 1 then KEY_PERIOD else 0.0 }

  /** The configurations under which no interleaving breaks the cooldown. */
  predicate KeepsCooldown(cfg: Config) {
    cfg.historicalMax == 0 || cfg.burst == 0 || cfg.cooldown <= BurstGap(cfg)
  }

  /** A key's bucket: with a single token, what it holds has come back since its last use. */
  ghost predicate KeyTimed(cfg: Config, b: Bucket, clock: real) {
    && b.Valid() && b.capacity == cfg.burst as real && b.period == KEY_PERIOD && b.lastRefill <= clock
    && (b.lastConsume.Some? ==> b.lastConsume.value <= b.lastRefill)
    && (b.lastConsume.Some? && cfg.burst == 1 ==> 2.0 * b.tokens <= b.lastRefill - b.lastConsume.value)
  }

  lemma {:induction false} KeyRate(cfg: Config, b: Bucket, clock: real)
    requires KeyTimed(cfg, b, clock) && cfg.burst == 1
    ensures b.Rate() == 0.5
  {
  }

  lemma {:induction false} KeyAttempt(cfg: Config, b: Bucket, clock: real, now: real)
    requires KeyTimed(cfg, b, clock) && clock <= now
    ensures KeyTimed(cfg, Attempt(b, now).0, now)
    ensures Grants(b, now) ==> cfg.burst > 0 && Attempt(b, now).0.lastConsume == Some(now)
    ensures Grants(b, now) && b.lastConsume.Some? ==> now - b.lastConsume.value >= BurstGap(cfg)
    ensures !Grants(b, now) ==> Attempt(b, now).0.lastConsume == b.lastConsume
  {
    AttemptStep(b, now, b.Rate());
    if cfg.burst == 1 { KeyRate(cfg, b, clock); }
  }

  ghost predicate GapsKept(gap: real, granted: seq<(int, real)>) {
    forall i, j | 0 <= i < j < |granted| && granted[i].0 == granted[j].0 :: granted[j].1 - granted[i].1 >= gap
  }

  ghost predicate Timed(cfg: Config, g: Governor) {
    && (forall h | h in g.perKey :: KeyTimed(cfg, g.perKey[h], g.clock))
    && (forall k | 0 <= k < |g.granted| :: Recorded(g, g.granted[k]))
    && (cfg.burst == 0 ==> g.granted == [])
    && GapsKept(BurstGap(cfg), g.granted)
  }

  lemma {:induction false} NewKeyTimed(cfg: Config, now: real)
    ensures KeyTimed(cfg, NewBucket(cfg.burst, KEY_PERIOD, now), now)
  {
  }

  lemma {:induction false} BeginTimed(cfg: Config, g: Governor, call: int, hash: int, now: real)
    requires Timed(cfg, g) && Enabled(g, Begin(call, hash, now))
    ensures Timed(cfg, BeginCall(cfg, g, call, hash, now))
  {
    NewKeyTimed(cfg, now);
  }

  lemma {:induction false} ResumeKeyTimed(cfg: Config, g: Governor, call: int, now: real)
    requires Timed(cfg, g) && Enabled(g, Resume(call, now))
    ensures Timed(cfg, ResumeKey(cfg, g, call, now))
  {
    KeyAttempt(cfg, g.perKey[g.calls[call].hash], g.clock, now);
  }

  lemma {:induction false} RunTimed(cfg: Config, start: real, run: seq<Action>)
    requires Possible(cfg, start, run)
    ensures Timed(cfg, Pacing.After(cfg, start, run))
    decreases |run|
  {
    if run != [] {
      var g, a := Pacing.After(cfg, start, run[..|run| - 1]), run[|run| - 1];
      RunTimed(cfg, start, run[..|run| - 1]);
      match a
      case Begin(call, hash, now) => BeginTimed(cfg, g, call, hash, now);
      case Resume(call, now) => ResumeKeyTimed(cfg, g, call, now);
      case Abandon(_, _) =>
    }
  }

  // ---------------------------------------------------------------- the exact condition

  lemma {:induction false} EmptyNeverGrants(b: Bucket, times: seq<real>)
    requires b.Valid() && b.capacity == 0.0
    ensures Granted(b, times) == 0
    decreases |times|
  {
    if times != [] {
      EmptyNeverGrants(b, times[..|times| - 1]);
      AfterValid(b, times[..|times| - 1]);
    }
  }

  lemma {:induction false} NothingGranted(cfg: Config, start: real, run: seq<Action>)
    requires Possible(cfg, start, run) && cfg.historicalMax == 0
    ensures Pacing.After(cfg, start, run).granted == []
  {
    RunTotal(cfg, start, run);
    EmptyNeverGrants(NewBucket(0, TOTAL_PERIOD, start), Pacing.After(cfg, start, run).totalTimes);
  }

  lemma {:induction false} KeptInEveryRun(cfg: Config, start: real, run: seq<Action>)
    requires Possible(cfg, start, run) && KeepsCooldown(cfg)
    ensures Spacing(cfg, Pacing.After(cfg, start, run).granted)
  {
    RunTimed(cfg, start, run);
    if cfg.historicalMax == 0 { NothingGranted(cfg, start, run); }
  }

  lemma {:induction false} TotalRefills(n: nat, t: real)
    requires n > 0
    ensures GrantsTwice(NewBucket(n, TOTAL_PERIOD, t), t, t + TOTAL_PERIOD)
  {
    var b := NewBucket(n, TOTAL_PERIOD, t);
    NoRefill(b, t);
    AttemptStep(b, t, b.Rate());
    RefillsToCapacity(Attempt(b, t).0, t);
  }

  /** A new bucket is still full later on. */
  lemma {:induction false} FullLater(n: nat, period: real, t: real, u: real)
    requires t <= u
    ensures NewBucket(n, period, t).TokensAt(u) == n as real
  {
    RateNonNeg(NewBucket(n, period, t));
    Product(u - t, NewBucket(n, period, t).Rate());
  }

  lemma {:induction false} KeyGrantsAcrossGap(cfg: Config, t: real, u: real)
    requires cfg.burst > 0 && t <= u
    ensures GrantsTwice(NewBucket(cfg.burst, KEY_PERIOD, t), u, u + BurstGap(cfg))
  {
    var b := NewBucket(cfg.burst, KEY_PERIOD, t);
    FullLater(cfg.burst, KEY_PERIOD, t, u);
    AttemptStep(b, u, b.Rate());
    var rest := Attempt(b, u).0;
    if cfg.burst == 1 { RefillsToCapacity(rest, u); } else { NoRefill(rest, u); }
  }

  /** Two overlapping calls that come just as close as the buckets allow. */
  lemma {:induction false} ClosestOverlap(cfg: Config, h: int, t: real)
    requires cfg.historicalMax > 0 && cfg.burst > 0
    ensures var u := t + TOTAL_PERIOD; var run := Overlap(h, t, u, u + BurstGap(cfg));
            Possible(cfg, t, run) && Pacing.After(cfg, t, run).granted == [(h, u), (h, u + BurstGap(cfg))]
  {
    TotalRefills(cfg.historicalMax, t);
    KeyGrantsAcrossGap(cfg, t, t + TOTAL_PERIOD);
    OverlapGrants(cfg, h, t, t + TOTAL_PERIOD, t + TOTAL_PERIOD + BurstGap(cfg));
  }

  /**
   Over every interleaving of calls, successes on one key are the cooldown apart exactly when one of
   the buckets holds no token, or the cooldown is no longer than the gap that the burst bucket
   enforces by itself: two seconds for a single token, none for more.
   */
  lemma {:induction false} CooldownIsKeptIff(cfg: Config)
    ensures (forall start, run | Possible(cfg, start, run) :: Spacing(cfg, Pacing.After(cfg, start, run).granted))
            <==> KeepsCooldown(cfg)
  {
    if KeepsCooldown(cfg) {
      forall start, run | Possible(cfg, start, run) ensures Spacing(cfg, Pacing.After(cfg, start, run).granted) {
        KeptInEveryRun(cfg, start, run);
      }
    } else {
      ClosestOverlap(cfg, 0, 0.0);
      var run := Overlap(0, 0.0, TOTAL_PERIOD, TOTAL_PERIOD + BurstGap(cfg));
      var granted := Pacing.After(cfg, 0.0, run).granted;
      assert granted[0].0 == granted[1].0 && granted[1].1 - granted[0].1 < cfg.cooldown;
      assert !Spacing(cfg, granted);
    }
  }
}
