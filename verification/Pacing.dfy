/**
 The historical-request governor: calls from any number of tasks, cut at the points where they
 wait or take a bucket's lock, and interleaved arbitrarily. Keys are whatever the hash makes of them.
 */
module Pacing {
  import opened Wrappers
  import opened TokenBuckets

  const TOTAL_PERIOD := 600.0
  const KEY_PERIOD := 2.0

  datatype Config = Config(historicalMax: nat, burst: nat, cooldown: real, reject: bool, maxWait: NonNeg)

  /** What a call does next: first or second attempt on the total bucket, then on its key's bucket. */
  datatype Stage = Total | TotalRetry | Key | KeyRetry

  datatype Call = Call(hash: int, stage: Stage, readyAt: real, slept: real)

  /** `granted` and `totalTimes` record the successes and the attempts on the total bucket. */
  datatype Governor = Governor(
    total: Bucket, perKey: map<int, Bucket>, calls: map<int, Call>, clock: real,
    granted: seq<(int, real)>, totalTimes: seq<real>)

  /** A call may also be abandoned by its caller while it waits. */
  datatype Action =
    | Begin(call: int, hash: int, now: real)
    | Resume(call: int, now: real)
    | Abandon(call: int, now: real)

  function Start(cfg: Config, now: real): Governor {
    Governor(NewBucket(cfg.historicalMax, TOTAL_PERIOD, now), map[], map[], now, [], [])
  }

  predicate Enabled(g: Governor, a: Action) {
    a.now >= g.clock &&
    match a
    case Begin(call, _, _) => call !in g.calls
    case Resume(call, now) => call in g.calls && now >= g.calls[call].readyAt
                              && g.calls[call].hash in g.perKey
    case Abandon(call, _) => call in g.calls
  }

  function KeyBucket(cfg: Config, g: Governor, hash: int, now: real): Bucket {
    if hash in g.perKey then g.perKey[hash] else NewBucket(cfg.burst, KEY_PERIOD, now)
  }

  /** The cooldown still to serve at `now`. */
  function CooldownLeft(cfg: Config, b: Bucket, now: real): real {
    match b.lastConsume
    case None => 0.0
    case Some(ts) => var since := Max(now - ts, 0.0); if since < cfg.cooldown then cfg.cooldown - since else 0.0
  }

  function BeginCall(cfg: Config, g: Governor, call: int, hash: int, now: real): Governor {
    var b := KeyBucket(cfg, g, hash, now);
    var known := g.(perKey := g.perKey[hash := b], clock := now);
    var left := CooldownLeft(cfg, b, now);
    if left > 0.0 && (cfg.reject || left > cfg.maxWait) then known
    else known.(calls := g.calls[call := Call(hash, Total, now + left, left)])
  }

  /** After a failed first attempt: give up, or sleep for the hint and try once more. */
  function Retry(cfg: Config, calls: map<int, Call>, call: int, now: real, hint: real, stage: Stage): map<int, Call>
    requires call in calls
  {
    if cfg.reject || hint > cfg.maxWait then calls - {call}
    else calls[call := calls[call].(stage := stage, readyAt := now + hint, slept := calls[call].slept + hint)]
  }

  function ResumeTotal(cfg: Config, g: Governor, call: int, now: real): Governor
    requires call in g.calls
  {
    var (b, outcome) := Attempt(g.total, now);
    var tried := g.(total := b, clock := now, totalTimes := g.totalTimes + [now]);
    match outcome
    case Ok(_) => tried.(calls := g.calls[call := g.calls[call].(stage := Key, readyAt := now)])
    case Err(hint) =>
      tried.(calls := if g.calls[call].stage.Total? then Retry(cfg, g.calls, call, now, hint, TotalRetry)
                      else g.calls - {call})
  }

  function ResumeKey(cfg: Config, g: Governor, call: int, now: real): Governor
    requires call in g.calls && g.calls[call].hash in g.perKey
  {
    var hash := g.calls[call].hash;
    var (b, outcome) := Attempt(g.perKey[hash], now);
    var tried := g.(perKey := g.perKey[hash := b], clock := now);
    match outcome
    case Ok(_) => tried.(calls := g.calls - {call}, granted := g.granted + [(hash, now)])
    case Err(hint) =>
      tried.(calls := if g.calls[call].stage.Key? then Retry(cfg, g.calls, call, now, hint, KeyRetry)
                      else g.calls - {call})
  }

  function Next(cfg: Config, g: Governor, a: Action): Governor
    requires Enabled(g, a)
  {
    match a
    case Begin(call, hash, now) => BeginCall(cfg, g, call, hash, now)
    case Resume(call, now) =>
      if g.calls[call].stage.Total? || g.calls[call].stage.TotalRetry?
      then ResumeTotal(cfg, g, call, now) else ResumeKey(cfg, g, call, now)
    case Abandon(call, now) => g.(calls := g.calls - {call}, clock := now)
  }

  ghost predicate Possible(cfg: Config, start: real, run: seq<Action>)
    decreases |run|, 0
  {
    run == [] ||
    (Possible(cfg, start, run[..|run| - 1]) && Enabled(After(cfg, start, run[..|run| - 1]), run[|run| - 1]))
  }

  ghost function After(cfg: Config, start: real, run: seq<Action>): Governor
    requires Possible(cfg, start, run)
    decreases |run|, 1
  {
    if run == [] then Start(cfg, start) else Next(cfg, After(cfg, start, run[..|run| - 1]), run[|run| - 1])
  }

  // ---------------------------------------------------------------- how long a call sleeps

  function Naps(stage: Stage): real {
    match stage
    case Total => 1.0
    case TotalRetry => 2.0
    case Key => 2.0
    case KeyRetry => 3.0
  }

  ghost predicate SleepsWithin(cfg: Config, c: Call) {
    0.0 <= c.slept <= Naps(c.stage) * cfg.maxWait && (cfg.reject ==> c.slept == 0.0)
  }

  lemma {:induction false} RetrySleeps(cfg: Config, calls: map<int, Call>, call: int, now: real, hint: real,
                                       stage: Stage)
    requires call in calls && hint >= 0.0 && (forall c | c in calls :: SleepsWithin(cfg, calls[c]))
    requires Naps(stage) == Naps(calls[call].stage) + 1.0
    ensures var r := Retry(cfg, calls, call, now, hint, stage); forall c | c in r :: SleepsWithin(cfg, r[c])
  {
    var r := Retry(cfg, calls, call, now, hint, stage);
    forall c | c in r ensures SleepsWithin(cfg, r[c]) {
      assert c in calls && SleepsWithin(cfg, calls[c]);
    }
  }

  lemma {:induction false} HintNonNeg(b: Bucket, now: real)
    ensures var outcome := Attempt(b, now).1; outcome.Err? ==> outcome.error >= 0.0
  {
  }

  lemma {:induction false} StepSleeps(cfg: Config, g: Governor, a: Action)
    requires Enabled(g, a) && forall c | c in g.calls :: SleepsWithin(cfg, g.calls[c])
    ensures var r := Next(cfg, g, a); forall c | c in r.calls :: SleepsWithin(cfg, r.calls[c])
  {
    if a.Resume? {
      var call := g.calls[a.call];
      if call.stage.Total? || call.stage.TotalRetry? {
        var outcome := Attempt(g.total, a.now).1;
        HintNonNeg(g.total, a.now);
        if outcome.Err? && call.stage.Total? { RetrySleeps(cfg, g.calls, a.call, a.now, outcome.error, TotalRetry); }
      } else {
        var outcome := Attempt(g.perKey[call.hash], a.now).1;
        HintNonNeg(g.perKey[call.hash], a.now);
        if outcome.Err? && call.stage.Key? { RetrySleeps(cfg, g.calls, a.call, a.now, outcome.error, KeyRetry); }
      }
    }
  }

  ghost predicate AllSleepWithin(cfg: Config, g: Governor) { forall c | c in g.calls :: SleepsWithin(cfg, g.calls[c]) }

  lemma {:induction false} RunSleeps(cfg: Config, start: real, run: seq<Action>)
    requires Possible(cfg, start, run)
    ensures AllSleepWithin(cfg, After(cfg, start, run))
    decreases |run|
  {
    if run != [] {
      RunSleeps(cfg, start, run[..|run| - 1]);
      StepSleeps(cfg, After(cfg, start, run[..|run| - 1]), run[|run| - 1]);
    }
  }

  /** No call ever asks for more sleep than three times the maximum wait, and none at all under the reject policy. */
  lemma {:induction false} SleepIsBounded(cfg: Config, start: real, run: seq<Action>, c: int)
    requires Possible(cfg, start, run) && c in After(cfg, start, run).calls
    ensures var slept := After(cfg, start, run).calls[c].slept;
            0.0 <= slept <= 3.0 * cfg.maxWait && (cfg.reject ==> slept == 0.0)
  {
    RunSleeps(cfg, start, run);
    assert SleepsWithin(cfg, After(cfg, start, run).calls[c]);
  }

  // ---------------------------------------------------------------- the total bucket

  ghost predicate TotalTracks(cfg: Config, start: real, g: Governor) {
    && g.total == TokenBuckets.After(NewBucket(cfg.historicalMax, TOTAL_PERIOD, start), g.totalTimes)
    && Ordered(g.totalTimes) && (forall i | 0 <= i < |g.totalTimes| :: start <= g.totalTimes[i] <= g.clock)
    && start <= g.clock
  }

  /** The calls that already hold a token of the total bucket. */
  function Paid(calls: map<int, Call>): set<int> {
    set c | c in calls && (calls[c].stage.Key? || calls[c].stage.KeyRetry?)
  }

  ghost function Spent(cfg: Config, start: real, g: Governor): nat {
    Granted(NewBucket(cfg.historicalMax, TOTAL_PERIOD, start), g.totalTimes)
  }

  /** The tokens of the total bucket taken by successes and by calls still past it. */
  function Taken(g: Governor): nat { |g.granted| + |Paid(g.calls)| }

  /** Each of those tokens was granted; the step from g to r takes no more than are granted in it. */
  ghost predicate PaidFor(cfg: Config, start: real, g: Governor, r: Governor) {
    Taken(r) - Taken(g) <= Spent(cfg, start, r) - Spent(cfg, start, g)
  }

  lemma {:induction false} TotalAttempt(cfg: Config, start: real, g: Governor, now: real)
    requires TotalTracks(cfg, start, g) && now >= g.clock
    ensures var r := g.(total := Attempt(g.total, now).0, clock := now, totalTimes := g.totalTimes + [now]);
            && TotalTracks(cfg, start, r)
            && Spent(cfg, start, r) == Spent(cfg, start, g) + if Grants(g.total, now) then 1 else 0
  {
    OneAttempt(NewBucket(cfg.historicalMax, TOTAL_PERIOD, start), g.totalTimes, now);
  }

  lemma {:induction false} PaidWithin(a: map<int, Call>, b: map<int, Call>, joined: set<int>)
    requires Paid(b) <= Paid(a) + joined
    ensures |Paid(b)| <= |Paid(a)| + |joined|
  {
    assert Paid(a) + joined == Paid(b) + (Paid(a) + joined - Paid(b));
  }

  lemma {:induction false} ResumeTotalPays(cfg: Config, start: real, g: Governor, call: int, now: real)
    requires Enabled(g, Resume(call, now)) && TotalTracks(cfg, start, g)
    ensures var r := ResumeTotal(cfg, g, call, now); TotalTracks(cfg, start, r) && PaidFor(cfg, start, g, r)
  {
    var r := ResumeTotal(cfg, g, call, now);
    TotalAttempt(cfg, start, g, now);
    var tried := g.(total := Attempt(g.total, now).0, clock := now, totalTimes := g.totalTimes + [now]);
    assert r == tried.(calls := r.calls);
    PaidWithin(g.calls, r.calls, if Grants(g.total, now) then {call} else {});
  }

  lemma {:induction false} ResumeKeyPays(cfg: Config, start: real, g: Governor, call: int, now: real)
    requires Enabled(g, Resume(call, now)) && TotalTracks(cfg, start, g)
    requires g.calls[call].stage.Key? || g.calls[call].stage.KeyRetry?
    ensures var r := ResumeKey(cfg, g, call, now); TotalTracks(cfg, start, r) && PaidFor(cfg, start, g, r)
  {
    var r := ResumeKey(cfg, g, call, now);
    if Grants(g.perKey[g.calls[call].hash], now) {
      assert Paid(g.calls) == Paid(r.calls) + {call};
    } else {
      PaidWithin(g.calls, r.calls, {});
    }
  }

  lemma {:induction false} StepTotal(cfg: Config, start: real, g: Governor, a: Action)
    requires Enabled(g, a) && TotalTracks(cfg, start, g)
    ensures TotalTracks(cfg, start, Next(cfg, g, a)) && PaidFor(cfg, start, g, Next(cfg, g, a))
  {
    match a
    case Begin(_, _, _) => PaidWithin(g.calls, Next(cfg, g, a).calls, {});
    case Abandon(_, _) => PaidWithin(g.calls, Next(cfg, g, a).calls, {});
    case Resume(call, now) =>
      if g.calls[call].stage.Total? || g.calls[call].stage.TotalRetry? {
        ResumeTotalPays(cfg, start, g, call, now);
      } else {
        ResumeKeyPays(cfg, start, g, call, now);
      }
  }

  lemma {:induction false} RunTotal(cfg: Config, start: real, run: seq<Action>)
    requires Possible(cfg, start, run)
    ensures TotalTracks(cfg, start, After(cfg, start, run))
    ensures Taken(After(cfg, start, run)) <= Spent(cfg, start, After(cfg, start, run))
    decreases |run|
  {
    if run == [] {
      assert Paid(map[]) == {};
    } else {
      RunTotal(cfg, start, run[..|run| - 1]);
      StepTotal(cfg, start, After(cfg, start, run[..|run| - 1]), run[|run| - 1]);
    }
  }

  /**
   However the calls interleave, the total bucket grants at most twice `historicalMax` in any ten
   minutes, and every successful call has spent one of those grants.
   */
  lemma {:induction false} TotalRateIsBounded(cfg: Config, start: real, run: seq<Action>, i: nat, j: nat)
    requires Possible(cfg, start, run)
    requires var times := After(cfg, start, run).totalTimes;
             i < j <= |times| && times[j - 1] - times[i] <= 600.0
    ensures var g := After(cfg, start, run); var b := NewBucket(cfg.historicalMax, TOTAL_PERIOD, start);
            && Granted(b, g.totalTimes[..j]) - Granted(b, g.totalTimes[..i]) <= 2 * cfg.historicalMax
            && |g.granted| <= Granted(b, g.totalTimes)
  {
    RunTotal(cfg, start, run);
    TwiceTheCapacity(NewBucket(cfg.historicalMax, TOTAL_PERIOD, start), After(cfg, start, run).totalTimes, i, j);
  }

  // ---------------------------------------------------------------- what follows a run

  lemma {:induction false} Extend(cfg: Config, start: real, run: seq<Action>, a: Action)
    requires Possible(cfg, start, run) && Enabled(After(cfg, start, run), a)
    ensures Possible(cfg, start, run + [a])
    ensures After(cfg, start, run + [a]) == Next(cfg, After(cfg, start, run), a)
  {
    assert (run + [a])[..|run|] == run;
  }

  /** All the actions happen in the ten minutes that open at t. */
  ghost predicate InWindow(more: seq<Action>, t: real) {
    forall i | 0 <= i < |more| :: t <= more[i].now <= t + 600.0
  }

  /** However the run goes on for ten minutes from t, the total bucket grants at most `historicalMax` in them. */
  ghost predicate TenMinuteCap(cfg: Config, start: real, run: seq<Action>, t: real)
    requires Possible(cfg, start, run)
  {
    forall more | Possible(cfg, start, run + more) && InWindow(more, t) ::
      Spent(cfg, start, After(cfg, start, run + more)) <= Spent(cfg, start, After(cfg, start, run)) + cfg.historicalMax
  }

  lemma {:induction false} OneMore(cfg: Config, start: real, run: seq<Action>, more: seq<Action>)
    requires more != [] && Possible(cfg, start, run + more)
    ensures Possible(cfg, start, run + more[..|more| - 1])
    ensures Enabled(After(cfg, start, run + more[..|more| - 1]), more[|more| - 1])
    ensures After(cfg, start, run + more) == Next(cfg, After(cfg, start, run + more[..|more| - 1]), more[|more| - 1])
  {
    assert (run + more)[..|run + more| - 1] == run + more[..|more| - 1];
  }

  ghost predicate TimesWithin(times: seq<real>, from: real, until: real) {
    forall i | 0 <= i < |times| :: from <= times[i] <= until
  }

  lemma {:induction false} NextTimes(cfg: Config, g: Governor, a: Action) returns (times: seq<real>)
    requires Enabled(g, a)
    ensures Next(cfg, g, a).totalTimes == g.totalTimes + times && (times == [] || times == [a.now])
  {
    times := if Next(cfg, g, a).totalTimes == g.totalTimes then [] else [a.now];
  }

  lemma {:induction false} Joined(xs: seq<real>, ys: seq<real>, zs: seq<real>)
    ensures xs + ys + zs == xs + (ys + zs)
  {
  }

  lemma {:induction false} WithinBoth(xs: seq<real>, ys: seq<real>, from: real, until: real)
    requires TimesWithin(xs, from, until) && TimesWithin(ys, from, until)
    ensures TimesWithin(xs + ys, from, until)
  {
  }

  lemma {:induction false} OneMoreTime(cfg: Config, before: seq<real>, g: Governor, first: seq<real>, a: Action,
                                       t: real)
    returns (times: seq<real>)
    requires Enabled(g, a) && g.totalTimes == before + first && TimesWithin(first, t, t + TOTAL_PERIOD)
    requires t <= a.now <= t + TOTAL_PERIOD
    ensures Next(cfg, g, a).totalTimes == before + times && TimesWithin(times, t, t + TOTAL_PERIOD)
  {
    var next := NextTimes(cfg, g, a);
    times := first + next;
    Joined(before, first, next);
    WithinBoth(first, next, t, t + TOTAL_PERIOD);
  }

  /** The attempts on the total bucket that the actions from a point on make. */
  lemma {:induction false} AttemptsSince(cfg: Config, start: real, run: seq<Action>, more: seq<Action>, t: real)
    returns (times: seq<real>)
    requires Possible(cfg, start, run) && Possible(cfg, start, run + more) && InWindow(more, t)
    ensures After(cfg, start, run + more).totalTimes == After(cfg, start, run).totalTimes + times
    ensures TimesWithin(times, t, t + TOTAL_PERIOD)
    decreases |more|
  {
    if more == [] {
      assert run + more == run;
      times := [];
    } else {
      var init, last := more[..|more| - 1], more[|more| - 1];
      OneMore(cfg, start, run, more);
      var first := AttemptsSince(cfg, start, run, init, t);
      times := OneMoreTime(cfg, After(cfg, start, run).totalTimes, After(cfg, start, run + init), first, last, t);
    }
  }

  // ---------------------------------------------------------------- how many calls succeed in ten minutes

  lemma {:induction false} SuccessesArePaid(cfg: Config, start: real, run: seq<Action>, more: seq<Action>)
    requires Possible(cfg, start, run) && Possible(cfg, start, run + more)
    ensures PaidFor(cfg, start, After(cfg, start, run), After(cfg, start, run + more))
    decreases |more|
  {
    if more == [] {
      assert run + more == run;
    } else {
      var init := more[..|more| - 1];
      OneMore(cfg, start, run, more);
      SuccessesArePaid(cfg, start, run, init);
      RunTotal(cfg, start, run + init);
      StepTotal(cfg, start, After(cfg, start, run + init), more[|more| - 1]);
    }
  }

  lemma {:induction false} GrantsSince(cfg: Config, start: real, run: seq<Action>, more: seq<Action>, t: real)
    requires Possible(cfg, start, run) && Possible(cfg, start, run + more) && InWindow(more, t)
    ensures Spent(cfg, start, After(cfg, start, run + more))
            <= Spent(cfg, start, After(cfg, start, run)) + 2 * cfg.historicalMax
  {
    var all, before := After(cfg, start, run + more).totalTimes, After(cfg, start, run).totalTimes;
    var times := AttemptsSince(cfg, start, run, more, t);
    RunTotal(cfg, start, run + more);
    assert all[..|all|] == all && all[..|before|] == before;
    if times != [] {
      assert all[|before|] == times[0] && all[|all| - 1] == times[|times| - 1];
      TwiceTheCapacity(NewBucket(cfg.historicalMax, TOTAL_PERIOD, start), all, |before|, |all|);
    }
  }

  /**
   However the calls interleave, those that succeed in ten minutes are at most the grants of the total
   bucket in them and the calls that already held its token when they began: at most twice
   `historicalMax` and these.
   */
  lemma {:induction false} SuccessesAreBounded(cfg: Config, start: real, run: seq<Action>, more: seq<Action>, t: real)
    requires Possible(cfg, start, run) && Possible(cfg, start, run + more) && InWindow(more, t)
    ensures var g, r := After(cfg, start, run), After(cfg, start, run + more);
            |r.granted| - |g.granted| <= Spent(cfg, start, r) - Spent(cfg, start, g) + |Paid(g.calls)|
                                      <= 2 * cfg.historicalMax + |Paid(g.calls)|
  {
    SuccessesArePaid(cfg, start, run, more);
    GrantsSince(cfg, start, run, more, t);
  }

  // ---------------------------------------------------------------- when the documented cap does hold

  lemma {:induction false} OrderedTail(xs: seq<real>, ys: seq<real>)
    requires Ordered(xs + ys)
    ensures Ordered(ys)
  {
    forall i, j | 0 <= i <= j < |ys| ensures ys[i] <= ys[j] { assert (xs + ys)[|xs| + i] <= (xs + ys)[|xs| + j]; }
  }

  lemma {:induction false} SpentSince(cfg: Config, start: real, g: Governor, g': Governor, times: seq<real>)
    requires TotalTracks(cfg, start, g) && TotalTracks(cfg, start, g') && g'.totalTimes == g.totalTimes + times
    ensures Ordered(times) && Spent(cfg, start, g') == Spent(cfg, start, g) + Granted(g.total, times)
  {
    GrantedSplit(NewBucket(cfg.historicalMax, TOTAL_PERIOD, start), g.totalTimes, times);
    OrderedTail(g.totalTimes, times);
  }

  lemma {:induction false} TotalIsBucket(cfg: Config, start: real, g: Governor)
    requires TotalTracks(cfg, start, g)
    ensures g.total.Valid() && g.total.capacity == cfg.historicalMax as real && g.total.period == TOTAL_PERIOD
    ensures g.total.lastRefill <= g.clock
  {
    AfterValid(NewBucket(cfg.historicalMax, TOTAL_PERIOD, start), g.totalTimes);
  }

  lemma {:induction false} Pick<T>(s: set<T>) returns (x: T)
    requires s != {}
    ensures x in s
  {
    x :| x in s;
  }

  lemma {:induction false} Fresh(s: set<int>) returns (x: int)
    ensures forall y | y in s :: y < x
    decreases |s|
  {
    x := 0;
    if s != {} {
      var y := Pick(s);
      var z := Fresh(s - {y});
      x := if z <= y then y + 1 else z;
      forall w | w in s ensures w < x { if w != y { assert w in s - {y}; } }
    }
  }

  /** The attempts that `more` adds to a run are those at the given times. */
  ghost predicate Makes(cfg: Config, start: real, run: seq<Action>, more: seq<Action>, times: seq<real>)
    requires Possible(cfg, start, run) && times != []
  {
    && Possible(cfg, start, run + more)
    && After(cfg, start, run + more).totalTimes == After(cfg, start, run).totalTimes + times
    && After(cfg, start, run + more).clock == times[|times| - 1]
    && (forall i | 0 <= i < |more| :: times[0] <= more[i].now <= times[|times| - 1])
  }

  /** From any state, a call on a new key makes one attempt on the total bucket. */
  lemma {:induction false} AttemptOnce(cfg: Config, start: real, run: seq<Action>, now: real)
    returns (more: seq<Action>)
    requires Possible(cfg, start, run) && After(cfg, start, run).clock <= now
    ensures Makes(cfg, start, run, more, [now])
  {
    var g := After(cfg, start, run);
    var call := Fresh(g.calls.Keys);
    var hash := Fresh(g.perKey.Keys);
    var begin, resume := Begin(call, hash, now), Resume(call, now);
    Extend(cfg, start, run, begin);
    Extend(cfg, start, run + [begin], resume);
    more := [begin, resume];
    assert run + [begin] + [resume] == run + more;
  }

  lemma {:induction false} MakesMore(cfg: Config, start: real, run: seq<Action>, first: seq<Action>, init: seq<real>,
                                     last: seq<Action>, now: real, times: seq<real>)
    requires Possible(cfg, start, run) && init != [] && init[0] <= init[|init| - 1] <= now && times == init + [now]
    requires Makes(cfg, start, run, first, init) && Makes(cfg, start, run + first, last, [now])
    ensures Makes(cfg, start, run, first + last, times)
  {
    assert run + first + last == run + (first + last);
    var totals := After(cfg, start, run).totalTimes;
    assert totals + init + [now] == totals + times;
  }

  /** Every ordered list of times from now on is a list of attempts that calls can make. */
  lemma {:induction false} Realise(cfg: Config, start: real, run: seq<Action>, times: seq<real>)
    returns (more: seq<Action>)
    requires Possible(cfg, start, run) && times != [] && Ordered(times) && After(cfg, start, run).clock <= times[0]
    ensures Makes(cfg, start, run, more, times)
    decreases |times|
  {
    var init, now := times[..|times| - 1], times[|times| - 1];
    assert init + [now] == times;
    if init == [] {
      more := AttemptOnce(cfg, start, run, now);
    } else {
      var first := Realise(cfg, start, run, init);
      var last := AttemptOnce(cfg, start, run + first, now);
      MakesMore(cfg, start, run, first, init, last, now, times);
      more := first + last;
    }
  }

  lemma {:induction false} CapHoldsFromEmpty(cfg: Config, start: real, run: seq<Action>, t: real, more: seq<Action>)
    requires Possible(cfg, start, run) && After(cfg, start, run).clock <= t
             && After(cfg, start, run).total.TokensAt(t) < 1.0
    requires Possible(cfg, start, run + more) && InWindow(more, t)
    ensures Spent(cfg, start, After(cfg, start, run + more)) <= Spent(cfg, start, After(cfg, start, run))
            + cfg.historicalMax
  {
    var g, g' := After(cfg, start, run), After(cfg, start, run + more);
    RunTotal(cfg, start, run);
    RunTotal(cfg, start, run + more);
    TotalIsBucket(cfg, start, g);
    var times := AttemptsSince(cfg, start, run, more, t);
    SpentSince(cfg, start, g, g', times);
    if times != [] { CapFromEmpty(g.total, cfg.historicalMax, t, times); }
  }

  lemma {:induction false} CapBreaks(cfg: Config, start: real, run: seq<Action>, t: real) returns (more: seq<Action>)
    requires Possible(cfg, start, run) && After(cfg, start, run).clock <= t
             && After(cfg, start, run).total.TokensAt(t) >= 1.0
    ensures Possible(cfg, start, run + more) && InWindow(more, t)
    ensures Spent(cfg, start, After(cfg, start, run + more))
            == Spent(cfg, start, After(cfg, start, run)) + cfg.historicalMax + 1
  {
    var g, times := After(cfg, start, run), OnePlus(cfg.historicalMax, t, TOTAL_PERIOD);
    RunTotal(cfg, start, run);
    TotalIsBucket(cfg, start, g);
    OneTooMany(g.total, cfg.historicalMax, t);
    more := Realise(cfg, start, run, times);
    RunTotal(cfg, start, run + more);
    SpentSince(cfg, start, g, After(cfg, start, run + more), times);
  }

  /**
   The documented cap of `historicalMax` in ten minutes holds from t on, whatever calls are made,
   exactly when the total bucket holds less than one token at t.
   */
  lemma {:induction false} TenMinuteCapIff(cfg: Config, start: real, run: seq<Action>, t: real)
    requires Possible(cfg, start, run) && After(cfg, start, run).clock <= t
    ensures TenMinuteCap(cfg, start, run, t) <==> After(cfg, start, run).total.TokensAt(t) < 1.0
  {
    if After(cfg, start, run).total.TokensAt(t) < 1.0 {
      forall more | Possible(cfg, start, run + more) && InWindow(more, t)
        ensures Spent(cfg, start, After(cfg, start, run + more)) <= Spent(cfg, start, After(cfg, start, run))
                + cfg.historicalMax
      {
        CapHoldsFromEmpty(cfg, start, run, t, more);
      }
    } else {
      var more := CapBreaks(cfg, start, run, t);
    }
  }

  // ---------------------------------------------------------------- cooldown spacing

  /** No call begins on a hash while another call on that hash is in flight. */
  ghost predicate Apart(g: Governor, a: Action) {
    a.Begin? ==> forall c | c in g.calls :: g.calls[c].hash != a.hash
  }

  ghost predicate NonOverlapping(cfg: Config, start: real, run: seq<Action>)
    requires Possible(cfg, start, run)
    decreases |run|
  {
    run == [] ||
    (NonOverlapping(cfg, start, run[..|run| - 1])
     && Apart(After(cfg, start, run[..|run| - 1]), run[|run| - 1]))
  }

  ghost predicate Cooled(cfg: Config, b: Bucket, t: real) {
    b.lastConsume.Some? ==> t >= b.lastConsume.value + cfg.cooldown
  }

  /** A key's bucket as it was built, last used no later than the clock shows. */
  ghost predicate Rested(cfg: Config, b: Bucket, clock: real) {
    && b.capacity == cfg.burst as real && b.period == KEY_PERIOD
    && (b.lastConsume.None? || b.lastConsume.value <= clock)
  }

  ghost predicate CallReady(cfg: Config, g: Governor, c: Call) {
    c.hash in g.perKey && Cooled(cfg, g.perKey[c.hash], c.readyAt)
  }

  ghost predicate Recorded(g: Governor, grant: (int, real)) {
    grant.0 in g.perKey && g.perKey[grant.0].lastConsume.Some? && grant.1 <= g.perKey[grant.0].lastConsume.value
  }

  ghost predicate Spacing(cfg: Config, granted: seq<(int, real)>) {
    forall i, j | 0 <= i < j < |granted| && granted[i].0 == granted[j].0 ::
      granted[j].1 - granted[i].1 >= cfg.cooldown
  }

  ghost predicate Separate(cfg: Config, g: Governor) {
    && (forall h | h in g.perKey :: Rested(cfg, g.perKey[h], g.clock))
    && (forall c | c in g.calls :: CallReady(cfg, g, g.calls[c]))
    && (forall c, d | c in g.calls && d in g.calls && c != d :: g.calls[c].hash != g.calls[d].hash)
    && (forall k | 0 <= k < |g.granted| :: Recorded(g, g.granted[k]))
    && Spacing(cfg, g.granted)
  }

  lemma {:induction false} BeginSeparate(cfg: Config, g: Governor, call: int, hash: int, now: real)
    requires Separate(cfg, g) && Enabled(g, Begin(call, hash, now)) && Apart(g, Begin(call, hash, now))
    ensures Separate(cfg, BeginCall(cfg, g, call, hash, now))
  {
  }

  lemma {:induction false} ResumeTotalSeparate(cfg: Config, g: Governor, call: int, now: real)
    requires Separate(cfg, g) && Enabled(g, Resume(call, now))
    ensures Separate(cfg, ResumeTotal(cfg, g, call, now))
  {
    HintNonNeg(g.total, now);
  }

  lemma {:induction false} ResumeKeySeparate(cfg: Config, g: Governor, call: int, now: real)
    requires Separate(cfg, g) && Enabled(g, Resume(call, now))
    ensures Separate(cfg, ResumeKey(cfg, g, call, now))
  {
    HintNonNeg(g.perKey[g.calls[call].hash], now);
  }

  lemma {:induction false} RunSeparate(cfg: Config, start: real, run: seq<Action>)
    requires Possible(cfg, start, run) && NonOverlapping(cfg, start, run)
    ensures Separate(cfg, After(cfg, start, run))
    decreases |run|
  {
    if run != [] {
      var g, a := After(cfg, start, run[..|run| - 1]), run[|run| - 1];
      RunSeparate(cfg, start, run[..|run| - 1]);
      match a
      case Begin(call, hash, now) => BeginSeparate(cfg, g, call, hash, now);
      case Resume(call, now) => ResumeTotalSeparate(cfg, g, call, now); ResumeKeySeparate(cfg, g, call, now);
      case Abandon(_, _) =>
    }
  }

  /** Without overlap on a key, two successes on it are at least the cooldown apart. */
  lemma {:induction false} SuccessesAreSpaced(cfg: Config, start: real, run: seq<Action>, i: nat, j: nat)
    requires Possible(cfg, start, run) && NonOverlapping(cfg, start, run)
    requires var granted := After(cfg, start, run).granted; i < j < |granted| && granted[i].0 == granted[j].0
    ensures var granted := After(cfg, start, run).granted; granted[j].1 - granted[i].1 >= cfg.cooldown
  {
    RunSeparate(cfg, start, run);
  }

  // ---------------------------------------------------------------- the burst bucket

  /** The cooldown alone refills the burst bucket. */
  ghost predicate CooldownRefills(cfg: Config) {
    cfg.burst >= 1 && cfg.cooldown >= 0.0 && cfg.cooldown * cfg.burst as real >= KEY_PERIOD
  }

  /** Full, or one token short since its last use. */
  ghost predicate Brimming(cfg: Config, b: Bucket, clock: real) {
    && b.capacity == cfg.burst as real && b.period == KEY_PERIOD && b.lastRefill <= clock
    && b.tokens == (if b.lastConsume.None? then b.capacity else b.capacity - 1.0)
    && (b.lastConsume.Some? ==> b.lastRefill == b.lastConsume.value)
  }

  lemma {:induction false} Refilled(burst: real, cooldown: real, dt: real, rate: real)
    requires burst >= 1.0 && cooldown * burst >= 2.0 && dt >= cooldown && rate == burst / 2.0
    ensures dt * rate >= 1.0
  {
    ScaleBelow(cooldown, dt, rate);
  }

  /** A rested bucket is full at its next attempt, so it grants. */
  lemma {:induction false} RestedGrants(cfg: Config, b: Bucket, clock: real, now: real)
    requires CooldownRefills(cfg) && Brimming(cfg, b, clock) && Cooled(cfg, b, now) && now >= clock
    ensures b.TokensAt(now) == b.capacity && Grants(b, now) && Brimming(cfg, Attempt(b, now).0, now)
  {
    assert b.Rate() == b.capacity / 2.0;
    ScaleBelow(0.0, now - b.lastRefill, b.Rate());
    if b.lastConsume.Some? {
      Refilled(b.capacity, cfg.cooldown, now - b.lastRefill, b.Rate());
    }
  }

  ghost predicate AllBrimming(cfg: Config, g: Governor) {
    && (forall h | h in g.perKey :: Brimming(cfg, g.perKey[h], g.clock))
    && (forall c | c in g.calls :: !g.calls[c].stage.KeyRetry?)
  }

  lemma {:induction false} ResumeTotalBrims(cfg: Config, g: Governor, call: int, now: real)
    requires AllBrimming(cfg, g) && Enabled(g, Resume(call, now))
    ensures AllBrimming(cfg, ResumeTotal(cfg, g, call, now))
  {
  }

  lemma {:induction false} ResumeKeyBrims(cfg: Config, g: Governor, call: int, now: real)
    requires CooldownRefills(cfg) && AllBrimming(cfg, g) && Separate(cfg, g) && Enabled(g, Resume(call, now))
    ensures Grants(g.perKey[g.calls[call].hash], now) && AllBrimming(cfg, ResumeKey(cfg, g, call, now))
  {
    RestedGrants(cfg, g.perKey[g.calls[call].hash], g.clock, now);
  }

  lemma {:induction false} RunBrims(cfg: Config, start: real, run: seq<Action>)
    requires CooldownRefills(cfg) && Possible(cfg, start, run) && NonOverlapping(cfg, start, run)
    ensures AllBrimming(cfg, After(cfg, start, run))
    decreases |run|
  {
    if run != [] {
      var g, a := After(cfg, start, run[..|run| - 1]), run[|run| - 1];
      RunBrims(cfg, start, run[..|run| - 1]);
      RunSeparate(cfg, start, run[..|run| - 1]);
      match a
      case Begin(_, _, _) =>
      case Resume(call, now) => ResumeTotalBrims(cfg, g, call, now); ResumeKeyBrims(cfg, g, call, now);
      case Abandon(_, _) =>
    }
  }

  /**
   Without overlap, and with a cooldown of 2 s / burst or more, the burst bucket is full at each
   attempt and never refuses.
   */
  lemma {:induction false} BurstBucketNeverRefuses(cfg: Config, start: real, run: seq<Action>, call: int, now: real)
    requires CooldownRefills(cfg) && Possible(cfg, start, run) && NonOverlapping(cfg, start, run)
    requires Enabled(After(cfg, start, run), Resume(call, now)) && After(cfg, start, run).calls[call].stage != Total
             && After(cfg, start, run).calls[call].stage != TotalRetry
    ensures var g := After(cfg, start, run); var r := Next(cfg, g, Resume(call, now));
            && g.perKey[g.calls[call].hash].TokensAt(now) == cfg.burst as real
            && r.granted == g.granted + [(g.calls[call].hash, now)] && call !in r.calls
  {
    var g := After(cfg, start, run);
    RunBrims(cfg, start, run);
    RunSeparate(cfg, start, run);
    RestedGrants(cfg, g.perKey[g.calls[call].hash], g.clock, now);
  }
}
