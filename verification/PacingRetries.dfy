/** What becomes of a call that has to wait: for its cooldown, or for a token that it was refused. */
module PacingRetries {
  import opened Wrappers
  import opened TokenBuckets
  import opened Pacing
  import opened PacingOverlap

  // ---------------------------------------------------------------- refused calls

  /** The bucket that a call tries next: the total one, or that of its key. */
  function Target(c: Call): Option<int> { if c.stage.Total? || c.stage.TotalRetry? then None else Some(c.hash) }

  predicate HasBucket(g: Governor, target: Option<int>) { target.Some? ==> target.value in g.perKey }

  function BucketAt(g: Governor, target: Option<int>): Bucket
    requires HasBucket(g, target)
  {
    if target.None? then g.total else g.perKey[target.value]
  }

  predicate FirstTry(c: Call) { c.stage.Total? || c.stage.Key? }

  /** What one attempt does to its call: on with a token, waiting for a second try, or given up. */
  lemma {:induction false} AttemptOutcome(cfg: Config, g: Governor, call: int, now: real)
    requires Enabled(g, Resume(call, now))
    ensures var c, r := g.calls[call], Next(cfg, g, Resume(call, now));
            var (b, outcome) := Attempt(BucketAt(g, Target(c)), now);
            && BucketAt(r, Target(c)) == b && r.clock == now && r.calls - {call} == g.calls - {call}
            && (outcome.Ok? && Target(c).None? ==>
                  call in r.calls && r.calls[call] == c.(stage := Key, readyAt := now) && r.granted == g.granted)
            && (outcome.Ok? && Target(c).Some? ==> call !in r.calls && r.granted == g.granted + [(c.hash, now)])
            && (outcome.Err? ==> r.granted == g.granted)
            && (outcome.Err? ==>
                  (call in r.calls <==> FirstTry(c) && !cfg.reject && outcome.error <= cfg.maxWait))
            && (outcome.Err? && call in r.calls ==>
                  && r.calls[call].hash == c.hash && Target(r.calls[call]) == Target(c) && !FirstTry(r.calls[call])
                  && r.calls[call].readyAt == now + outcome.error && HasBucket(r, Some(c.hash))
                  && r.calls[call].slept == c.slept + outcome.error)
  {
  }

  /**
   In every run, a call refused at its first try of a bucket is still in flight exactly when the policy
   is to queue and the hinted wait is allowed; it can then be resumed exactly from the end of that wait,
   which counts as its sleep.
   */
  lemma {:induction false} RefusedWaitsIff(cfg: Config, start: real, run: seq<Action>, call: int, now: real)
    requires Possible(cfg, start, run) && Enabled(Pacing.After(cfg, start, run), Resume(call, now))
    requires var g := Pacing.After(cfg, start, run);
             FirstTry(g.calls[call]) && !Grants(BucketAt(g, Target(g.calls[call])), now)
    ensures var g := Pacing.After(cfg, start, run); var r := Next(cfg, g, Resume(call, now));
            var wait := Attempt(BucketAt(g, Target(g.calls[call])), now).1.error;
            && (call in r.calls <==> !cfg.reject && wait <= cfg.maxWait)
            && (call in r.calls ==> forall t :: Enabled(r, Resume(call, t)) <==> t >= now + wait)
            && (call in r.calls ==> r.calls[call].slept == g.calls[call].slept + wait)
  {
    var g := Pacing.After(cfg, start, run);
    AttemptOutcome(cfg, g, call, now);
    HintNonNeg(BucketAt(g, Target(g.calls[call])), now);
  }

  /** The action is an attempt on the bucket. */
  predicate Tries(g: Governor, a: Action, target: Option<int>) {
    a.Resume? && a.call in g.calls && Target(g.calls[a.call]) == target
  }

  /** The actions after a run leave the call alone and make no attempt on the bucket. */
  ghost predicate Leaves(cfg: Config, start: real, run: seq<Action>, more: seq<Action>, call: int, target: Option<int>)
    requires Possible(cfg, start, run + more)
    decreases |more|
  {
    more == [] ||
    (OneMore(cfg, start, run, more);
     Leaves(cfg, start, run, more[..|more| - 1], call, target)
     && more[|more| - 1].call != call
     && !Tries(Pacing.After(cfg, start, run + more[..|more| - 1]), more[|more| - 1], target))
  }

  /** The call and the bucket that it waits for are still the same. */
  ghost predicate SameWait(g: Governor, r: Governor, call: int, target: Option<int>) {
    && call in g.calls && call in r.calls && r.calls[call] == g.calls[call]
    && HasBucket(g, target) && HasBucket(r, target) && BucketAt(r, target) == BucketAt(g, target)
    && g.calls[call].hash in g.perKey && g.calls[call].hash in r.perKey
  }

  lemma {:induction false} StepLeaves(cfg: Config, g: Governor, a: Action, call: int, target: Option<int>)
    requires Enabled(g, a) && a.call != call && !Tries(g, a, target) && SameWait(g, g, call, target)
    ensures SameWait(g, Next(cfg, g, a), call, target)
  {
  }

  lemma {:induction false} RunLeaves(cfg: Config, start: real, run: seq<Action>, more: seq<Action>, call: int,
                                     target: Option<int>)
    requires Possible(cfg, start, run) && Possible(cfg, start, run + more)
    requires Leaves(cfg, start, run, more, call, target)
    requires SameWait(Pacing.After(cfg, start, run), Pacing.After(cfg, start, run), call, target)
    ensures SameWait(Pacing.After(cfg, start, run), Pacing.After(cfg, start, run + more), call, target)
    decreases |more|
  {
    if more == [] {
      assert run + more == run;
    } else {
      var init := more[..|more| - 1];
      OneMore(cfg, start, run, more);
      RunLeaves(cfg, start, run, init, call, target);
      StepLeaves(cfg, Pacing.After(cfg, start, run + init), more[|more| - 1], call, target);
    }
  }

  /** The most tokens that the bucket holds. */
  function Capacity(cfg: Config, target: Option<int>): nat { if target.None? then cfg.historicalMax else cfg.burst }

  lemma {:induction false} ReachedBucket(cfg: Config, start: real, run: seq<Action>, target: Option<int>)
    requires Possible(cfg, start, run) && HasBucket(Pacing.After(cfg, start, run), target)
    ensures var b := BucketAt(Pacing.After(cfg, start, run), target);
            b.Valid() && b.capacity == Capacity(cfg, target) as real
  {
    if target.None? {
      RunTotal(cfg, start, run);
      TotalIsBucket(cfg, start, Pacing.After(cfg, start, run));
    } else {
      KeyIsBucket(cfg, start, run, target.value);
    }
  }

  lemma {:induction false} KeyIsBucket(cfg: Config, start: real, run: seq<Action>, hash: int)
    requires Possible(cfg, start, run) && hash in Pacing.After(cfg, start, run).perKey
    ensures var b := Pacing.After(cfg, start, run).perKey[hash]; b.Valid() && b.capacity == cfg.burst as real
  {
    RunTimed(cfg, start, run);
    assert KeyTimed(cfg, Pacing.After(cfg, start, run).perKey[hash], Pacing.After(cfg, start, run).clock);
  }

  lemma {:induction false} Waiting(cfg: Config, start: real, run: seq<Action>, call: int, now: real)
    returns (refused: seq<Action>, r: Governor, c: Call)
    requires Possible(cfg, start, run) && Enabled(Pacing.After(cfg, start, run), Resume(call, now))
    ensures refused == run + [Resume(call, now)] && Possible(cfg, start, refused)
    ensures r == Next(cfg, Pacing.After(cfg, start, run), Resume(call, now)) == Pacing.After(cfg, start, refused)
    ensures c == Pacing.After(cfg, start, run).calls[call]
    ensures !Grants(BucketAt(Pacing.After(cfg, start, run), Target(c)), now) && call in r.calls ==>
              SameWait(r, r, call, Target(c)) && Target(r.calls[call]) == Target(c) && r.calls[call].hash == c.hash
              && !FirstTry(r.calls[call])
              && r.calls[call].readyAt == now + Attempt(BucketAt(Pacing.After(cfg, start, run), Target(c)), now).1.error
              && BucketAt(r, Target(c)) == Attempt(BucketAt(Pacing.After(cfg, start, run), Target(c)), now).0
  {
    refused := run + [Resume(call, now)];
    Extend(cfg, start, run, Resume(call, now));
    r, c := Pacing.After(cfg, start, refused), Pacing.After(cfg, start, run).calls[call];
    AttemptOutcome(cfg, Pacing.After(cfg, start, run), call, now);
  }

  /**
   A queued call that is resumed after its wait, with no attempt on its bucket in between, obtains its
   token exactly when the bucket can hold one: it goes on to its key's bucket, or succeeds.
   */
  lemma {:induction false} QueuedRetryObtainsIff(cfg: Config, start: real, run: seq<Action>, call: int, now: real,
                                                 more: seq<Action>, later: real)
    requires Possible(cfg, start, run) && Enabled(Pacing.After(cfg, start, run), Resume(call, now))
    requires var g := Pacing.After(cfg, start, run); !Grants(BucketAt(g, Target(g.calls[call])), now)
    requires call in Next(cfg, Pacing.After(cfg, start, run), Resume(call, now)).calls
    requires var refused := run + [Resume(call, now)];
             && Possible(cfg, start, refused + more)
             && Leaves(cfg, start, refused, more, call, Target(Pacing.After(cfg, start, run).calls[call]))
             && Enabled(Pacing.After(cfg, start, refused + more), Resume(call, later))
    ensures var target := Target(Pacing.After(cfg, start, run).calls[call]);
            var s := Pacing.After(cfg, start, run + [Resume(call, now)] + more);
            var r := Next(cfg, s, Resume(call, later));
            && (target.None? ==> (call in r.calls && r.calls[call].stage.Key? <==> Capacity(cfg, target) >= 1))
            && (target.Some? ==> (r.granted == s.granted + [(target.value, later)] <==> Capacity(cfg, target) >= 1))
            && (call in r.calls ==> r.calls[call].stage.Key?)
  {
    var g := Pacing.After(cfg, start, run);
    var refused, waiting, c := Waiting(cfg, start, run, call, now);
    RunLeaves(cfg, start, refused, more, call, Target(c));
    ReachedBucket(cfg, start, run, Target(c));
    RetrySucceedsFromTheHint(BucketAt(g, Target(c)), now, later);
    AttemptOutcome(cfg, Pacing.After(cfg, start, refused + more), call, later);
  }

  // ---------------------------------------------------------------- the cooldown

  /** The time of the last success on a key. */
  function LastSuccess(granted: seq<(int, real)>, hash: int): Option<real>
    decreases |granted|
  {
    if granted == [] then None
    else if granted[|granted| - 1].0 == hash then Some(granted[|granted| - 1].1)
    else LastSuccess(granted[..|granted| - 1], hash)
  }

  lemma {:induction false} LastOfMore(granted: seq<(int, real)>, hash: int, now: real, other: int)
    ensures LastSuccess(granted + [(hash, now)], other)
            == if other == hash then Some(now) else LastSuccess(granted, other)
  {
    assert (granted + [(hash, now)])[..|granted|] == granted;
  }

  /** Each key's bucket remembers the last success on the key, which is not in the future. */
  ghost predicate Remembers(g: Governor) {
    && (forall h | h in g.perKey :: g.perKey[h].lastConsume == LastSuccess(g.granted, h))
    && (forall h | h !in g.perKey :: LastSuccess(g.granted, h) == None)
    && (forall h :: LastSuccess(g.granted, h).Some? ==> LastSuccess(g.granted, h).value <= g.clock)
  }

  lemma {:induction false} ResumeRemembers(cfg: Config, g: Governor, call: int, now: real)
    requires Remembers(g) && Enabled(g, Resume(call, now))
    ensures Remembers(Next(cfg, g, Resume(call, now)))
  {
    var c := g.calls[call];
    if Target(c).Some? {
      AttemptRecords(g.perKey[c.hash], now);
      KeyRemembers(g, c.hash, Attempt(g.perKey[c.hash], now).0, now, Grants(g.perKey[c.hash], now));
    }
  }

  lemma {:induction false} AttemptRecords(b: Bucket, now: real)
    ensures Attempt(b, now).0.lastConsume == if Grants(b, now) then Some(now) else b.lastConsume
  {
  }

  lemma {:induction false} KeyRemembers(g: Governor, hash: int, b: Bucket, now: real, success: bool)
    requires Remembers(g) && hash in g.perKey && now >= g.clock
    requires b.lastConsume == if success then Some(now) else g.perKey[hash].lastConsume
    ensures Remembers(g.(perKey := g.perKey[hash := b], clock := now,
                         granted := if success then g.granted + [(hash, now)] else g.granted))
  {
    if success {
      forall h ensures LastSuccess(g.granted + [(hash, now)], h)
                       == if h == hash then Some(now) else LastSuccess(g.granted, h)
      {
        LastOfMore(g.granted, hash, now, h);
      }
    }
  }

  lemma {:induction false} RunRemembers(cfg: Config, start: real, run: seq<Action>)
    requires Possible(cfg, start, run)
    ensures Remembers(Pacing.After(cfg, start, run))
    decreases |run|
  {
    if run != [] {
      var g, a := Pacing.After(cfg, start, run[..|run| - 1]), run[|run| - 1];
      RunRemembers(cfg, start, run[..|run| - 1]);
      if a.Resume? { ResumeRemembers(cfg, g, a.call, a.now); }
    }
  }

  /** When the cooldown of a key lets a call through that begins at `now`. */
  function CooledAt(cfg: Config, last: Option<real>, now: real): real {
    if last.None? then now else Max(now, last.value + cfg.cooldown)
  }

  /**
   In every run, a call that begins is let in exactly when its key has cooled down, or the policy is to
   queue and the rest of the cooldown is an allowed wait; it can make its first attempt exactly from
   the end of the cooldown on, at once when that has passed.
   */
  lemma {:induction false} BeginServesCooldown(cfg: Config, start: real, run: seq<Action>, call: int, hash: int,
                                               now: real)
    requires Possible(cfg, start, run) && Enabled(Pacing.After(cfg, start, run), Begin(call, hash, now))
    ensures var g := Pacing.After(cfg, start, run); var r := Next(cfg, g, Begin(call, hash, now));
            var ready := CooledAt(cfg, LastSuccess(g.granted, hash), now);
            && (call in r.calls <==> ready == now || (!cfg.reject && ready - now <= cfg.maxWait))
            && (call in r.calls ==> forall t :: Enabled(r, Resume(call, t)) <==> t >= ready)
            && (call in r.calls ==> r.calls[call].stage.Total? && r.calls[call].slept == ready - now)
  {
    RunRemembers(cfg, start, run);
  }
}
