/**
 The optimistic streaming-line counter as interleaved atomic steps: fetch_add, the comparison with
 the limit, fetch_sub of a refused attempt, and fetch_sub when a guard is dropped.
 */
module StreamingLines {

  /** Where an attempt or guard is: counted with the value it saw, refused but still counted, or holding a line. */
  datatype Phase = Counted(prev: int) | Refused | Live

  datatype Lines = Lines(counter: int, threads: map<int, Phase>)

  datatype Action = FetchAdd(t: int) | Compare(t: int) | BackOff(t: int) | Drop(t: int)

  function Start(): Lines { Lines(0, map[]) }

  predicate Enabled(s: Lines, a: Action) {
    match a
    case FetchAdd(t) => t !in s.threads
    case Compare(t) => t in s.threads && s.threads[t].Counted?
    case BackOff(t) => t in s.threads && s.threads[t].Refused?
    case Drop(t) => t in s.threads && s.threads[t].Live?
  }

  function Next(limit: nat, s: Lines, a: Action): Lines
    requires Enabled(s, a)
  {
    match a
    case FetchAdd(t) => Lines(s.counter + 1, s.threads[t := Counted(s.counter)])
    case Compare(t) => s.(threads := s.threads[t := if s.threads[t].prev >= limit then Refused else Live])
    case BackOff(t) => Lines(s.counter - 1, s.threads - {t})
    case Drop(t) => Lines(s.counter - 1, s.threads - {t})
  }

  /** Every action of the run is enabled where it happens. */
  ghost predicate Possible(limit: nat, run: seq<Action>)
    decreases |run|, 0
  {
    run == [] ||
    (Possible(limit, run[..|run| - 1]) && Enabled(State(limit, run[..|run| - 1]), run[|run| - 1]))
  }

  ghost function State(limit: nat, run: seq<Action>): Lines
    requires Possible(limit, run)
    decreases |run|, 1
  {
    if run == [] then Start() else Next(limit, State(limit, run[..|run| - 1]), run[|run| - 1])
  }

  function Guards(s: Lines): set<int> { set t | t in s.threads && s.threads[t].Live? }

  /** Attempts that hold a line or are bound to: they saw a value below the limit. */
  function Admitted(limit: nat, s: Lines): set<int> {
    set t | t in s.threads && (s.threads[t].Live? || (s.threads[t].Counted? && s.threads[t].prev < limit))
  }

  ghost predicate Invariant(limit: nat, s: Lines) {
    s.counter == |s.threads| && |Admitted(limit, s)| <= limit
  }

  lemma {:induction false} SubsetSize(a: set<int>, b: set<int>)
    requires a <= b
    ensures |a| <= |b|
  {
    assert b == a + (b - a);
  }

  lemma {:induction false} CountKeepsInvariant(limit: nat, s: Lines, t: int)
    requires Invariant(limit, s) && t !in s.threads
    ensures Invariant(limit, Next(limit, s, FetchAdd(t)))
  {
    var r := Next(limit, s, FetchAdd(t));
    assert r.threads.Keys == s.threads.Keys + {t};
    if s.counter < limit {
      assert Admitted(limit, r) == Admitted(limit, s) + {t};
      SubsetSize(Admitted(limit, s), s.threads.Keys);
    } else {
      assert Admitted(limit, r) == Admitted(limit, s);
    }
  }

  lemma {:induction false} CompareKeepsInvariant(limit: nat, s: Lines, t: int)
    requires Invariant(limit, s) && t in s.threads && s.threads[t].Counted?
    ensures Invariant(limit, Next(limit, s, Compare(t)))
  {
    var r := Next(limit, s, Compare(t));
    assert r.threads.Keys == s.threads.Keys;
    assert Admitted(limit, r) == Admitted(limit, s);
  }

  lemma {:induction false} ReleaseKeepsInvariant(limit: nat, s: Lines, t: int, r: Lines)
    requires Invariant(limit, s) && t in s.threads && r == Lines(s.counter - 1, s.threads - {t})
    ensures Invariant(limit, r)
  {
    assert r.threads.Keys == s.threads.Keys - {t};
    SubsetSize(Admitted(limit, r), Admitted(limit, s));
  }

  lemma {:induction false} StepKeepsInvariant(limit: nat, s: Lines, a: Action)
    requires Invariant(limit, s) && Enabled(s, a)
    ensures Invariant(limit, Next(limit, s, a))
  {
    match a
    case FetchAdd(t) => CountKeepsInvariant(limit, s, t);
    case Compare(t) => CompareKeepsInvariant(limit, s, t);
    case BackOff(t) => ReleaseKeepsInvariant(limit, s, t, Next(limit, s, a));
    case Drop(t) => ReleaseKeepsInvariant(limit, s, t, Next(limit, s, a));
  }

  /**
   Under every interleaving the counter is exactly the guards plus the attempts in flight, never
   underflows, and never are more guards live than the limit allows.
   */
  lemma {:induction false} LinesAreSafe(limit: nat, run: seq<Action>)
    requires Possible(limit, run)
    ensures var s := State(limit, run);
            Invariant(limit, s) && s.counter == |s.threads| >= |Guards(s)| && |Guards(s)| <= limit
    decreases |run|
  {
    if run != [] {
      LinesAreSafe(limit, run[..|run| - 1]);
      StepKeepsInvariant(limit, State(limit, run[..|run| - 1]), run[|run| - 1]);
    }
    var s := State(limit, run);
    SubsetSize(Guards(s), Admitted(limit, s));
    SubsetSize(Guards(s), s.threads.Keys);
  }

  /** A thread's attempt: what it sees when it counts itself decides it, whatever happens in between. */
  function Outcome(limit: nat, s: Lines, t: int): Phase
    requires t in s.threads && s.threads[t].Counted?
  {
    Next(limit, s, Compare(t)).threads[t]
  }

  /** Other threads' steps do not change what a counted attempt will be told. */
  lemma {:induction false} OutcomeIsSettled(limit: nat, s: Lines, a: Action, t: int)
    requires t in s.threads && s.threads[t].Counted? && Enabled(s, a) && a.t != t
    ensures var r := Next(limit, s, a);
            t in r.threads && r.threads[t].Counted? && Outcome(limit, r, t) == Outcome(limit, s, t)
  {
  }

  lemma {:induction false} PrefixIsPossible(limit: nat, run: seq<Action>, more: seq<Action>)
    requires Possible(limit, run + more)
    ensures Possible(limit, run)
    decreases |more|
  {
    if more == [] {
      assert run + more == run;
    } else {
      assert (run + more)[..|run + more| - 1] == run + more[..|more| - 1];
      PrefixIsPossible(limit, run, more[..|more| - 1]);
    }
  }

  lemma {:induction false} OutcomeStays(limit: nat, run: seq<Action>, t: int, others: seq<Action>)
    requires Possible(limit, run) && Possible(limit, run + others) && forall i | 0 <= i < |others| :: others[i].t != t
    requires t in State(limit, run).threads && State(limit, run).threads[t].Counted?
    ensures var r := State(limit, run + others);
            && t in r.threads && r.threads[t].Counted?
            && Outcome(limit, r, t) == Outcome(limit, State(limit, run), t)
    decreases |others|
  {
    if others == [] {
      assert run + others == run;
    } else {
      var init := others[..|others| - 1];
      assert (run + others)[..|run + others| - 1] == run + init;
      OutcomeStays(limit, run, t, init);
      OutcomeIsSettled(limit, State(limit, run + init), others[|others| - 1], t);
    }
  }

  /**
   However long other threads step between an attempt's count and its comparison, it is granted exactly
   when guards and attempts in flight were below the limit at the count; with none in flight, when
   guards were.
   */
  lemma {:induction false} AcquireSucceedsIff(limit: nat, run: seq<Action>, t: int, others: seq<Action>)
    requires Possible(limit, run + [FetchAdd(t)] + others) && forall i | 0 <= i < |others| :: others[i].t != t
    ensures Possible(limit, run)
    ensures var s, r := State(limit, run), State(limit, run + [FetchAdd(t)] + others);
            && t in r.threads && r.threads[t].Counted?
            && (Outcome(limit, r, t).Live? <==> |s.threads| < limit)
            && ((forall u | u in s.threads :: s.threads[u].Live?) ==>
                  (Outcome(limit, r, t).Live? <==> |Guards(s)| < limit))
  {
    var counted := run + [FetchAdd(t)];
    PrefixIsPossible(limit, counted, others);
    assert counted[..|run|] == run;
    LinesAreSafe(limit, run);
    OutcomeStays(limit, counted, t, others);
    var s := State(limit, run);
    if forall u | u in s.threads :: s.threads[u].Live? {
      assert Guards(s) == s.threads.Keys;
    }
  }

  /** With another attempt in flight a line can be refused although none is live. */
  lemma {:induction false} RefusedWithoutGuards(s0: Lines)
    requires s0 == Start()
    ensures var s1 := Next(1, Next(1, s0, FetchAdd(1)), Compare(1));
            var s2 := Next(1, Next(1, s1, FetchAdd(2)), Drop(1));
            Guards(s2) == {} && Outcome(1, Next(1, s2, FetchAdd(3)), 3).Refused?
  {
    var s1 := Next(1, Next(1, s0, FetchAdd(1)), Compare(1));
    var s2 := Next(1, Next(1, s1, FetchAdd(2)), Drop(1));
    assert s2.threads == map[2 := Counted(1)];
  }
}
