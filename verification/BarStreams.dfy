/** The aggregator as an object, and the candle stream that drives it through a pending queue. */
module BarStreams {
  import opened Wrappers
  import opened Candles
  import opened Aggregation
  import opened AggregationLaws

  class SessionedBarAggregator {
    const cfg: Config
    var current: Option<Bar>
    var lastPartialEmit: Option<int>

    function View(): State
      reads this
    {
      State(current, lastPartialEmit)
    }

    ghost predicate Ready()
      reads this
    {
      Aggregation.Valid(cfg, View())
    }

    constructor (config: Config)
      requires Consistent(config)
      ensures cfg == config && View() == State(None, None) && Ready()
    {
      cfg, current, lastPartialEmit := config, None, None;
    }

    method CloseCurrent() returns (candle: Candle)
      requires Ready() && current.Some?
      modifies this
      ensures View() == State(None, None) && candle == CandleOf(cfg, old(current).value, Completed) && Ready()
    {
      candle := CandleOf(cfg, current.value, Completed);
      current, lastPartialEmit := None, None;
    }

    method AcceptTick(tick: Tick, checked: int, stamped: int) returns (out: Output)
      requires Ready()
      modifies this
      ensures (View(), out) == Accept(cfg, old(View()), tick, checked, stamped) && Ready()
    {
      var trade := ExtractTrade(tick);
      if trade.None? { return Ignored; }
      var window := cfg.calendar.window(tick.ts);
      if window.None? { return Ignored; }
      var t := Trade(window.value, trade.value.0, trade.value.1, tick.ts);
      if current.None? {
        current := Some(NewBar(t));
        lastPartialEmit := Some(stamped);
        return Opened(CandleOf(cfg, current.value, Partial));
      } else if current.value.window == t.window {
        current := Some(Fold(current.value, t));
        if ShouldEmit(cfg, View(), checked) {
          lastPartialEmit := Some(stamped);
          return PartialUpdate(CandleOf(cfg, current.value, Partial));
        }
        return Folded;
      } else {
        var closed := CloseCurrent();
        current := Some(NewBar(t));
        lastPartialEmit := Some(stamped);
        return Rollover(closed, CandleOf(cfg, current.value, Partial));
      }
    }

    method FlushIfDue(now: int) returns (candle: Option<Candle>)
      requires Ready()
      modifies this
      ensures Ready()
      ensures var (st, out) := FlushDue(cfg, old(View()), now);
              View() == st && candle == if out.ClosedBar? then Some(out.candle) else None
    {
      if current.Some? && now >= current.value.window.close {
        var closed := CloseCurrent();
        candle := Some(closed);
      } else {
        candle := None;
      }
    }
  }

  /** The candles of an output, in the order a reader sees them. */
  function Emitted(out: Output): seq<Candle> {
    match out
    case Ignored => []
    case Folded => []
    case PartialUpdate(c) => [c]
    case Opened(c) => [c]
    case ClosedBar(c) => [c]
    case Rollover(closed, next) => [closed, next]
  }

  /** Everything that is still to come from a state and the ticks left in the channel. */
  ghost function Emissions(cfg: Config, st: State, arrivals: seq<Event>): seq<Candle>
    requires Aggregation.Valid(cfg, st)
    decreases |arrivals|
  {
    if arrivals == [] then []
    else var (st', out) := Step(cfg, st, arrivals[0]); Emitted(out) + Emissions(cfg, st', arrivals[1..])
  }

  class SessionedBarStream {
    const agg: SessionedBarAggregator
    var rx: seq<Event>
    var pending: seq<Candle>

    ghost predicate Ready()
      reads this, agg
    {
      agg.Ready() && TicksOnly(rx)
    }

    /** All the candles that the stream will deliver from here on. */
    ghost function Remaining(): seq<Candle>
      requires Ready()
      reads this, agg
    {
      pending + Emissions(agg.cfg, agg.View(), rx)
    }

    constructor (aggregator: SessionedBarAggregator, channel: seq<Event>)
      requires aggregator.Ready() && TicksOnly(channel)
      ensures agg == aggregator && Ready()
      ensures Remaining() == Emissions(aggregator.cfg, aggregator.View(), channel)
    {
      agg, rx, pending := aggregator, channel, [];
    }

    /** Receives one tick and hands it to the aggregator. */
    method Receive() returns (out: Output)
      requires Ready() && rx != [] && pending == []
      modifies this, agg
      ensures Ready() && pending == [] && |rx| < |old(rx)|
      ensures old(Remaining()) == Emitted(out) + Remaining()
    {
      var e := rx[0];
      rx := rx[1..];
      out := agg.AcceptTick(e.tick, e.checked, e.stamped);
    }

    /** Hands over the first candle of an output, and queues the second. */
    method Deliver(out: Output) returns (candle: Option<Candle>)
      requires Ready() && pending == []
      modifies this`pending
      ensures Ready()
      ensures Emitted(out) + old(Remaining()) == if candle.Some? then [candle.value] + Remaining() else Remaining()
    {
      ghost var rest := Remaining();
      match out {
        case Ignored => return None;
        case Folded => return None;
        case Opened(c) => return Some(c);
        case PartialUpdate(c) => return Some(c);
        case ClosedBar(c) => return Some(c);
        case Rollover(closed, next) =>
          pending := pending + [next];
          assert Remaining() == [next] + rest;
          return Some(closed);
      }
    }

    /** The next candle of the aggregator's outputs, in order and without loss; none only when they are exhausted. */
    method Next() returns (candle: Option<Candle>)
      requires Ready()
      modifies this, agg
      ensures Ready()
      ensures match candle
              case Some(c) => old(Remaining()) == [c] + Remaining()
              case None => old(Remaining()) == [] && Remaining() == []
    {
      ghost var all := Remaining();
      while true
        invariant Ready() && Remaining() == all
        decreases |rx|
      {
        if pending != [] {
          candle := Some(pending[0]);
          pending := pending[1..];
          return;
        }
        if rx == [] { return None; }
        var out := Receive();
        candle := Deliver(out);
        if candle.Some? { return; }
      }
    }
  }

  // ---------------------------------------------------------------- what a reader gets from a whole run

  function Concat(outs: seq<Output>): seq<Candle> {
    if outs == [] then [] else Concat(outs[..|outs| - 1]) + Emitted(outs[|outs| - 1])
  }

  function CompletedOnly(cs: seq<Candle>): seq<Candle> {
    if cs == [] then []
    else CompletedOnly(cs[..|cs| - 1]) + if cs[|cs| - 1].completeness.Completed? then [cs[|cs| - 1]] else []
  }

  lemma {:induction false} EmitStep(cfg: Config, st: State, e: Event, rest: seq<Event>)
    requires Aggregation.Valid(cfg, st)
    ensures var (st', out) := Step(cfg, st, e);
            Emissions(cfg, st, [e] + rest) == Emitted(out) + Emissions(cfg, st', rest)
  {
    assert ([e] + rest)[1..] == rest;
  }

  lemma {:induction false} RunStep(cfg: Config, init: seq<Event>, e: Event)
    requires Consistent(cfg)
    ensures var (st, outs) := Run(cfg, init); var (st', out) := Step(cfg, st, e);
            Run(cfg, init + [e]) == (st', outs + [out]) && Concat(outs + [out]) == Concat(outs) + Emitted(out)
  {
    assert (init + [e])[..|init|] == init;
    var outs, out := Run(cfg, init).1, Step(cfg, Run(cfg, init).0, e).1;
    assert (outs + [out])[..|outs|] == outs;
  }

  lemma {:induction false} RunThenEmit(cfg: Config, events: seq<Event>, rest: seq<Event>)
    requires Consistent(cfg)
    ensures Emissions(cfg, State(None, None), events + rest)
            == Concat(Run(cfg, events).1) + Emissions(cfg, Run(cfg, events).0, rest)
    decreases |events|
  {
    if events == [] {
      assert events + rest == rest;
    } else {
      var init, last := events[..|events| - 1], events[|events| - 1];
      assert init + [last] == events && init + ([last] + rest) == events + rest;
      RunThenEmit(cfg, init, [last] + rest);
      EmitStep(cfg, Run(cfg, init).0, last, rest);
      RunStep(cfg, init, last);
    }
  }

  lemma {:induction false} CompletedAppend(xs: seq<Candle>, ys: seq<Candle>)
    ensures CompletedOnly(xs + ys) == CompletedOnly(xs) + CompletedOnly(ys)
    decreases |ys|
  {
    if ys == [] {
      assert xs + ys == xs;
    } else {
      assert (xs + ys)[..|xs + ys| - 1] == xs + ys[..|ys| - 1];
      CompletedAppend(xs, ys[..|ys| - 1]);
    }
  }

  /** An output's closed candle is completed, and the rest of it partial. */
  ghost predicate Stamped(out: Output) {
    match out
    case Opened(c) => c.completeness.Partial?
    case PartialUpdate(c) => c.completeness.Partial?
    case ClosedBar(c) => c.completeness.Completed?
    case Rollover(closed, next) => closed.completeness.Completed? && next.completeness.Partial?
    case _ => true
  }

  lemma {:induction false} CompletedOne(c: Candle)
    ensures CompletedOnly([c]) == if c.completeness.Completed? then [c] else []
  {
    assert [c][..0] == [];
  }

  lemma {:induction false} CompletedAreClosed(out: Output)
    requires Stamped(out)
    ensures CompletedOnly(Emitted(out)) == ClosedBy(out)
  {
    match out
    case Rollover(closed, next) =>
      CompletedAppend([closed], [next]);
      assert [closed] + [next] == [closed, next];
      CompletedOne(closed);
      CompletedOne(next);
    case Opened(c) => CompletedOne(c);
    case PartialUpdate(c) => CompletedOne(c);
    case ClosedBar(c) => CompletedOne(c);
    case _ =>
  }

  lemma {:induction false} RunStamped(cfg: Config, events: seq<Event>)
    requires Consistent(cfg)
    ensures forall i | 0 <= i < |events| :: Stamped(Run(cfg, events).1[i])
    decreases |events|
  {
    if events != [] {
      RunStamped(cfg, events[..|events| - 1]);
      StepStamped(cfg, Run(cfg, events[..|events| - 1]).0, events[|events| - 1]);
    }
  }

  lemma {:induction false} StepStamped(cfg: Config, st: State, e: Event)
    requires Aggregation.Valid(cfg, st)
    ensures Stamped(Step(cfg, st, e).1)
  {
  }

  lemma {:induction false} CompletedOfOutputs(outs: seq<Output>)
    requires forall i | 0 <= i < |outs| :: Stamped(outs[i])
    ensures CompletedOnly(Concat(outs)) == ClosedCandles(outs)
    decreases |outs|
  {
    if outs != [] {
      var init, last := outs[..|outs| - 1], outs[|outs| - 1];
      CompletedOfOutputs(init);
      CompletedAppend(Concat(init), Emitted(last));
      CompletedAreClosed(last);
    }
  }

  /**
   Among the candles that a fresh stream delivers, the completed ones are the candles of the closed
   batches of its ticks, in order.
   */
  lemma {:induction false} StreamDeliversBatches(cfg: Config, ticks: seq<Event>)
    requires Consistent(cfg) && TicksOnly(ticks)
    ensures var delivered := Emissions(cfg, State(None, None), ticks);
            && AllTradable(cfg, Group(cfg, ticks).closed)
            && CompletedOnly(delivered) == CandlesOf(cfg, Group(cfg, ticks).closed)
  {
    assert ticks + [] == ticks;
    RunThenEmit(cfg, ticks, []);
    RunStamped(cfg, ticks);
    CompletedOfOutputs(Run(cfg, ticks).1);
    RunTracks(cfg, ticks);
    assert Concat(Run(cfg, ticks).1) + [] == Concat(Run(cfg, ticks).1);
  }
}
