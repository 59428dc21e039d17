/** What the aggregator's candles are, over every run. */
module AggregationLaws {
  import opened Wrappers
  import opened Candles
  import opened Aggregation
  import CryptoCalendar

  // ---------------------------------------------------------------- refinement of the grouping

  /** A batch of trades on the aggregator's calendar. */
  ghost predicate Tradable(cfg: Config, batch: seq<Trade>) {
    batch != [] && batch[0].window.session.calendar == cfg.calendar.id == cfg.symbol.calendar
  }

  ghost predicate AllTradable(cfg: Config, batches: seq<seq<Trade>>) {
    forall i | 0 <= i < |batches| :: Tradable(cfg, batches[i])
  }

  /** The completed candle of each batch, in order. */
  ghost function CandlesOf(cfg: Config, batches: seq<seq<Trade>>): (cs: seq<Candle>)
    requires AllTradable(cfg, batches)
    ensures |cs| == |batches|
    ensures forall i | 0 <= i < |cs| :: cs[i] == CandleOf(cfg, Summary(batches[i]), Completed)
  {
    if batches == [] then []
    else CandlesOf(cfg, batches[..|batches| - 1]) + [CandleOf(cfg, Summary(batches[|batches| - 1]), Completed)]
  }

  /** The bar in progress is the summary of the open batch, and closed candles are those of the closed batches. */
  ghost predicate Tracks(cfg: Config, st: State, outs: seq<Output>, g: Grouping) {
    && Consistent(cfg) && AllTradable(cfg, g.closed) && (g.open != [] ==> Tradable(cfg, g.open))
    && st.current == (if g.open == [] then None else Some(Summary(g.open)))
    && ClosedCandles(outs) == CandlesOf(cfg, g.closed)
  }

  lemma {:induction false} TradeIsTradable(cfg: Config, tick: Tick)
    requires Consistent(cfg) && TradeOf(cfg, tick).Some?
    ensures Tradable(cfg, [TradeOf(cfg, tick).value]) && TradeOf(cfg, tick).value.size <= I64_MAX / 2
  {
  }

  lemma {:induction false} ClosedPush(outs: seq<Output>, out: Output)
    ensures ClosedCandles(outs + [out]) == ClosedCandles(outs) + ClosedBy(out)
  {
    assert (outs + [out])[..|outs|] == outs;
  }

  lemma {:induction false} CandlesPush(cfg: Config, closed: seq<seq<Trade>>, batch: seq<Trade>)
    requires AllTradable(cfg, closed) && Tradable(cfg, batch)
    ensures AllTradable(cfg, closed + [batch])
    ensures CandlesOf(cfg, closed + [batch]) == CandlesOf(cfg, closed) + [CandleOf(cfg, Summary(batch), Completed)]
  {
    assert (closed + [batch])[..|closed|] == closed;
  }

  lemma {:induction false} CloseOne(cfg: Config, outs: seq<Output>, out: Output, closed: seq<seq<Trade>>,
                                    batch: seq<Trade>)
    requires AllTradable(cfg, closed) && Tradable(cfg, batch) && ClosedCandles(outs) == CandlesOf(cfg, closed)
    requires ClosedBy(out) == [CandleOf(cfg, Summary(batch), Completed)]
    ensures AllTradable(cfg, closed + [batch]) && ClosedCandles(outs + [out]) == CandlesOf(cfg, closed + [batch])
  {
    ClosedPush(outs, out);
    CandlesPush(cfg, closed, batch);
  }

  lemma {:induction false} CloseNone(outs: seq<Output>, out: Output)
    requires ClosedBy(out) == []
    ensures ClosedCandles(outs + [out]) == ClosedCandles(outs)
  {
    ClosedPush(outs, out);
  }

  lemma {:induction false} ArrivalTracks(cfg: Config, st: State, outs: seq<Output>, g: Grouping, tick: Tick,
                                         checked: int, stamped: int)
    requires Valid(cfg, st) && Tracks(cfg, st, outs, g)
    ensures var (st', out) := Accept(cfg, st, tick, checked, stamped);
            Tracks(cfg, st', outs + [out], GroupOne(cfg, g, Arrival(tick, checked, stamped)))
  {
    var (st', out) := Accept(cfg, st, tick, checked, stamped);
    if TradeOf(cfg, tick).None? {
      CloseNone(outs, out);
    } else {
      var t := TradeOf(cfg, tick).value;
      TradeIsTradable(cfg, tick);
      SummaryOfOne(t);
      if g.open == [] {
        assert [] + [t] == [t];
        CloseNone(outs, out);
      } else if g.open[0].window == t.window {
        SummaryOfMore(g.open, t);
        CloseNone(outs, out);
      } else {
        CloseOne(cfg, outs, out, g.closed, g.open);
      }
    }
  }

  lemma {:induction false} FlushTracks(cfg: Config, st: State, outs: seq<Output>, g: Grouping, now: int)
    requires Valid(cfg, st) && Tracks(cfg, st, outs, g)
    ensures var (st', out) := FlushDue(cfg, st, now); Tracks(cfg, st', outs + [out], GroupOne(cfg, g, Flush(now)))
  {
    if g.open != [] && now >= g.open[0].window.close {
      CloseOne(cfg, outs, ClosedBar(CandleOf(cfg, Summary(g.open), Completed)), g.closed, g.open);
    } else {
      CloseNone(outs, Ignored);
    }
  }

  lemma {:induction false} RunTracks(cfg: Config, events: seq<Event>)
    requires Consistent(cfg)
    ensures var (st, outs) := Run(cfg, events); Tracks(cfg, st, outs, Group(cfg, events))
    decreases |events|
  {
    if events == [] {
    } else {
      var init, last := events[..|events| - 1], events[|events| - 1];
      RunTracks(cfg, init);
      var (st, outs) := Run(cfg, init);
      match last
      case Arrival(tick, checked, stamped) => ArrivalTracks(cfg, st, outs, Group(cfg, init), tick, checked, stamped);
      case Flush(now) => FlushTracks(cfg, st, outs, Group(cfg, init), now);
    }
  }

  // ---------------------------------------------------------------- what the candles show

  /** The candle of a batch: first, last, highest and lowest price, total size and count, and what was configured. */
  ghost predicate ShowsBatch(cfg: Config, c: Candle, batch: seq<Trade>) {
    && batch != [] && c.window == batch[0].window && c.session == c.window.session
    && c.symbol == cfg.symbol && c.calendar == cfg.calendar.id && c.period == cfg.period
    && ShowsPrices(c.ohlcv.o, c.ohlcv.h, c.ohlcv.l, c.ohlcv.c, batch)
    && c.ohlcv.volume
       == (if TotalSize(batch) < 0x1_0000_0000_0000_0000 then TotalSize(batch) else 0xFFFF_FFFF_FFFF_FFFF)
    && c.ohlcv.trades == (if |batch| < 0x1_0000_0000 then |batch| else 0xFFFF_FFFF)
  }

  ghost predicate ShowsPrices(o: real, h: real, l: real, c: real, batch: seq<Trade>)
    requires batch != []
  {
    && o == batch[0].price && c == batch[|batch| - 1].price
    && (forall i | 0 <= i < |batch| :: l <= batch[i].price <= h)
    && (exists i :: 0 <= i < |batch| && batch[i].price == h)
    && (exists i :: 0 <= i < |batch| && batch[i].price == l)
  }

  lemma {:induction false} CandleShows(cfg: Config, batch: seq<Trade>, completeness: Completeness)
    requires Tradable(cfg, batch)
    ensures ShowsBatch(cfg, CandleOf(cfg, Summary(batch), completeness), batch)
    ensures CandleOf(cfg, Summary(batch), completeness).completeness == completeness
  {
    BarPrices(batch);
  }

  lemma {:induction false} BarPrices(batch: seq<Trade>)
    requires batch != []
    ensures var bar := Summary(batch); ShowsPrices(bar.o, bar.h, bar.l, bar.c, batch)
  {
  }

  /**
   Folding tick by tick gives what summarising whole batches gives, flushes included: each closed
   candle shows its batch and is completed.
   */
  lemma {:induction false} RefinesBatches(cfg: Config, events: seq<Event>)
    requires Consistent(cfg)
    ensures var (st, outs) := Run(cfg, events); Tracks(cfg, st, outs, Group(cfg, events))
    ensures var candles, batches := ClosedCandles(Run(cfg, events).1), Group(cfg, events).closed;
            && |candles| == |batches|
            && forall i | 0 <= i < |candles| ::
                 ShowsBatch(cfg, candles[i], batches[i]) && candles[i].completeness.Completed?
  {
    RunTracks(cfg, events);
    var batches := Group(cfg, events).closed;
    forall i | 0 <= i < |batches|
      ensures var c := ClosedCandles(Run(cfg, events).1)[i]; ShowsBatch(cfg, c, batches[i]) && c.completeness.Completed?
    {
      assert Tradable(cfg, batches[i]);
      CandleShows(cfg, batches[i], Completed);
    }
  }

  /** What an output shows, between the open batches before and after it. */
  ghost predicate OutputShows(cfg: Config, out: Output, before: seq<Trade>, after: seq<Trade>) {
    match out
    case Opened(c) => ShowsBatch(cfg, c, after) && c.completeness.Partial?
    case PartialUpdate(c) => ShowsBatch(cfg, c, after) && c.completeness.Partial?
    case ClosedBar(c) => ShowsBatch(cfg, c, before) && c.completeness.Completed? && after == []
    case Rollover(closed, next) =>
      && ShowsBatch(cfg, closed, before) && closed.completeness.Completed?
      && ShowsBatch(cfg, next, after) && next.completeness.Partial?
    case Folded => after != []
    case Ignored => after == before
  }

  lemma {:induction false} StepShows(cfg: Config, st: State, e: Event, before: seq<Trade>, after: seq<Trade>)
    requires Valid(cfg, st) && (before != [] ==> Tradable(cfg, before)) && (after != [] ==> Tradable(cfg, after))
    requires st.current == (if before == [] then None else Some(Summary(before)))
    requires Step(cfg, st, e).0.current == (if after == [] then None else Some(Summary(after)))
    requires Step(cfg, st, e).1.Ignored? ==> after == before
    ensures OutputShows(cfg, Step(cfg, st, e).1, before, after)
  {
    if before != [] { CandleShows(cfg, before, Completed); }
    if after != [] { CandleShows(cfg, after, Partial); }
  }

  lemma {:induction false} IgnoredKeepsOpen(cfg: Config, st: State, e: Event, g: Grouping)
    requires Valid(cfg, st) && st.current == (if g.open == [] then None else Some(Summary(g.open)))
    requires Step(cfg, st, e).1.Ignored?
    ensures GroupOne(cfg, g, e) == g
  {
  }

  /** In every run each candle that an event sends, partial or completed, shows the trades of its batch so far. */
  lemma {:induction false} CandlesShowTheirTrades(cfg: Config, events: seq<Event>, e: Event)
    requires Consistent(cfg)
    ensures OutputShows(cfg, Step(cfg, Run(cfg, events).0, e).1, Group(cfg, events).open, Group(cfg, events + [e]).open)
  {
    var st, g := Run(cfg, events).0, Group(cfg, events);
    assert (events + [e])[..|events|] == events;
    RunTracks(cfg, events);
    RunTracks(cfg, events + [e]);
    if Step(cfg, st, e).1.Ignored? { IgnoredKeepsOpen(cfg, st, e, g); }
    StepShows(cfg, st, e, g.open, Group(cfg, events + [e]).open);
  }

  /** A last-price tick with a finite price, sized at most half of a signed 64-bit integer if it carries a size. */
  predicate IsTrade(tick: Tick) {
    && tick.tickType.Last?
    && (|| (tick.kind.PriceTick? && tick.value.PriceValue? && tick.value.price.Finite?)
        || (tick.kind.PriceSizeTick? && tick.value.PriceSizeValue? && tick.value.price.Finite?
            && tick.value.size < 0x4000_0000_0000_0000))
  }

  /** Ticks that are no trades, or have no window, are ignored and change nothing; others count with their size. */
  lemma {:induction false} IgnoredIff(cfg: Config, st: State, tick: Tick, checked: int, stamped: int)
    requires Valid(cfg, st)
    ensures var (st', out) := Accept(cfg, st, tick, checked, stamped);
            && (out.Ignored? <==> !IsTrade(tick) || cfg.calendar.window(tick.ts).None?)
            && (out.Ignored? ==> st' == st)
    ensures IsTrade(tick) && cfg.calendar.window(tick.ts).Some? ==>
              TradeOf(cfg, tick) == Some(Trade(cfg.calendar.window(tick.ts).value, tick.value.price.value,
                  if tick.value.PriceSizeValue? && tick.value.size > 0 then tick.value.size else 0, tick.ts))
  {
  }

  // ---------------------------------------------------------------- how often partial candles are sent

  /** When the clock last stamped a candle of the bar in progress. */
  function LastSent(events: seq<Event>, outs: seq<Output>): Option<int>
    requires |outs| == |events|
    decreases |events|
  {
    if events == [] then None
    else
      var e, out := events[|events| - 1], outs[|outs| - 1];
      if out.ClosedBar? then None
      else if e.Arrival? && (out.Opened? || out.PartialUpdate? || out.Rollover?) then Some(e.stamped)
      else LastSent(events[..|events| - 1], outs[..|outs| - 1])
  }

  lemma {:induction false} StampIsLast(cfg: Config, events: seq<Event>)
    requires Consistent(cfg)
    ensures Run(cfg, events).0.lastPartialEmit == LastSent(events, Run(cfg, events).1)
    ensures Run(cfg, events).0.current.Some? ==> Run(cfg, events).0.lastPartialEmit.Some?
    decreases |events|
  {
    if events != [] {
      var init, last := events[..|events| - 1], events[|events| - 1];
      StampIsLast(cfg, init);
      var (st, outs) := Run(cfg, init);
      var out := Step(cfg, st, last).1;
      assert (outs + [out])[..|outs|] == outs;
    }
  }

  /** A span of the monotonic clock, zero if it runs backwards. */
  function Elapsed(span: int): int { if span > 0 then span else 0 }

  lemma {:induction false} SameWindowOutput(cfg: Config, st: State, tick: Tick, checked: int, stamped: int, sent: int)
    requires Valid(cfg, st) && TradeOf(cfg, tick).Some? && st.current.Some? && st.lastPartialEmit == Some(sent)
    requires st.current.value.window == TradeOf(cfg, tick).value.window
    ensures var out := Accept(cfg, st, tick, checked, stamped).1;
            && (out.PartialUpdate? || out.Folded?)
            && (out.PartialUpdate? <==>
                cfg.partialEmitHz == 0 || Elapsed(checked - sent) >= 1_000_000_000 / cfg.partialEmitHz)
  {
  }

  /**
   In every run a trade of the bar in progress sends a partial candle exactly when the rate is
   unlimited, or a whole interval of the rate has passed since the last candle was sent.
   */
  lemma {:induction false} PartialIsSentIff(cfg: Config, events: seq<Event>, tick: Tick, checked: int, stamped: int)
    returns (sent: int)
    requires Consistent(cfg) && TradeOf(cfg, tick).Some?
    requires var g := Group(cfg, events); g.open != [] && g.open[0].window == TradeOf(cfg, tick).value.window
    ensures LastSent(events, Run(cfg, events).1) == Some(sent)
    ensures var out := Accept(cfg, Run(cfg, events).0, tick, checked, stamped).1;
            && (out.PartialUpdate? || out.Folded?)
            && (out.PartialUpdate? <==>
                cfg.partialEmitHz == 0 || Elapsed(checked - sent) >= 1_000_000_000 / cfg.partialEmitHz)
  {
    RunTracks(cfg, events);
    StampIsLast(cfg, events);
    sent := Run(cfg, events).0.lastPartialEmit.value;
    SameWindowOutput(cfg, Run(cfg, events).0, tick, checked, stamped, sent);
  }

  // ---------------------------------------------------------------- every trade in one batch

  ghost predicate Partitions(g: Grouping, trades: seq<Trade>) {
    Flatten(g.closed) + g.open == trades && Batched(g.closed) && Uniform(g.open)
  }

  lemma {:induction false} FlattenOne(batches: seq<seq<Trade>>, batch: seq<Trade>)
    ensures Flatten(batches + [batch]) == Flatten(batches) + batch
  {
    assert (batches + [batch])[..|batches|] == batches;
  }

  lemma {:induction false} ExtendOpen(g: Grouping, trades: seq<Trade>, t: Trade)
    requires Partitions(g, trades) && (g.open == [] || g.open[0].window == t.window)
    ensures Partitions(g.(open := g.open + [t]), trades + [t])
  {
    assert Flatten(g.closed) + (g.open + [t]) == (Flatten(g.closed) + g.open) + [t];
  }

  lemma {:induction false} CloseOpen(g: Grouping, trades: seq<Trade>, next: seq<Trade>)
    requires Partitions(g, trades) && g.open != [] && |next| <= 1
    ensures Partitions(Grouping(g.closed + [g.open], next), trades + next)
  {
    FlattenOne(g.closed, g.open);
  }

  lemma {:induction false} GroupOnePartitions(cfg: Config, g: Grouping, trades: seq<Trade>, e: Event)
    requires Partitions(g, trades)
    ensures Partitions(GroupOne(cfg, g, e), trades + TradesOf(cfg, e))
  {
    var next, r := TradesOf(cfg, e), GroupOne(cfg, g, e);
    if r == g && next == [] {
      assert trades + [] == trades;
    } else if r.closed == g.closed {
      ExtendOpen(g, trades, next[0]);
    } else {
      CloseOpen(g, trades, next);
    }
  }

  /** Every accepted trade lands in exactly one batch, in order; the trades of a batch share their window. */
  lemma {:induction false} BatchesPartitionTrades(cfg: Config, events: seq<Event>)
    ensures Partitions(Group(cfg, events), Trades(cfg, events))
    decreases |events|
  {
    if events != [] {
      BatchesPartitionTrades(cfg, events[..|events| - 1]);
      GroupOnePartitions(cfg, Group(cfg, events[..|events| - 1]), Trades(cfg, events[..|events| - 1]),
                         events[|events| - 1]);
    }
  }

  /** The event is a trade of the window that a flush has closed last. */
  predicate Reopens(cfg: Config, g: Grouping, e: Event) {
    && e.Arrival? && TradeOf(cfg, e.tick).Some? && g.open == [] && g.closed != []
    && var last := g.closed[|g.closed| - 1];
    last != [] && last[0].window == TradeOf(cfg, e.tick).value.window
  }

  predicate NeverReopens(cfg: Config, events: seq<Event>)
    decreases |events|
  {
    events == [] ||
    (NeverReopens(cfg, events[..|events| - 1])
     && !Reopens(cfg, Group(cfg, events[..|events| - 1]), events[|events| - 1]))
  }

  lemma {:induction false} NewBatchIff(all: seq<seq<Trade>>, t: Trade)
    requires Batched(all)
    ensures Batched(all + [[t]])
    ensures Maximal(all + [[t]]) <==> Maximal(all) && (all == [] || all[|all| - 1][0].window != t.window)
  {
    var more := all + [[t]];
    assert forall i | 0 <= i < |all| :: more[i] == all[i];
    assert more[|all|] == [t];
  }

  lemma {:induction false} LongerBatchIff(g: Grouping, t: Trade)
    requires g.open != [] && Batched(AllBatches(g)) && Batched(AllBatches(g.(open := g.open + [t])))
    ensures Maximal(AllBatches(g.(open := g.open + [t]))) <==> Maximal(AllBatches(g))
  {
    var before, after := AllBatches(g), AllBatches(g.(open := g.open + [t]));
    assert forall i | 0 <= i < |g.closed| :: after[i] == before[i];
    assert before[|g.closed|] == g.open && after[|g.closed|] == g.open + [t];
  }

  lemma {:induction false} GroupOneMaximalIff(cfg: Config, g: Grouping, e: Event)
    requires Batched(AllBatches(g)) && Batched(AllBatches(GroupOne(cfg, g, e)))
    ensures Maximal(AllBatches(GroupOne(cfg, g, e))) <==> Maximal(AllBatches(g)) && !Reopens(cfg, g, e)
  {
    if e.Arrival? && TradeOf(cfg, e.tick).Some? {
      var t := TradeOf(cfg, e.tick).value;
      if g.open == [] {
        assert [] + [t] == [t];
        NewBatchIff(g.closed, t);
      } else if g.open[0].window == t.window {
        LongerBatchIff(g, t);
      } else {
        NewBatchIff(g.closed + [g.open], t);
      }
    }
  }

  lemma {:induction false} AllTrades(cfg: Config, events: seq<Event>)
    ensures Batched(AllBatches(Group(cfg, events))) && Flatten(AllBatches(Group(cfg, events))) == Trades(cfg, events)
  {
    var g := Group(cfg, events);
    BatchesPartitionTrades(cfg, events);
    if g.open == [] { assert Flatten(g.closed) + [] == Flatten(g.closed); } else { FlattenOne(g.closed, g.open); }
  }

  /** Neighbouring batches differ in window, so are maximal runs, exactly when no flushed window is reopened. */
  lemma {:induction false} BatchesAreMaximalIff(cfg: Config, events: seq<Event>)
    ensures Batched(AllBatches(Group(cfg, events)))
    ensures Maximal(AllBatches(Group(cfg, events))) <==> NeverReopens(cfg, events)
    decreases |events|
  {
    AllTrades(cfg, events);
    if events != [] {
      BatchesAreMaximalIff(cfg, events[..|events| - 1]);
      GroupOneMaximalIff(cfg, Group(cfg, events[..|events| - 1]), events[|events| - 1]);
    }
  }

  ghost predicate TicksOnly(events: seq<Event>) { forall i | 0 <= i < |events| :: events[i].Arrival? }

  /** Without flushes nothing is reopened. */
  lemma {:induction false} TicksNeverReopen(cfg: Config, events: seq<Event>)
    requires TicksOnly(events)
    ensures NeverReopens(cfg, events) && (Group(cfg, events).open == [] ==> Group(cfg, events).closed == [])
    decreases |events|
  {
    if events != [] { TicksNeverReopen(cfg, events[..|events| - 1]); }
  }

  // ---------------------------------------------------------------- the weighted price

  lemma {:induction false} AmountWithin(lo: real, price: real, hi: real, size: nat)
    requires lo <= price <= hi
    ensures Amount(lo, size) <= Amount(price, size) <= Amount(hi, size)
  {
    ScaleBelow(lo, price, size as real);
    ScaleBelow(price, hi, size as real);
  }

  lemma {:induction false} AmountAdds(price: real, a: nat, b: nat)
    ensures Amount(price, a + b) == Amount(price, a) + Amount(price, b)
  {
    assert (a + b) as real == a as real + b as real;
  }

  /** The turnover lies between the total size at the lowest price and at the highest. */
  lemma {:induction false} TurnoverWithin(batch: seq<Trade>, lo: real, hi: real)
    requires forall i | 0 <= i < |batch| :: lo <= batch[i].price <= hi
    ensures Amount(lo, TotalSize(batch)) <= Turnover(batch) <= Amount(hi, TotalSize(batch))
    decreases |batch|
  {
    if batch == [] {
      NoAmount(lo);
      NoAmount(hi);
    } else {
      var init, t := batch[..|batch| - 1], batch[|batch| - 1];
      TurnoverWithin(init, lo, hi);
      AmountWithin(lo, t.price, hi, t.size);
      AmountAdds(lo, TotalSize(init), t.size);
      AmountAdds(hi, TotalSize(init), t.size);
    }
  }

  /** The volume-weighted average price: none without volume. */
  function Vwap(batch: seq<Trade>): Option<real> {
    if TotalSize(batch) == 0 then None else Some(Turnover(batch) / TotalSize(batch) as real)
  }

  lemma {:induction false} QuotientWithin(lo: real, num: real, hi: real, n: nat)
    requires n > 0 && Amount(lo, n) <= num <= Amount(hi, n)
    ensures lo <= num / n as real <= hi
  {
    var q := num / n as real;
    assert q * n as real == num;
    if q < lo { ScaleStrict(q, lo, n as real); }
    if q > hi { ScaleStrict(hi, q, n as real); }
  }

  lemma {:induction false} ScaleStrict(x: real, y: real, k: real)
    requires x < y && k > 0.0
    ensures x * k < y * k
  {
    assert (y - x) * k > 0.0;
  }

  /** The average price of a batch is within its range, zero-size trades or not. */
  lemma {:induction false} VwapInRange(batch: seq<Trade>)
    requires batch != [] && Vwap(batch).Some?
    ensures Lowest(batch) <= Vwap(batch).value <= Highest(batch)
  {
    TurnoverWithin(batch, Lowest(batch), Highest(batch));
    QuotientWithin(Lowest(batch), Turnover(batch), Highest(batch), TotalSize(batch));
  }

  lemma {:induction false} QuotientsDiffer(num: real, m: nat, n: nat)
    requires 0 < m < n
    ensures num / m as real == num / n as real <==> num == 0.0
  {
    var q := num / m as real;
    assert q * m as real == num;
    if q == num / n as real {
      assert q * n as real == num;
      assert q * (n - m) as real == 0.0;
    }
  }

  /**
   A candle carries the exact average price of its batch exactly when the total size does not
   saturate the volume counter, or the turnover is zero.
   */
  lemma {:induction false} WapIsExactIff(cfg: Config, batch: seq<Trade>, completeness: Completeness)
    requires Tradable(cfg, batch)
    ensures CandleOf(cfg, Summary(batch), completeness).ohlcv.wap == Vwap(batch)
            <==> TotalSize(batch) <= U64_MAX || Turnover(batch) == 0.0
  {
    var n := TotalSize(batch);
    if n > 0 {
      VwapInRange(batch);
      if n > U64_MAX { QuotientsDiffer(Turnover(batch), U64_MAX, n); }
    }
  }

  lemma {:induction false} ArrivalIsOnCalendar(cfg: Config, g: Grouping, e: Event)
    requires CarriesId(cfg.calendar)
    requires g.open != [] ==> g.open[0].window.session.calendar == cfg.calendar.id
    ensures var r := GroupOne(cfg, g, e); r.open != [] ==> r.open[0].window.session.calendar == cfg.calendar.id
  {
  }

  lemma {:induction false} OpenIsOnCalendar(cfg: Config, events: seq<Event>)
    requires CarriesId(cfg.calendar) && Group(cfg, events).open != []
    ensures Group(cfg, events).open[0].window.session.calendar == cfg.calendar.id
    decreases |events|
  {
    var init := events[..|events| - 1];
    if Group(cfg, init).open != [] { OpenIsOnCalendar(cfg, init); }
    ArrivalIsOnCalendar(cfg, Group(cfg, init), events[|events| - 1]);
  }

  /**
   Once a trade is in the open batch, its candle can be built exactly when the symbol trades on the
   configured calendar; neither constructor compares the two, and the code panics otherwise.
   */
  lemma {:induction false} OpenCandleIsBuiltIff(cfg: Config, events: seq<Event>, completeness: Completeness)
    requires CarriesId(cfg.calendar) && Group(cfg, events).open != []
    ensures ToCandle(cfg, Summary(Group(cfg, events).open), completeness).Ok?
            <==> cfg.symbol.calendar == cfg.calendar.id
  {
    OpenIsOnCalendar(cfg, events);
    ToCandleIsOkIff(cfg, Summary(Group(cfg, events).open), completeness);
  }

  lemma {:induction false} OpenBatch(cfg: Config, events: seq<Event>) returns (batch: seq<Trade>)
    requires Consistent(cfg) && Run(cfg, events).0.current.Some?
    ensures batch == Group(cfg, events).open && Tradable(cfg, batch)
    ensures Run(cfg, events).0.current.value == Summary(batch)
  {
    RunTracks(cfg, events);
    batch := Group(cfg, events).open;
  }

  lemma {:induction false} BuiltIsOrdered(cfg: Config, bar: Bar, completeness: Completeness, candle: Candle)
    requires ToCandle(cfg, bar, completeness) == Ok(candle)
    ensures candle.ohlcv.Ordered()
  {
  }

  /**
   For a symbol of the calendar, in every run the bar in progress becomes a candle, so neither
   expectation in the code can fail; the candle carries the exact average of the open batch unless
   the volume counter has saturated.
   */
  lemma {:induction false} CandlesNeverFail(cfg: Config, events: seq<Event>, completeness: Completeness)
    returns (batch: seq<Trade>, candle: Candle)
    requires Consistent(cfg) && Run(cfg, events).0.current.Some?
    ensures batch == Group(cfg, events).open && batch != []
    ensures ToCandle(cfg, Run(cfg, events).0.current.value, completeness) == Ok(candle) && candle.ohlcv.Ordered()
    ensures candle.ohlcv.wap == Vwap(batch) <==> TotalSize(batch) <= U64_MAX || Turnover(batch) == 0.0
  {
    batch := OpenBatch(cfg, events);
    candle := CandleOf(cfg, Summary(batch), completeness);
    BuiltIsOrdered(cfg, Summary(batch), completeness, candle);
    WapIsExactIff(cfg, batch, completeness);
  }

  // ---------------------------------------------------------------- windows in turn

  /** Successive accepted ticks have windows that are the same or follow one another. */
  ghost predicate TradesInTurn(trades: seq<Trade>) {
    forall i, j | 0 <= i <= j < |trades| :: CryptoCalendar.InTurn(trades[i].window, trades[j].window)
  }

  /** Where each batch sits among the trades. */
  lemma {:induction false} FlattenAt(batches: seq<seq<Trade>>, i: nat) returns (at: nat)
    requires Batched(batches) && i < |batches|
    ensures at < |Flatten(batches)| && Flatten(batches)[at] == batches[i][0]
    ensures at == |Flatten(batches[..i])|
    decreases |batches|
  {
    var init := batches[..|batches| - 1];
    if i == |init| {
      at := |Flatten(init)|;
    } else {
      at := FlattenAt(init, i);
      assert init[..i] == batches[..i];
    }
  }

  lemma {:induction false} FlattenGrows(batches: seq<seq<Trade>>, i: nat, j: nat)
    requires i <= j <= |batches|
    ensures |Flatten(batches[..i])| <= |Flatten(batches[..j])|
    decreases j
  {
    if i < j {
      FlattenGrows(batches, i, j - 1);
      assert batches[..j][..j - 1] == batches[..j - 1];
    }
  }

  lemma {:induction false} BatchesInTurn(batches: seq<seq<Trade>>, i: nat, j: nat)
    requires Batched(batches) && TradesInTurn(Flatten(batches)) && i <= j < |batches|
    ensures CryptoCalendar.InTurn(batches[i][0].window, batches[j][0].window)
  {
    var at := FlattenAt(batches, i);
    var to := FlattenAt(batches, j);
    FlattenGrows(batches, i, j);
  }

  /** Maximal runs of windows that come in turn: each window ends before the next ones open. */
  lemma {:induction false} RunsAreDisjoint(batches: seq<seq<Trade>>, i: nat, j: nat)
    requires Batched(batches) && Maximal(batches) && TradesInTurn(Flatten(batches)) && i < j < |batches|
    ensures batches[i][0].window.open < batches[j][0].window.open
    ensures batches[i][0].window.close <= batches[j][0].window.open
  {
    BatchesInTurn(batches, i, i + 1);
    BatchesInTurn(batches, i + 1, j);
  }

  function WindowsOf(closed: seq<Candle>, current: Option<Bar>): seq<BarWindow> {
    seq(|closed|, i requires 0 <= i < |closed| => closed[i].window)
    + if current.Some? then [current.value.window] else []
  }

  /** The windows of the closed candles, then of the bar in progress. */
  ghost function BarWindows(cfg: Config, events: seq<Event>): seq<BarWindow>
    requires Consistent(cfg)
  {
    WindowsOf(ClosedCandles(Run(cfg, events).1), Run(cfg, events).0.current)
  }

  /** Each window opens later than the one before it and not before that is over. */
  ghost predicate Ascend(ws: seq<BarWindow>) {
    forall i, j | 0 <= i < j < |ws| :: ws[i].open < ws[j].open && ws[i].close <= ws[j].open
  }

  ghost predicate Matches(closed: seq<Candle>, current: Option<Bar>, g: Grouping) {
    && |closed| == |g.closed|
    && (forall i | 0 <= i < |closed| :: g.closed[i] != [] && closed[i].window == g.closed[i][0].window)
    && (current.Some? <==> g.open != []) && (g.open != [] ==> current.value.window == g.open[0].window)
  }

  lemma {:induction false} RunMatches(cfg: Config, events: seq<Event>)
    requires Consistent(cfg)
    ensures Matches(ClosedCandles(Run(cfg, events).1), Run(cfg, events).0.current, Group(cfg, events))
  {
    RunTracks(cfg, events);
    var g := Group(cfg, events);
    assert forall i | 0 <= i < |g.closed| :: Tradable(cfg, g.closed[i]);
  }

  lemma {:induction false} WindowsMatch(closed: seq<Candle>, current: Option<Bar>, g: Grouping)
    requires Matches(closed, current, g)
    ensures var ws, all := WindowsOf(closed, current), AllBatches(g);
            |ws| == |all| && forall i | 0 <= i < |ws| :: all[i] != [] && ws[i] == all[i][0].window
  {
  }

  lemma {:induction false} WindowsOfBatches(cfg: Config, events: seq<Event>)
    requires Consistent(cfg)
    ensures var ws, all := BarWindows(cfg, events), AllBatches(Group(cfg, events));
            |ws| == |all| && forall i | 0 <= i < |ws| :: all[i] != [] && ws[i] == all[i][0].window
  {
    RunMatches(cfg, events);
    WindowsMatch(ClosedCandles(Run(cfg, events).1), Run(cfg, events).0.current, Group(cfg, events));
  }

  lemma {:induction false} AscendIffMaximal(ws: seq<BarWindow>, all: seq<seq<Trade>>)
    requires Batched(all) && TradesInTurn(Flatten(all)) && |ws| == |all|
    requires forall i | 0 <= i < |ws| :: ws[i] == all[i][0].window
    ensures Ascend(ws) <==> Maximal(all)
  {
    if Maximal(all) {
      forall i, j | 0 <= i < j < |ws| ensures ws[i].open < ws[j].open && ws[i].close <= ws[j].open {
        RunsAreDisjoint(all, i, j);
      }
    } else {
      var i :| 0 < i < |all| && all[i - 1][0].window == all[i][0].window;
      assert ws[i - 1] == ws[i];
    }
  }

  /**
   When the windows of successive trades come in turn, the closed candles and the bar in progress have
   strictly increasing, disjoint windows exactly when no flushed window is reopened by a late trade.
   */
  lemma {:induction false} WindowsAscendIff(cfg: Config, events: seq<Event>)
    requires Consistent(cfg) && TradesInTurn(Trades(cfg, events))
    ensures Ascend(BarWindows(cfg, events)) <==> NeverReopens(cfg, events)
  {
    var ws, all := BarWindows(cfg, events), AllBatches(Group(cfg, events));
    WindowsOfBatches(cfg, events);
    AllTrades(cfg, events);
    BatchesAreMaximalIff(cfg, events);
    AscendIffMaximal(ws, all);
  }

  /** Accepted ticks of the crypto calendar, in time order and within its coverage. */
  ghost predicate CryptoTicks(cfg: Config, events: seq<Event>) {
    && (forall ts :: cfg.calendar.window(ts) == match CryptoCalendar.Window(ts, cfg.period)
                                                case Ok(w) => Some(w)
                                                case Err(_) => None)
    && CryptoCalendar.Tiling(cfg.period) && TicksOnly(events)
    && (forall i | 0 <= i < |events| :: CryptoCalendar.Covered(events[i].tick.ts))
    && (forall i, j | 0 <= i <= j < |events| :: events[i].tick.ts <= events[j].tick.ts)
  }

  /** An accepted trade comes from a tick of its time. */
  ghost predicate FromCalendar(cfg: Config, t: Trade, latest: int) {
    CryptoCalendar.Covered(t.ts) && t.ts <= latest && cfg.calendar.window(t.ts) == Some(t.window)
  }

  ghost predicate InTime(trades: seq<Trade>) { forall i, j | 0 <= i <= j < |trades| :: trades[i].ts <= trades[j].ts }

  lemma {:induction false} TradesInTime(cfg: Config, events: seq<Event>)
    requires CryptoTicks(cfg, events)
    ensures InTime(Trades(cfg, events))
    ensures forall i | 0 <= i < |Trades(cfg, events)| ::
              events != [] && FromCalendar(cfg, Trades(cfg, events)[i], events[|events| - 1].tick.ts)
    decreases |events|
  {
    if events != [] {
      var init, last := events[..|events| - 1], events[|events| - 1];
      TradesInTime(cfg, init);
      var before, after := Trades(cfg, init), Trades(cfg, events);
      forall i | 0 <= i < |after| ensures FromCalendar(cfg, after[i], last.tick.ts) {
        if i < |before| {
          assert FromCalendar(cfg, before[i], init[|init| - 1].tick.ts);
        }
      }
    }
  }

  lemma {:induction false} CryptoTradesInTurn(cfg: Config, events: seq<Event>)
    requires CryptoTicks(cfg, events)
    ensures TradesInTurn(Trades(cfg, events))
  {
    var trades := Trades(cfg, events);
    TradesInTime(cfg, events);
    forall i, j | 0 <= i <= j < |trades| ensures CryptoCalendar.InTurn(trades[i].window, trades[j].window) {
      assert FromCalendar(cfg, trades[i], events[|events| - 1].tick.ts);
      assert FromCalendar(cfg, trades[j], events[|events| - 1].tick.ts);
      CryptoCalendar.WindowsTile(trades[i].ts, trades[j].ts, cfg.period);
    }
  }

  /** On the crypto calendar, ticks in time order make bars with strictly increasing, disjoint windows. */
  lemma {:induction false} CryptoBarsAscend(cfg: Config, events: seq<Event>)
    requires Consistent(cfg) && CryptoTicks(cfg, events)
    ensures Ascend(BarWindows(cfg, events))
  {
    CryptoTradesInTurn(cfg, events);
    TicksNeverReopen(cfg, events);
    WindowsAscendIff(cfg, events);
  }
}
