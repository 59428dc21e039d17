/** From ticks to stored rows: aggregator, seam and series together. */
module Pipeline {
  import opened Wrappers
  import opened Candles
  import opened Aggregation
  import opened AggregationLaws
  import opened BarStreams
  import opened CandleSeriesStore
  import opened HistoryThenLiveStreams
  import CryptoCalendar

  /** The stream so far agrees with the batches so far. */
  ghost predicate InStep(cfg: Config, st: State, delivered: seq<Candle>, g: Grouping) {
    && AllTradable(cfg, g.closed)
    && OpensAscend(delivered) && (st.current.None? <==> delivered == [])
    && (delivered != [] ==> delivered[|delivered| - 1].window.open == st.current.value.window.open)
    && (forall i | 0 <= i < |g.closed| :: Kept(cfg, delivered, g.closed[i]))
  }

  /** The last bar delivered for the batch's window is its completed candle. */
  ghost predicate Kept(cfg: Config, delivered: seq<Candle>, batch: seq<Trade>) {
    Tradable(cfg, batch)
    && LastDelivered(delivered, batch[0].window.open) == Some(CandleOf(cfg, Summary(batch), Completed))
  }

  lemma {:induction false} KeptStill(cfg: Config, delivered: seq<Candle>, batch: seq<Trade>, c: Candle)
    requires Kept(cfg, delivered, batch) && c.window.open != batch[0].window.open
    ensures Kept(cfg, delivered + [c], batch)
  {
    LastOfMore(delivered, c, batch[0].window.open);
  }

  lemma {:induction false} AscendMore(cs: seq<Candle>, c: Candle)
    requires OpensAscend(cs) && (cs != [] ==> cs[|cs| - 1].window.open <= c.window.open)
    ensures OpensAscend(cs + [c])
  {
  }

  /** Delivering one more bar of the window in progress. */
  lemma {:induction false} DeliverCurrent(cfg: Config, delivered: seq<Candle>, closed: seq<seq<Trade>>, c: Candle)
    requires OpensAscend(delivered) && (delivered != [] ==> delivered[|delivered| - 1].window.open <= c.window.open)
    requires forall i | 0 <= i < |closed| ::
               Kept(cfg, delivered, closed[i]) && closed[i][0].window.open != c.window.open
    ensures OpensAscend(delivered + [c]) && forall i | 0 <= i < |closed| :: Kept(cfg, delivered + [c], closed[i])
  {
    AscendMore(delivered, c);
    forall i | 0 <= i < |closed| ensures Kept(cfg, delivered + [c], closed[i]) {
      KeptStill(cfg, delivered, closed[i], c);
    }
  }

  /** Delivering the completed candle of the open batch. */
  lemma {:induction false} DeliverClosed(cfg: Config, delivered: seq<Candle>, closed: seq<seq<Trade>>,
                                         batch: seq<Trade>)
    requires Tradable(cfg, batch)
    requires OpensAscend(delivered)
             && (delivered != [] ==> delivered[|delivered| - 1].window.open <= batch[0].window.open)
    requires forall i | 0 <= i < |closed| ::
               Kept(cfg, delivered, closed[i]) && closed[i][0].window.open != batch[0].window.open
    ensures var more := delivered + [CandleOf(cfg, Summary(batch), Completed)];
            OpensAscend(more) && forall i | 0 <= i < |closed + [batch]| :: Kept(cfg, more, (closed + [batch])[i])
  {
    var c := CandleOf(cfg, Summary(batch), Completed);
    DeliverCurrent(cfg, delivered, closed, c);
    LastOfMore(delivered, c, batch[0].window.open);
  }

  /** Opens of the batches, the open one included, strictly increase. */
  ghost predicate BatchOpensAscend(batches: seq<seq<Trade>>)
    requires Batched(batches)
  {
    forall i, j | 0 <= i < j < |batches| :: batches[i][0].window.open < batches[j][0].window.open
  }

  lemma {:induction false} BatchesAscend(cfg: Config, events: seq<Event>)
    requires TicksOnly(events) && TradesInTurn(Trades(cfg, events))
    ensures Batched(AllBatches(Group(cfg, events))) && BatchOpensAscend(AllBatches(Group(cfg, events)))
  {
    var all: seq<seq<Trade>> := AllBatches(Group(cfg, events));
    AllTrades(cfg, events);
    TicksNeverReopen(cfg, events);
    BatchesAreMaximalIff(cfg, events);
    forall i, j | 0 <= i < j < |all| ensures all[i][0].window.open < all[j][0].window.open {
      RunsAreDisjoint(all, i, j);
    }
  }

  /** The closed batches open at other times than the open one. */
  ghost predicate OpensApart(closed: seq<seq<Trade>>, open: int) {
    forall i | 0 <= i < |closed| :: closed[i] != [] && closed[i][0].window.open != open
  }

  lemma {:induction false} ApartFromOpen(g: Grouping)
    requires g.open != [] && Batched(AllBatches(g)) && BatchOpensAscend(AllBatches(g))
    ensures OpensApart(g.closed, g.open[0].window.open)
  {
    var all := AllBatches(g);
    assert all[|g.closed|] == g.open && forall i | 0 <= i < |g.closed| :: all[i] == g.closed[i];
  }

  /** A partial bar of the batch in progress, or of the first batch. */
  lemma {:induction false} PartialInStep(cfg: Config, st: State, delivered: seq<Candle>, g: Grouping, bar: Bar,
                                         g': Grouping, st': State, c: Candle)
    requires InStep(cfg, st, delivered, g) && g'.closed == g.closed && OpensApart(g.closed, c.window.open)
    requires st'.current == Some(bar) && c.window == bar.window
    requires st.current.Some? ==> st.current.value.window == bar.window
    ensures InStep(cfg, st', delivered + [c], g')
  {
    DeliverCurrent(cfg, delivered, g.closed, c);
  }

  lemma {:induction false} RolloverInStep(cfg: Config, st: State, delivered: seq<Candle>, g: Grouping, t: Trade,
                                          st': State, next: Candle)
    requires InStep(cfg, st, delivered, g) && g.open != [] && Tradable(cfg, g.open)
             && st.current == Some(Summary(g.open))
    requires OpensApart(g.closed, g.open[0].window.open) && OpensApart(g.closed + [g.open], t.window.open)
    requires g.open[0].window.open <= t.window.open && st'.current == Some(NewBar(t)) && next.window == t.window
    ensures InStep(cfg, st', delivered + [CandleOf(cfg, Summary(g.open), Completed), next],
                   Grouping(g.closed + [g.open], [t]))
  {
    var closed := CandleOf(cfg, Summary(g.open), Completed);
    DeliverClosed(cfg, delivered, g.closed, g.open);
    DeliverCurrent(cfg, delivered + [closed], g.closed + [g.open], next);
    assert delivered + [closed] + [next] == delivered + [closed, next];
  }

  lemma {:induction false} RolledOpens(g: Grouping, t: Trade)
    requires g.open != [] && Batched(AllBatches(Grouping(g.closed + [g.open], [t])))
    requires BatchOpensAscend(AllBatches(Grouping(g.closed + [g.open], [t])))
    ensures OpensApart(g.closed, g.open[0].window.open) && OpensApart(g.closed + [g.open], t.window.open)
    ensures g.open[0].window.open <= t.window.open
  {
    var all := g.closed + [g.open] + [[t]];
    assert all == AllBatches(Grouping(g.closed + [g.open], [t]));
    assert all[|g.closed|] == g.open && all[|g.closed| + 1] == [t];
    assert forall i | 0 <= i < |g.closed| :: all[i] == g.closed[i];
    assert forall i | 0 <= i < |g.closed + [g.open]| :: all[i] == (g.closed + [g.open])[i];
  }

  ghost predicate Ascending(g: Grouping) { Batched(AllBatches(g)) && BatchOpensAscend(AllBatches(g)) }

  lemma {:induction false} AcceptNew(cfg: Config, st: State, outs: seq<Output>, delivered: seq<Candle>, g: Grouping,
                                     t: Trade, g': Grouping, st': State, next: Candle)
    requires Tracks(cfg, st, outs, g) && InStep(cfg, st, delivered, g) && Ascending(g')
    requires g.open != [] && g' == Grouping(g.closed + [g.open], [t]) && st'.current == Some(NewBar(t))
             && next.window == t.window
    ensures InStep(cfg, st', delivered + [CandleOf(cfg, Summary(g.open), Completed), next], g')
  {
    RolledOpens(g, t);
    RolloverInStep(cfg, st, delivered, g, t, st', next);
  }

  lemma {:induction false} AcceptSame(cfg: Config, st: State, delivered: seq<Candle>, g: Grouping, g': Grouping,
                                      st': State, out: Output)
    requires InStep(cfg, st, delivered, g) && Ascending(g') && g'.open != [] && g'.closed == g.closed
             && st'.current.Some?
    requires st'.current.value.window == g'.open[0].window
    requires st.current.Some? ==> st.current.value.window == g'.open[0].window
    requires out.Folded? || (out.PartialUpdate? && out.candle.window == g'.open[0].window)
             || (out.Opened? && out.candle.window == g'.open[0].window)
    requires out.Folded? ==> st.current.Some?
    ensures InStep(cfg, st', delivered + Emitted(out), g')
  {
    if out.Folded? {
      assert delivered + [] == delivered;
    } else {
      ApartFromOpen(g');
      PartialInStep(cfg, st, delivered, g, st'.current.value, g', st', out.candle);
    }
  }

  lemma {:induction false} AcceptInStep(cfg: Config, st: State, outs: seq<Output>, delivered: seq<Candle>,
                                        g: Grouping, tick: Tick, checked: int, stamped: int)
    requires Valid(cfg, st) && Tracks(cfg, st, outs, g) && InStep(cfg, st, delivered, g)
    requires Ascending(GroupOne(cfg, g, Arrival(tick, checked, stamped)))
    ensures var (st', out) := Accept(cfg, st, tick, checked, stamped);
            InStep(cfg, st', delivered + Emitted(out), GroupOne(cfg, g, Arrival(tick, checked, stamped)))
  {
    var (st', out) := Accept(cfg, st, tick, checked, stamped);
    var g' := GroupOne(cfg, g, Arrival(tick, checked, stamped));
    if TradeOf(cfg, tick).None? {
      assert delivered + [] == delivered;
    } else if out.Rollover? {
      AcceptNew(cfg, st, outs, delivered, g, TradeOf(cfg, tick).value, g', st', out.next);
    } else {
      AcceptSame(cfg, st, delivered, g, g', st', out);
    }
  }

  lemma {:induction false} PrefixInTurn(trades: seq<Trade>, more: seq<Trade>)
    requires TradesInTurn(trades + more)
    ensures TradesInTurn(trades)
  {
    forall i, j | 0 <= i <= j < |trades| ensures CryptoCalendar.InTurn(trades[i].window, trades[j].window) {
      assert (trades + more)[i] == trades[i] && (trades + more)[j] == trades[j];
    }
  }

  /** Over every run of ticks, the delivered bars stay in step with the batches. */
  lemma {:induction false} StreamInStep(cfg: Config, events: seq<Event>)
    requires Consistent(cfg) && TicksOnly(events) && TradesInTurn(Trades(cfg, events))
    ensures InStep(cfg, Run(cfg, events).0, Concat(Run(cfg, events).1), Group(cfg, events))
    decreases |events|
  {
    if events != [] {
      var init, last := events[..|events| - 1], events[|events| - 1];
      assert init + [last] == events;
      PrefixInTurn(Trades(cfg, init), TradesOf(cfg, last));
      StreamInStep(cfg, init);
      RunTracks(cfg, init);
      BatchesAscend(cfg, events);
      RunStep(cfg, init, last);
      var (st, outs) := Run(cfg, init);
      AcceptInStep(cfg, st, outs, Concat(outs), Group(cfg, init), last.tick, last.checked, last.stamped);
    }
  }

  // ---------------------------------------------------------------- through the seam

  lemma {:induction false} LatestBelow(seam: Option<int>, cs: seq<Candle>, open: int)
    requires (seam.Some? ==> seam.value <= open) && forall i | 0 <= i < |cs| :: cs[i].window.open <= open
    ensures Latest(seam, cs).Some? ==> Latest(seam, cs).value <= open
    decreases |cs|
  {
    if cs != [] { LatestBelow(seam, cs[..|cs| - 1], open); }
  }

  /** Bars in order keep their last word at and after the seam. */
  lemma {:induction false} SeamKeepsLast(seam: Option<int>, live: seq<Candle>, open: int)
    requires OpensAscend(live) && (seam.Some? ==> seam.value <= open) && LastDelivered(live, open).Some?
    ensures LastDelivered(PastSeam(seam, live), open) == LastDelivered(live, open)
    decreases |live|
  {
    var init, c := live[..|live| - 1], live[|live| - 1];
    assert init + [c] == live;
    SeamDropsOnlyStale(seam, init, c);
    if c.window.open == open {
      LatestBelow(seam, init, open);
      LastOfMore(PastSeam(seam, init), c, open);
    } else {
      SeamKeepsLast(seam, init, open);
      LastOfMore(PastSeam(seam, init), c, open);
      assert PastSeam(seam, init) + [] == PastSeam(seam, init);
    }
  }

  lemma {:induction false} LastOfBoth(xs: seq<Candle>, ys: seq<Candle>, open: int)
    requires LastDelivered(ys, open).Some?
    ensures LastDelivered(xs + ys, open) == LastDelivered(ys, open)
    decreases |ys|
  {
    var init, c := ys[..|ys| - 1], ys[|ys| - 1];
    assert (xs + ys)[..|xs + ys| - 1] == xs + init;
    if c.window.open != open { LastOfBoth(xs, init, open); }
  }

  lemma {:induction false} LastIsDelivered(cs: seq<Candle>, open: int) returns (i: nat)
    requires LastDelivered(cs, open).Some?
    ensures i < |cs| && cs[i].window.open == open
    decreases |cs|
  {
    if cs[|cs| - 1].window.open == open { i := |cs| - 1; } else { i := LastIsDelivered(cs[..|cs| - 1], open); }
  }

  // ---------------------------------------------------------------- end to end

  /** All that a reader of history and a fresh live stream over the ticks gets. */
  ghost function Chart(cfg: Config, history: seq<Candle>, ticks: seq<Event>): seq<Candle>
    requires Consistent(cfg)
  {
    Deliveries(None, history, Emissions(cfg, State(None, None), ticks))
  }

  /** The row of a batch: its window's open, its prices, total size and count, session and completeness. */
  ghost predicate RowShows(row: Row, batch: seq<Trade>) {
    && batch != [] && row.ts == batch[0].window.open && row.session == batch[0].window.session.kind
    && row.completeness.Completed? && ShowsPrices(row.o, row.h, row.l, row.c, batch)
    && row.volume == (if TotalSize(batch) < 0x1_0000_0000 then TotalSize(batch) else 0xFFFF_FFFF)
    && row.trades == (if |batch| < 0x1_0000_0000 then |batch| else 0xFFFF_FFFF)
    && (TotalSize(batch) < 0x1_0000_0000_0000_0000 ==> row.wap == Vwap(batch))
  }

  /** The batch is stored: some row is that of its completed candle, and shows its trades. */
  ghost predicate StoredAs(cfg: Config, rows: seq<Row>, batch: seq<Trade>) {
    && Tradable(cfg, batch)
    && exists i :: 0 <= i < |rows| && RowShows(rows[i], batch)
                   && rows[i] == RowOf(CandleOf(cfg, Summary(batch), Completed))
  }

  lemma {:induction false} RowOfBatch(cfg: Config, batch: seq<Trade>)
    requires Tradable(cfg, batch)
    ensures RowShows(RowOf(CandleOf(cfg, Summary(batch), Completed)), batch)
  {
    CandleShows(cfg, batch, Completed);
    WapIsExactIff(cfg, batch, Completed);
  }

  ghost predicate AtOrAfterSeam(history: seq<Candle>, batch: seq<Trade>) {
    batch != [] && (history != [] ==> history[|history| - 1].window.open <= batch[0].window.open)
  }

  lemma {:induction false} EmissionsAreConcat(cfg: Config, ticks: seq<Event>)
    requires Consistent(cfg)
    ensures Emissions(cfg, State(None, None), ticks) == Concat(Run(cfg, ticks).1)
  {
    assert ticks + [] == ticks;
    RunThenEmit(cfg, ticks, []);
    assert Concat(Run(cfg, ticks).1) + [] == Concat(Run(cfg, ticks).1);
  }

  lemma {:induction false} BatchIsStored(cfg: Config, history: seq<Candle>, ticks: seq<Event>, batch: seq<Trade>)
    requires Consistent(cfg) && OpensAscend(history) && AtOrAfterSeam(history, batch)
    requires OpensAscend(Emissions(cfg, State(None, None), ticks))
             && Kept(cfg, Emissions(cfg, State(None, None), ticks), batch)
    ensures StoredAs(cfg, Feed(Chart(cfg, history, ticks)), batch)
  {
    var live, chart := Emissions(cfg, State(None, None), ticks), Chart(cfg, history, ticks);
    var seam, open := SeamAfter(None, history), batch[0].window.open;
    SeamKeepsLast(seam, live, open);
    LastOfBoth(history, PastSeam(seam, live), open);
    SeamAndStorageCompose(history, live);
    var i := LastIsDelivered(chart, open);
    assert HasRow(Feed(chart), open);
    RowOfBatch(cfg, batch);
  }

  /** Every candle that an event sends belongs to a series of the same calendar, period and symbol, which takes it. */
  lemma {:induction false} SeriesTakesStream(cfg: Config, events: seq<Event>, e: Event, series: CandleSeries)
    requires Consistent(cfg)
    requires (series.calendar, series.period, series.symbol) == (cfg.calendar.id, cfg.period, cfg.symbol)
    ensures var sent := Emitted(Aggregation.Step(cfg, Run(cfg, events).0, e).1);
            forall i | 0 <= i < |sent| :: series.Matches(sent[i])
  {
    CandlesShowTheirTrades(cfg, events, e);
  }

  /**
   Ticks whose windows come in turn, behind any sorted history, read through the seam and applied to
   an empty uncapped series: the rows are in strictly increasing order, and every closed batch that
   opens at or after the seam is stored as the summary of exactly its trades.
   */
  lemma {:induction false} TicksToRows(cfg: Config, history: seq<Candle>, ticks: seq<Event>)
    requires Consistent(cfg) && TicksOnly(ticks) && TradesInTurn(Trades(cfg, ticks)) && OpensAscend(history)
    ensures var rows, batches := Feed(Chart(cfg, history, ticks)), Group(cfg, ticks).closed;
            && RowsAscend(rows)
            && forall k | 0 <= k < |batches| && AtOrAfterSeam(history, batches[k]) :: StoredAs(cfg, rows, batches[k])
  {
    EmissionsAreConcat(cfg, ticks);
    StreamInStep(cfg, ticks);
    SeamAndStorageCompose(history, Emissions(cfg, State(None, None), ticks));
    var rows, batches := Feed(Chart(cfg, history, ticks)), Group(cfg, ticks).closed;
    forall k | 0 <= k < |batches| && AtOrAfterSeam(history, batches[k]) ensures StoredAs(cfg, rows, batches[k]) {
      BatchIsStored(cfg, history, ticks, batches[k]);
    }
  }

  /** The same for the crypto calendar: ticks in time order and in coverage are enough. */
  lemma {:induction false} CryptoTicksToRows(cfg: Config, history: seq<Candle>, ticks: seq<Event>)
    requires Consistent(cfg) && CryptoTicks(cfg, ticks) && OpensAscend(history)
    ensures var rows, batches := Feed(Chart(cfg, history, ticks)), Group(cfg, ticks).closed;
            && RowsAscend(rows)
            && forall k | 0 <= k < |batches| && AtOrAfterSeam(history, batches[k]) :: StoredAs(cfg, rows, batches[k])
  {
    CryptoTradesInTurn(cfg, ticks);
    TicksToRows(cfg, history, ticks);
  }
}
