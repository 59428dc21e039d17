/** The tick-to-candle aggregator as a step function, and the batch grouping that it refines. */
module Aggregation {
  import opened Wrappers
  import opened Candles

  const U64_MAX: nat := 0xFFFF_FFFF_FFFF_FFFF
  const U32_MAX: nat := 0xFFFF_FFFF
  const I64_MAX: nat := 0x7FFF_FFFF_FFFF_FFFF

  datatype Price = Finite(value: real) | NotFinite

  datatype TickKind = PriceTick | SizeTick | PriceSizeTick | OtherKind

  datatype TickType = Last | Bid | Ask | OtherType

  datatype TickValue = PriceValue(price: Price) | PriceSizeValue(price: Price, size: int) | OtherValue

  datatype Tick = Tick(kind: TickKind, tickType: TickType, value: TickValue, ts: int)

  /** A calendar at one bar period: its identity, and the window of a timestamp where it has one. */
  datatype Calendar = Calendar(id: string, window: int -> Option<BarWindow>)

  datatype Config = Config(symbol: Symbol, calendar: Calendar, period: BarPeriod, partialEmitHz: nat)

  datatype Bar = Bar(window: BarWindow, o: real, h: real, l: real, c: real, volume: nat, trades: nat,
                     vwapNum: real, vwapDen: nat, firstTs: int)

  datatype State = State(current: Option<Bar>, lastPartialEmit: Option<int>)

  datatype Output =
    | Ignored
    | Folded
    | PartialUpdate(candle: Candle)
    | Opened(candle: Candle)
    | ClosedBar(candle: Candle)
    | Rollover(closed: Candle, next: Candle)

  /** A tick with the monotonic clock as read for the rate limit and for the emit stamp; or a wall-time flush. */
  datatype Event = Arrival(tick: Tick, checked: int, stamped: int) | Flush(now: int)

  // ---------------------------------------------------------------- trades

  /** A trade's price and size; an unknown (negative) size counts as zero. */
  function ExtractTrade(tick: Tick): Option<(real, nat)> {
    match (tick.kind, tick.tickType, tick.value)
    case (PriceSizeTick, Last, PriceSizeValue(price, size)) =>
      if price.NotFinite? then None
      else if size < 0 then Some((price.value, 0))
      else if size > I64_MAX / 2 then None
      else Some((price.value, size))
    case (PriceTick, Last, PriceValue(price)) => if price.Finite? then Some((price.value, 0)) else None
    case _ => None
  }

  datatype Trade = Trade(window: BarWindow, price: real, size: nat, ts: int)

  function TradeOf(cfg: Config, tick: Tick): Option<Trade> {
    match ExtractTrade(tick)
    case None => None
    case Some((price, size)) =>
      match cfg.calendar.window(tick.ts)
      case None => None
      case Some(w) => Some(Trade(w, price, size, tick.ts))
  }

  // ---------------------------------------------------------------- the bar in progress

  function SaturatingAdd(a: nat, b: nat, max: nat): nat { if a + b > max then max else a + b }

  function Amount(price: real, size: nat): real { price * size as real }

  function NewBar(t: Trade): Bar {
    Bar(t.window, t.price, t.price, t.price, t.price, t.size, 1,
        if t.size == 0 then 0.0 else Amount(t.price, t.size), t.size, t.ts)
  }

  function Fold(bar: Bar, t: Trade): Bar {
    var priced := bar.(h := if t.price > bar.h then t.price else bar.h,
                       l := if t.price < bar.l then t.price else bar.l,
                       c := t.price,
                       trades := SaturatingAdd(bar.trades, 1, U32_MAX));
    if t.size > 0
    then priced.(volume := SaturatingAdd(bar.volume, t.size, U64_MAX),
                 vwapNum := bar.vwapNum + Amount(t.price, t.size),
                 vwapDen := SaturatingAdd(bar.vwapDen, t.size, U64_MAX))
    else priced
  }

  function Wap(bar: Bar): Option<real> {
    if bar.vwapDen == 0 then None else Some(bar.vwapNum / bar.vwapDen as real)
  }

  /** A weighted price outside the bar's range is dropped rather than reported. */
  function GuardedWap(bar: Bar): Option<real> {
    match Wap(bar)
    case Some(w) => if bar.l <= w <= bar.h then Some(w) else None
    case None => None
  }

  function ToCandle(cfg: Config, bar: Bar, completeness: Completeness): Result<Candle, CandleError> {
    match NewOhlcv(bar.o, bar.h, bar.l, bar.c, bar.volume, bar.trades, GuardedWap(bar))
    case Err(e) => Err(e)
    case Ok(ohlcv) => NewCandle(cfg.symbol, cfg.calendar.id, cfg.period, bar.window.session, bar.window, ohlcv,
            completeness)
  }

  predicate InRange(bar: Bar) { bar.l <= bar.o <= bar.h && bar.l <= bar.c <= bar.h }

  /** Candles of well-formed bars are built exactly when symbol, calendar and session agree. */
  lemma {:induction false} ToCandleIsOkIff(cfg: Config, bar: Bar, completeness: Completeness)
    requires InRange(bar)
    ensures ToCandle(cfg, bar, completeness).Ok?
            <==> cfg.symbol.calendar == cfg.calendar.id && bar.window.session.calendar == cfg.calendar.id
  {
    match NewOhlcv(bar.o, bar.h, bar.l, bar.c, bar.volume, bar.trades, GuardedWap(bar))
    case Err(_) =>
    case Ok(ohlcv) =>
      CandleIsBuiltIff(cfg.symbol, cfg.calendar.id, cfg.period, bar.window.session, bar.window, ohlcv, completeness);
  }

  /** What a calendar sees to: its sessions carry its id. */
  ghost predicate CarriesId(calendar: Calendar) {
    forall ts :: calendar.window(ts).Some? ==> calendar.window(ts).value.session.calendar == calendar.id
  }

  /** What the constructor's callers see to: the symbol trades on the calendar. */
  ghost predicate Consistent(cfg: Config) { cfg.symbol.calendar == cfg.calendar.id && CarriesId(cfg.calendar) }

  ghost predicate Valid(cfg: Config, st: State) {
    && Consistent(cfg)
    && (st.current.Some? ==> InRange(st.current.value) && st.current.value.window.session.calendar == cfg.calendar.id)
  }

  /** The candle of a bar; its construction cannot fail. */
  function CandleOf(cfg: Config, bar: Bar, completeness: Completeness): (c: Candle)
    requires InRange(bar) && cfg.symbol.calendar == cfg.calendar.id == bar.window.session.calendar
    ensures ToCandle(cfg, bar, completeness) == Ok(c) && c.window == bar.window && c.completeness == completeness
  {
    ToCandle(cfg, bar, completeness).value
  }

  // ---------------------------------------------------------------- steps

  function ShouldEmit(cfg: Config, st: State, now: int): bool {
    cfg.partialEmitHz == 0 || st.lastPartialEmit.None?
    || (if now > st.lastPartialEmit.value then now - st.lastPartialEmit.value else 0)
       >= 1_000_000_000 / cfg.partialEmitHz
  }

  function Accept(cfg: Config, st: State, tick: Tick, checked: int, stamped: int): (State, Output)
    requires Valid(cfg, st)
  {
    match TradeOf(cfg, tick)
    case None => (st, Ignored)
    case Some(t) =>
      if st.current.None? then
        (State(Some(NewBar(t)), Some(stamped)), Opened(CandleOf(cfg, NewBar(t), Partial)))
      else if st.current.value.window == t.window then
        var bar := Fold(st.current.value, t);
        if ShouldEmit(cfg, st, checked)
        then (State(Some(bar), Some(stamped)), PartialUpdate(CandleOf(cfg, bar, Partial)))
        else (st.(current := Some(bar)), Folded)
      else
        (State(Some(NewBar(t)), Some(stamped)),
         Rollover(CandleOf(cfg, st.current.value, Completed), CandleOf(cfg, NewBar(t), Partial)))
  }

  function FlushDue(cfg: Config, st: State, now: int): (State, Output)
    requires Valid(cfg, st)
  {
    if st.current.Some? && now >= st.current.value.window.close
    then (State(None, None), ClosedBar(CandleOf(cfg, st.current.value, Completed)))
    else (st, Ignored)
  }

  function Step(cfg: Config, st: State, e: Event): (r: (State, Output))
    requires Valid(cfg, st)
    ensures Valid(cfg, r.0)
  {
    match e
    case Arrival(tick, checked, stamped) => Accept(cfg, st, tick, checked, stamped)
    case Flush(now) => FlushDue(cfg, st, now)
  }

  /** The state after events from a fresh aggregator, and their outputs. */
  function Run(cfg: Config, events: seq<Event>): (r: (State, seq<Output>))
    requires Consistent(cfg)
    ensures Valid(cfg, r.0) && |r.1| == |events|
    decreases |events|
  {
    if events == [] then (State(None, None), [])
    else
      var (st, outs) := Run(cfg, events[..|events| - 1]);
      var (st', out) := Step(cfg, st, events[|events| - 1]);
      (st', outs + [out])
  }

  function ClosedBy(out: Output): seq<Candle> {
    match out
    case ClosedBar(c) => [c]
    case Rollover(c, _) => [c]
    case _ => []
  }

  function ClosedCandles(outs: seq<Output>): seq<Candle> {
    if outs == [] then [] else ClosedCandles(outs[..|outs| - 1]) + ClosedBy(outs[|outs| - 1])
  }

  // ---------------------------------------------------------------- batches

  datatype Grouping = Grouping(closed: seq<seq<Trade>>, open: seq<Trade>)

  /** The accepted trades as lists: a list ends when the window changes or a flush finds it over. */
  function Group(cfg: Config, events: seq<Event>): Grouping {
    if events == [] then Grouping([], [])
    else GroupOne(cfg, Group(cfg, events[..|events| - 1]), events[|events| - 1])
  }

  function GroupOne(cfg: Config, g: Grouping, e: Event): Grouping {
    match e
    case Arrival(tick, _, _) =>
      (match TradeOf(cfg, tick)
       case None => g
       case Some(t) =>
         if g.open == [] || g.open[0].window == t.window then g.(open := g.open + [t])
         else Grouping(g.closed + [g.open], [t]))
    case Flush(now) => if g.open != [] && now >= g.open[0].window.close then Grouping(g.closed + [g.open], []) else g
  }

  function TradesOf(cfg: Config, e: Event): seq<Trade> {
    match e
    case Arrival(tick, _, _) => (match TradeOf(cfg, tick) case Some(t) => [t] case None => [])
    case Flush(_) => []
  }

  function Trades(cfg: Config, events: seq<Event>): seq<Trade> {
    if events == [] then [] else Trades(cfg, events[..|events| - 1]) + TradesOf(cfg, events[|events| - 1])
  }

  function Flatten(batches: seq<seq<Trade>>): seq<Trade> {
    if batches == [] then [] else Flatten(batches[..|batches| - 1]) + batches[|batches| - 1]
  }

  ghost predicate Uniform(batch: seq<Trade>) {
    forall i, j | 0 <= i < |batch| && 0 <= j < |batch| :: batch[i].window == batch[j].window
  }

  ghost predicate Batched(batches: seq<seq<Trade>>) {
    forall i | 0 <= i < |batches| :: batches[i] != [] && Uniform(batches[i])
  }

  ghost predicate Maximal(batches: seq<seq<Trade>>)
    requires Batched(batches)
  {
    forall i | 0 < i < |batches| :: batches[i - 1][0].window != batches[i][0].window
  }

  function AllBatches(g: Grouping): seq<seq<Trade>> { if g.open == [] then g.closed else g.closed + [g.open] }

  // ---------------------------------------------------------------- what a batch amounts to

  function Highest(batch: seq<Trade>): (h: real)
    requires batch != []
    ensures exists i :: 0 <= i < |batch| && batch[i].price == h
    ensures forall i | 0 <= i < |batch| :: batch[i].price <= h
  {
    if |batch| == 1 then batch[0].price
    else var h := Highest(batch[..|batch| - 1]); if batch[|batch| - 1].price > h then batch[|batch| - 1].price else h
  }

  function Lowest(batch: seq<Trade>): (l: real)
    requires batch != []
    ensures exists i :: 0 <= i < |batch| && batch[i].price == l
    ensures forall i | 0 <= i < |batch| :: l <= batch[i].price
  {
    if |batch| == 1 then batch[0].price
    else var l := Lowest(batch[..|batch| - 1]); if batch[|batch| - 1].price < l then batch[|batch| - 1].price else l
  }

  function TotalSize(batch: seq<Trade>): nat {
    if batch == [] then 0 else TotalSize(batch[..|batch| - 1]) + batch[|batch| - 1].size
  }

  /** The sum of price times size. */
  function Turnover(batch: seq<Trade>): real {
    if batch == [] then 0.0
    else Turnover(batch[..|batch| - 1]) + Amount(batch[|batch| - 1].price, batch[|batch| - 1].size)
  }

  function AtMost(x: nat, max: nat): nat { if x <= max then x else max }

  /** First, highest, lowest and last price; size and count, capped; turnover. */
  function Summary(batch: seq<Trade>): Bar
    requires batch != []
  {
    var volume := AtMost(TotalSize(batch), U64_MAX);
    Bar(batch[0].window, batch[0].price, Highest(batch), Lowest(batch), batch[|batch| - 1].price, volume,
        AtMost(|batch|, U32_MAX), Turnover(batch), volume, batch[0].ts)
  }

  lemma {:induction false} NoAmount(price: real)
    ensures Amount(price, 0) == 0.0
  {
  }

  lemma {:induction false} SummaryOfOne(t: Trade)
    requires t.size <= U64_MAX
    ensures Summary([t]) == NewBar(t)
  {
    var b := [t];
    assert b[..0] == [];
    assert TotalSize(b[..0]) == 0 && Turnover(b[..0]) == 0.0;
    assert TotalSize(b) == t.size && Turnover(b) == Amount(t.price, t.size);
    NoAmount(t.price);
  }

  lemma {:induction false} SummaryOfMore(batch: seq<Trade>, t: Trade)
    requires batch != []
    ensures Summary(batch + [t]) == Fold(Summary(batch), t)
  {
    var more := batch + [t];
    assert more[..|more| - 1] == batch;
    NoAmount(t.price);
  }
}
