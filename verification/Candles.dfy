/** The session-tagged bar and its validating constructors. Prices are exact reals; timestamps are nanoseconds. */
module Candles {
  import opened Wrappers

  datatype SessionKind = Regular | PreMarket | PostMarket | Break | Overnight | Closed

  datatype Session = Session(calendar: string, kind: SessionKind, open: int, close: int)

  datatype BarWindow = BarWindow(open: int, close: int, session: Session)

  datatype ClockInterval = Seconds(n: nat) | Minutes(n: nat) | Hours(n: nat)

  datatype SessionSpan = RegularSpan | ExtendedSpan | EthSpan

  datatype CalendarSpan = Week | Month | Quarter | Year

  datatype BarPeriod =
    | ClockPeriod(interval: ClockInterval)
    | SessionPeriod(span: SessionSpan)
    | CalendarPeriod(rollup: CalendarSpan)

  datatype Completeness = Completed | Partial

  datatype Symbol = Symbol(ticker: string, calendar: string)

  datatype Ohlcv = Ohlcv(o: real, h: real, l: real, c: real, volume: nat, trades: nat, wap: Option<real>) {
    predicate Ordered() { l <= o <= h && l <= c <= h && (wap.Some? ==> l <= wap.value <= h) }
  }

  datatype Candle = Candle(symbol: Symbol, calendar: string, period: BarPeriod, session: Session, window: BarWindow,
                           ohlcv: Ohlcv, completeness: Completeness)

  datatype CandleError =
    | LowAboveHigh
    | OpenOutside
    | CloseOutside
    | WapOutside
    | CalendarMismatch(expected: string, session: string, window: string)
    | SymbolCalendarMismatch(expected: string, got: string)
    | WindowSessionMismatch

  function NewOhlcv(o: real, h: real, l: real, c: real, volume: nat, trades: nat, wap: Option<real>)
    : Result<Ohlcv, CandleError>
  {
    if l > h then Err(LowAboveHigh)
    else if o < l || o > h then Err(OpenOutside)
    else if c < l || c > h then Err(CloseOutside)
    else if wap.Some? && (wap.value < l || wap.value > h) then Err(WapOutside)
    else Ok(Ohlcv(o, h, l, c, volume, trades, wap))
  }

  function NewCandle(symbol: Symbol, calendar: string, period: BarPeriod, session: Session, window: BarWindow,
                     ohlcv: Ohlcv, completeness: Completeness): Result<Candle, CandleError>
  {
    if session.calendar != calendar || window.session.calendar != calendar
    then Err(CalendarMismatch(calendar, session.calendar, window.session.calendar))
    else if symbol.calendar != calendar then Err(SymbolCalendarMismatch(calendar, symbol.calendar))
    else if || window.session.kind != session.kind
            || window.session.open != session.open
            || window.session.close != session.close
    then Err(WindowSessionMismatch)
    else match NewOhlcv(ohlcv.o, ohlcv.h, ohlcv.l, ohlcv.c, ohlcv.volume, ohlcv.trades, ohlcv.wap)
         case Ok(valid) => Ok(Candle(symbol, calendar, period, session, window, valid, completeness))
         case Err(e) => Err(e)
  }

  /** A candle is built exactly when the three calendars agree, the sessions are one and the prices are ordered. */
  lemma {:induction false} CandleIsBuiltIff(symbol: Symbol, calendar: string, period: BarPeriod, session: Session,
                                            window: BarWindow, ohlcv: Ohlcv, completeness: Completeness)
    ensures NewCandle(symbol, calendar, period, session, window, ohlcv, completeness).Ok?
            <==> symbol.calendar == calendar && session == window.session && session.calendar == calendar
                 && ohlcv.Ordered()
  {
  }
}
