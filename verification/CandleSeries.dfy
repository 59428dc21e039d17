/** Columnar storage of bars with an optional rolling cap, and the list of rows that it stands for. */
module CandleSeriesStore {
  import opened Wrappers
  import opened Candles
  import opened Aggregation

  datatype Row = Row(ts: int, o: real, h: real, l: real, c: real, volume: nat, trades: nat, wap: Option<real>,
                     session: SessionKind, completeness: Completeness)
  {
    predicate Ordered() { l <= o <= h && l <= c <= h }
  }

  /** A candle as a row; volume saturates at 32 bits. */
  function RowOf(c: Candle): Row {
    Row(c.window.open, c.ohlcv.o, c.ohlcv.h, c.ohlcv.l, c.ohlcv.c, AtMost(c.ohlcv.volume, U32_MAX), c.ohlcv.trades,
        c.ohlcv.wap, c.session.kind, c.completeness)
  }

  datatype Op = Push(candle: Candle) | Apply(candle: Candle) | LastPrice(price: Price)

  /** The last `cap` rows, or all of them. */
  function Newest<T>(rows: seq<T>, cap: Option<nat>): seq<T> {
    if cap.Some? && |rows| > cap.value then rows[|rows| - cap.value..] else rows
  }

  function Pushed(rows: seq<Row>, cap: Option<nat>, c: Candle): seq<Row> { Newest(rows + [RowOf(c)], cap) }

  function Applied(rows: seq<Row>, cap: Option<nat>, c: Candle): seq<Row> {
    if rows != [] && rows[|rows| - 1].ts == c.window.open then rows[|rows| - 1 := RowOf(c)] else Pushed(rows, cap, c)
  }

  function Traded(row: Row, price: real): Row {
    row.(h := if price > row.h then price else row.h, l := if price < row.l then price else row.l, c := price)
  }

  function Priced(rows: seq<Row>, price: Price): seq<Row> {
    if price.NotFinite? || rows == [] then rows else rows[|rows| - 1 := Traded(rows[|rows| - 1], price.value)]
  }

  function Step(rows: seq<Row>, cap: Option<nat>, op: Op): seq<Row> {
    match op
    case Push(c) => Pushed(rows, cap, c)
    case Apply(c) => Applied(rows, cap, c)
    case LastPrice(p) => Priced(rows, p)
  }

  /** The rows after a run of operations on an empty series. */
  function Rows(cap: Option<nat>, ops: seq<Op>): seq<Row> {
    if ops == [] then [] else Step(Rows(cap, ops[..|ops| - 1]), cap, ops[|ops| - 1])
  }

  // ---------------------------------------------------------------- the columns

  datatype Columns = Columns(
    timestamps: seq<int>, opens: seq<real>, highs: seq<real>, lows: seq<real>, closes: seq<real>, volumes: seq<nat>,
    tradeCounts: seq<nat>, waps: seq<Option<real>>, sessions: seq<SessionKind>, completeness: seq<Completeness>)
  {
    /** All ten columns have one length. */
    ghost predicate Level() {
      |timestamps| == |opens| == |highs| == |lows| == |closes| == |volumes| == |tradeCounts| == |waps|
      == |sessions| == |completeness|
    }

    ghost function RowAt(i: nat): Row
      requires Level() && i < |timestamps|
    {
      Row(timestamps[i], opens[i], highs[i], lows[i], closes[i], volumes[i], tradeCounts[i], waps[i], sessions[i],
          completeness[i])
    }

    ghost function ToRows(): (rows: seq<Row>)
      requires Level()
      ensures |rows| == |timestamps| && forall i | 0 <= i < |rows| :: rows[i] == RowAt(i)
    {
      seq(|timestamps|, i requires 0 <= i < |timestamps| && Level() => RowAt(i))
    }

    lemma {:induction false} LastStamp()
      requires Level()
      ensures ToRows() == [] <==> timestamps == []
      ensures timestamps != [] ==> ToRows()[|timestamps| - 1].ts == timestamps[|timestamps| - 1]
    {
    }

    ghost function Plus(r: Row): Columns {
      Columns(timestamps + [r.ts], opens + [r.o], highs + [r.h], lows + [r.l], closes + [r.c], volumes + [r.volume],
              tradeCounts + [r.trades], waps + [r.wap], sessions + [r.session], completeness + [r.completeness])
    }

    lemma {:induction false} PlusRow(r: Row)
      requires Level()
      ensures Plus(r).Level() && Plus(r).ToRows() == ToRows() + [r]
    {
      var more := Plus(r);
      assert forall i | 0 <= i < |timestamps| :: more.RowAt(i) == RowAt(i);
      assert more.RowAt(|timestamps|) == r;
    }

    ghost function With(i: nat, r: Row): Columns
      requires Level() && i < |timestamps|
    {
      Columns(timestamps[i := r.ts], opens[i := r.o], highs[i := r.h], lows[i := r.l], closes[i := r.c],
              volumes[i := r.volume], tradeCounts[i := r.trades], waps[i := r.wap], sessions[i := r.session],
              completeness[i := r.completeness])
    }

    lemma {:induction false} WithRow(i: nat, r: Row)
      requires Level() && i < |timestamps|
      ensures With(i, r).Level() && With(i, r).ToRows() == ToRows()[i := r]
    {
      var changed := With(i, r);
      assert forall j | 0 <= j < |timestamps| && j != i :: changed.RowAt(j) == RowAt(j);
      assert changed.RowAt(i) == r;
    }
  }

  class CandleSeries {
    const calendar: string
    const period: BarPeriod
    const symbol: Symbol
    const maxRows: Option<nat>

    var timestamps: seq<int>
    var opens: seq<real>
    var highs: seq<real>
    var lows: seq<real>
    var closes: seq<real>
    var volumes: seq<nat>
    var tradeCounts: seq<nat>
    var waps: seq<Option<real>>
    var sessions: seq<SessionKind>
    var completeness: seq<Completeness>
    var version: nat

    ghost function View(): Columns
      reads this
    {
      Columns(timestamps, opens, highs, lows, closes, volumes, tradeCounts, waps, sessions, completeness)
    }

    ghost predicate Valid()
      reads this
    {
      View().Level() && (maxRows.Some? ==> maxRows.value > 0)
    }

    ghost function Contents(): (rows: seq<Row>)
      requires Valid()
      reads this
    {
      View().ToRows()
    }

    predicate Matches(c: Candle) { c.calendar == calendar && c.period == period && c.symbol == symbol }

    constructor (cal: string, barPeriod: BarPeriod, sym: Symbol, cap: Option<nat>)
      requires sym.calendar == cal && (cap.Some? ==> cap.value > 0)
      ensures Valid() && Contents() == [] && maxRows == cap && version == 0
      ensures calendar == cal && period == barPeriod && symbol == sym
    {
      calendar, period, symbol, maxRows := cal, barPeriod, sym, cap;
      timestamps, opens, highs, lows, closes := [], [], [], [], [];
      volumes, tradeCounts, waps, sessions, completeness := [], [], [], [], [];
      version := 0;
    }

    method PushPrices(c: Candle)
      modifies this`timestamps, this`opens, this`highs, this`lows, this`closes
      ensures timestamps == old(timestamps) + [c.window.open]
      ensures opens == old(opens) + [c.ohlcv.o] && highs == old(highs) + [c.ohlcv.h]
      ensures lows == old(lows) + [c.ohlcv.l] && closes == old(closes) + [c.ohlcv.c]
    {
      timestamps := timestamps + [c.window.open];
      opens, highs, lows, closes := opens + [c.ohlcv.o], highs + [c.ohlcv.h], lows + [c.ohlcv.l], closes + [c.ohlcv.c];
    }

    method PushColumns(c: Candle)
      requires Valid()
      modifies this
      ensures Valid() && Contents() == old(Contents()) + [RowOf(c)] && version == old(version)
    {
      ghost var was := View();
      PushPrices(c);
      volumes := volumes + [if c.ohlcv.volume <= U32_MAX then c.ohlcv.volume else U32_MAX];
      tradeCounts, waps := tradeCounts + [c.ohlcv.trades], waps + [c.ohlcv.wap];
      sessions, completeness := sessions + [c.session.kind], completeness + [c.completeness];
      assert View() == was.Plus(RowOf(c));
      was.PlusRow(RowOf(c));
    }

    method WritePrices(i: nat, c: Candle)
      requires Valid() && i < |timestamps|
      modifies this`timestamps, this`opens, this`highs, this`lows, this`closes
      ensures timestamps == old(timestamps)[i := c.window.open]
      ensures opens == old(opens)[i := c.ohlcv.o] && highs == old(highs)[i := c.ohlcv.h]
      ensures lows == old(lows)[i := c.ohlcv.l] && closes == old(closes)[i := c.ohlcv.c]
    {
      timestamps := timestamps[i := c.window.open];
      opens, highs := opens[i := c.ohlcv.o], highs[i := c.ohlcv.h];
      lows, closes := lows[i := c.ohlcv.l], closes[i := c.ohlcv.c];
    }

    method WriteRow(i: nat, c: Candle)
      requires Valid() && i < |timestamps|
      modifies this
      ensures Valid() && Contents() == old(Contents())[i := RowOf(c)] && version == old(version)
    {
      ghost var was := View();
      WritePrices(i, c);
      volumes := volumes[i := if c.ohlcv.volume <= U32_MAX then c.ohlcv.volume else U32_MAX];
      tradeCounts, waps := tradeCounts[i := c.ohlcv.trades], waps[i := c.ohlcv.wap];
      sessions, completeness := sessions[i := c.session.kind], completeness[i := c.completeness];
      assert View() == was.With(i, RowOf(c));
      was.WithRow(i, RowOf(c));
    }

    method EnforceCap()
      requires Valid()
      modifies this
      ensures Valid() && Contents() == Newest(old(Contents()), maxRows) && version == old(version)
    {
      if maxRows.None? || |timestamps| <= maxRows.value { return; }
      var drop := |timestamps| - maxRows.value;
      timestamps := timestamps[drop..];
      opens, highs, lows, closes := opens[drop..], highs[drop..], lows[drop..], closes[drop..];
      volumes, tradeCounts, waps := volumes[drop..], tradeCounts[drop..], waps[drop..];
      sessions, completeness := sessions[drop..], completeness[drop..];
    }

    method PushCapped(c: Candle)
      requires Valid()
      modifies this
      ensures Valid() && Contents() == Pushed(old(Contents()), maxRows, c) && version == old(version)
    {
      PushColumns(c);
      EnforceCap();
    }

    method PushCandle(c: Candle)
      requires Valid() && Matches(c)
      modifies this
      ensures Valid() && Contents() == Pushed(old(Contents()), maxRows, c) && version == old(version) + 1
    {
      PushCapped(c);
      version := version + 1;
    }

    method ApplyCandle(c: Candle)
      requires Valid() && Matches(c)
      modifies this
      ensures Valid() && Contents() == Applied(old(Contents()), maxRows, c) && version == old(version) + 1
    {
      View().LastStamp();
      if timestamps != [] && timestamps[|timestamps| - 1] == c.window.open {
        WriteRow(|timestamps| - 1, c);
      } else {
        PushCapped(c);
      }
      version := version + 1;
    }

    method UpdateLastPrice(price: Price)
      requires Valid()
      modifies this
      ensures Valid() && Contents() == Priced(old(Contents()), price)
      ensures version == old(version) + if price.Finite? && old(closes) != [] then 1 else 0
    {
      if price.NotFinite? || closes == [] { return; }
      var p, last := price.value, |closes| - 1;
      if p > highs[last] { highs := highs[last := p]; }
      if p < lows[last] { lows := lows[last := p]; }
      closes := closes[last := p];
      version := version + 1;
    }
  }

  /** A finite price becomes the last close, inside a range widened to hold it; every other cell stays. */
  lemma {:induction false} LastPriceMarks(rows: seq<Row>, price: Price)
    requires rows != [] && price.Finite?
    ensures var r, last := Priced(rows, price), |rows| - 1;
            && |r| == |rows| && r[..last] == rows[..last]
            && r[last] == rows[last].(c := price.value, h := Max(rows[last].h, price.value),
                 l := Min(rows[last].l, price.value))
    ensures Priced([], price) == [] && Priced(rows, NotFinite) == rows
  {
  }

  // ---------------------------------------------------------------- capped storage is a suffix

  lemma {:induction false} CapPush(rows: seq<Row>, cap: nat, c: Candle)
    requires cap > 0
    ensures Pushed(Newest(rows, Some(cap)), Some(cap), c) == Newest(rows + [RowOf(c)], Some(cap))
  {
  }

  lemma {:induction false} CapLast(rows: seq<Row>, cap: nat, row: Row)
    requires cap > 0 && rows != []
    ensures var newest := Newest(rows, Some(cap));
            && newest != [] && newest[|newest| - 1] == rows[|rows| - 1]
            && newest[|newest| - 1 := row] == Newest(rows[|rows| - 1 := row], Some(cap))
  {
  }

  lemma {:induction false} CapStep(rows: seq<Row>, cap: nat, op: Op)
    requires cap > 0
    ensures Step(Newest(rows, Some(cap)), Some(cap), op) == Newest(Step(rows, None, op), Some(cap))
  {
    match op
    case Push(c) => CapPush(rows, cap, c);
    case Apply(c) =>
      CapPush(rows, cap, c);
      if rows != [] { CapLast(rows, cap, RowOf(c)); }
    case LastPrice(price) =>
      if rows != [] && price.Finite? { CapLast(rows, cap, Traded(rows[|rows| - 1], price.value)); }
  }

  /** Whatever the operations, a capped series holds the last rows of the uncapped one. */
  lemma {:induction false} CappedIsSuffix(cap: nat, ops: seq<Op>)
    requires cap > 0
    ensures Rows(Some(cap), ops) == Newest(Rows(None, ops), Some(cap))
    decreases |ops|
  {
    if ops != [] {
      CappedIsSuffix(cap, ops[..|ops| - 1]);
      CapStep(Rows(None, ops[..|ops| - 1]), cap, ops[|ops| - 1]);
    }
  }

  ghost predicate AllOrdered(rows: seq<Row>) { forall i | 0 <= i < |rows| :: rows[i].Ordered() }

  /** Stored rows keep low <= open, close <= high, price updates included. */
  lemma {:induction false} RowsStayOrdered(cap: Option<nat>, ops: seq<Op>)
    requires forall i | 0 <= i < |ops| :: !ops[i].LastPrice? ==> ops[i].candle.ohlcv.Ordered()
    ensures AllOrdered(Rows(cap, ops))
    decreases |ops|
  {
    if ops != [] {
      RowsStayOrdered(cap, ops[..|ops| - 1]);
    }
  }

  // ---------------------------------------------------------------- the last bar per open wins

  function Feed(cs: seq<Candle>): seq<Row> {
    if cs == [] then [] else Applied(Feed(cs[..|cs| - 1]), None, cs[|cs| - 1])
  }

  function Applies(cs: seq<Candle>): seq<Op> { seq(|cs|, i requires 0 <= i < |cs| => Apply(cs[i])) }

  /** What applying the candles one by one to an empty series leaves, capped or not. */
  lemma {:induction false} FeedIsRun(cs: seq<Candle>, cap: nat)
    requires cap > 0
    ensures Rows(None, Applies(cs)) == Feed(cs) && Rows(Some(cap), Applies(cs)) == Newest(Feed(cs), Some(cap))
  {
    UncappedFeed(cs);
    CappedIsSuffix(cap, Applies(cs));
  }

  lemma {:induction false} UncappedFeed(cs: seq<Candle>)
    ensures Rows(None, Applies(cs)) == Feed(cs)
    decreases |cs|
  {
    if cs != [] {
      assert Applies(cs)[..|cs| - 1] == Applies(cs[..|cs| - 1]);
      UncappedFeed(cs[..|cs| - 1]);
    }
  }

  ghost predicate OpensAscend(cs: seq<Candle>) {
    forall i, j | 0 <= i <= j < |cs| :: cs[i].window.open <= cs[j].window.open
  }

  ghost predicate RowsAscend(rows: seq<Row>) { forall i, j | 0 <= i < j < |rows| :: rows[i].ts < rows[j].ts }

  /** The last candle delivered for an open time. */
  function LastDelivered(cs: seq<Candle>, open: int): Option<Candle> {
    if cs == [] then None
    else if cs[|cs| - 1].window.open == open then Some(cs[|cs| - 1])
    else LastDelivered(cs[..|cs| - 1], open)
  }

  lemma {:induction false} Delivered(cs: seq<Candle>, i: nat)
    requires i < |cs|
    ensures LastDelivered(cs, cs[i].window.open).Some?
    decreases |cs|
  {
    if i < |cs| - 1 { Delivered(cs[..|cs| - 1], i); }
  }

  ghost predicate HoldsLast(rows: seq<Row>, cs: seq<Candle>) {
    && (forall i | 0 <= i < |rows| ::
         LastDelivered(cs, rows[i].ts).Some? && rows[i] == RowOf(LastDelivered(cs, rows[i].ts).value))
    && (forall i | 0 <= i < |cs| :: HasRow(rows, cs[i].window.open))
  }

  ghost predicate HasRow(rows: seq<Row>, open: int) { exists j :: 0 <= j < |rows| && rows[j].ts == open }

  ghost predicate EndsWith(rows: seq<Row>, cs: seq<Candle>) {
    (rows == [] <==> cs == []) && (cs != [] ==> rows[|rows| - 1] == RowOf(cs[|cs| - 1]))
  }

  lemma {:induction false} FeedEnds(cs: seq<Candle>)
    ensures EndsWith(Feed(cs), cs)
  {
  }

  lemma {:induction false} LastOfMore(init: seq<Candle>, c: Candle, open: int)
    ensures LastDelivered(init + [c], open) == if c.window.open == open then Some(c) else LastDelivered(init, open)
  {
    assert (init + [c])[..|init|] == init;
  }

  lemma {:induction false} ApplyStep(rows: seq<Row>, init: seq<Candle>, c: Candle)
    requires RowsAscend(rows) && HoldsLast(rows, init) && EndsWith(rows, init) && OpensAscend(init + [c])
    ensures RowsAscend(Applied(rows, None, c)) && HoldsLast(Applied(rows, None, c), init + [c])
  {
    var after, cs := Applied(rows, None, c), init + [c];
    if init != [] { assert cs[|init| - 1].window.open <= cs[|init|].window.open; }
    forall i | 0 <= i < |after|
      ensures LastDelivered(cs, after[i].ts).Some? && after[i] == RowOf(LastDelivered(cs, after[i].ts).value)
    {
      LastOfMore(init, c, after[i].ts);
    }
    forall i | 0 <= i < |cs| ensures HasRow(after, cs[i].window.open) {
      if i < |init| {
        assert HasRow(rows, init[i].window.open);
        var j :| 0 <= j < |rows| && rows[j].ts == init[i].window.open;
        assert after[j].ts == cs[i].window.open;
      } else {
        assert after[|after| - 1].ts == cs[i].window.open;
      }
    }
  }

  /**
   Bars in open order fed to `apply` on an empty, uncapped series leave one row for each distinct
   open, in strictly increasing order, holding the last bar delivered for it.
   */
  lemma {:induction false} LastBarWins(cs: seq<Candle>)
    requires OpensAscend(cs)
    ensures RowsAscend(Feed(cs)) && HoldsLast(Feed(cs), cs)
    decreases |cs|
  {
    if cs != [] {
      var init := cs[..|cs| - 1];
      LastBarWins(init);
      FeedEnds(init);
      assert init + [cs[|cs| - 1]] == cs;
      ApplyStep(Feed(init), init, cs[|cs| - 1]);
    }
  }

  /** Conversely, rows are only in order when the bars were. */
  lemma {:induction false} RowsAscendIff(cs: seq<Candle>)
    ensures RowsAscend(Feed(cs)) <==> OpensAscend(cs)
    decreases |cs|
  {
    if cs != [] && RowsAscend(Feed(cs)) {
      var init, c, rows := cs[..|cs| - 1], cs[|cs| - 1], Feed(cs);
      var before := Feed(init);
      FeedEnds(init);
      assert forall i | 0 <= i < |before| :: rows[i].ts == before[i].ts;
      RowsAscendIff(init);
      if init != [] { assert rows[|before| - 1].ts <= rows[|rows| - 1].ts; }
    } else if cs != [] && OpensAscend(cs) {
      LastBarWins(cs);
    }
  }
}
