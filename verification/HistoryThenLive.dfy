/** A replayed history followed by live bars, with stale live bars dropped at the seam. */
module HistoryThenLiveStreams {
  import opened Wrappers
  import opened Candles
  import opened CandleSeriesStore
  import CryptoCalendar
  import Ticks

  // ---------------------------------------------------------------- the replayed history

  /** What a stream promises of its bars; `first` and `end` are the covered days. */
  datatype Meta = Meta(symbol: Symbol, calendar: string, period: BarPeriod, first: int, end: int) {
    predicate Covers(c: Candle) { first <= CryptoCalendar.Date(c.window.open) < end }
  }

  datatype StreamError = Mismatch(index: nat) | CoverageExceeded | NotSorted | NotSeekable

  /** The candle is of the promised calendar, period and symbol. */
  predicate Promised(meta: Meta, c: Candle) {
    c.calendar == meta.calendar && c.period == meta.period && c.symbol == meta.symbol
  }

  /** The candle opens from midnight of the first day on and before midnight of the end. */
  predicate Opens(meta: Meta, c: Candle) {
    meta.first * CryptoCalendar.DAY <= c.window.open < meta.end * CryptoCalendar.DAY
  }

  ghost predicate Acceptable(meta: Meta, cs: seq<Candle>) {
    forall i | 0 <= i < |cs| :: Promised(meta, cs[i]) && Opens(meta, cs[i])
  }

  /** The first candle that the constructor rejects, and why. */
  ghost predicate Rejects(meta: Meta, cs: seq<Candle>, i: nat, e: StreamError) {
    && i < |cs| && Acceptable(meta, cs[..i])
    && e == (if !Promised(meta, cs[i]) then Mismatch(i) else CoverageExceeded)
    && !(Promised(meta, cs[i]) && Opens(meta, cs[i]))
  }

  lemma {:induction false} CoversIffOpens(meta: Meta, c: Candle)
    ensures meta.Covers(c) <==> Opens(meta, c)
  {
    Ticks.WithinDays(c.window.open, meta.first, meta.end);
  }

  method Validate(meta: Meta, cs: seq<Candle>) returns (error: Option<StreamError>)
    ensures error == None <==> Acceptable(meta, cs) && OpensAscend(cs)
    ensures error == Some(NotSorted) <==> Acceptable(meta, cs) && !OpensAscend(cs)
    ensures error.Some? && error.value != NotSorted ==> exists i :: Rejects(meta, cs, i, error.value)
  {
    for i := 0 to |cs|
      invariant Acceptable(meta, cs[..i])
    {
      var c := cs[i];
      assert cs[..i + 1] == cs[..i] + [c];
      if c.calendar != meta.calendar || c.period != meta.period || c.symbol != meta.symbol {
        assert Rejects(meta, cs, i, Mismatch(i));
        return Some(Mismatch(i));
      }
      CoversIffOpens(meta, c);
      if !meta.Covers(c) {
        assert Rejects(meta, cs, i, CoverageExceeded);
        return Some(CoverageExceeded);
      }
    }
    assert cs[..|cs|] == cs;
    var i := 1;
    while i < |cs|
      invariant i >= 1 && (cs != [] ==> i <= |cs| && OpensAscend(cs[..i]))
    {
      if cs[i].window.open < cs[i - 1].window.open { return Some(NotSorted); }
      assert cs[..i][i - 1] == cs[i - 1];
      i := i + 1;
    }
    assert cs != [] ==> cs[..i] == cs;
    error := None;
  }

  class FixtureBarStream {
    const candles: seq<Candle>
    var cursor: nat

    ghost predicate Valid()
      reads this
    {
      cursor <= |candles| && OpensAscend(candles)
    }

    constructor (cs: seq<Candle>)
      requires OpensAscend(cs)
      ensures Valid() && candles == cs && cursor == 0
    {
      candles, cursor := cs, 0;
    }

    method Next() returns (candle: Option<Candle>)
      requires Valid()
      modifies this
      ensures Valid()
      ensures match candle
              case Some(c) => old(candles[cursor..]) == [c] + candles[cursor..]
              case None => old(candles[cursor..]) == [] && cursor == old(cursor)
    {
      if cursor >= |candles| { return None; }
      candle := Some(candles[cursor]);
      cursor := cursor + 1;
    }

    /** To the first bar that opens at or after `to`. */
    method Seek(to: int)
      requires Valid()
      modifies this
      ensures Valid()
      ensures forall i | 0 <= i < cursor :: candles[i].window.open < to
      ensures forall i | cursor <= i < |candles| :: to <= candles[i].window.open
    {
      var lo, hi := 0, |candles|;
      while lo < hi
        invariant lo <= hi <= |candles|
        invariant forall i | 0 <= i < lo :: candles[i].window.open < to
        invariant forall i | hi <= i < |candles| :: to <= candles[i].window.open
      {
        var mid := (lo + hi) / 2;
        if candles[mid].window.open < to { lo := mid + 1; } else { hi := mid; }
      }
      cursor := lo;
    }
  }

  // ---------------------------------------------------------------- the seam

  /** The live bars that pass a seam: each bar let through moves the seam to its own open. */
  function PastSeam(seam: Option<int>, live: seq<Candle>): seq<Candle>
    decreases |live|
  {
    if live == [] then []
    else if seam.Some? && live[0].window.open < seam.value then PastSeam(seam, live[1..])
    else [live[0]] + PastSeam(Some(live[0].window.open), live[1..])
  }

  function SeamAfter(seam: Option<int>, history: seq<Candle>): Option<int> {
    if history == [] then seam else Some(history[|history| - 1].window.open)
  }

  /** All that the composite delivers: the rest of history, then the live bars past its last open. */
  function Deliveries(seam: Option<int>, history: seq<Candle>, live: seq<Candle>): seq<Candle> {
    history + PastSeam(SeamAfter(seam, history), live)
  }

  lemma {:induction false} HistoryFirst(seam: Option<int>, c: Candle, rest: seq<Candle>, live: seq<Candle>)
    ensures Deliveries(seam, [c] + rest, live) == [c] + Deliveries(Some(c.window.open), rest, live)
  {
    var whole := [c] + rest;
    assert rest != [] ==> whole[|whole| - 1] == rest[|rest| - 1];
  }

  class HistoryThenLive {
    var history: FixtureBarStream?
    var live: seq<Candle>
    var handoff: Option<int>

    ghost predicate Valid()
      reads this, if history == null then {} else {history}
    {
      history != null ==> history.Valid()
    }

    ghost function Remaining(): seq<Candle>
      requires Valid()
      reads this, if history == null then {} else {history}
    {
      Deliveries(handoff, if history == null then [] else history.candles[history.cursor..], live)
    }

    constructor (h: FixtureBarStream, l: seq<Candle>)
      requires h.Valid()
      ensures Valid() && history == h && live == l && handoff == None
      ensures Remaining() == Deliveries(None, h.candles[h.cursor..], l)
    {
      history, live, handoff := h, l, None;
    }

    /** A live bar that is not stale; stale ones are consumed and dropped. */
    method NextLive() returns (candle: Option<Candle>)
      requires history == null
      modifies this
      ensures history == null
      ensures match candle
              case Some(c) => old(Remaining()) == [c] + Remaining() && handoff == Some(c.window.open)
              case None => old(Remaining()) == [] && Remaining() == []
    {
      while true
        invariant history == null && Remaining() == old(Remaining())
        decreases |live|
      {
        if live == [] { return None; }
        var c := live[0];
        live := live[1..];
        if handoff.Some? && c.window.open < handoff.value { continue; }
        handoff := Some(c.window.open);
        return Some(c);
      }
    }

    method Next() returns (candle: Option<Candle>)
      requires Valid()
      modifies this, if history == null then {} else {history}
      ensures Valid() && (history == null || history == old(history))
      ensures match candle
              case Some(c) => old(Remaining()) == [c] + Remaining() && handoff == Some(c.window.open)
              case None => old(Remaining()) == [] && Remaining() == []
    {
      if history != null {
        var c := history.Next();
        if c.Some? {
          HistoryFirst(handoff, c.value, history.candles[history.cursor..], live);
          handoff := Some(c.value.window.open);
          return c;
        }
        history := null;
        assert Remaining() == old(Remaining());
      }
      candle := NextLive();
    }

    /** Seeking is refused once history is drained. */
    method TrySeek(to: int) returns (r: Result<(), StreamError>)
      requires Valid()
      modifies if history == null then {} else {history}
      ensures Valid()
      ensures history == null ==> r == Err(NotSeekable)
      ensures history != null ==>
                && r == Ok(())
                && (forall i | 0 <= i < history.cursor :: history.candles[i].window.open < to)
                && (forall i | history.cursor <= i < |history.candles| :: to <= history.candles[i].window.open)
    {
      if history == null { return Err(NotSeekable); }
      history.Seek(to);
      r := Ok(());
    }
  }

  // ---------------------------------------------------------------- order across the seam

  lemma {:induction false} PastSeamAscends(seam: Option<int>, live: seq<Candle>)
    ensures var out := PastSeam(seam, live);
            OpensAscend(out) && forall i | 0 <= i < |out| :: seam.Some? ==> seam.value <= out[i].window.open
    decreases |live|
  {
    if live != [] {
      if seam.Some? && live[0].window.open < seam.value {
        PastSeamAscends(seam, live[1..]);
      } else {
        PastSeamAscends(Some(live[0].window.open), live[1..]);
      }
    }
  }

  /** Sorted history and any live bars: the composite's opens never go back. */
  lemma {:induction false} DeliveriesAscend(seam: Option<int>, history: seq<Candle>, live: seq<Candle>)
    requires OpensAscend(history)
    ensures OpensAscend(Deliveries(seam, history, live))
  {
    PastSeamAscends(SeamAfter(seam, history), live);
  }

  /** The latest of the seam and of the opens of some bars. */
  function Latest(seam: Option<int>, cs: seq<Candle>): Option<int> {
    if cs == [] then seam
    else var before := Latest(seam, cs[..|cs| - 1]); var open := cs[|cs| - 1].window.open;
         if before.Some? && open < before.value then before else Some(open)
  }

  lemma {:induction false} LatestFront(seam: Option<int>, c: Candle, rest: seq<Candle>)
    ensures Latest(seam, [c] + rest) ==
            Latest(if seam.Some? && c.window.open < seam.value then seam else Some(c.window.open), rest)
    decreases |rest|
  {
    var whole := [c] + rest;
    if rest == [] {
      assert whole[..0] == [];
    } else {
      assert whole[..|whole| - 1] == [c] + rest[..|rest| - 1];
      LatestFront(seam, c, rest[..|rest| - 1]);
    }
  }

  /** Whether the last of some live bars is let through: exactly when none before it, nor the seam, is later. */
  lemma {:induction false} SeamDropsOnlyStale(seam: Option<int>, live: seq<Candle>, c: Candle)
    ensures var latest := Latest(seam, live);
            PastSeam(seam, live + [c]) ==
            PastSeam(seam, live) + if latest.Some? && c.window.open < latest.value then [] else [c]
    decreases |live|
  {
    if live == [] {
      assert live + [c] == [c];
    } else {
      var seam' := if seam.Some? && live[0].window.open < seam.value then seam else Some(live[0].window.open);
      assert (live + [c])[1..] == live[1..] + [c];
      assert [live[0]] + live[1..] == live;
      SeamDropsOnlyStale(seam', live[1..], c);
      LatestFront(seam, live[0], live[1..]);
    }
  }

  /** Applied to an empty uncapped series, the composite leaves the last bar of each open, in order. */
  lemma {:induction false} SeamAndStorageCompose(history: seq<Candle>, live: seq<Candle>)
    requires OpensAscend(history)
    ensures var delivered := Deliveries(None, history, live);
            RowsAscend(Feed(delivered)) && HoldsLast(Feed(delivered), delivered)
  {
    DeliveriesAscend(None, history, live);
    LastBarWins(Deliveries(None, history, live));
  }
}
