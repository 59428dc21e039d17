/**
 Accounting theorems of the simulated broker: the books balance after every run.

 Three independent readings of the same money are kept equal to the mutable totals: sums over the
 order table, sums along the event log, and the ledger identity between cash, positions at average
 cost, realised profit and the commissions charged on opening shares.
 */
module SimBooks {
  import opened Wrappers
  import opened Sums
  import opened SimModel

  // ---------------------------------------------------------------- sums over the order table

  /** What has been paid or received for an order's filled shares. */
  ghost function Worth(o: Order): real { o.filledQty * o.avgFillPrice }

  ghost function Notional(o: Order): real { Signed(o.action, Worth(o)) }

  /** What an order has cost so far: its notional and its commissions. */
  ghost function OutlayTo(cfg: Config): Order -> real {
    (o: Order) => Notional(o) + cfg.Rate() * o.filledQty
  }

  ghost function SignedIn(symbol: string): Order -> real {
    (o: Order) => if o.symbol == symbol then Signed(o.action, o.filledQty) else 0.0
  }

  /** Cash as the order table alone determines it. */
  ghost function CashFromOrders(cfg: Config, orders: map<int, Order>): real {
    cfg.initialCash - Sum(orders, OutlayTo(cfg))
  }

  /** A symbol's position as the order table alone determines it. */
  ghost function QuantityFromOrders(orders: map<int, Order>, symbol: string): real {
    Sum(orders, SignedIn(symbol))
  }

  ghost predicate TableBooks(cfg: Config, s: State) {
    && s.cash == CashFromOrders(cfg, s.orders)
    && (forall symbol :: PositionOf(s.positions, symbol).quantity == QuantityFromOrders(s.orders, symbol))
  }

  // ---------------------------------------------------------------- sums along the event log

  ghost function SharesTo(id: int): Event -> real {
    (e: Event) => if e.Execution? && e.id == id then e.shares else 0.0
  }

  ghost function ValueTo(id: int): Event -> real {
    (e: Event) => if e.Execution? && e.id == id then e.shares * e.price else 0.0
  }

  ghost function MovesOf(orders: map<int, Order>, symbol: string): Event -> real {
    (e: Event) => if e.Execution? && e.id in orders && orders[e.id].symbol == symbol
                  then Signed(orders[e.id].action, e.shares) else 0.0
  }

  ghost function OutlayIn(orders: map<int, Order>, e: Event): real {
    if e.Execution? && e.id in orders then Signed(orders[e.id].action, e.shares * e.price)
    else if e.Commission? then e.commission else 0.0
  }

  ghost function OutlayOf(orders: map<int, Order>): Event -> real { (e: Event) => OutlayIn(orders, e) }

  ghost function GainsOf(): Event -> real {
    (e: Event) => if e.Commission? then GainOf(e.realized) else 0.0
  }

  ghost predicate Known(s: State) {
    && (forall id | id in s.orders :: s.orders[id].id == id)
    && (forall e | e in s.log && e.Execution? :: e.id in s.orders)
  }

  ghost predicate ReplaysOrder(s: State, id: int) {
    id in s.orders && s.orders[id].filledQty == Total(s.log, SharesTo(id))
    && Worth(s.orders[id]) == Total(s.log, ValueTo(id))
  }

  ghost predicate ReplaysPosition(s: State, symbol: string) {
    PositionOf(s.positions, symbol).quantity == Total(s.log, MovesOf(s.orders, symbol))
  }

  /** Replaying executions and commissions from the initial cash rebuilds the broker's totals. */
  ghost predicate ReplayBooks(cfg: Config, s: State) {
    && (forall id | id in s.orders :: ReplaysOrder(s, id))
    && (forall symbol :: ReplaysPosition(s, symbol))
    && s.cash == cfg.initialCash - Total(s.log, OutlayOf(s.orders))
    && s.realized == Total(s.log, GainsOf())
  }

  // ---------------------------------------------------------------- the ledger

  /** The part of a commission charged for shares that open rather than close. */
  ghost function OpeningPart(quantity: real, signed: real, commission: real): real
    requires signed != 0.0
  {
    if Opens(quantity, signed) then commission else commission - CloseRatio(quantity, signed) * commission
  }

  /** The opening commission carried by the last event, read with the execution just before it. */
  ghost function LastOpening(orders: map<int, Order>, log: seq<Event>): real {
    if |log| < 2 || !log[|log| - 1].Commission? || !log[|log| - 2].Execution? then 0.0
    else
      var e := log[|log| - 2];
      if e.id !in orders || e.shares == 0.0 || e.execId != log[|log| - 1].execId then 0.0
      else OpeningPart(Total(log[..|log| - 2], MovesOf(orders, orders[e.id].symbol)),
                       Signed(orders[e.id].action, e.shares), log[|log| - 1].commission)
  }

  ghost function OpeningCommissions(orders: map<int, Order>, log: seq<Event>): real {
    if log == [] then 0.0 else OpeningCommissions(orders, log[..|log| - 1]) + LastOpening(orders, log)
  }

  ghost function CostOf(p: Position): real { p.quantity * p.avgCost }

  ghost predicate LedgerBooks(cfg: Config, s: State) {
    s.cash + Sum(s.positions, CostOf) == cfg.initialCash + s.realized - OpeningCommissions(s.orders, s.log)
  }

  ghost predicate Books(cfg: Config, s: State) {
    Known(s) && TableBooks(cfg, s) && ReplayBooks(cfg, s) && LedgerBooks(cfg, s)
  }

  // ---------------------------------------------------------------- transitions that move no money

  ghost predicate SameStatics(o: Order, o': Order) {
    o'.id == o.id && o'.symbol == o.symbol && o'.action == o.action
  }

  ghost predicate SameMoney(o: Order, o': Order) {
    SameStatics(o, o') && o'.filledQty == o.filledQty && o'.avgFillPrice == o.avgFillPrice
  }

  /** Orders may appear unfilled or change status and prices, and only quiet events are sent. */
  ghost predicate NoFill(s: State, s': State) {
    && s'.cash == s.cash && s'.realized == s.realized && s'.positions == s.positions
    && (forall id | id in s.orders :: id in s'.orders && SameMoney(s.orders[id], s'.orders[id]))
    && (forall id | id in s'.orders && id !in s.orders :: s'.orders[id].id == id && s'.orders[id].filledQty == 0.0)
    && |s.log| <= |s'.log| && s'.log[..|s.log|] == s.log
    && (forall i | |s.log| <= i < |s'.log| :: !s'.log[i].Execution? && !s'.log[i].Commission?)
  }

  lemma {:induction false} NoFillTransitive(a: State, b: State, c: State)
    requires NoFill(a, b) && NoFill(b, c)
    ensures NoFill(a, c)
  {
    forall i | |a.log| <= i < |c.log| ensures !c.log[i].Execution? && !c.log[i].Commission? {
      if i < |b.log| { assert c.log[i] == c.log[..|b.log|][i]; }
    }
    assert c.log[..|a.log|] == c.log[..|b.log|][..|a.log|];
  }

  /** A reading of the log that ignores quiet events and depends only on what NoFill keeps. */
  lemma {:induction false} QuietTotal(log: seq<Event>, log': seq<Event>, f: Event -> real, g: Event -> real)
    requires |log| <= |log'| && log'[..|log|] == log
    requires forall e | e in log :: f(e) == g(e)
    requires forall i | |log| <= i < |log'| :: g(log'[i]) == 0.0
    ensures Total(log', g) == Total(log, f)
  {
    var tail := log'[|log|..];
    assert log' == log + tail;
    TotalAppend(log, tail, g);
    TotalCongruent(log, f, g);
    TotalZero(tail, g);
  }

  lemma {:induction false} QuietOpenings(orders: map<int, Order>, orders': map<int, Order>, log: seq<Event>,
                                         log': seq<Event>)
    requires forall e | e in log && e.Execution? ::
               e.id in orders && e.id in orders' && SameStatics(orders[e.id], orders'[e.id])
    requires |log| <= |log'| && log'[..|log|] == log
    requires forall i | |log| <= i < |log'| :: !log'[i].Commission?
    ensures OpeningCommissions(orders', log') == OpeningCommissions(orders, log)
    decreases |log'|
  {
    if |log| < |log'| {
      assert log'[..|log'| - 1][..|log|] == log;
      QuietOpenings(orders, orders', log, log'[..|log'| - 1]);
    } else if log != [] {
      assert log' == log;
      QuietOpenings(orders, orders', log[..|log| - 1], log[..|log| - 1]);
      if |log| >= 2 && log[|log| - 2].Execution? {
        var symbol := orders[log[|log| - 2].id].symbol;
        TotalCongruent(log[..|log| - 2], MovesOf(orders, symbol), MovesOf(orders', symbol));
      }
    }
  }

  lemma {:induction false} NoFillKeepsOutlay(cfg: Config, s: State, s': State)
    requires NoFill(s, s')
    ensures CashFromOrders(cfg, s'.orders) == CashFromOrders(cfg, s.orders)
  {
    forall k | k in s.orders ensures k in s'.orders && OutlayTo(cfg)(s'.orders[k]) == OutlayTo(cfg)(s.orders[k]) {}
    forall k | k in s'.orders && k !in s.orders ensures OutlayTo(cfg)(s'.orders[k]) == 0.0 {}
    SumSame(s.orders, s'.orders, OutlayTo(cfg));
  }

  lemma {:induction false} NoFillKeepsQuantity(symbol: string, s: State, s': State)
    requires NoFill(s, s')
    ensures QuantityFromOrders(s'.orders, symbol) == QuantityFromOrders(s.orders, symbol)
  {
    forall k | k in s.orders
      ensures k in s'.orders && SignedIn(symbol)(s'.orders[k]) == SignedIn(symbol)(s.orders[k]) {}
    forall k | k in s'.orders && k !in s.orders ensures SignedIn(symbol)(s'.orders[k]) == 0.0 {}
    SumSame(s.orders, s'.orders, SignedIn(symbol));
  }

  lemma {:induction false} NoFillKeepsTable(cfg: Config, s: State, s': State)
    requires TableBooks(cfg, s) && NoFill(s, s')
    ensures TableBooks(cfg, s')
  {
    NoFillKeepsOutlay(cfg, s, s');
    forall symbol ensures QuantityFromOrders(s'.orders, symbol) == QuantityFromOrders(s.orders, symbol) {
      NoFillKeepsQuantity(symbol, s, s');
    }
  }

  lemma {:induction false} NoFillKeepsOrderReplay(s: State, s': State, id: int)
    requires NoFill(s, s') && Known(s) && id in s'.orders
    requires id in s.orders ==> ReplaysOrder(s, id)
    ensures ReplaysOrder(s', id)
  {
    QuietTotal(s.log, s'.log, SharesTo(id), SharesTo(id));
    QuietTotal(s.log, s'.log, ValueTo(id), ValueTo(id));
    if id !in s.orders {
      TotalZero(s.log, SharesTo(id));
      TotalZero(s.log, ValueTo(id));
    }
  }

  lemma {:induction false} NoFillKeepsKnown(s: State, s': State)
    requires NoFill(s, s') && Known(s)
    ensures Known(s')
  {
    forall e | e in s'.log && e.Execution? ensures e in s.log {
      var i :| 0 <= i < |s'.log| && s'.log[i] == e;
      assert i < |s.log| && s.log[i] == s'.log[..|s.log|][i];
    }
  }

  lemma {:induction false} NoFillKeepsReplay(cfg: Config, s: State, s': State)
    requires Known(s) && ReplayBooks(cfg, s) && NoFill(s, s')
    ensures Known(s') && ReplayBooks(cfg, s')
  {
    NoFillKeepsKnown(s, s');
    forall id | id in s'.orders ensures ReplaysOrder(s', id) {
      NoFillKeepsOrderReplay(s, s', id);
    }
    forall symbol ensures ReplaysPosition(s', symbol) {
      assert ReplaysPosition(s, symbol);
      QuietTotal(s.log, s'.log, MovesOf(s.orders, symbol), MovesOf(s'.orders, symbol));
    }
    QuietTotal(s.log, s'.log, OutlayOf(s.orders), OutlayOf(s'.orders));
    QuietTotal(s.log, s'.log, GainsOf(), GainsOf());
  }

  lemma {:induction false} NoFillKeepsBooks(cfg: Config, s: State, s': State)
    requires Books(cfg, s) && NoFill(s, s')
    ensures Books(cfg, s')
  {
    NoFillKeepsTable(cfg, s, s');
    NoFillKeepsReplay(cfg, s, s');
    QuietOpenings(s.orders, s'.orders, s.log, s'.log);
  }

  // ---------------------------------------------------------------- one tranche

  /**
   What an execution of `shares` worth `value` does, free of the arithmetic that computes it:
   `gain` is the realised profit, and `after` the position it leaves.
   */
  ghost predicate Booking(s: State, s': State, id: int, shares: Pos, value: real, charge: real, gain: Option<real>,
                          after: Position)
  {
    && id in s.orders && id in s'.orders && s'.orders.Keys == s.orders.Keys
    && (forall i | i in s.orders && i != id :: s'.orders[i] == s.orders[i])
    && var o, o' := s.orders[id], s'.orders[id];
    && SameStatics(o, o') && o'.filledQty == o.filledQty + shares && Worth(o') == Worth(o) + value
    && s'.cash == s.cash - Signed(o.action, value) - charge
    && s'.realized == s.realized + GainOf(gain)
    && s'.positions == s.positions[o.symbol := after]
    && after.quantity == PositionOf(s.positions, o.symbol).quantity + Signed(o.action, shares)
    && |s'.log| == |s.log| + 3 && s'.log[..|s.log|] == s.log
    && var e, c := s'.log[|s.log|], s'.log[|s.log| + 1];
    && e.Execution? && e.id == o.id && e.shares == shares && e.shares * e.price == value
    && c.Commission? && c.execId == e.execId && c.commission == charge && c.realized == gain
    && s'.log[|s.log| + 2].StatusChanged?
  }

  /** The running average times the running quantity is the running worth. */
  lemma {:induction false} AverageIsWorth(o: Order, shares: Pos, price: real)
    ensures Worth(AfterTranche(o, shares, price)) == Worth(o) + shares * price
  {
    if o.filledQty != 0.0 {
      var total := o.avgFillPrice * o.filledQty + price * shares;
      assert (o.filledQty + shares) * (total / (o.filledQty + shares)) == total;
    }
  }

  lemma {:induction false} TrancheIsBooking(cfg: Config, s: State, id: int, shares: Pos, price: real, last: bool,
                                            gain: Option<real>, after: Position)
    requires id in s.orders
    requires (after, gain) == ApplyToPosition(PositionOf(s.positions, s.orders[id].symbol),
                                              Signed(s.orders[id].action, shares), price, CommissionFor(cfg, shares))
    ensures Booking(s, Tranche(cfg, s, id, shares, price, last), id, shares, shares * price,
                    CommissionFor(cfg, shares), gain, after)
  {
    AverageIsWorth(s.orders[id], shares, price);
  }

  lemma {:induction false} SignedSums(action: Action, x: real, y: real)
    ensures Signed(action, x + y) == Signed(action, x) + Signed(action, y)
  {
  }

  lemma {:induction false} CommissionIsLinear(cfg: Config, shares: Pos)
    ensures CommissionFor(cfg, shares) == cfg.Rate() * shares
  {
  }

  lemma {:induction false} BookingOutlay(cfg: Config, o: Order, o': Order, shares: Pos, value: real)
    requires o'.action == o.action && o'.filledQty == o.filledQty + shares && Worth(o') == Worth(o) + value
    ensures OutlayTo(cfg)(o') == OutlayTo(cfg)(o) + (Signed(o.action, value) + cfg.Rate() * shares)
  {
    SignedSums(o.action, Worth(o), value);
    Distribute(o.filledQty, shares, cfg.Rate());
  }

  lemma {:induction false} BookingOrders(s: State, s': State, id: int, shares: Pos, value: real, charge: real,
                                         gain: Option<real>, after: Position)
    requires Booking(s, s', id, shares, value, charge, gain, after)
    ensures s'.orders == s.orders[id := s'.orders[id]]
  {
    forall i | i in s'.orders ensures s'.orders[i] == s.orders[id := s'.orders[id]][i] {}
  }

  lemma {:induction false} BookingQuantity(s: State, s': State, id: int, shares: Pos, value: real, charge: real,
                                           gain: Option<real>, after: Position, symbol: string)
    requires Booking(s, s', id, shares, value, charge, gain, after)
    requires PositionOf(s.positions, symbol).quantity == QuantityFromOrders(s.orders, symbol)
    ensures PositionOf(s'.positions, symbol).quantity == QuantityFromOrders(s'.orders, symbol)
  {
    BookingOrders(s, s', id, shares, value, charge, gain, after);
    SumUpdate(s.orders, SignedIn(symbol), id, s'.orders[id]);
    SignedSums(s.orders[id].action, s.orders[id].filledQty, shares);
  }

  lemma {:induction false} BookingKeepsTable(cfg: Config, s: State, s': State, id: int, shares: Pos, value: real,
                                             charge: real, gain: Option<real>, after: Position)
    requires Booking(s, s', id, shares, value, charge, gain, after) && charge == CommissionFor(cfg, shares)
    requires TableBooks(cfg, s)
    ensures TableBooks(cfg, s')
  {
    BookingOrders(s, s', id, shares, value, charge, gain, after);
    CommissionIsLinear(cfg, shares);
    BookingOutlay(cfg, s.orders[id], s'.orders[id], shares, value);
    SumShift(s.orders, OutlayTo(cfg), id, s'.orders[id], Signed(s.orders[id].action, value) + charge);
    forall symbol ensures PositionOf(s'.positions, symbol).quantity == QuantityFromOrders(s'.orders, symbol) {
      BookingQuantity(s, s', id, shares, value, charge, gain, after, symbol);
    }
  }

  /** Every reading of the log grows by its readings of the execution and the commission. */
  lemma {:induction false} BookingReads(s: State, s': State, id: int, shares: Pos, value: real, charge: real,
                                        gain: Option<real>, after: Position, f: Event -> real, g: Event -> real)
    requires Booking(s, s', id, shares, value, charge, gain, after)
    requires forall e | e in s.log :: f(e) == g(e)
    requires g(s'.log[|s.log| + 2]) == 0.0
    ensures Total(s'.log, g) == Total(s.log, f) + g(s'.log[|s.log|]) + g(s'.log[|s.log| + 1])
  {
    TotalCongruent(s.log, f, g);
    var n := |s.log|;
    TotalPush(s.log, s'.log[n], g);
    TotalPush(s.log + [s'.log[n]], s'.log[n + 1], g);
    TotalPush(s.log + [s'.log[n]] + [s'.log[n + 1]], s'.log[n + 2], g);
    assert s'.log == s.log + [s'.log[n]] + [s'.log[n + 1]] + [s'.log[n + 2]];
  }

  lemma {:induction false} BookingKeepsOrderReplay(s: State, s': State, id: int, shares: Pos, value: real,
                                                   charge: real, gain: Option<real>, after: Position, i: int)
    requires Booking(s, s', id, shares, value, charge, gain, after) && Known(s) && i in s.orders
    requires ReplaysOrder(s, i)
    ensures ReplaysOrder(s', i)
  {
    BookingReads(s, s', id, shares, value, charge, gain, after, SharesTo(i), SharesTo(i));
    BookingReads(s, s', id, shares, value, charge, gain, after, ValueTo(i), ValueTo(i));
  }

  lemma {:induction false} BookingReplaysOrders(s: State, s': State, id: int, shares: Pos, value: real, charge: real,
                                                gain: Option<real>, after: Position)
    requires Booking(s, s', id, shares, value, charge, gain, after) && Known(s)
    requires forall i | i in s.orders :: ReplaysOrder(s, i)
    ensures forall i | i in s'.orders :: ReplaysOrder(s', i)
  {
    forall i | i in s'.orders ensures ReplaysOrder(s', i) {
      BookingKeepsOrderReplay(s, s', id, shares, value, charge, gain, after, i);
    }
  }

  lemma {:induction false} BookingKeepsMoves(s: State, s': State, id: int, shares: Pos, value: real, charge: real,
                                             gain: Option<real>, after: Position, symbol: string)
    requires Booking(s, s', id, shares, value, charge, gain, after) && Known(s)
    requires ReplaysPosition(s, symbol)
    ensures ReplaysPosition(s', symbol)
  {
    BookingReads(s, s', id, shares, value, charge, gain, after, MovesOf(s.orders, symbol), MovesOf(s'.orders, symbol));
  }

  lemma {:induction false} BookingKeepsCash(cfg: Config, s: State, s': State, id: int, shares: Pos, value: real,
                                            charge: real, gain: Option<real>, after: Position)
    requires Booking(s, s', id, shares, value, charge, gain, after) && Known(s)
    requires s.cash == cfg.initialCash - Total(s.log, OutlayOf(s.orders))
    ensures s'.cash == cfg.initialCash - Total(s'.log, OutlayOf(s'.orders))
  {
    BookingReads(s, s', id, shares, value, charge, gain, after, OutlayOf(s.orders), OutlayOf(s'.orders));
    assert OutlayIn(s'.orders, s'.log[|s.log|]) == Signed(s.orders[id].action, value);
  }

  lemma {:induction false} BookingKeepsReplay(cfg: Config, s: State, s': State, id: int, shares: Pos, value: real,
                                              charge: real, gain: Option<real>, after: Position)
    requires Booking(s, s', id, shares, value, charge, gain, after) && Known(s) && ReplayBooks(cfg, s)
    ensures Known(s') && ReplayBooks(cfg, s')
  {
    BookingReplaysOrders(s, s', id, shares, value, charge, gain, after);
    forall symbol ensures ReplaysPosition(s', symbol) {
      BookingKeepsMoves(s, s', id, shares, value, charge, gain, after, symbol);
    }
    BookingKeepsCash(cfg, s, s', id, shares, value, charge, gain, after);
    BookingReads(s, s', id, shares, value, charge, gain, after, GainsOf(), GainsOf());
  }

  /** Opening: the new average cost `a'` carries the old cost and the new notional. */
  lemma {:induction false} OpeningBalances(q: real, a: real, signed: real, price: real, a': real)
    requires signed != 0.0 && Opens(q, signed)
    requires Abs(q + signed) * a' == a * Abs(q) + price * Abs(signed)
    ensures (q + signed) * a' == q * a + signed * price
  {
  }

  /** The shares a smaller counter-trade closes, and the shares a larger one closes. */
  lemma {:induction false} ClosedShares(q: real, signed: real)
    requires signed != 0.0 && !Opens(q, signed)
    ensures Closed(q, signed) == if Abs(signed) < Abs(q) then -signed else q
  {
    if q > 0.0 {
      assert Closed(q, signed) == Min(-signed, q) * 1.0;
    } else {
      assert Closed(q, signed) == Min(signed, -q) * -1.0;
    }
  }

  lemma {:induction false} SameProduct(q: real, a: real, b: real)
    requires q == 0.0 || a == b
    ensures q * a == q * b
  {
  }

  lemma {:induction false} CloseArithmetic(q: real, a: real, signed: real, price: real, moved: real)
    ensures moved == -signed ==> (q + signed) * a == q * a + signed * price + (price - a) * moved
    ensures moved == q ==> (q + signed) * price == q * a + signed * price + (price - a) * moved
  {
    Distribute(price, -a, moved);
    Distribute(q, signed, a);
    Distribute(q, signed, price);
  }

  /** Closing: what leaves the position at cost `a` comes back as price difference. */
  lemma {:induction false} ClosingBalances(q: real, a: real, signed: real, price: real, a': real)
    requires signed != 0.0 && !Opens(q, signed)
    requires if Abs(signed) < Abs(q) then a' == a else q + signed == 0.0 || a' == price
    ensures (q + signed) * a' == q * a + signed * price + (price - a) * Closed(q, signed)
  {
    ClosedShares(q, signed);
    CloseArithmetic(q, a, signed, price, Closed(q, signed));
    SameProduct(q + signed, a', if Abs(signed) < Abs(q) then a else price);
  }

  /** How an execution changes a position, with the divisions multiplied out. */
  ghost predicate Moved(pos: Position, after: Position, gain: Option<real>, signed: real, price: real, charge: real)
    requires signed != 0.0
  {
    && after.quantity == pos.quantity + signed
    && if Opens(pos.quantity, signed) then
         gain.None? && Abs(after.quantity) * after.avgCost == pos.avgCost * Abs(pos.quantity) + price * Abs(signed)
       else
         && gain == Some(NetGain(pos, signed, price, charge))
         && if Abs(signed) < Abs(pos.quantity) then after.avgCost == pos.avgCost
            else after.quantity == 0.0 || after.avgCost == price
  }

  lemma {:induction false} ApplyMoves(pos: Position, signed: real, price: real, charge: real)
    requires signed != 0.0
    ensures var (after, gain) := ApplyToPosition(pos, signed, price, charge);
            Moved(pos, after, gain, signed, price, charge)
  {
    if Opens(pos.quantity, signed) {
      var q, total := pos.quantity + signed, pos.avgCost * Abs(pos.quantity) + price * Abs(signed);
      assert Abs(q) * (total / Abs(q)) == total;
    }
  }

  ghost predicate Balances(pos: Position, after: Position, gain: real, value: real, charge: real, opening: real) {
    CostOf(after) - value - charge == CostOf(pos) + gain - opening
  }

  lemma {:induction false} LedgerArithmetic(after: real, before: real, value: real, charge: real, gross: real,
                                            part: real)
    requires after == before + value + gross
    ensures after - value - charge == before + (gross - part) - (charge - part)
  {
  }

  /** The ledger identity for one execution: opening, closing and flipping all balance. */
  lemma {:induction false} MoveBalances(pos: Position, after: Position, gain: Option<real>, signed: real, price: real,
                                        charge: real)
    requires signed != 0.0 && Moved(pos, after, gain, signed, price, charge)
    ensures Balances(pos, after, GainOf(gain), signed * price, charge, OpeningPart(pos.quantity, signed, charge))
  {
    if Opens(pos.quantity, signed) {
      OpeningBalances(pos.quantity, pos.avgCost, signed, price, after.avgCost);
    } else {
      ClosingBalances(pos.quantity, pos.avgCost, signed, price, after.avgCost);
      LedgerArithmetic(CostOf(after), CostOf(pos), signed * price, charge,
                       (price - pos.avgCost) * Closed(pos.quantity, signed),
                       CloseRatio(pos.quantity, signed) * charge);
    }
  }

  /** A booking's commission is attributed to opening exactly as far as the shares did not close. */
  lemma {:induction false} BookingOpens(s: State, s': State, id: int, shares: Pos, value: real, charge: real,
                                        gain: Option<real>, after: Position)
    requires Booking(s, s', id, shares, value, charge, gain, after) && Known(s)
    requires ReplaysPosition(s, s.orders[id].symbol)
    ensures OpeningCommissions(s'.orders, s'.log) == OpeningCommissions(s.orders, s.log)
              + OpeningPart(PositionOf(s.positions, s.orders[id].symbol).quantity,
                            Signed(s.orders[id].action, shares), charge)
  {
    var o, n := s.orders[id], |s.log|;
    var executed, paid := s.log + [s'.log[n]], s.log + [s'.log[n], s'.log[n + 1]];
    assert executed[..n] == s.log && paid[..n + 1] == executed && paid[..n] == s.log;
    assert s'.log[..n + 2] == paid;
    QuietOpenings(s.orders, s'.orders, s.log, s.log);
    TotalCongruent(s.log, MovesOf(s.orders, o.symbol), MovesOf(s'.orders, o.symbol));
    assert OpeningCommissions(s'.orders, executed) == OpeningCommissions(s'.orders, s.log);
    assert OpeningCommissions(s'.orders, paid)
        == OpeningCommissions(s'.orders, executed) + LastOpening(s'.orders, paid);
    assert OpeningCommissions(s'.orders, s'.log) == OpeningCommissions(s'.orders, paid);
  }

  lemma {:induction false} BookingKeepsLedger(cfg: Config, s: State, s': State, id: int, shares: Pos, value: real,
                                              charge: real, gain: Option<real>, after: Position, opening: real)
    requires Booking(s, s', id, shares, value, charge, gain, after) && LedgerBooks(cfg, s)
    requires Balances(PositionOf(s.positions, s.orders[id].symbol), after, GainOf(gain),
                      Signed(s.orders[id].action, value), charge, opening)
    requires OpeningCommissions(s'.orders, s'.log) == OpeningCommissions(s.orders, s.log) + opening
    ensures LedgerBooks(cfg, s')
  {
    SumUpdate(s.positions, CostOf, s.orders[id].symbol, after);
  }

  lemma {:induction false} BookingKeepsBooks(cfg: Config, s: State, s': State, id: int, shares: Pos, value: real,
                                             charge: real, gain: Option<real>, after: Position, opening: real)
    requires Booking(s, s', id, shares, value, charge, gain, after) && charge == CommissionFor(cfg, shares)
    requires Books(cfg, s)
    requires opening == OpeningPart(PositionOf(s.positions, s.orders[id].symbol).quantity,
                                    Signed(s.orders[id].action, shares), charge)
    requires Balances(PositionOf(s.positions, s.orders[id].symbol), after, GainOf(gain),
                      Signed(s.orders[id].action, value), charge, opening)
    ensures Books(cfg, s')
  {
    BookingKeepsTable(cfg, s, s', id, shares, value, charge, gain, after);
    BookingKeepsReplay(cfg, s, s', id, shares, value, charge, gain, after);
    BookingOpens(s, s', id, shares, value, charge, gain, after);
    BookingKeepsLedger(cfg, s, s', id, shares, value, charge, gain, after, opening);
  }

  lemma {:induction false} SignedProduct(action: Action, shares: real, price: real)
    ensures Signed(action, shares) * price == Signed(action, shares * price)
  {
  }

  lemma {:induction false} TrancheOutcome(cfg: Config, s: State, id: int, shares: Pos, price: real, last: bool)
    returns (after: Position, gain: Option<real>)
    requires id in s.orders
    ensures Booking(s, Tranche(cfg, s, id, shares, price, last), id, shares, shares * price,
                    CommissionFor(cfg, shares), gain, after)
    ensures Moved(PositionOf(s.positions, s.orders[id].symbol), after, gain, Signed(s.orders[id].action, shares),
                  price, CommissionFor(cfg, shares))
  {
    var pos, signed := PositionOf(s.positions, s.orders[id].symbol), Signed(s.orders[id].action, shares);
    ApplyMoves(pos, signed, price, CommissionFor(cfg, shares));
    var outcome := ApplyToPosition(pos, signed, price, CommissionFor(cfg, shares));
    after, gain := outcome.0, outcome.1;
    TrancheIsBooking(cfg, s, id, shares, price, last, gain, after);
  }

  lemma {:induction false} OrderMoveBalances(pos: Position, after: Position, gain: Option<real>, action: Action,
                                             shares: Pos, price: real, charge: real)
    requires Moved(pos, after, gain, Signed(action, shares), price, charge)
    ensures Balances(pos, after, GainOf(gain), Signed(action, shares * price), charge,
                     OpeningPart(pos.quantity, Signed(action, shares), charge))
  {
    MoveBalances(pos, after, gain, Signed(action, shares), price, charge);
    SignedProduct(action, shares, price);
  }

  lemma {:induction false} MovedKeepsBooks(cfg: Config, s: State, s': State, id: int, shares: Pos, price: real,
                                           charge: real, gain: Option<real>, after: Position)
    requires Booking(s, s', id, shares, shares * price, charge, gain, after) && charge == CommissionFor(cfg, shares)
    requires Moved(PositionOf(s.positions, s.orders[id].symbol), after, gain, Signed(s.orders[id].action, shares),
                   price, charge)
    requires Books(cfg, s)
    ensures Books(cfg, s')
  {
    var o := s.orders[id];
    var pos := PositionOf(s.positions, o.symbol);
    OrderMoveBalances(pos, after, gain, o.action, shares, price, charge);
    BookingKeepsBooks(cfg, s, s', id, shares, shares * price, charge, gain, after,
                      OpeningPart(pos.quantity, Signed(o.action, shares), charge));
  }

  lemma {:induction false} TrancheKeepsBooks(cfg: Config, s: State, id: int, shares: Pos, price: real, last: bool)
    requires Books(cfg, s) && id in s.orders
    ensures Books(cfg, Tranche(cfg, s, id, shares, price, last))
  {
    var after, gain := TrancheOutcome(cfg, s, id, shares, price, last);
    MovedKeepsBooks(cfg, s, Tranche(cfg, s, id, shares, price, last), id, shares, price, CommissionFor(cfg, shares),
                    gain, after);
  }
}
