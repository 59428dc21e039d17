/** Which orders a price fills and at what price, read off the orders, the price and the spread alone. */
module SimMarket {
  import opened Wrappers
  import opened Sums
  import opened SimModel
  import opened SimBooks
  import opened SimRuns
  import opened SimEffects
  import opened SimPrices
  import opened SimLifecycle
  import opened SimTheorems

  // ---------------------------------------------------------------- price moves

  /** A resting limit order that the price satisfies: a buy from its limit down, a sell from its limit up. */
  predicate Meets(o: Order, symbol: string, price: real) {
    && o.symbol == symbol && o.status.Working? && o.orderType.Limit? && o.limitPrice.Some?
    && (o.action.Buy? ==> price <= o.limitPrice.value)
    && (o.action.Sell? ==> price >= o.limitPrice.value)
  }

  /** A triggered stop that the price goes through: a sell from its stop down, a buy from its stop up. */
  predicate Crosses(o: Order, symbol: string, price: real) {
    && o.symbol == symbol && o.status.Triggered? && (o.orderType.Stop? || o.orderType.StopLimit?) && o.stopPrice.Some?
    && (o.action.Sell? ==> price <= o.stopPrice.value)
    && (o.action.Buy? ==> price >= o.stopPrice.value)
  }

  /** A stop executes at any price that crosses it, a stop-limit only where its limit allows. */
  predicate Marketable(o: Order, price: real) {
    || o.orderType.Stop?
    || (&& o.limitPrice.Some?
        && (o.action.Buy? ==> price <= o.limitPrice.value)
        && (o.action.Sell? ==> price >= o.limitPrice.value))
  }

  /** The price moved by half the spread against the order. */
  function Crossed(spread: real, action: Action, price: real): real {
    if action.Buy? then price + spread / 2.0 else price - spread / 2.0
  }

  /** A sibling of `b` is a resting limit that the price satisfies. */
  ghost predicate SiblingMeets(orders: map<int, Order>, links: map<int, seq<int>>, symbol: string, price: real,
                               b: int)
  {
    exists a | a in orders && Meets(orders[a], symbol, price) :: Shares(orders, links, a, b)
  }

  /** The order is a stop that the price executes. */
  ghost predicate Executes(orders: map<int, Order>, links: map<int, seq<int>>, symbol: string, price: real, a: int) {
    && a in orders && Crosses(orders[a], symbol, price) && Marketable(orders[a], price)
    && !SiblingMeets(orders, links, symbol, price, a)
  }

  ghost predicate SiblingExecutes(orders: map<int, Order>, links: map<int, seq<int>>, symbol: string, price: real,
                                  b: int)
  {
    exists a | Executes(orders, links, symbol, price, a) :: Shares(orders, links, a, b)
  }

  lemma {:induction false} MeetsIsHit(o: Order, symbol: string, price: real)
    ensures Meets(o, symbol, price) <==> LimitHit(o, symbol, price)
    ensures Meets(o, symbol, price) ==> LimitPriceOf(o, price) == price
  {
  }

  lemma {:induction false} CrossesIsHit(o: Order, symbol: string, price: real)
    ensures Crosses(o, symbol, price) <==> StopHit(o, symbol, price)
  {
  }

  lemma {:induction false} MarketableExecutes(cfg: Config, o: Order, price: real)
    ensures Marketable(o, price) <==> StopExecution(cfg, o, price).Some?
    ensures Marketable(o, price) ==> StopExecution(cfg, o, price).value
                                     == if o.orderType.Stop? then Crossed(cfg.spread, o.action, price)
                                        else o.limitPrice.value
  {
  }

  lemma {:induction false} MetAreDone(orders: map<int, Order>, links: map<int, seq<int>>, symbol: string, price: real,
                                      b: int)
    ensures Doomed(LimitStage(orders, symbol, price), links, LimitDone(orders, symbol, price), b)
            <==> SiblingMeets(orders, links, symbol, price, b)
  {
    forall a | a in orders
      ensures Shares(LimitStage(orders, symbol, price), links, a, b) <==> Shares(orders, links, a, b)
      ensures a in LimitDone(orders, symbol, price) <==> Meets(orders[a], symbol, price)
    {
      MeetsIsHit(orders[a], symbol, price);
    }
  }

  /** What the first pass leaves of an order. */
  lemma {:induction false} FirstPass(orders: map<int, Order>, links: map<int, seq<int>>, symbol: string, price: real,
                                     b: int)
    requires b in orders
    ensures var o, mid := orders[b], AfterLimits(orders, links, symbol, price);
            var met := if Meets(o, symbol, price) then FilledAt(o, price) else o;
            b in mid && mid[b] == if SiblingMeets(orders, links, symbol, price, b) then CancelledOrder(met) else met
  {
    MeetsIsHit(orders[b], symbol, price);
    MetAreDone(orders, links, symbol, price, b);
  }

  lemma {:induction false} ExecutedAreDone(cfg: Config, orders: map<int, Order>, links: map<int, seq<int>>,
                                           symbol: string, price: real, a: int)
    ensures a in StopDone(cfg, AfterLimits(orders, links, symbol, price), symbol, price)
            <==> Executes(orders, links, symbol, price, a)
  {
    if a in orders {
      FirstPass(orders, links, symbol, price, a);
      CrossesIsHit(orders[a], symbol, price);
      MarketableExecutes(cfg, orders[a], price);
    }
  }

  lemma {:induction false} ExecutedDoom(cfg: Config, orders: map<int, Order>, links: map<int, seq<int>>,
                                        symbol: string, price: real, b: int)
    ensures var mid := AfterLimits(orders, links, symbol, price);
            Doomed(StopStage(cfg, mid, symbol, price), links, StopDone(cfg, mid, symbol, price), b)
            <==> SiblingExecutes(orders, links, symbol, price, b)
  {
    var mid := AfterLimits(orders, links, symbol, price);
    forall a
      ensures a in StopDone(cfg, mid, symbol, price) <==> Executes(orders, links, symbol, price, a)
      ensures Shares(StopStage(cfg, mid, symbol, price), links, a, b) <==> Shares(orders, links, a, b)
    {
      ExecutedAreDone(cfg, orders, links, symbol, price, a);
    }
  }

  /** The price at which a move fills the order: its own for a limit, across the spread for a stop. */
  function FillPrice(cfg: Config, o: Order, price: real): real {
    if o.orderType.Limit? then price
    else if o.orderType.Stop? then Crossed(cfg.spread, o.action, price)
    else Or(o.limitPrice, price)
  }

  ghost predicate Fills(orders: map<int, Order>, links: map<int, seq<int>>, symbol: string, price: real, b: int)
    requires b in orders
  {
    orders[b].Remaining() > 0.0
    && (Meets(orders[b], symbol, price) || Executes(orders, links, symbol, price, b))
  }

  lemma {:induction false} PriceMoveOf(cfg: Config, orders: map<int, Order>, links: map<int, seq<int>>,
                                       symbol: string, price: real, b: int)
    requires b in orders
    ensures var mid, r := AfterLimits(orders, links, symbol, price), PriceMove(cfg, orders, links, symbol, price);
            b in mid && b in r &&
            var fired := if StopHit(mid[b], symbol, price) then AfterTrigger(cfg, mid[b], price) else mid[b];
            r[b] == if SiblingExecutes(orders, links, symbol, price, b) then CancelledOrder(fired) else fired
  {
    ExecutedDoom(cfg, orders, links, symbol, price, b);
  }

  /** What one price move makes of one open order. */
  ghost predicate Outcome(cfg: Config, orders: map<int, Order>, links: map<int, seq<int>>, symbol: string, price: real,
                          b: int, o': Order)
    requires b in orders
  {
    var o := orders[b];
    if Fills(orders, links, symbol, price, b) then
      o' == o.(status := Status.Filled, filledQty := o.quantity, avgFillPrice := FillPrice(cfg, o, price))
    else if SiblingMeets(orders, links, symbol, price, b) || SiblingExecutes(orders, links, symbol, price, b) then
      o' == o.(status := Status.Cancelled)
    else if Crosses(o, symbol, price) then
      o' == o.(status := Status.Working)
    else
      o' == o
  }

  lemma {:induction false} TableOutcome(cfg: Config, orders: map<int, Order>, links: map<int, seq<int>>,
                                        symbol: string, price: real, b: int)
    requires b in orders && !orders[b].status.Terminal()
    ensures Outcome(cfg, orders, links, symbol, price, b, PriceMove(cfg, orders, links, symbol, price)[b])
  {
    FirstPass(orders, links, symbol, price, b);
    PriceMoveOf(cfg, orders, links, symbol, price, b);
    MeetsIsHit(orders[b], symbol, price);
    CrossesIsHit(orders[b], symbol, price);
    MarketableExecutes(cfg, orders[b], price);
  }

  /**
   What a price move does to each open order, whatever the walks: a resting limit that the price
   satisfies fills at that price; a triggered stop that it crosses fills half a spread worse, or at
   its limit where that is allowed; siblings of these are cancelled; a stop-limit off its limit works
   on; everything else stays.
   */
  lemma {:induction false} PriceMoveOutcome(cfg: Config, s: State, symbol: string, price: real, v1: seq<int>,
                                            v2: seq<int>, id: int)
    requires Settled(s) && Enumerates(v1, s.orders) && Enumerates(v2, s.orders)
    requires id in s.orders && !s.orders[id].status.Terminal()
    ensures var r := SetMarketPrice(cfg, s, symbol, price, v1, v2);
            id in r.orders && Outcome(cfg, s.orders, s.links, symbol, price, id, r.orders[id])
  {
    PriceMoveIsSimultaneous(cfg, s, symbol, price, v1, v2);
    TableOutcome(cfg, s.orders, s.links, symbol, price, id);
  }

  /** A working limit order fills exactly at the prices at or better than its limit, and at that price. */
  lemma {:induction false} LimitFillsIff(cfg: Config, s: State, symbol: string, price: real, v1: seq<int>,
                                         v2: seq<int>, id: int)
    requires Settled(s) && Enumerates(v1, s.orders) && Enumerates(v2, s.orders) && id in s.orders
    requires var o := s.orders[id];
             o.symbol == symbol && o.status.Working? && o.orderType.Limit? && o.limitPrice.Some? && o.quantity > 0.0
    ensures var r, limit := SetMarketPrice(cfg, s, symbol, price, v1, v2), s.orders[id].limitPrice.value;
            && (IsFilled(r, id) <==> if s.orders[id].action.Buy? then price <= limit else price >= limit)
            && (IsFilled(r, id) ==>
                  r.orders[id].avgFillPrice == price && r.orders[id].filledQty == s.orders[id].quantity)
  {
    assert SettledOrder(s.orders[id], id);
    PriceMoveOutcome(cfg, s, symbol, price, v1, v2, id);
  }

  /** A triggered stop whose siblings no limit fills: it fires exactly at prices at or through its stop. */
  lemma {:induction false} StopFiresIff(cfg: Config, s: State, symbol: string, price: real, v1: seq<int>,
                                        v2: seq<int>, id: int)
    requires Settled(s) && Enumerates(v1, s.orders) && Enumerates(v2, s.orders) && id in s.orders
    requires var o := s.orders[id];
             o.symbol == symbol && o.status.Triggered? && o.orderType.Stop? && o.stopPrice.Some? && o.quantity > 0.0
    requires !SiblingMeets(s.orders, s.links, symbol, price, id)
    ensures var o, r := s.orders[id], SetMarketPrice(cfg, s, symbol, price, v1, v2);
            && (IsFilled(r, id) <==> if o.action.Buy? then price >= o.stopPrice.value else price <= o.stopPrice.value)
            && (IsFilled(r, id) ==> r.orders[id].avgFillPrice == Crossed(cfg.spread, o.action, price))
  {
    assert SettledOrder(s.orders[id], id);
    PriceMoveOutcome(cfg, s, symbol, price, v1, v2, id);
  }

  // ---------------------------------------------------------------- repricing

  /** Placing a live limit order again with a new limit makes that limit the one that decides its fill. */
  lemma {:induction false} RepricedLimitFillsIff(cfg: Config, s: State, spec: Spec, price: real, v1: seq<int>,
                                                 v2: seq<int>)
    requires Settled(s) && spec.id in s.orders && spec.limitPrice.Some?
    requires Enumerates(v1, s.orders) && Enumerates(v2, s.orders)
    requires var o := s.orders[spec.id]; o.status.Working? && o.orderType.Limit? && o.quantity > 0.0
    ensures var o, placed := s.orders[spec.id], PlaceOrder(cfg, s, spec);
            var r := SetMarketPrice(cfg, placed, o.symbol, price, v1, v2);
            && placed.orders.Keys == s.orders.Keys && placed.orderCount == s.orderCount
            && (forall id | id in s.orders && id != spec.id :: placed.orders[id] == s.orders[id])
            && (IsFilled(r, spec.id) <==>
                if o.action.Buy? then price <= spec.limitPrice.value else price >= spec.limitPrice.value)
  {
    var placed := PlaceOrder(cfg, s, spec);
    RepriceIsCalm(s, spec);
    CalmSettles(s.orders, placed.orders);
    LimitFillsIff(cfg, placed, s.orders[spec.id].symbol, price, v1, v2, spec.id);
  }

  /** The same for a stop: placing it again with a new stop moves its trigger there. */
  lemma {:induction false} RepricedStopFiresIff(cfg: Config, s: State, spec: Spec, price: real, v1: seq<int>,
                                                v2: seq<int>)
    requires Settled(s) && spec.id in s.orders && spec.stopPrice.Some?
    requires Enumerates(v1, s.orders) && Enumerates(v2, s.orders)
    requires var o := s.orders[spec.id]; o.status.Triggered? && o.orderType.Stop? && o.quantity > 0.0
    requires !SiblingMeets(PlaceOrder(cfg, s, spec).orders, s.links, s.orders[spec.id].symbol, price, spec.id)
    ensures var o, placed := s.orders[spec.id], PlaceOrder(cfg, s, spec);
            IsFilled(SetMarketPrice(cfg, placed, o.symbol, price, v1, v2), spec.id) <==>
            if o.action.Buy? then price >= spec.stopPrice.value else price <= spec.stopPrice.value
  {
    var placed := PlaceOrder(cfg, s, spec);
    RepriceIsCalm(s, spec);
    CalmSettles(s.orders, placed.orders);
    StopFiresIff(cfg, placed, s.orders[spec.id].symbol, price, v1, v2, spec.id);
  }

  // ---------------------------------------------------------------- market orders

  /** The price last set for a symbol by the operations of a run. */
  function LastPrice(ops: seq<Op>, symbol: string): Option<real>
    decreases |ops|
  {
    if ops == [] then None
    else if ops[|ops| - 1].SetPrice? && ops[|ops| - 1].symbol == symbol then Some(ops[|ops| - 1].price)
    else LastPrice(ops[..|ops| - 1], symbol)
  }

  lemma {:induction false} PlaceKeepsPrices(cfg: Config, s: State, spec: Spec)
    requires Settled(s)
    ensures PlaceOrder(cfg, s, spec).prices == s.prices
  {
    if spec.id !in s.orders {
      var rejected := PlaceIs(cfg, s, spec);
      EnterAdvances(s, spec, rejected);
      ActivateAdvances(cfg, Enter(s, spec, rejected), Root(spec));
    }
  }

  lemma {:induction false} StepPrices(cfg: Config, s: State, op: Op)
    requires Settled(s) && Walks(s, op)
    ensures Step(cfg, s, op).prices == if op.SetPrice? then s.prices[op.symbol := op.price] else s.prices
  {
    match op
    case NextId =>
    case Place(spec) => PlaceKeepsPrices(cfg, s, spec);
    case Cancel(id) => CancelIsCalm(s, id);
    case Modify(_, _) =>
    case SetPrice(symbol, price, v1, v2) => PriceMoveIsSimultaneous(cfg, s, symbol, price, v1, v2);
  }

  /** The cached prices of a run are the last ones set. */
  lemma {:induction false} PricesAreTheLast(cfg: Config, ops: seq<Op>, symbol: string)
    requires Proper(cfg, ops)
    ensures var prices := Run(cfg, ops).prices;
            LastPrice(ops, symbol) == if symbol in prices then Some(prices[symbol]) else None
    decreases |ops|
  {
    if ops != [] {
      var init := ops[..|ops| - 1];
      PricesAreTheLast(cfg, init, symbol);
      FillsAreAllOrNothing(cfg, init);
      StepPrices(cfg, Run(cfg, init), ops[|ops| - 1]);
    }
  }

  /** A new market order that stands alone and is transmitted. */
  predicate MarketSpec(spec: Spec) {
    spec.orderType.Market? && spec.transmit && spec.parentId.None? && spec.quantity > 0.0
  }

  /** Nothing of the money of the orders in `before` is different in `after`, which holds one more. */
  ghost predicate OneMoreOrder(before: map<int, Order>, after: map<int, Order>, id: int) {
    && id !in before && after.Keys == before.Keys + {id}
    && (forall i | i in before :: SameMoney(before[i], after[i]))
  }

  ghost predicate SameMoney(o: Order, o': Order) {
    && o'.symbol == o.symbol && o'.action == o.action && o'.filledQty == o.filledQty
    && o'.avgFillPrice == o.avgFillPrice
  }

  lemma {:induction false} SumOfOneMore(before: map<int, Order>, after: map<int, Order>, id: int, f: Order -> real)
    requires OneMoreOrder(before, after, id)
    requires forall o, o' | SameMoney(o, o') :: f(o') == f(o)
    ensures Sum(after, f) == Sum(before, f) + f(after[id])
  {
    var more := before[id := after[id]];
    SumUpdate(before, f, id, after[id]);
    forall i | i in more ensures i in after && f(after[i]) == f(more[i]) {
      if i != id { assert SameMoney(before[i], after[i]); }
    }
    SumSame(more, after, f);
  }

  lemma {:induction false} OutlayReadsMoney(cfg: Config, symbol: string)
    ensures forall o, o' | SameMoney(o, o') :: OutlayTo(cfg)(o') == OutlayTo(cfg)(o)
    ensures forall o, o' | SameMoney(o, o') :: SignedIn(symbol)(o') == SignedIn(symbol)(o)
  {
  }

  /** With balanced books, one more order moves cash and position by what it cost and filled. */
  lemma {:induction false} OneMoreMoves(cfg: Config, s: State, r: State, id: int, symbol: string)
    requires TableBooks(cfg, s) && TableBooks(cfg, r) && OneMoreOrder(s.orders, r.orders, id)
    ensures r.cash == s.cash - OutlayTo(cfg)(r.orders[id])
    ensures PositionOf(r.positions, symbol).quantity
            == PositionOf(s.positions, symbol).quantity + SignedIn(symbol)(r.orders[id])
  {
    OutlayReadsMoney(cfg, symbol);
    SumOfOneMore(s.orders, r.orders, id, OutlayTo(cfg));
    SumOfOneMore(s.orders, r.orders, id, SignedIn(symbol));
  }

  lemma {:induction false} ActivationKeepsMoney(cfg: Config, s: State, id: int)
    requires Settled(s) && id in s.orders && s.orders[id].status.Held?
    ensures var r := ActivateBracket(cfg, s, id);
            r.orders.Keys == s.orders.Keys && forall i | i in s.orders && i != id :: SameMoney(s.orders[i], r.orders[i])
  {
    ActivateEffect(cfg, s, id);
  }

  /** Activation fills an instant market order at the market: half a spread above for a buy, below for a sell. */
  lemma {:induction false} MarketOrderFillsAt(cfg: Config, s: State, id: int)
    requires Settled(s) && cfg.instant && id in s.orders
    requires var o := s.orders[id]; o.status.Held? && o.orderType.Market? && o.quantity > 0.0
    ensures var o, r := s.orders[id], ActivateBracket(cfg, s, id);
            var market := if o.symbol in s.prices then s.prices[o.symbol] else 100.0;
            && IsFilled(r, id) && r.orders[id].filledQty == o.quantity
            && r.orders[id].avgFillPrice == Crossed(cfg.spread, o.action, market)
            && r.orders[id].symbol == o.symbol && r.orders[id].action == o.action
  {
    assert SettledOrder(s.orders[id], id);
    ActivateEffect(cfg, s, id);
  }

  predicate IsAccepted(s: State, id: int) { id in s.orders && !s.orders[id].status.Rejected? }

  lemma {:induction false} RejectedStays(cfg: Config, s: State, spec: Spec, rejected: bool)
    ensures rejected ==> !IsAccepted(PlaceNew(cfg, s, spec, rejected), spec.id)
  {
  }

  lemma {:induction false} PlaceMarket(cfg: Config, s: State, spec: Spec) returns (r: State, o: Order)
    requires Settled(s) && cfg.instant && MarketSpec(spec) && spec.id !in s.orders
    requires IsAccepted(PlaceOrder(cfg, s, spec), spec.id)
    ensures r == PlaceOrder(cfg, s, spec) && OneMoreOrder(s.orders, r.orders, spec.id) && o == r.orders[spec.id]
    ensures o.status.Filled? && o.filledQty == spec.quantity && o.symbol == spec.symbol && o.action == spec.action
    ensures var market := if spec.symbol in s.prices then s.prices[spec.symbol] else 100.0;
            o.avgFillPrice == Crossed(cfg.spread, spec.action, market)
  {
    var rejected := PlaceIs(cfg, s, spec);
    RejectedStays(cfg, s, spec, rejected);
    var entered := Enter(s, spec, rejected);
    EnterAdvances(s, spec, rejected);
    assert Root(spec) == spec.id && entered.orders == s.orders[spec.id := NewOrder(spec, Status.Held)];
    MarketOrderFillsAt(cfg, entered, spec.id);
    ActivationKeepsMoney(cfg, entered, spec.id);
    r := PlaceOrder(cfg, s, spec);
    o := r.orders[spec.id];
  }

  /** In any run, a new market order fills for its quantity half a spread from the price last set, 100 if none was. */
  lemma {:induction false} MarketFillsAtLastPrice(cfg: Config, ops: seq<Op>, spec: Spec)
    requires Proper(cfg, ops) && cfg.instant && MarketSpec(spec) && spec.id !in Run(cfg, ops).orders
    requires IsAccepted(Run(cfg, ops + [Place(spec)]), spec.id)
    ensures var r := Run(cfg, ops + [Place(spec)]); var market := Or(LastPrice(ops, spec.symbol), 100.0);
            && IsFilled(r, spec.id) && r.orders[spec.id].filledQty == spec.quantity
            && r.orders[spec.id].avgFillPrice == Crossed(cfg.spread, spec.action, market)
  {
    assert (ops + [Place(spec)])[..|ops|] == ops;
    FillsAreAllOrNothing(cfg, ops);
    PricesAreTheLast(cfg, ops, spec.symbol);
    var r, o := PlaceMarket(cfg, Run(cfg, ops), spec);
  }

  lemma {:induction false} RoundTripArithmetic(q: real, market: real, spread: real, fee: real)
    ensures (q * (market + spread / 2.0) + fee) + (-(q * (market - spread / 2.0)) + fee) == q * spread + 2.0 * fee
  {
    var half := spread / 2.0;
    assert q * (market + half) == q * market + q * half;
    assert q * (market - half) == q * market - q * half;
    assert q * spread == q * half + q * half;
  }

  lemma {:induction false} OutlayIs(cfg: Config, o: Order, symbol: string)
    requires o.symbol == symbol
    ensures var paid := o.filledQty * o.avgFillPrice;
            OutlayTo(cfg)(o) == (if o.action.Buy? then paid else -paid) + Max(cfg.commissionPerShare, 0.0) * o.filledQty
    ensures SignedIn(symbol)(o) == if o.action.Buy? then o.filledQty else 0.0 - o.filledQty
  {
  }

  /** A fill of q at the market, bought or sold. */
  ghost predicate FilledAtMarket(cfg: Config, o: Order, symbol: string, action: Action, q: real, market: real) {
    && o.symbol == symbol && o.action == action && o.filledQty == q
    && o.avgFillPrice == Crossed(cfg.spread, action, market)
  }

  /** The spread on every share, and the commission on each of the two fills. */
  function RoundTripCost(cfg: Config, q: real): real {
    q * cfg.spread + 2.0 * (Max(cfg.commissionPerShare, 0.0) * q)
  }

  lemma {:induction false} TwoFillsCost(cfg: Config, buy: Order, sell: Order, symbol: string, q: real, market: real)
    requires FilledAtMarket(cfg, buy, symbol, Buy, q, market) && FilledAtMarket(cfg, sell, symbol, Sell, q, market)
    ensures OutlayTo(cfg)(buy) + OutlayTo(cfg)(sell) == RoundTripCost(cfg, q)
    ensures SignedIn(symbol)(buy) + SignedIn(symbol)(sell) == 0.0
  {
    OutlayIs(cfg, buy, symbol);
    OutlayIs(cfg, sell, symbol);
    RoundTripArithmetic(q, market, cfg.spread, Max(cfg.commissionPerShare, 0.0) * q);
  }

  lemma {:induction false} PlaceTwo(cfg: Config, s: State, mid: State, r: State, buy: Spec, sell: Spec)
    requires Settled(s) && Settled(mid) && mid == PlaceOrder(cfg, s, buy) && r == PlaceOrder(cfg, mid, sell)
    requires cfg.instant && MarketSpec(buy) && MarketSpec(sell)
    requires buy.id !in s.orders && sell.id !in s.orders && buy.id != sell.id
    requires buy.action.Buy? && sell.action.Sell? && buy.symbol == sell.symbol && buy.quantity == sell.quantity
    requires IsAccepted(mid, buy.id) && IsAccepted(r, sell.id)
    ensures OneMoreOrder(s.orders, mid.orders, buy.id) && OneMoreOrder(mid.orders, r.orders, sell.id)
    ensures var market := if buy.symbol in s.prices then s.prices[buy.symbol] else 100.0;
            && FilledAtMarket(cfg, mid.orders[buy.id], buy.symbol, Buy, buy.quantity, market)
            && FilledAtMarket(cfg, r.orders[sell.id], buy.symbol, Sell, buy.quantity, market)
  {
    var mid', b := PlaceMarket(cfg, s, buy);
    PlaceKeepsPrices(cfg, s, buy);
    var r', c := PlaceMarket(cfg, mid, sell);
  }

  lemma {:induction false} TwoMoves(cfg: Config, s: State, mid: State, r: State, a: int, b: int, symbol: string)
    requires TableBooks(cfg, s) && TableBooks(cfg, mid) && TableBooks(cfg, r)
    requires OneMoreOrder(s.orders, mid.orders, a) && OneMoreOrder(mid.orders, r.orders, b)
    ensures r.cash == s.cash - (OutlayTo(cfg)(mid.orders[a]) + OutlayTo(cfg)(r.orders[b]))
    ensures PositionOf(r.positions, symbol).quantity == PositionOf(s.positions, symbol).quantity
            + (SignedIn(symbol)(mid.orders[a]) + SignedIn(symbol)(r.orders[b]))
  {
    OneMoreMoves(cfg, s, mid, a, symbol);
    OneMoreMoves(cfg, mid, r, b, symbol);
  }

  lemma {:induction false} TwoSteps(cfg: Config, ops: seq<Op>, a: Spec, b: Spec) returns (mid: State, r: State)
    requires Proper(cfg, ops)
    ensures mid == PlaceOrder(cfg, Run(cfg, ops), a) && r == PlaceOrder(cfg, mid, b)
    ensures mid == Run(cfg, ops + [Place(a)]) && r == Run(cfg, ops + [Place(a), Place(b)])
    ensures Settled(Run(cfg, ops)) && Settled(mid)
    ensures TableBooks(cfg, Run(cfg, ops)) && TableBooks(cfg, mid) && TableBooks(cfg, r)
  {
    var one, two := ops + [Place(a)], ops + [Place(a), Place(b)];
    assert one[..|ops|] == ops && two[..|one|] == one;
    mid, r := Run(cfg, one), Run(cfg, two);
    FillsAreAllOrNothing(cfg, ops);
    FillsAreAllOrNothing(cfg, one);
    BooksAlwaysBalance(cfg, ops);
    BooksAlwaysBalance(cfg, one);
    BooksAlwaysBalance(cfg, two);
  }

  lemma {:induction false} RoundTripMoney(cfg: Config, s: State, mid: State, r: State, a: int, b: int, symbol: string,
                                          q: real, market: real)
    requires TableBooks(cfg, s) && TableBooks(cfg, mid) && TableBooks(cfg, r)
    requires OneMoreOrder(s.orders, mid.orders, a) && OneMoreOrder(mid.orders, r.orders, b)
    requires FilledAtMarket(cfg, mid.orders[a], symbol, Buy, q, market)
    requires FilledAtMarket(cfg, r.orders[b], symbol, Sell, q, market)
    ensures r.cash == s.cash - RoundTripCost(cfg, q)
    ensures PositionOf(r.positions, symbol).quantity == PositionOf(s.positions, symbol).quantity
  {
    TwoMoves(cfg, s, mid, r, a, b, symbol);
    TwoFillsCost(cfg, mid.orders[a], r.orders[b], symbol, q, market);
  }

  lemma {:induction false} RoundTripFrom(cfg: Config, s: State, mid: State, r: State, buy: Spec, sell: Spec)
    requires Settled(s) && Settled(mid) && mid == PlaceOrder(cfg, s, buy) && r == PlaceOrder(cfg, mid, sell)
    requires TableBooks(cfg, s) && TableBooks(cfg, mid) && TableBooks(cfg, r)
    requires cfg.instant && MarketSpec(buy) && MarketSpec(sell)
    requires buy.action.Buy? && sell.action.Sell? && buy.symbol == sell.symbol && buy.quantity == sell.quantity
    requires buy.id !in s.orders && sell.id !in s.orders && buy.id != sell.id
    requires IsAccepted(mid, buy.id) && IsAccepted(r, sell.id)
    ensures r.cash == s.cash - RoundTripCost(cfg, buy.quantity)
    ensures PositionOf(r.positions, buy.symbol).quantity == PositionOf(s.positions, buy.symbol).quantity
  {
    PlaceTwo(cfg, s, mid, r, buy, sell);
    var market := if buy.symbol in s.prices then s.prices[buy.symbol] else 100.0;
    RoundTripMoney(cfg, s, mid, r, buy.id, sell.id, buy.symbol, buy.quantity, market);
  }

  /** Bought and sold again at the market with no price move between: the spread and two commissions are lost. */
  lemma {:induction false} RoundTripCosts(cfg: Config, ops: seq<Op>, buy: Spec, sell: Spec)
    requires Proper(cfg, ops) && cfg.instant && MarketSpec(buy) && MarketSpec(sell)
    requires buy.action.Buy? && sell.action.Sell? && buy.symbol == sell.symbol && buy.quantity == sell.quantity
    requires var s := Run(cfg, ops);
             buy.id !in s.orders && sell.id !in s.orders && buy.id != sell.id
    requires IsAccepted(Run(cfg, ops + [Place(buy)]), buy.id)
    requires IsAccepted(Run(cfg, ops + [Place(buy), Place(sell)]), sell.id)
    ensures var s, r := Run(cfg, ops), Run(cfg, ops + [Place(buy), Place(sell)]);
            && r.cash == s.cash - RoundTripCost(cfg, buy.quantity)
            && PositionOf(r.positions, buy.symbol).quantity == PositionOf(s.positions, buy.symbol).quantity
  {
    var mid, r := TwoSteps(cfg, ops, buy, sell);
    RoundTripFrom(cfg, Run(cfg, ops), mid, r, buy, sell);
  }
}
