/**
 Price moves do not depend on the order in which the hash table of orders happens to be walked.

 PriceMove is the order-free account of a price move: every resting limit order the price reaches
 fills at once, the siblings of those are cancelled, then every triggered stop fires at once, and
 the siblings of the executed ones are cancelled.
 */
module SimPrices {
  import opened Wrappers
  import opened SimModel
  import opened SimEffects

  function LimitStage(orders: map<int, Order>, symbol: string, price: real): map<int, Order> {
    map id | id in orders ::
      if LimitHit(orders[id], symbol, price) then FilledAt(orders[id], LimitPriceOf(orders[id], price)) else orders[id]
  }

  function LimitDone(orders: map<int, Order>, symbol: string, price: real): set<int> {
    set id | id in orders && LimitHit(orders[id], symbol, price)
  }

  function StopStage(cfg: Config, orders: map<int, Order>, symbol: string, price: real): map<int, Order> {
    map id | id in orders ::
      if StopHit(orders[id], symbol, price) then AfterTrigger(cfg, orders[id], price) else orders[id]
  }

  function StopDone(cfg: Config, orders: map<int, Order>, symbol: string, price: real): set<int> {
    set id | id in orders && StopHit(orders[id], symbol, price) && StopExecution(cfg, orders[id], price).Some?
  }

  /** `b` is linked to the parent of `a`. */
  predicate Shares(orders: map<int, Order>, links: map<int, seq<int>>, a: int, b: int) {
    a in orders && orders[a].parentId.Some? && orders[a].parentId.value in links
    && b in links[orders[a].parentId.value] && b != a
  }

  predicate Doomed(orders: map<int, Order>, links: map<int, seq<int>>, done: set<int>, b: int) {
    exists a | a in done :: Shares(orders, links, a, b)
  }

  function OcaStage(orders: map<int, Order>, links: map<int, seq<int>>, done: set<int>): map<int, Order> {
    map b | b in orders :: if Doomed(orders, links, done, b) then CancelledOrder(orders[b]) else orders[b]
  }

  function AfterLimits(orders: map<int, Order>, links: map<int, seq<int>>, symbol: string, price: real)
    : map<int, Order>
  {
    OcaStage(LimitStage(orders, symbol, price), links, LimitDone(orders, symbol, price))
  }

  function AfterStops(cfg: Config, orders: map<int, Order>, links: map<int, seq<int>>, symbol: string, price: real)
    : map<int, Order>
  {
    OcaStage(StopStage(cfg, orders, symbol, price), links, StopDone(cfg, orders, symbol, price))
  }

  function PriceMove(cfg: Config, orders: map<int, Order>, links: map<int, seq<int>>, symbol: string, price: real)
    : map<int, Order>
  {
    AfterStops(cfg, AfterLimits(orders, links, symbol, price), links, symbol, price)
  }

  lemma {:induction false} OcaIsStage(s: State, ids: seq<int>, done: set<int>)
    requires forall id :: id in ids <==> id in done
    ensures var r := CheckOcaEach(s, ids); SameFrame(s, r) && r.orders == OcaStage(s.orders, s.links, done)
  {
    OcaEffect(s, ids);
    forall b | b in s.orders ensures AnySibling(s, ids, b) <==> Doomed(s.orders, s.links, done, b) {
      forall a ensures Sibling(s, a, b) <==> Shares(s.orders, s.links, a, b) {}
      if Doomed(s.orders, s.links, done, b) {
        var a :| a in done && Shares(s.orders, s.links, a, b);
        var i :| 0 <= i < |ids| && ids[i] == a;
      }
    }
  }

  lemma {:induction false} OcaSettles(orders: map<int, Order>, links: map<int, seq<int>>, done: set<int>)
    requires SettledTable(orders)
    ensures SettledTable(OcaStage(orders, links, done))
  {
  }

  lemma {:induction false} LimitSettles(orders: map<int, Order>, symbol: string, price: real)
    requires SettledTable(orders)
    ensures SettledTable(LimitStage(orders, symbol, price))
  {
  }

  lemma {:induction false} StopSettles(cfg: Config, orders: map<int, Order>, symbol: string, price: real)
    requires SettledTable(orders)
    ensures SettledTable(StopStage(cfg, orders, symbol, price))
  {
    forall id | id in orders && StopHit(orders[id], symbol, price)
      ensures SettledOrder(AfterTrigger(cfg, orders[id], price), id)
    {
      assert SettledOrder(orders[id], id);
    }
  }

  lemma {:induction false} IsLimitStage(orders: map<int, Order>, filled: map<int, Order>, ids: seq<int>,
                                        symbol: string, price: real, fill: Order -> real)
    requires filled.Keys == orders.Keys
    requires forall id | id in orders ::
               filled[id] == if id in ids then FilledAt(orders[id], fill(orders[id])) else orders[id]
    requires forall id | id in orders :: fill(orders[id]) == LimitPriceOf(orders[id], price)
    requires forall id :: id in ids <==> id in LimitDone(orders, symbol, price)
    ensures filled == LimitStage(orders, symbol, price)
  {
    forall id | id in orders ensures filled[id] == LimitStage(orders, symbol, price)[id] {
      assert id in ids <==> LimitHit(orders[id], symbol, price);
    }
  }

  lemma {:induction false} IsStopStage(cfg: Config, orders: map<int, Order>, fired: map<int, Order>, ids: seq<int>,
                                       symbol: string, price: real)
    requires fired.Keys == orders.Keys
    requires forall id | id in orders ::
               fired[id] == if id in ids then AfterTrigger(cfg, orders[id], price) else orders[id]
    requires forall id | id in orders :: id in ids <==> StopHit(orders[id], symbol, price)
    ensures fired == StopStage(cfg, orders, symbol, price)
  {
    forall id | id in orders ensures fired[id] == StopStage(cfg, orders, symbol, price)[id] {}
  }

  lemma {:induction false} LimitFills(cfg: Config, s: State, visit: seq<int>, symbol: string, price: real)
    requires Settled(s) && Enumerates(visit, s.orders)
    ensures var hits := LimitHits(s, visit, symbol, price);
            && SameFrame(s, FillEach(cfg, s, hits))
            && FillEach(cfg, s, hits).orders == LimitStage(s.orders, symbol, price)
            && (forall id :: id in Ids(hits) <==> id in LimitDone(s.orders, symbol, price))
  {
    var hits := LimitHits(s, visit, symbol, price);
    LimitHitsAre(s, visit, symbol, price);
    forall id | id in Ids(hits) ensures id in LimitDone(s.orders, symbol, price) {
      var i :| 0 <= i < |hits| && Ids(hits)[i] == id;
      assert hits[i].0 == id;
    }
    forall i | 0 <= i < |hits| ensures s.orders[hits[i].0].filledQty == 0.0 {
      assert SettledOrder(s.orders[hits[i].0], hits[i].0);
    }
    var fill := (o: Order) => LimitPriceOf(o, price);
    FillEachEffect(cfg, s, hits, fill);
    IsLimitStage(s.orders, FillEach(cfg, s, hits).orders, Ids(hits), symbol, price, fill);
  }

  lemma {:induction false} LimitPass(cfg: Config, s: State, visit: seq<int>, symbol: string, price: real)
    requires Settled(s) && Enumerates(visit, s.orders)
    ensures var r := CheckLimitFills(cfg, s, visit, symbol, price);
            SameFrame(s, r) && Settled(r) && r.orders == AfterLimits(s.orders, s.links, symbol, price)
  {
    var hits := LimitHits(s, visit, symbol, price);
    LimitFills(cfg, s, visit, symbol, price);
    OcaIsStage(FillEach(cfg, s, hits), Ids(hits), LimitDone(s.orders, symbol, price));
    LimitSettles(s.orders, symbol, price);
    OcaSettles(LimitStage(s.orders, symbol, price), s.links, LimitDone(s.orders, symbol, price));
  }

  lemma {:induction false} StopFills(cfg: Config, s: State, visit: seq<int>, symbol: string, price: real)
    requires Settled(s) && Enumerates(visit, s.orders)
    ensures var hits := StopHits(s, visit, symbol, price);
            && SameFrame(s, TriggerEach(cfg, s, hits, price))
            && TriggerEach(cfg, s, hits, price).orders == StopStage(cfg, s.orders, symbol, price)
            && (forall id :: id in Executed(cfg, s, hits, price) <==> id in StopDone(cfg, s.orders, symbol, price))
  {
    var hits := StopHits(s, visit, symbol, price);
    StopHitsAre(s, visit, symbol, price);
    forall id | id in hits ensures s.orders[id].filledQty == 0.0 {
      assert SettledOrder(s.orders[id], id);
    }
    TriggerEachEffect(cfg, s, hits, price);
    IsStopStage(cfg, s.orders, TriggerEach(cfg, s, hits, price).orders, hits, symbol, price);
    ExecutedAre(cfg, s, hits, price);
  }

  lemma {:induction false} StopPass(cfg: Config, s: State, visit: seq<int>, symbol: string, price: real)
    requires Settled(s) && Enumerates(visit, s.orders)
    ensures var r := CheckStopTriggers(cfg, s, visit, symbol, price);
            SameFrame(s, r) && Settled(r) && r.orders == AfterStops(cfg, s.orders, s.links, symbol, price)
  {
    var hits := StopHits(s, visit, symbol, price);
    StopFills(cfg, s, visit, symbol, price);
    OcaIsStage(TriggerEach(cfg, s, hits, price), Executed(cfg, s, hits, price), StopDone(cfg, s.orders, symbol, price));
    StopSettles(cfg, s.orders, symbol, price);
    OcaSettles(StopStage(cfg, s.orders, symbol, price), s.links, StopDone(cfg, s.orders, symbol, price));
  }

  /** A price move has the order-free effect, whatever walks of the order table carried it out. */
  lemma {:induction false} PriceMoveIsSimultaneous(cfg: Config, s: State, symbol: string, price: real, v1: seq<int>,
                                                   v2: seq<int>)
    requires Settled(s) && Enumerates(v1, s.orders) && Enumerates(v2, s.orders)
    ensures var r := SetMarketPrice(cfg, s, symbol, price, v1, v2);
            && r.orders == PriceMove(cfg, s.orders, s.links, symbol, price)
            && r.orders.Keys == s.orders.Keys && r.links == s.links && r.prices == s.prices[symbol := price]
            && r.orderCount == s.orderCount && r.nextId == s.nextId
            && Settled(r)
  {
    var priced := s.(prices := s.prices[symbol := price]);
    LimitPass(cfg, priced, v1, symbol, price);
    StopPass(cfg, CheckLimitFills(cfg, priced, v1, symbol, price), v2, symbol, price);
  }
}
