/** Two take-profits under one filled market entry: a reachable table in which one price fills both. */
module SimTwins {
  import opened Wrappers
  import opened SimModel
  import opened SimEffects
  import opened SimPrices
  import opened SimLifecycle
  import opened SimTheorems
  import opened SimBrackets
  import opened SimSubmitter

  function Target(id: int, symbol: string, quantity: real, limit: real, transmit: bool): Spec {
    Spec(id, symbol, Sell, Limit, quantity, Some(limit), None, Some(1), transmit, Gtc, false)
  }

  /** A market entry and two sell limits under it, the last transmitted. */
  function TwinLegs(symbol: string, quantity: real, first: real, second: real): seq<Spec> {
    [Spec(1, symbol, Buy, Market, quantity, None, None, None, false, Gtc, false),
     Target(2, symbol, quantity, first, false),
     Target(3, symbol, quantity, second, true)]
  }

  function Placements(specs: seq<Spec>): seq<Op> { seq(|specs|, i requires 0 <= i < |specs| => Place(specs[i])) }

  lemma {:induction false} PlacementsRun(cfg: Config, specs: seq<Spec>)
    ensures Proper(cfg, Placements(specs)) && Run(cfg, Placements(specs)) == PlaceAll(cfg, Initial(cfg), specs)
    decreases |specs|
  {
    if specs != [] {
      assert Placements(specs)[..|specs| - 1] == Placements(specs[..|specs| - 1]);
      PlacementsRun(cfg, specs[..|specs| - 1]);
    }
  }

  lemma {:induction false} NewKeys(cfg: Config, s: State, spec: Spec, rejected: bool)
    requires Settled(s) && spec.id !in s.orders
    ensures PlaceNew(cfg, s, spec, rejected).orders.Keys == s.orders.Keys + {spec.id}
  {
    EnterAdvances(s, spec, rejected);
    ActivateAdvances(cfg, Enter(s, spec, rejected), Root(spec));
  }

  lemma {:induction false} PlacedKeys(cfg: Config, s: State, spec: Spec)
    requires Settled(s)
    ensures PlaceOrder(cfg, s, spec).orders.Keys == s.orders.Keys + {spec.id}
  {
    if spec.id !in s.orders { NewKeys(cfg, s, spec, ShouldReject(cfg, s.orderCount + 1)); }
  }

  lemma {:induction false} IdsOfMore(specs: seq<Spec>)
    requires specs != []
    ensures var init := specs[..|specs| - 1];
            (set i | 0 <= i < |specs| :: specs[i].id)
            == (set i | 0 <= i < |init| :: init[i].id) + {specs[|specs| - 1].id}
  {
    var init := specs[..|specs| - 1];
    forall i | 0 <= i < |init| ensures specs[i] == init[i] {}
  }

  lemma {:induction false} AllPlacedKeys(cfg: Config, specs: seq<Spec>)
    ensures PlaceAll(cfg, Initial(cfg), specs).orders.Keys == set i | 0 <= i < |specs| :: specs[i].id
    decreases |specs|
  {
    if specs != [] {
      var init := specs[..|specs| - 1];
      AllPlacedKeys(cfg, init);
      PlacementsRun(cfg, init);
      FillsAreAllOrNothing(cfg, Placements(init));
      PlacedKeys(cfg, PlaceAll(cfg, Initial(cfg), init), specs[|specs| - 1]);
      IdsOfMore(specs);
    }
  }

  ghost predicate Resting(o: Order, symbol: string, quantity: real, limit: real) {
    o.symbol == symbol && o.action.Sell? && o.orderType.Limit? && o.status.Working? && o.quantity == quantity
    && o.filledQty == 0.0 && o.limitPrice == Some(limit) && o.parentId == Some(1)
  }

  /** The rejection schedule lets the first three orders through. */
  predicate Accepts(cfg: Config) { !ShouldReject(cfg, 1) && !ShouldReject(cfg, 2) && !ShouldReject(cfg, 3) }

  lemma {:induction false} AcceptedLegs(cfg: Config)
    requires Accepts(cfg)
    ensures EntryStatuses(cfg, Initial(cfg), 3) == [Status.Held, Status.Held, Status.Held]
  {
  }

  lemma {:induction false} TwinsPlaced(cfg: Config, start: State, r: State, symbol: string, quantity: real,
                                       first: real, second: real)
    requires start.prices == map[] && cfg.instant && quantity > 0.0
    requires LegsPlaced(cfg, start, r, TwinLegs(symbol, quantity, first, second),
                        [Status.Held, Status.Held, Status.Held])
    ensures 1 in r.orders && 2 in r.orders && 3 in r.orders && r.orders[1].parentId.None?
    ensures Resting(r.orders[2], symbol, quantity, first) && Resting(r.orders[3], symbol, quantity, second)
  {
    var legs := TwinLegs(symbol, quantity, first, second);
    var statuses := [Status.Held, Status.Held, Status.Held];
    assert legs[0].id == 1 && legs[1].id == 2 && legs[2].id == 3;
    assert r.orders[1] == LegAfter(cfg, start, legs, statuses, 0);
    assert r.orders[2] == LegAfter(cfg, start, legs, statuses, 1);
    assert r.orders[3] == LegAfter(cfg, start, legs, statuses, 2);
  }

  lemma {:induction false} ThreeKeys(cfg: Config, specs: seq<Spec>)
    requires |specs| == 3 && specs[0].id == 1 && specs[1].id == 2 && specs[2].id == 3
    ensures PlaceAll(cfg, Initial(cfg), specs).orders.Keys == {1, 2, 3}
  {
    AllPlacedKeys(cfg, specs);
    assert (set i | 0 <= i < 3 :: specs[i].id) == {specs[0].id, specs[1].id, specs[2].id};
  }

  lemma {:induction false} TwinsChain(symbol: string, quantity: real, first: real, second: real)
    ensures Chain(TwinLegs(symbol, quantity, first, second), 1)
  {
  }

  lemma {:induction false} TwinsGoLive(cfg: Config, symbol: string, quantity: real, first: real, second: real)
    requires Accepts(cfg)
    ensures var legs := TwinLegs(symbol, quantity, first, second);
            LegsPlaced(cfg, Initial(cfg), PlaceAll(cfg, Initial(cfg), legs), legs,
                       [Status.Held, Status.Held, Status.Held])
  {
    AcceptedLegs(cfg);
    TwinsChain(symbol, quantity, first, second);
    ChainGoesLive(cfg, Initial(cfg), TwinLegs(symbol, quantity, first, second), 1);
  }

  /** The bracket as placed: its entry is filled and both targets rest. */
  lemma {:induction false} TwinsRest(cfg: Config, symbol: string, quantity: real, first: real, second: real)
    returns (ops: seq<Op>, s: State)
    requires cfg.instant && quantity > 0.0 && Accepts(cfg)
    ensures ops == Placements(TwinLegs(symbol, quantity, first, second)) && Proper(cfg, ops) && s == Run(cfg, ops)
    ensures s.orders.Keys == {1, 2, 3} && s.orders[1].parentId.None?
    ensures Resting(s.orders[2], symbol, quantity, first) && Resting(s.orders[3], symbol, quantity, second)
  {
    var legs := TwinLegs(symbol, quantity, first, second);
    PlacementsRun(cfg, legs);
    ops, s := Placements(legs), PlaceAll(cfg, Initial(cfg), legs);
    TwinsGoLive(cfg, symbol, quantity, first, second);
    TwinsPlaced(cfg, Initial(cfg), s, symbol, quantity, first, second);
    ThreeKeys(cfg, legs);
  }

  lemma {:induction false} PriceRun(cfg: Config, ops: seq<Op>, symbol: string, price: real, walk: seq<int>)
    returns (s: State, r: State)
    requires Proper(cfg, ops) && Enumerates(walk, Run(cfg, ops).orders)
    ensures s == Run(cfg, ops) && r == Run(cfg, ops + [SetPrice(symbol, price, walk, walk)])
    ensures Proper(cfg, ops + [SetPrice(symbol, price, walk, walk)])
    ensures r.orders == PriceMove(cfg, s.orders, s.links, symbol, price) && AllAdvance(s.orders, r.orders)
    ensures r.orders.Keys == s.orders.Keys && LinkedTable(s.orders, s.links)
  {
    var op := SetPrice(symbol, price, walk, walk);
    assert (ops + [op])[..|ops|] == ops;
    FillsAreAllOrNothing(cfg, ops);
    LinksAlwaysMatch(cfg, ops);
    s, r := Run(cfg, ops), Run(cfg, ops + [op]);
    PriceMoveIsSimultaneous(cfg, s, symbol, price, walk, walk);
    PriceAdvances(cfg, s.orders, s.links, symbol, price);
  }

  lemma {:induction false} RestingBothFill(cfg: Config, orders: map<int, Order>, links: map<int, seq<int>>,
                                           symbol: string, quantity: real, first: real, second: real, price: real)
    requires LinkedTable(orders, links) && quantity > 0.0 && price >= first && price >= second
    requires 2 in orders && Resting(orders[2], symbol, quantity, first)
    requires 3 in orders && Resting(orders[3], symbol, quantity, second)
    ensures var r := PriceMove(cfg, orders, links, symbol, price); r[2].status.Filled? && r[3].status.Filled?
  {
    BothSiblingsFillIff(cfg, orders, links, symbol, price, 2, 3);
  }

  /** An entry with two children, before and after a price move. */
  lemma {:induction false} FlatTriple(orders: map<int, Order>, orders': map<int, Order>)
    requires orders.Keys == {1, 2, 3} == orders'.Keys && AllAdvance(orders, orders')
    requires orders[1].parentId.None? && orders[2].parentId == Some(1) == orders[3].parentId
    ensures Flat(orders') && AreSiblings(orders', 2, 3)
  {
    AdvanceOf(orders, orders', 1);
    AdvanceOf(orders, orders', 2);
    AdvanceOf(orders, orders', 3);
  }

  lemma {:induction false} WalkOfThree(orders: map<int, Order>)
    requires orders.Keys == {1, 2, 3}
    ensures Enumerates([1, 2, 3], orders)
  {
  }

  /** Any price above both targets fills both, so one-cancels-all fails for children of one kind. */
  lemma {:induction false} TwinTargetsBothFill(cfg: Config, symbol: string, quantity: real, first: real, second: real,
                                               price: real)
    requires cfg.instant && quantity > 0.0 && Accepts(cfg) && price >= first && price >= second
    ensures var ops := Placements(TwinLegs(symbol, quantity, first, second))
            + [SetPrice(symbol, price, [1, 2, 3], [1, 2, 3])];
            && Proper(cfg, ops) && Flat(Run(cfg, ops).orders) && AreSiblings(Run(cfg, ops).orders, 2, 3)
            && IsFilled(Run(cfg, ops), 2) && IsFilled(Run(cfg, ops), 3)
  {
    var placed, before := TwinsRest(cfg, symbol, quantity, first, second);
    WalkOfThree(before.orders);
    var s, r := PriceRun(cfg, placed, symbol, price, [1, 2, 3]);
    RestingBothFill(cfg, s.orders, s.links, symbol, quantity, first, second, price);
    FlatTriple(s.orders, r.orders);
  }
}
