/** The main results about every run of the simulated broker. */
module SimTheorems {
  import opened Wrappers
  import opened Sums
  import opened SimModel
  import opened SimBooks
  import opened SimRuns
  import opened SimEffects
  import opened SimPrices
  import opened SimLifecycle

  // ---------------------------------------------------------------- fills and terminal states

  /** In every reachable state an order is Filled with a positive fill, or has no fill and is not PartiallyFilled. */
  lemma {:induction false} FillsAreAllOrNothing(cfg: Config, ops: seq<Op>)
    requires Proper(cfg, ops)
    ensures Settled(Run(cfg, ops))
    decreases |ops|
  {
    if ops != [] {
      FillsAreAllOrNothing(cfg, ops[..|ops| - 1]);
      StepAdvances(cfg, Run(cfg, ops[..|ops| - 1]), ops[|ops| - 1]);
    }
  }

  lemma {:induction false} AdvanceReflexive(orders: map<int, Order>)
    ensures AllAdvance(orders, orders)
  {
  }

  /** Whatever happens after the first `k` operations, terminal orders stay as they are and nothing is re-held. */
  lemma {:induction false} TerminalStatesAbsorb(cfg: Config, ops: seq<Op>, k: nat)
    requires Proper(cfg, ops) && k <= |ops|
    ensures AllAdvance(Run(cfg, ops[..k]).orders, Run(cfg, ops).orders)
    decreases |ops|
  {
    if k == |ops| {
      assert ops[..k] == ops;
      AdvanceReflexive(Run(cfg, ops).orders);
    } else {
      var init := ops[..|ops| - 1];
      assert init[..k] == ops[..k];
      TerminalStatesAbsorb(cfg, init, k);
      FillsAreAllOrNothing(cfg, init);
      StepAdvances(cfg, Run(cfg, init), ops[|ops| - 1]);
      AdvanceTransitive(Run(cfg, ops[..k]).orders, Run(cfg, init).orders, Run(cfg, ops).orders);
    }
  }

  // ---------------------------------------------------------------- iteration order

  /** Two walks of the hash table lead a price move to the same orders, cash and positions. */
  lemma {:induction false} WalkOrderIsIrrelevant(cfg: Config, ops: seq<Op>, symbol: string, price: real, v1: seq<int>,
                                                 v2: seq<int>, w1: seq<int>, w2: seq<int>)
    requires Proper(cfg, ops)
    requires var s := Run(cfg, ops);
             && Enumerates(v1, s.orders) && Enumerates(v2, s.orders)
             && Enumerates(w1, s.orders) && Enumerates(w2, s.orders)
    ensures var s := Run(cfg, ops);
            var r, r' := SetMarketPrice(cfg, s, symbol, price, v1, v2), SetMarketPrice(cfg, s, symbol, price, w1, w2);
            && r.orders == r'.orders && r.links == r'.links && r.prices == r'.prices && r.cash == r'.cash
            && (forall other :: PositionOf(r.positions, other).quantity == PositionOf(r'.positions, other).quantity)
  {
    var s := Run(cfg, ops);
    FillsAreAllOrNothing(cfg, ops);
    BooksAlwaysBalance(cfg, ops);
    PriceMoveIsSimultaneous(cfg, s, symbol, price, v1, v2);
    PriceMoveIsSimultaneous(cfg, s, symbol, price, w1, w2);
    var r, r' := SetMarketPrice(cfg, s, symbol, price, v1, v2), SetMarketPrice(cfg, s, symbol, price, w1, w2);
    PriceKeepsBooks(cfg, s, symbol, price, v1, v2);
    PriceKeepsBooks(cfg, s, symbol, price, w1, w2);
    TableFixesMoney(cfg, cfg, r, r');
  }

  /** Balanced states with one order table hold the same money. */
  lemma {:induction false} TableFixesMoney(cfg: Config, cfg': Config, r: State, r': State)
    requires TableBooks(cfg, r) && TableBooks(cfg', r') && r.orders == r'.orders
    requires cfg.initialCash == cfg'.initialCash && cfg.Rate() == cfg'.Rate()
    ensures r.cash == r'.cash
    ensures forall symbol :: PositionOf(r.positions, symbol).quantity == PositionOf(r'.positions, symbol).quantity
  {
    SumCongruent(r.orders, OutlayTo(cfg), OutlayTo(cfg'));
    forall symbol ensures PositionOf(r.positions, symbol).quantity == PositionOf(r'.positions, symbol).quantity {
      assert PositionOf(r.positions, symbol).quantity == QuantityFromOrders(r.orders, symbol);
    }
  }

  /**
   Cash and position quantities are functions of the order table: two runs, of whatever operations,
   that end with the same table end with the same money, if they start with it and pay the same rate.
   */
  lemma {:induction false} SameTableSameMoney(cfg: Config, ops: seq<Op>, cfg': Config, ops': seq<Op>)
    requires cfg.initialCash == cfg'.initialCash && cfg.Rate() == cfg'.Rate()
    requires Run(cfg, ops).orders == Run(cfg', ops').orders
    ensures var r, r' := Run(cfg, ops), Run(cfg', ops');
            && r.cash == r'.cash
            && forall symbol :: PositionOf(r.positions, symbol).quantity == PositionOf(r'.positions, symbol).quantity
  {
    BooksAlwaysBalance(cfg, ops);
    BooksAlwaysBalance(cfg', ops');
    TableFixesMoney(cfg, cfg', Run(cfg, ops), Run(cfg', ops'));
  }

  /** In every reachable state the links are exactly the parents of the orders, nested brackets included. */
  lemma {:induction false} LinksAlwaysMatch(cfg: Config, ops: seq<Op>)
    requires Proper(cfg, ops)
    ensures LinkedTable(Run(cfg, ops).orders, Run(cfg, ops).links)
    decreases |ops|
  {
    if ops != [] {
      LinksAlwaysMatch(cfg, ops[..|ops| - 1]);
      FillsAreAllOrNothing(cfg, ops[..|ops| - 1]);
      StepKeepsLinks(cfg, Run(cfg, ops[..|ops| - 1]), ops[|ops| - 1]);
    }
  }

  // ---------------------------------------------------------------- one cancels all

  lemma {:induction false} BracketInvariant(cfg: Config, ops: seq<Op>)
    requires Proper(cfg, ops) && Flat(Run(cfg, ops).orders)
    ensures Tree(Run(cfg, ops).orders, Run(cfg, ops).links)
    decreases |ops|
  {
    if ops != [] {
      var init := ops[..|ops| - 1];
      FillsAreAllOrNothing(cfg, init);
      StepAdvances(cfg, Run(cfg, init), ops[|ops| - 1]);
      FlatBefore(Run(cfg, init).orders, Run(cfg, ops).orders);
      BracketInvariant(cfg, init);
      StepKeepsTree(cfg, Run(cfg, init), ops[|ops| - 1]);
    }
  }

  /**
   Once a child is filled, every sibling is terminal, or is held under a parent that has already
   been activated and so never will be again; and two filled siblings are of one kind.
   */
  lemma {:induction false} FilledChildStandsAlone(cfg: Config, ops: seq<Op>, a: int, b: int)
    requires Proper(cfg, ops) && Flat(Run(cfg, ops).orders)
    requires AreSiblings(Run(cfg, ops).orders, a, b) && IsFilled(Run(cfg, ops), a)
    ensures var orders := Run(cfg, ops).orders; var p := orders[a].parentId.value;
            && (orders[b].status.Terminal() || orders[b].status.Held?)
            && p in orders && !orders[p].status.Held?
            && (orders[b].status.Filled? ==> SameKind(orders[a], orders[b]))
  {
    BracketInvariant(cfg, ops);
  }

  /** At most one limit and at most one stop under each parent. */
  ghost predicate Narrow(orders: map<int, Order>) {
    forall a, b | AreSiblings(orders, a, b) :: !SameKind(orders[a], orders[b])
  }

  /** One-cancels-all: a bracket with one limit and one stop child never has two filled children. */
  lemma {:induction false} OneChildFills(cfg: Config, ops: seq<Op>, a: int, b: int)
    requires Proper(cfg, ops) && Flat(Run(cfg, ops).orders) && Narrow(Run(cfg, ops).orders)
    requires AreSiblings(Run(cfg, ops).orders, a, b)
    ensures !(IsFilled(Run(cfg, ops), a) && IsFilled(Run(cfg, ops), b))
  {
    if IsFilled(Run(cfg, ops), a) && IsFilled(Run(cfg, ops), b) {
      FilledChildStandsAlone(cfg, ops, a, b);
    }
  }
}
