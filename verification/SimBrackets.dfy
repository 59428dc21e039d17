/**
 What the simulated broker can and cannot fill: complete fills, two siblings hit by one price, and
 the orders that can never execute.
 */
module SimBrackets {
  import opened Wrappers
  import opened SimModel
  import opened SimEffects
  import opened SimPrices
  import opened SimLifecycle
  import opened SimTheorems

  // ---------------------------------------------------------------- complete fills

  ghost predicate FilledInFull(orders: map<int, Order>) {
    forall id | id in orders && orders[id].status.Filled? :: orders[id].filledQty == orders[id].quantity
  }

  /** Quantity is kept, and an order that becomes Filled is filled for all of it. */
  ghost predicate Completes(o: Order, o': Order) {
    && o'.quantity == o.quantity
    && (o.status.Filled? ==> o'.status.Filled? && o'.filledQty == o.filledQty)
    && (o'.status.Filled? && !o.status.Filled? ==> o'.filledQty == o'.quantity)
  }

  ghost predicate AllComplete(orders: map<int, Order>, orders': map<int, Order>) {
    forall id | id in orders :: id in orders' && Completes(orders[id], orders'[id])
  }

  lemma {:induction false} CompleteTransitive(a: map<int, Order>, b: map<int, Order>, c: map<int, Order>)
    requires AllComplete(a, b) && AllComplete(b, c)
    ensures AllComplete(a, c)
  {
    forall id | id in a ensures id in c && Completes(a[id], c[id]) {
      assert Completes(a[id], b[id]) && Completes(b[id], c[id]);
    }
  }

  lemma {:induction false} StagesComplete(cfg: Config, orders: map<int, Order>, links: map<int, seq<int>>,
                                          done: set<int>, symbol: string, price: real)
    ensures AllComplete(orders, LimitStage(orders, symbol, price))
    ensures AllComplete(orders, StopStage(cfg, orders, symbol, price))
    ensures AllComplete(orders, OcaStage(orders, links, done))
  {
  }

  lemma {:induction false} PriceCompletes(cfg: Config, orders: map<int, Order>, links: map<int, seq<int>>,
                                          symbol: string, price: real)
    ensures AllComplete(orders, PriceMove(cfg, orders, links, symbol, price))
  {
    var limits, mid := LimitStage(orders, symbol, price), AfterLimits(orders, links, symbol, price);
    var stops, r := StopStage(cfg, mid, symbol, price), PriceMove(cfg, orders, links, symbol, price);
    StagesComplete(cfg, orders, links, {}, symbol, price);
    StagesComplete(cfg, limits, links, LimitDone(orders, symbol, price), symbol, price);
    StagesComplete(cfg, mid, links, {}, symbol, price);
    StagesComplete(cfg, stops, links, StopDone(cfg, mid, symbol, price), symbol, price);
    CompleteTransitive(orders, limits, mid);
    CompleteTransitive(orders, mid, stops);
    CompleteTransitive(orders, stops, r);
  }

  lemma {:induction false} ActivateCompletes(cfg: Config, s: State, parent: int)
    requires Settled(s) && FilledInFull(s.orders)
    ensures FilledInFull(ActivateBracket(cfg, s, parent).orders)
  {
    if parent in s.orders && s.orders[parent].status.Held? {
      ActivateEffect(cfg, s, parent);
      var r := ActivateBracket(cfg, s, parent);
      forall id | id in r.orders && r.orders[id].status.Filled?
        ensures r.orders[id].filledQty == r.orders[id].quantity
      {
        if id != parent { assert r.orders[id] == s.orders[id]; }
      }
    }
  }

  lemma {:induction false} PlaceCompletes(cfg: Config, s: State, spec: Spec, rejected: bool)
    requires Settled(s) && spec.id !in s.orders && FilledInFull(s.orders)
    ensures FilledInFull(PlaceNew(cfg, s, spec, rejected).orders)
  {
    EnterAdvances(s, spec, rejected);
    ActivateCompletes(cfg, Enter(s, spec, rejected), Root(spec));
  }

  /** The one operation that can break `filled == quantity`: changing a filled order's quantity. */
  ghost predicate Resizes(s: State, op: Op) {
    op.Modify? && IsFilled(s, op.target) && op.change.quantity.Some?
    && op.change.quantity.value != s.orders[op.target].quantity
  }

  lemma {:induction false} PriceStepCompletes(cfg: Config, s: State, symbol: string, price: real, v1: seq<int>,
                                              v2: seq<int>)
    requires Settled(s) && Enumerates(v1, s.orders) && Enumerates(v2, s.orders) && FilledInFull(s.orders)
    ensures FilledInFull(SetMarketPrice(cfg, s, symbol, price, v1, v2).orders)
  {
    PriceMoveIsSimultaneous(cfg, s, symbol, price, v1, v2);
    PriceCompletes(cfg, s.orders, s.links, symbol, price);
  }

  lemma {:induction false} RepriceCompletes(s: State, spec: Spec)
    requires FilledInFull(s.orders) && spec.id in s.orders
    ensures FilledInFull(Reprice(s, spec).orders)
  {
  }

  lemma {:induction false} CancelCompletes(s: State, id: int)
    requires FilledInFull(s.orders)
    ensures FilledInFull(CancelOrder(s, id).orders)
  {
    CancelOrderEffect(s, id);
  }

  lemma {:induction false} StepCompletes(cfg: Config, s: State, op: Op)
    requires Settled(s) && Walks(s, op) && FilledInFull(s.orders) && !op.Modify?
    ensures FilledInFull(Step(cfg, s, op).orders)
  {
    match op
    case NextId =>
    case Place(spec) =>
      if spec.id in s.orders {
        RepriceCompletes(s, spec);
      } else {
        PlaceCompletes(cfg, s, spec, ShouldReject(cfg, s.orderCount + 1));
      }
    case Cancel(id) => CancelCompletes(s, id);
    case SetPrice(symbol, price, v1, v2) => PriceStepCompletes(cfg, s, symbol, price, v1, v2);
  }

  /** Fills are for the whole quantity, and stay so exactly unless a filled order is resized. */
  lemma {:induction false} StepCompletesIff(cfg: Config, s: State, op: Op)
    requires Settled(s) && Walks(s, op) && FilledInFull(s.orders)
    ensures FilledInFull(Step(cfg, s, op).orders) <==> !Resizes(s, op)
  {
    if op.Modify? {
      var r := ModifyOrder(s, op.target, op.change);
      if Resizes(s, op) {
        assert IsFilled(r, op.target) && r.orders[op.target].filledQty != r.orders[op.target].quantity;
      } else {
        forall id | id in r.orders && r.orders[id].status.Filled?
          ensures r.orders[id].filledQty == r.orders[id].quantity
        {
          assert s.orders[id].filledQty == s.orders[id].quantity;
        }
      }
    } else {
      StepCompletes(cfg, s, op);
    }
  }

  /** No operation of the run changes the quantity of an order that is filled by then. */
  ghost predicate NeverResizes(cfg: Config, ops: seq<Op>) {
    forall i | 0 <= i < |ops| :: !Resizes(Run(cfg, ops[..i]), ops[i])
  }

  /**
   In every run that resizes no filled order, each order between public calls has no fill, or is
   Filled for exactly its quantity.
   */
  lemma {:induction false} FillsAreForTheWholeQuantity(cfg: Config, ops: seq<Op>)
    requires Proper(cfg, ops) && NeverResizes(cfg, ops)
    ensures FilledInFull(Run(cfg, ops).orders)
    ensures forall id | id in Run(cfg, ops).orders ::
              var o := Run(cfg, ops).orders[id]; o.filledQty == 0.0 || (o.status.Filled? && o.filledQty == o.quantity)
    decreases |ops|
  {
    FillsAreAllOrNothing(cfg, ops);
    if ops != [] {
      var init, last := ops[..|ops| - 1], ops[|ops| - 1];
      forall i | 0 <= i < |init| ensures !Resizes(Run(cfg, init[..i]), init[i]) { assert init[..i] == ops[..i]; }
      FillsAreForTheWholeQuantity(cfg, init);
      FillsAreAllOrNothing(cfg, init);
      assert ops[..|ops| - 1] == init;
      StepCompletesIff(cfg, Run(cfg, init), last);
    }
    forall id | id in Run(cfg, ops).orders
      ensures var o := Run(cfg, ops).orders[id]; o.filledQty == 0.0 || (o.status.Filled? && o.filledQty == o.quantity)
    {
      assert SettledOrder(Run(cfg, ops).orders[id], id);
    }
  }

  // ---------------------------------------------------------------- two siblings and one price

  ghost predicate LimitFires(o: Order, symbol: string, price: real) {
    LimitHit(o, symbol, price) && o.Remaining() > 0.0
  }

  ghost predicate StopFires(cfg: Config, o: Order, symbol: string, price: real) {
    StopHit(o, symbol, price) && StopExecution(cfg, o, price).Some? && o.Remaining() > 0.0
  }

  lemma {:induction false} FilledByPrice(cfg: Config, orders: map<int, Order>, links: map<int, seq<int>>,
                                         symbol: string, price: real, a: int)
    requires a in orders && !orders[a].status.Filled?
    ensures var mid, r := AfterLimits(orders, links, symbol, price), PriceMove(cfg, orders, links, symbol, price);
            && (mid[a].status.Filled? <==> LimitFires(orders[a], symbol, price))
            && (r[a].status.Filled? <==> mid[a].status.Filled? || StopFires(cfg, mid[a], symbol, price))
  {
  }

  /** No sibling of `a` is a resting limit that the price reaches. */
  ghost predicate Spared(orders: map<int, Order>, links: map<int, seq<int>>, symbol: string, price: real, a: int) {
    !Doomed(orders, links, LimitDone(orders, symbol, price), a)
  }

  /** A stop fires in the second pass when the table before the call says so and no sibling limit is reached. */
  lemma {:induction false} StopFiresIff(cfg: Config, orders: map<int, Order>, links: map<int, seq<int>>,
                                        symbol: string, price: real, a: int)
    requires a in orders
    ensures StopFires(cfg, AfterLimits(orders, links, symbol, price)[a], symbol, price)
            <==> StopFires(cfg, orders[a], symbol, price) && Spared(orders, links, symbol, price, a)
  {
    forall x ensures Shares(LimitStage(orders, symbol, price), links, x, a) <==> Shares(orders, links, x, a) {}
  }

  /** A reached limit leaves no sibling to be stopped out by the same price. */
  lemma {:induction false} ReachedLimitDooms(orders: map<int, Order>, links: map<int, seq<int>>, symbol: string,
                                             price: real, a: int, b: int)
    requires LinkedTable(orders, links) && AreSiblings(orders, a, b) && LimitFires(orders[a], symbol, price)
    requires !orders[b].status.Rejected?
    ensures !Spared(orders, links, symbol, price, b)
  {
    assert a in LimitDone(orders, symbol, price) && Shares(orders, links, a, b);
  }

  /**
   One price move fills two open siblings exactly when the table before it shows two resting limits
   that it reaches, or two triggered stops that it fires and no sibling limit that it reaches: siblings
   are cancelled only after a pass has filled all it can.
   */
  lemma {:induction false} BothSiblingsFillIff(cfg: Config, orders: map<int, Order>, links: map<int, seq<int>>,
                                               symbol: string, price: real, a: int, b: int)
    requires LinkedTable(orders, links) && AreSiblings(orders, a, b)
    requires !orders[a].status.Filled? && !orders[b].status.Filled?
    ensures var r := PriceMove(cfg, orders, links, symbol, price);
            (r[a].status.Filled? && r[b].status.Filled?)
            <==>
            (|| (LimitFires(orders[a], symbol, price) && LimitFires(orders[b], symbol, price))
             || (&& StopFires(cfg, orders[a], symbol, price) && Spared(orders, links, symbol, price, a)
                 && StopFires(cfg, orders[b], symbol, price) && Spared(orders, links, symbol, price, b)))
  {
    FilledByPrice(cfg, orders, links, symbol, price, a);
    FilledByPrice(cfg, orders, links, symbol, price, b);
    StopFiresIff(cfg, orders, links, symbol, price, a);
    StopFiresIff(cfg, orders, links, symbol, price, b);
    assert AreSiblings(orders, b, a);
    if LimitFires(orders[a], symbol, price) && !orders[b].status.Rejected? {
      ReachedLimitDooms(orders, links, symbol, price, a, b);
    }
    if LimitFires(orders[b], symbol, price) && !orders[a].status.Rejected? {
      ReachedLimitDooms(orders, links, symbol, price, b, a);
    }
  }

  // ---------------------------------------------------------------- what can execute at all

  ghost predicate InstantMarket(cfg: Config, orders: map<int, Order>, id: int) {
    cfg.instant && id in orders && orders[id].orderType.Market?
  }

  /**
   Only instant market orders, limits and bracket stops execute: a stop without a parent never does,
   and neither does a limit child unless its parent is an instant market order.
   */
  ghost predicate Executable(cfg: Config, orders: map<int, Order>, id: int)
    requires id in orders
  {
    var o := orders[id];
    && (o.status.Triggered? ==> o.parentId.Some?)
    && (o.status.Working? && o.orderType.Limit? && o.parentId.Some? ==> InstantMarket(cfg, orders, o.parentId.value))
    && (o.status.Filled? ==>
          if o.parentId.None? then o.orderType.Limit? || InstantMarket(cfg, orders, id)
          else StopKind(o) || (o.orderType.Limit? && InstantMarket(cfg, orders, o.parentId.value)))
  }

  ghost predicate OnlyExecutable(cfg: Config, orders: map<int, Order>) {
    forall id | id in orders :: Executable(cfg, orders, id)
  }

  /** Status changes that start no order and fill none outside the two passes of a price move. */
  ghost predicate Ordinary(o: Order, o': Order) {
    && Advances(o, o')
    && (o'.status.Triggered? ==> o.status.Triggered?)
    && (o'.status.Working? ==> o.status.Working? || (o.status.Triggered? && StopKind(o)))
    && (o'.status.Filled? ==> o.status.Filled? || (o.status.Working? && o.orderType.Limit?)
                              || (o.status.Triggered? && StopKind(o)))
  }

  ghost predicate AllOrdinary(orders: map<int, Order>, orders': map<int, Order>) {
    orders'.Keys == orders.Keys && forall id | id in orders :: Ordinary(orders[id], orders'[id])
  }

  lemma {:induction false} OrdinaryOf(orders: map<int, Order>, orders': map<int, Order>, id: int)
    requires AllOrdinary(orders, orders') && id in orders
    ensures Ordinary(orders[id], orders'[id])
  {
  }

  lemma {:induction false} OrdinaryKeepsExecutable(cfg: Config, orders: map<int, Order>, orders': map<int, Order>)
    requires OnlyExecutable(cfg, orders) && AllOrdinary(orders, orders')
    ensures OnlyExecutable(cfg, orders')
  {
    forall id | id in orders' ensures Executable(cfg, orders', id) {
      assert Executable(cfg, orders, id);
      OrdinaryOf(orders, orders', id);
      if orders[id].parentId.Some? && orders[id].parentId.value in orders {
        OrdinaryOf(orders, orders', orders[id].parentId.value);
      }
    }
  }

  lemma {:induction false} LimitsOrdinary(orders: map<int, Order>, links: map<int, seq<int>>, symbol: string,
                                          price: real)
    ensures AllOrdinary(orders, AfterLimits(orders, links, symbol, price))
  {
  }

  lemma {:induction false} StopsOrdinary(cfg: Config, orders: map<int, Order>, links: map<int, seq<int>>,
                                         symbol: string, price: real)
    ensures AllOrdinary(orders, AfterStops(cfg, orders, links, symbol, price))
  {
  }

  lemma {:induction false} CancelOrdinary(s: State, id: int)
    requires Settled(s)
    ensures AllOrdinary(s.orders, CancelOrder(s, id).orders)
  {
    CancelIsCalm(s, id);
    CancelOrderEffect(s, id);
  }

  /** A child starts Working only under an instant market order that activation has just filled. */
  lemma {:induction false} ActivatedChild(cfg: Config, s: State, parent: int, id: int)
    requires Tree(s.orders, s.links) && parent in s.orders && s.orders[parent].status.Held?
    requires id in s.orders && id != parent
    ensures var r := ActivateBracket(cfg, s, parent);
            && id in r.orders
            && (r.orders[id] == s.orders[id]
                || (s.orders[id].parentId == Some(parent) && !r.orders[id].status.Filled?
                    && (r.orders[id].status.Working? ==> InstantMarket(cfg, s.orders, parent))))
  {
    ActivateEffect(cfg, s, parent);
    ActivateOrder(cfg, s, parent, id);
  }

  lemma {:induction false} ActivatedParent(cfg: Config, s: State, parent: int)
    requires Tree(s.orders, s.links) && parent in s.orders && s.orders[parent].status.Held?
    ensures var r := ActivateBracket(cfg, s, parent);
            && r.orders.Keys == s.orders.Keys && !r.orders[parent].status.Triggered?
            && (r.orders[parent].status.Filled? ==> InstantMarket(cfg, s.orders, parent))
  {
    ActivateEffect(cfg, s, parent);
  }

  lemma {:induction false} ActivateKeepsExecutable(cfg: Config, s: State, parent: int)
    requires Tree(s.orders, s.links) && OnlyExecutable(cfg, s.orders)
    requires parent in s.orders ==> s.orders[parent].parentId.None?
    ensures OnlyExecutable(cfg, ActivateBracket(cfg, s, parent).orders)
  {
    if parent in s.orders && s.orders[parent].status.Held? {
      var r := ActivateBracket(cfg, s, parent);
      ActivatedParent(cfg, s, parent);
      ActivateAdvances(cfg, s, parent);
      forall id | id in r.orders ensures Executable(cfg, r.orders, id) {
        assert Executable(cfg, s.orders, id);
        AdvanceOf(s.orders, r.orders, id);
        if id != parent { ActivatedChild(cfg, s, parent, id); }
        if s.orders[id].parentId.Some? && s.orders[id].parentId.value in s.orders {
          AdvanceOf(s.orders, r.orders, s.orders[id].parentId.value);
        }
      }
    }
  }

  lemma {:induction false} PlaceKeepsExecutable(cfg: Config, s: State, spec: Spec, rejected: bool)
    requires Tree(s.orders, s.links) && OnlyExecutable(cfg, s.orders) && spec.id !in s.orders
    requires Flat(PlaceNew(cfg, s, spec, rejected).orders)
    ensures OnlyExecutable(cfg, PlaceNew(cfg, s, spec, rejected).orders)
  {
    var entered := Enter(s, spec, rejected);
    EnterAdvances(s, spec, rejected);
    EnterKeepsTree(s, spec, rejected);
    forall id | id in entered.orders ensures Executable(cfg, entered.orders, id) {
      if id in s.orders { assert Executable(cfg, s.orders, id); }
    }
    if spec.transmit && !rejected {
      ActivateAdvances(cfg, entered, Root(spec));
      FlatBefore(entered.orders, ActivateBracket(cfg, entered, Root(spec)).orders);
      assert entered.orders[spec.id].parentId == spec.parentId;
      ActivateKeepsExecutable(cfg, entered, Root(spec));
    }
  }

  lemma {:induction false} PriceKeepsExecutable(cfg: Config, orders: map<int, Order>, links: map<int, seq<int>>,
                                                symbol: string, price: real)
    requires OnlyExecutable(cfg, orders)
    ensures OnlyExecutable(cfg, PriceMove(cfg, orders, links, symbol, price))
  {
    var mid := AfterLimits(orders, links, symbol, price);
    LimitsOrdinary(orders, links, symbol, price);
    OrdinaryKeepsExecutable(cfg, orders, mid);
    StopsOrdinary(cfg, mid, links, symbol, price);
    OrdinaryKeepsExecutable(cfg, mid, PriceMove(cfg, orders, links, symbol, price));
  }

  lemma {:induction false} StepKeepsExecutable(cfg: Config, s: State, op: Op)
    requires Tree(s.orders, s.links) && OnlyExecutable(cfg, s.orders)
    requires Walks(s, op) && Flat(Step(cfg, s, op).orders)
    ensures OnlyExecutable(cfg, Step(cfg, s, op).orders)
  {
    match op
    case NextId =>
    case Place(spec) =>
      if spec.id in s.orders {
        RepriceIsCalm(s, spec);
        OrdinaryKeepsExecutable(cfg, s.orders, Reprice(s, spec).orders);
      } else {
        var rejected := PlaceIs(cfg, s, spec);
        PlaceKeepsExecutable(cfg, s, spec, rejected);
      }
    case Cancel(id) =>
      CancelOrdinary(s, id);
      OrdinaryKeepsExecutable(cfg, s.orders, CancelOrder(s, id).orders);
    case Modify(id, change) =>
      ModifyIsCalm(s, id, change);
      OrdinaryKeepsExecutable(cfg, s.orders, ModifyOrder(s, id, change).orders);
    case SetPrice(symbol, price, v1, v2) =>
      PriceMoveIsSimultaneous(cfg, s, symbol, price, v1, v2);
      PriceKeepsExecutable(cfg, s.orders, s.links, symbol, price);
  }

  /** In every run of flat brackets, only executable orders are ever filled. */
  lemma {:induction false} OnlyTheseFill(cfg: Config, ops: seq<Op>)
    requires Proper(cfg, ops) && Flat(Run(cfg, ops).orders)
    ensures OnlyExecutable(cfg, Run(cfg, ops).orders)
    decreases |ops|
  {
    if ops != [] {
      var init := ops[..|ops| - 1];
      FillsAreAllOrNothing(cfg, init);
      StepAdvances(cfg, Run(cfg, init), ops[|ops| - 1]);
      FlatBefore(Run(cfg, init).orders, Run(cfg, ops).orders);
      BracketInvariant(cfg, init);
      OnlyTheseFill(cfg, init);
      StepKeepsExecutable(cfg, Run(cfg, init), ops[|ops| - 1]);
    }
  }

  /** A stop without a parent, in a state in which none has started. */
  ghost predicate StopsIdle(orders: map<int, Order>) {
    forall id | id in orders && StopKind(orders[id]) && orders[id].parentId.None? ::
      !orders[id].status.Triggered? && !orders[id].status.Filled?
  }

  lemma {:induction false} OrdinaryKeepsIdle(orders: map<int, Order>, orders': map<int, Order>)
    requires StopsIdle(orders) && AllOrdinary(orders, orders')
    ensures StopsIdle(orders')
  {
    forall id | id in orders' && StopKind(orders'[id]) && orders'[id].parentId.None?
      ensures !orders'[id].status.Triggered? && !orders'[id].status.Filled?
    {
      OrdinaryOf(orders, orders', id);
    }
  }

  /** The order that activation opens works, or is filled as an instant market order. */
  lemma {:induction false} OpenedRoot(cfg: Config, s: State, parent: int)
    requires Settled(s) && parent in s.orders && s.orders[parent].status.Held?
    ensures var r := ActivateBracket(cfg, s, parent);
            parent in r.orders && !r.orders[parent].status.Triggered?
            && (r.orders[parent].status.Filled? ==> s.orders[parent].orderType.Market?)
  {
    ActivateEffect(cfg, s, parent);
  }

  lemma {:induction false} ActivateKeepsIdle(cfg: Config, s: State, parent: int)
    requires Settled(s) && LinkedTable(s.orders, s.links) && StopsIdle(s.orders)
    ensures StopsIdle(ActivateBracket(cfg, s, parent).orders)
  {
    if parent in s.orders && s.orders[parent].status.Held? {
      var r := ActivateBracket(cfg, s, parent);
      OpenedRoot(cfg, s, parent);
      ActivateAdvances(cfg, s, parent);
      forall id | id in r.orders && StopKind(r.orders[id]) && r.orders[id].parentId.None?
        ensures !r.orders[id].status.Triggered? && !r.orders[id].status.Filled?
      {
        if id in s.orders {
          AdvanceOf(s.orders, r.orders, id);
          if id != parent { ActivateOrder(cfg, s, parent, id); }
        }
      }
    }
  }

  lemma {:induction false} EnterKeepsIdle(s: State, spec: Spec, rejected: bool)
    requires StopsIdle(s.orders) && spec.id !in s.orders
    ensures StopsIdle(Enter(s, spec, rejected).orders)
  {
  }

  lemma {:induction false} PlaceKeepsIdle(cfg: Config, s: State, spec: Spec, rejected: bool)
    requires Settled(s) && LinkedTable(s.orders, s.links) && StopsIdle(s.orders) && spec.id !in s.orders
    ensures StopsIdle(PlaceNew(cfg, s, spec, rejected).orders)
  {
    EnterAdvances(s, spec, rejected);
    EnterKeepsLinks(s, spec, rejected);
    EnterKeepsIdle(s, spec, rejected);
    ActivateKeepsIdle(cfg, Enter(s, spec, rejected), Root(spec));
  }

  lemma {:induction false} RepriceKeepsIdle(s: State, spec: Spec)
    requires StopsIdle(s.orders) && spec.id in s.orders
    ensures StopsIdle(Reprice(s, spec).orders)
  {
  }

  lemma {:induction false} ModifyKeepsIdle(s: State, id: int, change: Change)
    requires StopsIdle(s.orders)
    ensures StopsIdle(ModifyOrder(s, id, change).orders)
  {
  }

  lemma {:induction false} PriceKeepsIdle(cfg: Config, orders: map<int, Order>, links: map<int, seq<int>>,
                                          symbol: string, price: real)
    requires StopsIdle(orders)
    ensures StopsIdle(PriceMove(cfg, orders, links, symbol, price))
  {
    var mid := AfterLimits(orders, links, symbol, price);
    LimitsOrdinary(orders, links, symbol, price);
    OrdinaryKeepsIdle(orders, mid);
    StopsOrdinary(cfg, mid, links, symbol, price);
    OrdinaryKeepsIdle(mid, PriceMove(cfg, orders, links, symbol, price));
  }

  lemma {:induction false} StepKeepsIdle(cfg: Config, s: State, op: Op)
    requires Settled(s) && LinkedTable(s.orders, s.links) && StopsIdle(s.orders) && Walks(s, op)
    ensures StopsIdle(Step(cfg, s, op).orders)
  {
    match op
    case NextId =>
    case Place(spec) =>
      if spec.id in s.orders {
        RepriceKeepsIdle(s, spec);
      } else {
        var rejected := PlaceIs(cfg, s, spec);
        PlaceKeepsIdle(cfg, s, spec, rejected);
      }
    case Cancel(id) =>
      CancelOrdinary(s, id);
      OrdinaryKeepsIdle(s.orders, CancelOrder(s, id).orders);
    case Modify(id, change) => ModifyKeepsIdle(s, id, change);
    case SetPrice(symbol, price, v1, v2) =>
      PriceMoveIsSimultaneous(cfg, s, symbol, price, v1, v2);
      PriceKeepsIdle(cfg, s.orders, s.links, symbol, price);
  }

  lemma {:induction false} StopsStayIdle(cfg: Config, ops: seq<Op>)
    requires Proper(cfg, ops)
    ensures StopsIdle(Run(cfg, ops).orders)
    decreases |ops|
  {
    if ops != [] {
      var init := ops[..|ops| - 1];
      StopsStayIdle(cfg, init);
      FillsAreAllOrNothing(cfg, init);
      LinksAlwaysMatch(cfg, init);
      StepKeepsIdle(cfg, Run(cfg, init), ops[|ops| - 1]);
    }
  }

  /**
   The documented price-triggered fill of a stop does not happen, in any run, for a stop that stands
   alone: without a parent it is never triggered nor filled.
   */
  lemma {:induction false} StandaloneStopNeverFills(cfg: Config, ops: seq<Op>, id: int)
    requires Proper(cfg, ops)
    requires id in Run(cfg, ops).orders && StopKind(Run(cfg, ops).orders[id])
    requires Run(cfg, ops).orders[id].parentId.None?
    ensures !IsFilled(Run(cfg, ops), id) && !Run(cfg, ops).orders[id].status.Triggered?
  {
    StopsStayIdle(cfg, ops);
  }

  /** A take-profit under an entry that is not filled on activation never executes at all. */
  lemma {:induction false} TakeProfitOfRestingEntryNeverFills(cfg: Config, ops: seq<Op>, id: int)
    requires Proper(cfg, ops) && Flat(Run(cfg, ops).orders)
    requires id in Run(cfg, ops).orders && Run(cfg, ops).orders[id].orderType.Limit?
    requires Run(cfg, ops).orders[id].parentId.Some?
    requires !InstantMarket(cfg, Run(cfg, ops).orders, Run(cfg, ops).orders[id].parentId.value)
    ensures !IsFilled(Run(cfg, ops), id) && !Run(cfg, ops).orders[id].status.Working?
  {
    OnlyTheseFill(cfg, ops);
    assert Executable(cfg, Run(cfg, ops).orders, id);
  }
}
