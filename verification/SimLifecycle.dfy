/** How one order may change, the links between orders, and the bracket invariant that every operation keeps. */
module SimLifecycle {
  import opened Wrappers
  import opened SimModel
  import opened SimEffects
  import opened SimPrices

  // ---------------------------------------------------------------- how one order may change

  /** Identity never changes, a terminal order is frozen, and no order goes back to Held. */
  ghost predicate Advances(o: Order, o': Order) {
    && o'.id == o.id && o'.symbol == o.symbol && o'.action == o.action && o'.orderType == o.orderType
    && o'.parentId == o.parentId && o'.transmit == o.transmit
    && (o.status.Terminal() ==>
          o'.status == o.status && o'.filledQty == o.filledQty && o'.avgFillPrice == o.avgFillPrice)
    && (o'.status.Held? ==> o.status.Held?)
  }

  ghost predicate AllAdvance(orders: map<int, Order>, orders': map<int, Order>) {
    forall id | id in orders :: id in orders' && Advances(orders[id], orders'[id])
  }

  lemma {:induction false} AdvanceOf(orders: map<int, Order>, orders': map<int, Order>, id: int)
    requires AllAdvance(orders, orders') && id in orders
    ensures id in orders' && Advances(orders[id], orders'[id])
  {
  }

  lemma {:induction false} AdvanceTransitive(a: map<int, Order>, b: map<int, Order>, c: map<int, Order>)
    requires AllAdvance(a, b) && AllAdvance(b, c)
    ensures AllAdvance(a, c)
  {
    forall id | id in a ensures id in c && Advances(a[id], c[id]) {
      assert Advances(a[id], b[id]) && Advances(b[id], c[id]);
    }
  }

  // ---------------------------------------------------------------- the bracket invariant

  ghost predicate Live(o: Order) { o.status.Working? || o.status.Triggered? || o.status.Filled? }

  ghost predicate StopKind(o: Order) { o.orderType.Stop? || o.orderType.StopLimit? }

  ghost predicate AreSiblings(orders: map<int, Order>, a: int, b: int) {
    a in orders && b in orders && a != b && orders[a].parentId.Some? && orders[b].parentId == orders[a].parentId
  }

  /** A parent has no parent of its own. */
  ghost predicate Flat(orders: map<int, Order>) {
    forall id | id in orders && orders[id].parentId.Some? && orders[id].parentId.value in orders ::
      orders[orders[id].parentId.value].parentId.None?
  }

  ghost predicate LinkedTable(orders: map<int, Order>, links: map<int, seq<int>>) {
    && (forall id | id in orders && orders[id].parentId.Some? && !orders[id].status.Rejected? ::
          orders[id].parentId.value in links && id in links[orders[id].parentId.value])
    && (forall p, c | p in links && c in links[p] :: c in orders && orders[c].parentId == Some(p))
  }

  /** A child leaves Held only once its parent has. */
  ghost predicate Released(orders: map<int, Order>) {
    forall id | id in orders && orders[id].parentId.Some? && Live(orders[id]) ::
      orders[id].parentId.value in orders && !orders[orders[id].parentId.value].status.Held?
  }

  /** Once a child is filled each sibling is terminal, or still Held. */
  ghost predicate FilledAlone(orders: map<int, Order>) {
    forall a, b | AreSiblings(orders, a, b) && orders[a].status.Filled? ::
      orders[b].status.Terminal() || orders[b].status.Held?
  }

  /** Two filled siblings can only be two limits, or two stops, filled by one price move. */
  ghost predicate FilledTwins(orders: map<int, Order>) {
    forall a, b | AreSiblings(orders, a, b) && orders[a].status.Filled? && orders[b].status.Filled? ::
      SameKind(orders[a], orders[b])
  }

  ghost predicate Tree(orders: map<int, Order>, links: map<int, seq<int>>) {
    SettledTable(orders) && LinkedTable(orders, links) && Released(orders) && FilledAlone(orders) && FilledTwins(orders)
  }

  lemma {:induction false} FlatBefore(orders: map<int, Order>, orders': map<int, Order>)
    requires AllAdvance(orders, orders') && Flat(orders')
    ensures Flat(orders)
  {
    forall id | id in orders && orders[id].parentId.Some? && orders[id].parentId.value in orders
      ensures orders[orders[id].parentId.value].parentId.None?
    {
      AdvanceOf(orders, orders', id);
      AdvanceOf(orders, orders', orders[id].parentId.value);
    }
  }

  /** Links and releases survive any advance that adds no order and rejects none. */
  lemma {:induction false} AdvanceKeepsLinks(orders: map<int, Order>, orders': map<int, Order>,
                                             links: map<int, seq<int>>)
    requires LinkedTable(orders, links) && AllAdvance(orders, orders') && orders'.Keys == orders.Keys
    ensures LinkedTable(orders', links)
  {
    forall id | id in orders' && orders'[id].parentId.Some? && !orders'[id].status.Rejected?
      ensures orders'[id].parentId.value in links && id in links[orders'[id].parentId.value]
    {
      assert Advances(orders[id], orders'[id]);
    }
    forall p, c | p in links && c in links[p] ensures c in orders' && orders'[c].parentId == Some(p) {
      assert Advances(orders[c], orders'[c]);
    }
  }

  lemma {:induction false} AdvanceKeepsRelease(orders: map<int, Order>, orders': map<int, Order>)
    requires Released(orders) && AllAdvance(orders, orders')
    requires forall id | id in orders' && Live(orders'[id]) :: id in orders && Live(orders[id])
    ensures Released(orders')
  {
    forall id | id in orders' && orders'[id].parentId.Some? && Live(orders'[id])
      ensures orders'[id].parentId.value in orders' && !orders'[orders'[id].parentId.value].status.Held?
    {
      assert Advances(orders[id], orders'[id]);
      var p := orders[id].parentId.value;
      assert Advances(orders[p], orders'[p]);
    }
  }

  // ---------------------------------------------------------------- price moves

  lemma {:induction false} DoomedSiblings(orders: map<int, Order>, stage: map<int, Order>, links: map<int, seq<int>>,
                                          done: set<int>, a: int, b: int)
    requires LinkedTable(orders, links) && AreSiblings(orders, a, b) && a in done
    requires stage.Keys == orders.Keys && forall id | id in orders :: stage[id].parentId == orders[id].parentId
    ensures orders[b].status.Rejected? || Doomed(stage, links, done, b)
  {
    if !orders[b].status.Rejected? {
      assert Shares(stage, links, a, b);
    }
  }

  ghost predicate SameKind(o: Order, o': Order) {
    (o.orderType.Limit? && o'.orderType.Limit?) || (StopKind(o) && StopKind(o'))
  }

  /** A stage of fills: only the live orders in `done`, all of one kind, may become filled. */
  ghost predicate FillStage(orders: map<int, Order>, stage: map<int, Order>, done: set<int>) {
    && stage.Keys == orders.Keys
    && (forall id | id in orders :: FillsOrder(orders[id], stage[id], id in done))
    && (forall a, b | a in done && b in done && a in orders && b in orders :: SameKind(orders[a], orders[b]))
  }

  ghost predicate FillsOrder(o: Order, o': Order, done: bool) {
    && Advances(o, o')
    && (o.status.Held? ==> o'.status.Held?)
    && (Live(o') ==> Live(o))
    && (done ==> !o.status.Terminal() && !o.status.Held?)
    && (o'.status.Filled? ==> done || o.status.Filled?)
  }

  /** After the cancels that follow a stage, a filled child again has no live sibling. */
  lemma {:induction false} PairAfterOca(orders: map<int, Order>, stage: map<int, Order>, links: map<int, seq<int>>,
                                        done: set<int>, a: int, b: int)
    requires LinkedTable(orders, links) && FilledAlone(orders) && FilledTwins(orders)
    requires FillStage(orders, stage, done) && AreSiblings(orders, a, b)
    requires OcaStage(stage, links, done)[a].status.Filled?
    ensures var o := OcaStage(stage, links, done)[b]; o.status.Terminal() || o.status.Held?
    ensures OcaStage(stage, links, done)[b].status.Filled? ==> SameKind(orders[a], orders[b])
  {
    assert AreSiblings(orders, b, a);
    assert FillsOrder(orders[a], stage[a], a in done) && FillsOrder(orders[b], stage[b], b in done);
    assert stage[a].status.Filled?;
    if a in done {
      forall id | id in orders ensures stage[id].parentId == orders[id].parentId {
        assert FillsOrder(orders[id], stage[id], id in done);
      }
      DoomedSiblings(orders, stage, links, done, a, b);
    }
  }

  lemma {:induction false} OcaAdvances(orders: map<int, Order>, links: map<int, seq<int>>, done: set<int>)
    ensures AllAdvance(orders, OcaStage(orders, links, done))
    ensures forall id | id in orders && Live(OcaStage(orders, links, done)[id]) :: Live(orders[id])
  {
  }

  lemma {:induction false} StageAdvances(orders: map<int, Order>, stage: map<int, Order>, links: map<int, seq<int>>,
                                         done: set<int>)
    requires FillStage(orders, stage, done)
    ensures AllAdvance(orders, OcaStage(stage, links, done))
    ensures forall id | id in orders && Live(OcaStage(stage, links, done)[id]) :: Live(orders[id])
  {
    OcaAdvances(stage, links, done);
    forall id | id in orders ensures Advances(orders[id], stage[id]) && (Live(stage[id]) ==> Live(orders[id])) {
      assert FillsOrder(orders[id], stage[id], id in done);
    }
    AdvanceTransitive(orders, stage, OcaStage(stage, links, done));
  }

  lemma {:induction false} StageKeepsTree(orders: map<int, Order>, stage: map<int, Order>, links: map<int, seq<int>>,
                                          done: set<int>)
    requires Tree(orders, links) && FillStage(orders, stage, done) && SettledTable(stage)
    ensures Tree(OcaStage(stage, links, done), links)
  {
    var r := OcaStage(stage, links, done);
    OcaSettles(stage, links, done);
    StageAdvances(orders, stage, links, done);
    AdvanceKeepsLinks(orders, r, links);
    AdvanceKeepsRelease(orders, r);
    forall a, b | AreSiblings(r, a, b) && r[a].status.Filled?
      ensures r[b].status.Terminal() || r[b].status.Held?
      ensures r[b].status.Filled? ==> SameKind(r[a], r[b])
    {
      assert Advances(orders[a], r[a]) && Advances(orders[b], r[b]);
      PairAfterOca(orders, stage, links, done, a, b);
    }
  }

  lemma {:induction false} LimitsAreStage(orders: map<int, Order>, symbol: string, price: real)
    ensures FillStage(orders, LimitStage(orders, symbol, price), LimitDone(orders, symbol, price))
  {
    var stage, done := LimitStage(orders, symbol, price), LimitDone(orders, symbol, price);
    forall id | id in orders ensures FillsOrder(orders[id], stage[id], id in done) {}
  }

  lemma {:induction false} StopsAreStage(cfg: Config, orders: map<int, Order>, symbol: string, price: real)
    ensures FillStage(orders, StopStage(cfg, orders, symbol, price), StopDone(cfg, orders, symbol, price))
  {
    var stage, done := StopStage(cfg, orders, symbol, price), StopDone(cfg, orders, symbol, price);
    forall id | id in orders ensures FillsOrder(orders[id], stage[id], id in done) {}
  }

  lemma {:induction false} LimitsKeepTree(orders: map<int, Order>, links: map<int, seq<int>>, symbol: string,
                                          price: real)
    requires Tree(orders, links)
    ensures Tree(AfterLimits(orders, links, symbol, price), links)
    ensures AllAdvance(orders, AfterLimits(orders, links, symbol, price))
  {
    LimitsAreStage(orders, symbol, price);
    LimitSettles(orders, symbol, price);
    StageAdvances(orders, LimitStage(orders, symbol, price), links, LimitDone(orders, symbol, price));
    StageKeepsTree(orders, LimitStage(orders, symbol, price), links, LimitDone(orders, symbol, price));
  }

  lemma {:induction false} StopsKeepTree(cfg: Config, orders: map<int, Order>, links: map<int, seq<int>>,
                                         symbol: string, price: real)
    requires Tree(orders, links)
    ensures Tree(AfterStops(cfg, orders, links, symbol, price), links)
    ensures AllAdvance(orders, AfterStops(cfg, orders, links, symbol, price))
  {
    StopsAreStage(cfg, orders, symbol, price);
    StopSettles(cfg, orders, symbol, price);
    StageAdvances(orders, StopStage(cfg, orders, symbol, price), links, StopDone(cfg, orders, symbol, price));
    StageKeepsTree(orders, StopStage(cfg, orders, symbol, price), links, StopDone(cfg, orders, symbol, price));
  }

  // ---------------------------------------------------------------- activation

  lemma {:induction false} OpenedAdvances(cfg: Config, s: State, id: int)
    requires Settled(s) && id in s.orders && s.orders[id].status.Held?
    ensures var o := OpenedParent(cfg, s, s.orders[id]); Advances(s.orders[id], o) && SettledOrder(o, id)
  {
    assert SettledOrder(s.orders[id], id);
  }

  lemma {:induction false} ActivateAdvances(cfg: Config, s: State, parent: int)
    requires Settled(s)
    ensures var r := ActivateBracket(cfg, s, parent);
            AllAdvance(s.orders, r.orders) && Settled(r) && SameFrame(s, r)
  {
    if parent in s.orders && s.orders[parent].status.Held? {
      ActivateEffect(cfg, s, parent);
      var r := ActivateBracket(cfg, s, parent);
      forall id | id in s.orders ensures Advances(s.orders[id], r.orders[id]) && SettledOrder(r.orders[id], id) {
        assert SettledOrder(s.orders[id], id);
        if id == parent { OpenedAdvances(cfg, s, id); }
      }
    }
  }

  /** Activation makes no child Filled, and starts children only of the parent it opens. */
  lemma {:induction false} ActivateOrder(cfg: Config, s: State, parent: int, id: int)
    requires Settled(s) && parent in s.orders && s.orders[parent].status.Held?
    requires LinkedTable(s.orders, s.links) && id in s.orders && id != parent
    ensures var r := ActivateBracket(cfg, s, parent);
            && r.orders.Keys == s.orders.Keys && !r.orders[parent].status.Held?
            && var o, o' := s.orders[id], r.orders[id];
            o' == o || (o.status.Held? && (o'.status.Working? || o'.status.Triggered?) && o.parentId == Some(parent))
  {
    ActivateEffect(cfg, s, parent);
  }

  lemma {:induction false} ActivateReleases(cfg: Config, s: State, parent: int)
    requires Tree(s.orders, s.links) && parent in s.orders && s.orders[parent].status.Held?
    requires s.orders[parent].parentId.None?
    ensures Released(ActivateBracket(cfg, s, parent).orders)
  {
    var r := ActivateBracket(cfg, s, parent);
    ActivateAdvances(cfg, s, parent);
    forall id | id in r.orders && r.orders[id].parentId.Some? && Live(r.orders[id])
      ensures r.orders[id].parentId.value in r.orders && !r.orders[r.orders[id].parentId.value].status.Held?
    {
      AdvanceOf(s.orders, r.orders, id);
      ActivateOrder(cfg, s, parent, id);
      if r.orders[id] == s.orders[id] {
        AdvanceOf(s.orders, r.orders, s.orders[id].parentId.value);
      }
    }
  }

  lemma {:induction false} ActivateKeepsPairs(cfg: Config, s: State, parent: int, a: int, b: int)
    requires Tree(s.orders, s.links) && parent in s.orders && s.orders[parent].status.Held?
    requires s.orders[parent].parentId.None?
    requires AreSiblings(s.orders, a, b) && IsFilled(ActivateBracket(cfg, s, parent), a)
    ensures s.orders[a].status.Filled?
    ensures var r := ActivateBracket(cfg, s, parent); b in r.orders && r.orders[b] == s.orders[b]
  {
    ActivateOrder(cfg, s, parent, a);
    ActivateOrder(cfg, s, parent, b);
  }

  lemma {:induction false} ActivateKeepsTree(cfg: Config, s: State, parent: int)
    requires Tree(s.orders, s.links)
    requires parent in s.orders ==> s.orders[parent].parentId.None?
    ensures var r := ActivateBracket(cfg, s, parent); Tree(r.orders, r.links)
  {
    if parent in s.orders && s.orders[parent].status.Held? {
      var r := ActivateBracket(cfg, s, parent);
      ActivateAdvances(cfg, s, parent);
      AdvanceKeepsLinks(s.orders, r.orders, s.links);
      ActivateReleases(cfg, s, parent);
      forall a, b | AreSiblings(r.orders, a, b) && r.orders[a].status.Filled?
        ensures r.orders[b].status.Terminal() || r.orders[b].status.Held?
        ensures r.orders[b].status.Filled? ==> SameKind(r.orders[a], r.orders[b])
      {
        AdvanceOf(s.orders, r.orders, a);
        AdvanceOf(s.orders, r.orders, b);
        ActivateKeepsPairs(cfg, s, parent, a, b);
      }
    }
  }

  // ---------------------------------------------------------------- the other operations

  lemma {:induction false} EnterAdvances(s: State, spec: Spec, rejected: bool)
    requires Settled(s) && spec.id !in s.orders
    ensures AllAdvance(s.orders, Enter(s, spec, rejected).orders) && Settled(Enter(s, spec, rejected))
  {
  }

  lemma {:induction false} EnterKeepsLinks(s: State, spec: Spec, rejected: bool)
    requires LinkedTable(s.orders, s.links) && spec.id !in s.orders
    ensures var r := Enter(s, spec, rejected); LinkedTable(r.orders, r.links)
  {
  }

  /** A new order that is Held or Rejected releases nobody and is nobody's filled sibling. */
  lemma {:induction false} NewcomerKeepsRest(orders: map<int, Order>, spec: Spec, status: Status)
    requires spec.id !in orders && (status.Held? || status.Rejected?)
    requires Released(orders) && FilledAlone(orders) && FilledTwins(orders)
    ensures var r := orders[spec.id := NewOrder(spec, status)]; Released(r) && FilledAlone(r) && FilledTwins(r)
  {
    var r := orders[spec.id := NewOrder(spec, status)];
    forall a, b | AreSiblings(r, a, b) && r[a].status.Filled?
      ensures r[b].status.Terminal() || r[b].status.Held?
      ensures r[b].status.Filled? ==> SameKind(r[a], r[b])
    {
      if b in orders { assert AreSiblings(orders, a, b); }
    }
  }

  lemma {:induction false} EnterKeepsTree(s: State, spec: Spec, rejected: bool)
    requires Tree(s.orders, s.links) && spec.id !in s.orders
    ensures var r := Enter(s, spec, rejected); Tree(r.orders, r.links)
  {
    EnterAdvances(s, spec, rejected);
    EnterKeepsLinks(s, spec, rejected);
    NewcomerKeepsRest(s.orders, spec, if rejected then Status.Rejected else Status.Held);
  }

  /** A change of prices, quantity or time in force, or cancels: no order becomes live or filled. */
  ghost predicate Calm(o: Order, o': Order) {
    && Advances(o, o') && (Live(o') ==> o'.status == o.status) && (o'.filledQty == o.filledQty)
    && !o'.status.PartiallyFilled? && (o.status.Held? || o'.status == o.status || o'.status.Terminal())
    && (o.status.Held? ==> o'.status.Held? || o'.status.Terminal())
  }

  lemma {:induction false} CalmKeepsTree(orders: map<int, Order>, orders': map<int, Order>, links: map<int, seq<int>>)
    requires Tree(orders, links) && orders'.Keys == orders.Keys
    requires forall id | id in orders ::
               Calm(orders[id], orders'[id]) && (orders[id].status.Filled? <==> orders'[id].status.Filled?)
    ensures Tree(orders', links) && AllAdvance(orders, orders')
  {
    assert AllAdvance(orders, orders');
    AdvanceKeepsLinks(orders, orders', links);
    AdvanceKeepsRelease(orders, orders');
    forall id | id in orders' ensures SettledOrder(orders'[id], id) {
      assert SettledOrder(orders[id], id) && Calm(orders[id], orders'[id]);
    }
    forall a, b | AreSiblings(orders', a, b) && orders'[a].status.Filled?
      ensures orders'[b].status.Terminal() || orders'[b].status.Held?
      ensures orders'[b].status.Filled? ==> SameKind(orders'[a], orders'[b])
    {
      assert Calm(orders[a], orders'[a]) && Calm(orders[b], orders'[b]);
      assert AreSiblings(orders, a, b);
    }
  }

  lemma {:induction false} CancelIsCalm(s: State, id: int)
    requires Settled(s)
    ensures var r := CancelOrder(s, id);
            && SameFrame(s, r)
            && forall i | i in s.orders :: Calm(s.orders[i], r.orders[i])
                 && (s.orders[i].status.Filled? <==> r.orders[i].status.Filled?)
  {
    CancelOrderEffect(s, id);
    forall i | i in s.orders
      ensures Calm(s.orders[i], CancelOrder(s, id).orders[i])
      ensures s.orders[i].status.Filled? <==> CancelOrder(s, id).orders[i].status.Filled?
    {
      assert SettledOrder(s.orders[i], i);
    }
  }

  lemma {:induction false} RepriceKeepsTree(s: State, spec: Spec)
    requires Tree(s.orders, s.links) && spec.id in s.orders
    ensures var r := Reprice(s, spec); Tree(r.orders, r.links) && AllAdvance(s.orders, r.orders)
  {
    RepriceIsCalm(s, spec);
    CalmKeepsTree(s.orders, Reprice(s, spec).orders, s.links);
  }

  lemma {:induction false} PlaceKeepsTree(cfg: Config, s: State, spec: Spec)
    requires Tree(s.orders, s.links) && Flat(PlaceOrder(cfg, s, spec).orders)
    ensures var r := PlaceOrder(cfg, s, spec); Tree(r.orders, r.links) && AllAdvance(s.orders, r.orders)
  {
    if spec.id in s.orders {
      RepriceKeepsTree(s, spec);
    } else {
      var rejected := PlaceIs(cfg, s, spec);
      PlaceNewKeepsTree(cfg, s, spec, rejected);
    }
  }

  lemma {:induction false} RepriceIsCalm(s: State, spec: Spec)
    requires Settled(s) && spec.id in s.orders
    ensures var r := Reprice(s, spec);
            && SameFrame(s, r)
            && forall i | i in s.orders :: Calm(s.orders[i], r.orders[i])
                 && (s.orders[i].status.Filled? <==> r.orders[i].status.Filled?)
  {
    forall i | i in s.orders ensures Calm(s.orders[i], Reprice(s, spec).orders[i]) {
      assert SettledOrder(s.orders[i], i);
    }
  }

  lemma {:induction false} ModifyIsCalm(s: State, id: int, change: Change)
    requires Settled(s)
    ensures var r := ModifyOrder(s, id, change);
            && SameFrame(s, r)
            && forall i | i in s.orders :: Calm(s.orders[i], r.orders[i])
                 && (s.orders[i].status.Filled? <==> r.orders[i].status.Filled?)
  {
    forall i | i in s.orders ensures Calm(s.orders[i], ModifyOrder(s, id, change).orders[i]) {
      assert SettledOrder(s.orders[i], i);
    }
  }

  lemma {:induction false} PlaceNewKeepsTree(cfg: Config, s: State, spec: Spec, rejected: bool)
    requires Tree(s.orders, s.links) && spec.id !in s.orders
    requires Flat(PlaceNew(cfg, s, spec, rejected).orders)
    ensures var r := PlaceNew(cfg, s, spec, rejected); Tree(r.orders, r.links) && AllAdvance(s.orders, r.orders)
  {
    var entered := Enter(s, spec, rejected);
    EnterAdvances(s, spec, rejected);
    EnterKeepsTree(s, spec, rejected);
    if spec.transmit && !rejected {
      var r := ActivateBracket(cfg, entered, Root(spec));
      ActivateAdvances(cfg, entered, Root(spec));
      FlatBefore(entered.orders, r.orders);
      assert entered.orders[spec.id].parentId == spec.parentId;
      ActivateKeepsTree(cfg, entered, Root(spec));
      AdvanceTransitive(s.orders, entered.orders, r.orders);
    }
  }

  // ---------------------------------------------------------------- one step

  lemma {:induction false} PlaceAdvances(cfg: Config, s: State, spec: Spec, rejected: bool)
    requires Settled(s) && spec.id !in s.orders
    ensures var r := PlaceNew(cfg, s, spec, rejected); AllAdvance(s.orders, r.orders) && Settled(r)
  {
    var entered := Enter(s, spec, rejected);
    EnterAdvances(s, spec, rejected);
    if spec.transmit && !rejected {
      ActivateAdvances(cfg, entered, Root(spec));
      AdvanceTransitive(s.orders, entered.orders, ActivateBracket(cfg, entered, Root(spec)).orders);
    }
  }

  lemma {:induction false} CalmSettles(orders: map<int, Order>, orders': map<int, Order>)
    requires SettledTable(orders) && orders'.Keys == orders.Keys
    requires forall id | id in orders ::
               Calm(orders[id], orders'[id]) && (orders[id].status.Filled? <==> orders'[id].status.Filled?)
    ensures SettledTable(orders') && AllAdvance(orders, orders')
  {
    forall id | id in orders' ensures SettledOrder(orders'[id], id) {
      assert SettledOrder(orders[id], id) && Calm(orders[id], orders'[id]);
    }
  }

  lemma {:induction false} PriceAdvances(cfg: Config, orders: map<int, Order>, links: map<int, seq<int>>,
                                         symbol: string, price: real)
    ensures AllAdvance(orders, PriceMove(cfg, orders, links, symbol, price))
  {
    var limited := AfterLimits(orders, links, symbol, price);
    LimitsAreStage(orders, symbol, price);
    StageAdvances(orders, LimitStage(orders, symbol, price), links, LimitDone(orders, symbol, price));
    StopsAreStage(cfg, limited, symbol, price);
    StageAdvances(limited, StopStage(cfg, limited, symbol, price), links, StopDone(cfg, limited, symbol, price));
    AdvanceTransitive(orders, limited, PriceMove(cfg, orders, links, symbol, price));
  }

  /** Every public operation advances every order and leaves the table settled. */
  lemma {:induction false} StepAdvances(cfg: Config, s: State, op: Op)
    requires Settled(s) && Walks(s, op)
    ensures var r := Step(cfg, s, op); Settled(r) && AllAdvance(s.orders, r.orders)
  {
    match op
    case NextId =>
    case Place(spec) =>
      if spec.id in s.orders {
        RepriceIsCalm(s, spec);
        CalmSettles(s.orders, Reprice(s, spec).orders);
      } else {
        PlaceAdvances(cfg, s, spec, ShouldReject(cfg, s.orderCount + 1));
      }
    case Cancel(id) =>
      CancelIsCalm(s, id);
      CalmSettles(s.orders, CancelOrder(s, id).orders);
    case Modify(id, change) =>
      ModifyIsCalm(s, id, change);
      CalmSettles(s.orders, ModifyOrder(s, id, change).orders);
    case SetPrice(symbol, price, v1, v2) =>
      PriceMoveIsSimultaneous(cfg, s, symbol, price, v1, v2);
      PriceAdvances(cfg, s.orders, s.links, symbol, price);
  }

  lemma {:induction false} PlaceKeepsLinks(cfg: Config, s: State, spec: Spec, rejected: bool)
    requires Settled(s) && LinkedTable(s.orders, s.links) && spec.id !in s.orders
    ensures var r := PlaceNew(cfg, s, spec, rejected); LinkedTable(r.orders, r.links)
  {
    var entered := Enter(s, spec, rejected);
    EnterAdvances(s, spec, rejected);
    EnterKeepsLinks(s, spec, rejected);
    if spec.transmit && !rejected && Root(spec) in entered.orders && entered.orders[Root(spec)].status.Held? {
      ActivateAdvances(cfg, entered, Root(spec));
      ActivateEffect(cfg, entered, Root(spec));
      AdvanceKeepsLinks(entered.orders, ActivateBracket(cfg, entered, Root(spec)).orders, entered.links);
    }
  }

  lemma {:induction false} PlaceOrderKeepsLinks(cfg: Config, s: State, spec: Spec)
    requires Settled(s) && LinkedTable(s.orders, s.links)
    ensures var r := PlaceOrder(cfg, s, spec); LinkedTable(r.orders, r.links)
  {
    if spec.id in s.orders {
      RepriceIsCalm(s, spec);
      CalmSettles(s.orders, Reprice(s, spec).orders);
      AdvanceKeepsLinks(s.orders, Reprice(s, spec).orders, s.links);
    } else {
      var rejected := PlaceIs(cfg, s, spec);
      PlaceKeepsLinks(cfg, s, spec, rejected);
    }
  }

  lemma {:induction false} CancelKeepsLinks(s: State, id: int)
    requires Settled(s) && LinkedTable(s.orders, s.links)
    ensures var r := CancelOrder(s, id); LinkedTable(r.orders, r.links)
  {
    CancelIsCalm(s, id);
    CalmSettles(s.orders, CancelOrder(s, id).orders);
    AdvanceKeepsLinks(s.orders, CancelOrder(s, id).orders, s.links);
  }

  lemma {:induction false} ModifyKeepsLinks(s: State, id: int, change: Change)
    requires Settled(s) && LinkedTable(s.orders, s.links)
    ensures var r := ModifyOrder(s, id, change); LinkedTable(r.orders, r.links)
  {
    ModifyIsCalm(s, id, change);
    CalmSettles(s.orders, ModifyOrder(s, id, change).orders);
    AdvanceKeepsLinks(s.orders, ModifyOrder(s, id, change).orders, s.links);
  }

  lemma {:induction false} PriceKeepsLinks(cfg: Config, s: State, symbol: string, price: real, v1: seq<int>,
                                           v2: seq<int>)
    requires Settled(s) && LinkedTable(s.orders, s.links) && Enumerates(v1, s.orders) && Enumerates(v2, s.orders)
    ensures var r := SetMarketPrice(cfg, s, symbol, price, v1, v2); LinkedTable(r.orders, r.links)
  {
    PriceMoveIsSimultaneous(cfg, s, symbol, price, v1, v2);
    PriceAdvances(cfg, s.orders, s.links, symbol, price);
    AdvanceKeepsLinks(s.orders, PriceMove(cfg, s.orders, s.links, symbol, price), s.links);
  }

  /** Links and parents agree after every public operation, nested brackets included. */
  lemma {:induction false} StepKeepsLinks(cfg: Config, s: State, op: Op)
    requires Settled(s) && LinkedTable(s.orders, s.links) && Walks(s, op)
    ensures var r := Step(cfg, s, op); LinkedTable(r.orders, r.links)
  {
    match op
    case NextId =>
    case Place(spec) => PlaceOrderKeepsLinks(cfg, s, spec);
    case Cancel(id) => CancelKeepsLinks(s, id);
    case Modify(id, change) => ModifyKeepsLinks(s, id, change);
    case SetPrice(symbol, price, v1, v2) => PriceKeepsLinks(cfg, s, symbol, price, v1, v2);
  }

  /** In flat brackets every public operation keeps the bracket invariant. */
  lemma {:induction false} StepKeepsTree(cfg: Config, s: State, op: Op)
    requires Tree(s.orders, s.links) && Walks(s, op) && Flat(Step(cfg, s, op).orders)
    ensures var r := Step(cfg, s, op); Tree(r.orders, r.links)
  {
    match op
    case NextId =>
    case Place(spec) => PlaceKeepsTree(cfg, s, spec);
    case Cancel(id) =>
      CancelIsCalm(s, id);
      CalmKeepsTree(s.orders, CancelOrder(s, id).orders, s.links);
    case Modify(id, change) =>
      ModifyIsCalm(s, id, change);
      CalmKeepsTree(s.orders, ModifyOrder(s, id, change).orders, s.links);
    case SetPrice(symbol, price, v1, v2) =>
      PriceMoveIsSimultaneous(cfg, s, symbol, price, v1, v2);
      LimitsKeepTree(s.orders, s.links, symbol, price);
      StopsKeepTree(cfg, AfterLimits(s.orders, s.links, symbol, price), s.links, symbol, price);
  }
}
