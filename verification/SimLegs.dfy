/** What the legs of a submitted bracket are, in terms of its parameters, and that a filled child closes the entry. */
module SimLegs {
  import opened Wrappers
  import opened Sums
  import opened SimModel
  import opened SimBooks
  import opened SimRuns
  import opened SimEffects
  import opened SimPrices
  import opened SimLifecycle
  import opened SimTheorems
  import opened SimBrackets
  import opened SimSubmitter
  import opened SimTwins

  // ---------------------------------------------------------------- the legs in the table

  predicate EntryType(kind: EntryKind, orderType: OrderType) {
    && (kind.MarketEntry? <==> orderType.Market?) && (kind.LimitEntry? <==> orderType.Limit?)
    && (kind.StopEntry? <==> orderType.Stop?) && (kind.StopLimitEntry? <==> orderType.StopLimit?)
    && (kind.TrailingStopEntry? <==> orderType.TrailingStop?)
  }

  /** Good until cancelled unless something else is asked for. */
  predicate TimeAsAsked(asked: Option<TimeInForce>, tif: Tif) {
    && (tif.Gtc? <==> asked.None? || asked.value.UntilCancelled?)
    && (tif.Day? <==> asked == Some(UntilDay)) && (tif.Ioc? <==> asked == Some(Immediate))
    && (tif.Gtd? <==> asked == Some(UntilDate)) && (tif.Opg? <==> asked == Some(Opening))
  }

  /** Every leg is for the symbol and quantity of the bracket. */
  predicate LegOf(o: Order, p: Params, id: int) {
    o.id == id && o.symbol == p.symbol && o.quantity == p.quantity && o.outsideRth == p.outsideRth
  }

  predicate IsEntry(o: Order, p: Params, id: int) {
    && LegOf(o, p, id) && o.action == p.action && o.parentId == None && EntryType(p.entryKind, o.orderType)
    && o.limitPrice == p.entryPrice && o.stopPrice == p.entryStopPrice && TimeAsAsked(None, o.tif)
  }

  /** A limit at the target, on the other side of the entry. */
  predicate IsTakeProfit(o: Order, p: Params, id: int, entry: int)
    requires p.takeProfit.Some?
  {
    && LegOf(o, p, id) && o.action != p.action && o.parentId == Some(entry)
    && o.orderType.Limit? && o.limitPrice == Some(p.takeProfit.value.price) && o.stopPrice == None
    && TimeAsAsked(p.takeProfit.value.tif, o.tif)
  }

  /** A stop at the given price on the other side of the entry, a stop-limit exactly when a limit is given. */
  predicate IsStopLoss(o: Order, p: Params, id: int, entry: int)
    requires p.stopLoss.Some?
  {
    && LegOf(o, p, id) && o.action != p.action && o.parentId == Some(entry)
    && (o.orderType.Stop? || o.orderType.StopLimit?)
    && (o.orderType.StopLimit? <==> p.stopLoss.value.limitPrice.Some?) && o.limitPrice == p.stopLoss.value.limitPrice
    && o.stopPrice == Some(p.stopLoss.value.stopPrice) && TimeAsAsked(p.stopLoss.value.tif, o.tif)
  }

  /** The table holds the legs of the bracket under the ids of the handle. */
  ghost predicate HoldsLegs(orders: map<int, Order>, p: Params, h: Handle) {
    && h.entryId in orders && IsEntry(orders[h.entryId], p, h.entryId)
    && (h.tpId.Some? <==> p.takeProfit.Some?) && (h.slId.Some? <==> p.stopLoss.Some?)
    && (h.tpId.Some? ==> h.tpId.value in orders && IsTakeProfit(orders[h.tpId.value], p, h.tpId.value, h.entryId))
    && (h.slId.Some? ==> h.slId.value in orders && IsStopLoss(orders[h.slId.value], p, h.slId.value, h.entryId))
  }

  lemma {:induction false} EntrySpecIs(p: Params, id: int, transmit: bool, status: Status)
    ensures IsEntry(NewOrder(EntrySpec(id, p, transmit), status), p, id)
  {
  }

  lemma {:induction false} TpSpecIs(p: Params, id: int, entry: int, transmit: bool, status: Status)
    requires p.takeProfit.Some?
    ensures IsTakeProfit(NewOrder(TpSpec(id, entry, p, p.takeProfit.value, transmit), status), p, id, entry)
  {
  }

  lemma {:induction false} SlSpecIs(p: Params, id: int, entry: int, transmit: bool, status: Status)
    requires p.stopLoss.Some?
    ensures IsStopLoss(NewOrder(SlSpec(id, entry, p, p.stopLoss.value, transmit), status), p, id, entry)
  {
  }

  /** Submission changes the status and the fill of a leg, nothing else. */
  lemma {:induction false} LegAfterIs(cfg: Config, s: State, specs: seq<Spec>, statuses: seq<Status>, i: nat)
    requires i < |specs| == |statuses|
    ensures var o, spec := LegAfter(cfg, s, specs, statuses, i), specs[i];
            o == NewOrder(spec, o.status).(filledQty := o.filledQty, avgFillPrice := o.avgFillPrice)
    ensures i > 0 && Entering(statuses) ==> !LegAfter(cfg, s, specs, statuses, i).status.Filled?
  {
  }

  lemma {:induction false} LegsAt(h: Handle, p: Params)
    requires (h.tpId.Some? <==> p.takeProfit.Some?) && (h.slId.Some? <==> p.stopLoss.Some?)
    ensures var legs := Legs(h, p);
            && legs[0] == EntrySpec(h.entryId, p, !p.HasChildren())
            && (h.tpId.Some? ==>
                  legs[1] == TpSpec(h.tpId.value, h.entryId, p, p.takeProfit.value, p.stopLoss.None?))
            && (h.slId.Some? ==>
                  legs[if h.tpId.Some? then 2 else 1] == SlSpec(h.slId.value, h.entryId, p, p.stopLoss.value, true))
  {
  }

  /** The outcome of a submission holds the legs as the parameters describe them; no child is filled by it. */
  lemma {:induction false} LegsAreAsAsked(cfg: Config, s: State, p: Params)
    requires Settled(s) && Unused(s, s.nextId)
    ensures var (r, h) := PlaceBracket(cfg, s, p);
            && HoldsLegs(r.orders, p, h) && !ChildFilled(r, h)
            && (IsFilled(r, h.entryId) ==> r.orders[h.entryId].filledQty == p.quantity)
            && (forall id | id in s.orders :: id in r.orders && r.orders[id] == s.orders[id])
  {
    var h, ready := Allocate(s.nextId, p), s.(nextId := s.nextId + Allocated(p));
    var legs := Legs(h, p);
    var statuses := EntryStatuses(cfg, s, |legs|);
    BracketOutcome(cfg, s, p);
    BracketIs(cfg, s, p, h, ready);
    LegsHeld(cfg, s, PlaceAll(cfg, ready, legs), p, h, statuses);
  }

  /** One of the children is filled. */
  ghost predicate ChildFilled(s: State, h: Handle) {
    (h.tpId.Some? && IsFilled(s, h.tpId.value)) || (h.slId.Some? && IsFilled(s, h.slId.value))
  }

  lemma {:induction false} LegsHeld(cfg: Config, s: State, r: State, p: Params, h: Handle, statuses: seq<Status>)
    requires (h.tpId.Some? <==> p.takeProfit.Some?) && (h.slId.Some? <==> p.stopLoss.Some?)
    requires |statuses| == |Legs(h, p)| && Entering(statuses) && LegsPlaced(cfg, s, r, Legs(h, p), statuses)
    ensures HoldsLegs(r.orders, p, h) && !ChildFilled(r, h)
    ensures IsFilled(r, h.entryId) ==> r.orders[h.entryId].filledQty == p.quantity
  {
    var legs := Legs(h, p);
    LegsAt(h, p);
    LegAfterIs(cfg, s, legs, statuses, 0);
    EntrySpecIs(p, h.entryId, !p.HasChildren(), LegAfter(cfg, s, legs, statuses, 0).status);
    if h.tpId.Some? {
      LegAfterIs(cfg, s, legs, statuses, 1);
      TpSpecIs(p, h.tpId.value, h.entryId, p.stopLoss.None?, LegAfter(cfg, s, legs, statuses, 1).status);
    }
    if h.slId.Some? {
      var i := if h.tpId.Some? then 2 else 1;
      LegAfterIs(cfg, s, legs, statuses, i);
      SlSpecIs(p, h.slId.value, h.entryId, true, LegAfter(cfg, s, legs, statuses, i).status);
    }
  }

  /**
   How the legs stand after submission: a child of a filled entry works if it is the target and is armed
   if it is the stop; a child of an entry that rests is armed; without a live entry nobody has moved.
   */
  ghost predicate Stand(s: State, h: Handle)
    requires h.entryId in s.orders
    requires (h.tpId.Some? ==> h.tpId.value in s.orders) && (h.slId.Some? ==> h.slId.value in s.orders)
  {
    var entry := s.orders[h.entryId].status;
    && (entry.Rejected? || entry.Held? || entry.Working? || entry.Filled?)
    && (h.tpId.Some? ==> ChildStands(entry, s.orders[h.tpId.value].status, true))
    && (h.slId.Some? ==> ChildStands(entry, s.orders[h.slId.value].status, false))
  }

  predicate ChildStands(entry: Status, child: Status, target: bool) {
    || child.Rejected?
    || (entry.Filled? && (if target then child.Working? else child.Triggered?))
    || (entry.Working? && child.Triggered?)
    || ((entry.Held? || entry.Rejected?) && child.Held?)
  }

  lemma {:induction false} LegStands(cfg: Config, s: State, specs: seq<Spec>, statuses: seq<Status>, i: nat)
    requires 0 < i < |specs| == |statuses| && Entering(statuses)
    requires specs[i].orderType.Limit? || specs[i].orderType.Stop? || specs[i].orderType.StopLimit?
    ensures ChildStands(LegAfter(cfg, s, specs, statuses, 0).status, LegAfter(cfg, s, specs, statuses, i).status,
                        specs[i].orderType.Limit?)
  {
  }

  lemma {:induction false} EntryStands(cfg: Config, s: State, specs: seq<Spec>, statuses: seq<Status>)
    requires 0 < |specs| == |statuses| && Entering(statuses)
    ensures var entry := LegAfter(cfg, s, specs, statuses, 0).status;
            entry.Rejected? || entry.Held? || entry.Working? || entry.Filled?
  {
  }

  /** In every outcome of a submission on fresh ids the children stand as the entry does. */
  lemma {:induction false} LegsStand(cfg: Config, s: State, p: Params)
    requires Settled(s) && Unused(s, s.nextId)
    ensures var (r, h) := PlaceBracket(cfg, s, p); HoldsLegs(r.orders, p, h) && Stand(r, h)
  {
    var h, ready := Allocate(s.nextId, p), s.(nextId := s.nextId + Allocated(p));
    var legs := Legs(h, p);
    var statuses := EntryStatuses(cfg, s, |legs|);
    BracketOutcome(cfg, s, p);
    BracketIs(cfg, s, p, h, ready);
    LegsHeld(cfg, s, PlaceAll(cfg, ready, legs), p, h, statuses);
    StandAsPlaced(cfg, s, PlaceAll(cfg, ready, legs), p, h, statuses);
  }

  lemma {:induction false} StandAsPlaced(cfg: Config, s: State, r: State, p: Params, h: Handle, statuses: seq<Status>)
    requires (h.tpId.Some? <==> p.takeProfit.Some?) && (h.slId.Some? <==> p.stopLoss.Some?)
    requires |statuses| == |Legs(h, p)| && Entering(statuses) && LegsPlaced(cfg, s, r, Legs(h, p), statuses)
    requires HoldsLegs(r.orders, p, h)
    ensures Stand(r, h)
  {
    var legs := Legs(h, p);
    LegsAt(h, p);
    EntryStands(cfg, s, legs, statuses);
    if h.tpId.Some? { LegStands(cfg, s, legs, statuses, 1); }
    if h.slId.Some? { LegStands(cfg, s, legs, statuses, if h.tpId.Some? then 2 else 1); }
  }

  // ---------------------------------------------------------------- submission as operations of a run

  function NextIds(n: nat): seq<Op> { seq(n, i requires 0 <= i < n => NextId) }

  /** What submitting a bracket asks of the client: its ids, then its legs. */
  function BracketOps(p: Params, next: int): seq<Op> {
    NextIds(Allocated(p)) + Placements(Legs(Allocate(next, p), p))
  }

  lemma {:induction false} PushOp(cfg: Config, ops: seq<Op>, op: Op)
    requires Proper(cfg, ops) && !op.SetPrice?
    ensures Proper(cfg, ops + [op]) && Run(cfg, ops + [op]) == Step(cfg, Run(cfg, ops), op)
  {
    assert (ops + [op])[..|ops|] == ops;
  }

  lemma {:induction false} NextIdsFrom(cfg: Config, ops: seq<Op>, n: nat)
    requires Proper(cfg, ops)
    ensures Proper(cfg, ops + NextIds(n))
    ensures var s := Run(cfg, ops); Run(cfg, ops + NextIds(n)) == s.(nextId := s.nextId + n)
    decreases n
  {
    if n == 0 {
      assert ops + NextIds(0) == ops;
    } else {
      NextIdsFrom(cfg, ops, n - 1);
      assert ops + NextIds(n) == ops + NextIds(n - 1) + [NextId];
      PushOp(cfg, ops + NextIds(n - 1), NextId);
    }
  }

  lemma {:induction false} PlaceFrom(cfg: Config, ops: seq<Op>, s: State, spec: Spec)
    requires Proper(cfg, ops) && Run(cfg, ops) == s
    ensures Proper(cfg, ops + [Place(spec)]) && Run(cfg, ops + [Place(spec)]) == PlaceOrder(cfg, s, spec)
  {
    PushOp(cfg, ops, Place(spec));
  }

  lemma {:induction false} PlacementsPush(specs: seq<Spec>, last: Spec)
    ensures Placements(specs + [last]) == Placements(specs) + [Place(last)]
  {
  }

  lemma {:induction false} PlacementsFrom(cfg: Config, ops: seq<Op>, s: State, specs: seq<Spec>)
    requires Proper(cfg, ops) && Run(cfg, ops) == s
    ensures Proper(cfg, ops + Placements(specs)) && Run(cfg, ops + Placements(specs)) == PlaceAll(cfg, s, specs)
    decreases |specs|
  {
    if specs == [] {
      assert ops + Placements(specs) == ops;
    } else {
      var init, last := specs[..|specs| - 1], specs[|specs| - 1];
      assert specs == init + [last];
      PlacementsFrom(cfg, ops, s, init);
      PlaceAllPush(cfg, s, init, last);
      PlaceFrom(cfg, ops + Placements(init), PlaceAll(cfg, s, init), last);
      PlacementsPush(init, last);
      assert ops + Placements(init) + [Place(last)] == ops + (Placements(init) + [Place(last)]);
    }
  }

  lemma {:induction false} BracketOpsSplit(ops: seq<Op>, p: Params, next: int)
    ensures ops + BracketOps(p, next) == ops + NextIds(Allocated(p)) + Placements(Legs(Allocate(next, p), p))
  {
  }

  /** Submitting a bracket is a run of the client's public operations. */
  lemma {:induction false} BracketRun(cfg: Config, ops: seq<Op>, p: Params) returns (placed: seq<Op>, h: Handle)
    requires Proper(cfg, ops)
    ensures placed == ops + BracketOps(p, Run(cfg, ops).nextId) && h == Allocate(Run(cfg, ops).nextId, p)
    ensures Proper(cfg, placed) && (Run(cfg, placed), h) == PlaceBracket(cfg, Run(cfg, ops), p)
  {
    var s, n := Run(cfg, ops), Allocated(p);
    var ready := s.(nextId := s.nextId + n);
    h, placed := Allocate(s.nextId, p), ops + BracketOps(p, s.nextId);
    NextIdsFrom(cfg, ops, n);
    PlacementsFrom(cfg, ops + NextIds(n), ready, Legs(h, p));
    BracketIs(cfg, s, p, h, ready);
    BracketOpsSplit(ops, p, s.nextId);
  }

  // ---------------------------------------------------------------- runs that add no orders

  /** No new order, and no change of quantity. */
  predicate Quiet(s: State, op: Op) {
    (op.Place? ==> op.spec.id in s.orders) && (op.Modify? ==> op.change.quantity.None?)
  }

  ghost predicate QuietRun(cfg: Config, ops: seq<Op>, more: seq<Op>)
    decreases |more|
  {
    more == [] ||
    (QuietRun(cfg, ops, more[..|more| - 1]) && Quiet(Run(cfg, ops + more[..|more| - 1]), more[|more| - 1]))
  }

  /** The same orders, each advanced, and filled for its whole quantity if newly filled. */
  ghost predicate Onward(orders: map<int, Order>, orders': map<int, Order>) {
    orders'.Keys == orders.Keys && AllAdvance(orders, orders') && AllComplete(orders, orders')
  }

  lemma {:induction false} OnwardTransitive(a: map<int, Order>, b: map<int, Order>, c: map<int, Order>)
    requires Onward(a, b) && Onward(b, c)
    ensures Onward(a, c)
  {
    AdvanceTransitive(a, b, c);
    CompleteTransitive(a, b, c);
  }

  lemma {:induction false} RepriceOnward(s: State, spec: Spec)
    requires Settled(s) && spec.id in s.orders
    ensures Onward(s.orders, Reprice(s, spec).orders)
  {
    RepriceIsCalm(s, spec);
    CalmSettles(s.orders, Reprice(s, spec).orders);
  }

  lemma {:induction false} CancelOnward(s: State, id: int)
    requires Settled(s)
    ensures Onward(s.orders, CancelOrder(s, id).orders)
  {
    CancelIsCalm(s, id);
    CalmSettles(s.orders, CancelOrder(s, id).orders);
    CancelOrderEffect(s, id);
  }

  lemma {:induction false} ModifyOnward(s: State, id: int, change: Change)
    requires Settled(s) && change.quantity.None?
    ensures Onward(s.orders, ModifyOrder(s, id, change).orders)
  {
    ModifyIsCalm(s, id, change);
    CalmSettles(s.orders, ModifyOrder(s, id, change).orders);
  }

  lemma {:induction false} StepOnward(cfg: Config, s: State, op: Op)
    requires Settled(s) && Walks(s, op) && Quiet(s, op)
    ensures Onward(s.orders, Step(cfg, s, op).orders)
  {
    match op
    case NextId => AdvanceReflexive(s.orders);
    case Place(spec) => RepriceOnward(s, spec);
    case Cancel(id) => CancelOnward(s, id);
    case Modify(id, change) => ModifyOnward(s, id, change);
    case SetPrice(symbol, price, v1, v2) =>
      PriceMoveIsSimultaneous(cfg, s, symbol, price, v1, v2);
      PriceAdvances(cfg, s.orders, s.links, symbol, price);
      PriceCompletes(cfg, s.orders, s.links, symbol, price);
  }

  lemma {:induction false} RunOnward(cfg: Config, ops: seq<Op>, more: seq<Op>)
    requires Proper(cfg, ops + more) && QuietRun(cfg, ops, more)
    ensures Onward(Run(cfg, ops).orders, Run(cfg, ops + more).orders)
    decreases |more|
  {
    if more == [] {
      assert ops + more == ops;
      AdvanceReflexive(Run(cfg, ops).orders);
    } else {
      var init := more[..|more| - 1];
      assert (ops + more)[..|ops + more| - 1] == ops + init;
      RunOnward(cfg, ops, init);
      FillsAreAllOrNothing(cfg, ops + init);
      StepOnward(cfg, Run(cfg, ops + init), more[|more| - 1]);
      OnwardTransitive(Run(cfg, ops).orders, Run(cfg, ops + init).orders, Run(cfg, ops + more).orders);
    }
  }

  // ---------------------------------------------------------------- a filled child closes the entry

  function LegIds(h: Handle): set<int> {
    {h.entryId} + (if h.tpId.Some? then {h.tpId.value} else {}) + if h.slId.Some? then {h.slId.value} else {}
  }

  /** What one leg, where there is one, adds to a sum over the table. */
  ghost function LegSum(orders: map<int, Order>, leg: Option<int>, f: Order -> real): real {
    if leg.Some? && leg.value in orders then f(orders[leg.value]) else 0.0
  }

  lemma {:induction false} TakeOut(orders: map<int, Order>, leg: Option<int>, f: Order -> real)
    requires leg.Some? ==> leg.value in orders
    ensures Sum(orders, f) == LegSum(orders, leg, f)
            + Sum(if leg.Some? then orders - {leg.value} else orders, f)
  {
    if leg.Some? { SumSplit(orders, f, leg.value); }
  }

  /** The ids of a handle are those of distinct orders. */
  ghost predicate Distinctly(orders: map<int, Order>, h: Handle) {
    && h.entryId in orders && (h.tpId.Some? ==> h.tpId.value in orders && h.tpId.value != h.entryId)
    && (h.slId.Some? ==> h.slId.value in orders && h.slId.value != h.entryId && Some(h.slId.value) != h.tpId)
  }

  lemma {:induction false} SumOfLegs(orders: map<int, Order>, h: Handle, f: Order -> real)
    requires Distinctly(orders, h)
    ensures Sum(orders, f) == f(orders[h.entryId]) + LegSum(orders, h.tpId, f) + LegSum(orders, h.slId, f)
            + Sum(orders - LegIds(h), f)
  {
    var a := orders - {h.entryId};
    var b := if h.tpId.Some? then a - {h.tpId.value} else a;
    var c := if h.slId.Some? then b - {h.slId.value} else b;
    SumSplit(orders, f, h.entryId);
    TakeOut(a, h.tpId, f);
    TakeOut(b, h.slId, f);
    assert c == orders - LegIds(h);
  }

  /** The symbol's orders of the table are all over. */
  ghost predicate Over(orders: map<int, Order>, symbol: string) {
    forall id | id in orders && orders[id].symbol == symbol :: orders[id].status.Terminal()
  }

  lemma {:induction false} OthersAddNothing(before: map<int, Order>, after: map<int, Order>, h: Handle, symbol: string)
    requires Over(before, symbol) && AllAdvance(before, after) && after.Keys == before.Keys + LegIds(h)
    requires forall id | id in LegIds(h) :: id !in before
    ensures Sum(after - LegIds(h), SignedIn(symbol)) == Sum(before, SignedIn(symbol))
  {
    var rest, f := after - LegIds(h), SignedIn(symbol);
    forall id | id in before ensures id in rest && f(rest[id]) == f(before[id]) {
      AdvanceOf(before, after, id);
    }
    SumSame(before, rest, f);
  }

  /** The legs are orders of the symbol, the entry on its side and the children on the other. */
  ghost predicate Sides(orders: map<int, Order>, p: Params, h: Handle) {
    && Distinctly(orders, h)
    && orders[h.entryId].symbol == p.symbol && orders[h.entryId].action == p.action
    && (h.tpId.Some? ==> orders[h.tpId.value].symbol == p.symbol && orders[h.tpId.value].action != p.action)
    && (h.slId.Some? ==> orders[h.slId.value].symbol == p.symbol && orders[h.slId.value].action != p.action)
  }

  predicate FilledWhole(s: State, id: int, q: real) {
    id in s.orders && s.orders[id].filledQty == if IsFilled(s, id) then q else 0.0
  }

  /** The entry is filled, each child for all or nothing, and not both children. */
  ghost predicate LegFills(s: State, p: Params, h: Handle) {
    && Sides(s.orders, p, h) && IsFilled(s, h.entryId) && FilledWhole(s, h.entryId, p.quantity)
    && (h.tpId.Some? ==> FilledWhole(s, h.tpId.value, p.quantity))
    && (h.slId.Some? ==> FilledWhole(s, h.slId.value, p.quantity))
    && !(h.tpId.Some? && h.slId.Some? && IsFilled(s, h.tpId.value) && IsFilled(s, h.slId.value))
  }

  lemma {:induction false} LegsSumUp(s: State, p: Params, h: Handle)
    requires LegFills(s, p, h)
    ensures var f := SignedIn(p.symbol);
            f(s.orders[h.entryId]) + LegSum(s.orders, h.tpId, f) + LegSum(s.orders, h.slId, f)
            == if ChildFilled(s, h) then 0.0 else if p.action.Buy? then p.quantity else -p.quantity
  {
  }

  lemma {:induction false} LegAdvances(s: State, r: State, id: int, q: real)
    requires Settled(r) && Onward(s.orders, r.orders) && id in s.orders && s.orders[id].quantity == q
    requires !s.orders[id].status.Filled? || s.orders[id].filledQty == q
    ensures FilledWhole(r, id, q)
    ensures var o, o' := s.orders[id], r.orders[id];
            && o'.symbol == o.symbol && o'.action == o.action && o'.orderType == o.orderType
            && o'.parentId == o.parentId && (o.status.Filled? ==> o'.status.Filled?)
  {
    assert SettledOrder(r.orders[id], id);
    AdvanceOf(s.orders, r.orders, id);
    assert Completes(s.orders[id], r.orders[id]);
  }

  /** Two filled children would be of one kind, which a limit and a stop are not. */
  lemma {:induction false} OneLegFills(cfg: Config, ops: seq<Op>, tp: int, sl: int, entry: int)
    requires Proper(cfg, ops) && Flat(Run(cfg, ops).orders) && tp != sl
    requires var orders := Run(cfg, ops).orders;
             && tp in orders && sl in orders && orders[tp].parentId == Some(entry) == orders[sl].parentId
             && orders[tp].orderType.Limit? && StopKind(orders[sl])
    ensures !(IsFilled(Run(cfg, ops), tp) && IsFilled(Run(cfg, ops), sl))
  {
    if IsFilled(Run(cfg, ops), tp) && IsFilled(Run(cfg, ops), sl) {
      FilledChildStandsAlone(cfg, ops, tp, sl);
    }
  }

  lemma {:induction false} LegsStay(cfg: Config, all: seq<Op>, s: State, p: Params, h: Handle)
    requires Proper(cfg, all) && Flat(Run(cfg, all).orders) && Settled(s) && Onward(s.orders, Run(cfg, all).orders)
    requires HoldsLegs(s.orders, p, h) && Distinctly(s.orders, h) && !ChildFilled(s, h)
    requires IsFilled(s, h.entryId) && s.orders[h.entryId].filledQty == p.quantity
    ensures LegFills(Run(cfg, all), p, h)
  {
    var r := Run(cfg, all);
    FillsAreAllOrNothing(cfg, all);
    LegAdvances(s, r, h.entryId, p.quantity);
    if h.tpId.Some? { LegAdvances(s, r, h.tpId.value, p.quantity); }
    if h.slId.Some? { LegAdvances(s, r, h.slId.value, p.quantity); }
    if h.tpId.Some? && h.slId.Some? { OneLegFills(cfg, all, h.tpId.value, h.slId.value, h.entryId); }
  }

  /** Placing a bracket adds its legs to the table and nothing else. */
  lemma {:induction false} PlaceAllKeys(cfg: Config, ops: seq<Op>, s: State, specs: seq<Spec>)
    requires Proper(cfg, ops) && Run(cfg, ops) == s
    ensures PlaceAll(cfg, s, specs).orders.Keys == s.orders.Keys + set i | 0 <= i < |specs| :: specs[i].id
    decreases |specs|
  {
    if specs != [] {
      var init, last := specs[..|specs| - 1], specs[|specs| - 1];
      PlaceAllKeys(cfg, ops, s, init);
      PlacementsFrom(cfg, ops, s, init);
      FillsAreAllOrNothing(cfg, ops + Placements(init));
      PlacedKeys(cfg, PlaceAll(cfg, s, init), last);
      IdsOfMore(specs);
    }
  }

  lemma {:induction false} LegKeys(h: Handle, p: Params)
    requires (h.tpId.Some? <==> p.takeProfit.Some?) && (h.slId.Some? <==> p.stopLoss.Some?)
    ensures (set i | 0 <= i < |Legs(h, p)| :: Legs(h, p)[i].id) == LegIds(h)
  {
    var legs, ids := Legs(h, p), set i | 0 <= i < |Legs(h, p)| :: Legs(h, p)[i].id;
    LegsAt(h, p);
    assert legs[0].id in ids;
    if h.tpId.Some? { assert legs[1].id in ids; }
    if h.slId.Some? { assert legs[if h.tpId.Some? then 2 else 1].id in ids; }
  }

  lemma {:induction false} BracketKeys(cfg: Config, ops: seq<Op>, p: Params)
    requires Proper(cfg, ops)
    ensures var (r, h) := PlaceBracket(cfg, Run(cfg, ops), p); r.orders.Keys == Run(cfg, ops).orders.Keys + LegIds(h)
  {
    var s, n := Run(cfg, ops), Allocated(p);
    var h, ready := Allocate(s.nextId, p), s.(nextId := s.nextId + n);
    NextIdsFrom(cfg, ops, n);
    PlaceAllKeys(cfg, ops + NextIds(n), ready, Legs(h, p));
    LegKeys(h, p);
    BracketIs(cfg, s, p, h, ready);
  }

  /** The position moves by what the legs have filled when everything else of the symbol is over. */
  lemma {:induction false} LegsMovePosition(cfg: Config, s: State, r: State, p: Params, h: Handle)
    requires TableBooks(cfg, s) && TableBooks(cfg, r) && LegFills(r, p, h) && Over(s.orders, p.symbol)
    requires AllAdvance(s.orders, r.orders) && r.orders.Keys == s.orders.Keys + LegIds(h)
    requires forall id | id in LegIds(h) :: id !in s.orders
    ensures PositionOf(r.positions, p.symbol).quantity == PositionOf(s.positions, p.symbol).quantity
            + if ChildFilled(r, h) then 0.0 else if p.action.Buy? then p.quantity else -p.quantity
  {
    SumOfLegs(r.orders, h, SignedIn(p.symbol));
    OthersAddNothing(s.orders, r.orders, h, p.symbol);
    LegsSumUp(r, p, h);
  }

  lemma {:induction false} FreshLegs(orders: map<int, Order>, after: map<int, Order>, p: Params, next: int)
    requires (forall id | id in orders :: id < next) && after.Keys == orders.Keys + LegIds(Allocate(next, p))
    ensures Distinctly(after, Allocate(next, p)) && forall id | id in LegIds(Allocate(next, p)) :: id !in orders
  {
  }

  /**
   A bracket submitted on fresh ids, whose entry fills, on a symbol whose other orders are over, and
   then any operations that add no orders and change no quantities: the position stands off by the
   entry until a child fills, and from then on is back where it was.
   */
  lemma {:induction false} FilledChildCloses(cfg: Config, ops: seq<Op>, p: Params, more: seq<Op>)
    requires Proper(cfg, ops) && Unused(Run(cfg, ops), Run(cfg, ops).nextId) && Over(Run(cfg, ops).orders, p.symbol)
    requires var placed := ops + BracketOps(p, Run(cfg, ops).nextId);
             && Proper(cfg, placed + more) && QuietRun(cfg, placed, more) && Flat(Run(cfg, placed + more).orders)
             && IsFilled(Run(cfg, placed), Run(cfg, ops).nextId)
    ensures var s, r := Run(cfg, ops), Run(cfg, ops + BracketOps(p, Run(cfg, ops).nextId) + more);
            PositionOf(r.positions, p.symbol).quantity == PositionOf(s.positions, p.symbol).quantity
            + if ChildFilled(r, Allocate(s.nextId, p)) then 0.0 else if p.action.Buy? then p.quantity else -p.quantity
  {
    var s := Run(cfg, ops);
    var placed, h := BracketRun(cfg, ops, p);
    var mid, r := Run(cfg, placed), Run(cfg, placed + more);
    FillsAreAllOrNothing(cfg, ops);
    FillsAreAllOrNothing(cfg, placed);
    LegsAreAsAsked(cfg, s, p);
    BracketKeys(cfg, ops, p);
    FreshLegs(s.orders, mid.orders, p, s.nextId);
    RunOnward(cfg, placed, more);
    LegsStay(cfg, placed + more, mid, p, h);
    KeptAdvance(s.orders, mid.orders);
    AdvanceTransitive(s.orders, mid.orders, r.orders);
    BooksAlwaysBalance(cfg, ops);
    BooksAlwaysBalance(cfg, placed + more);
    LegsMovePosition(cfg, s, r, p, h);
  }

  lemma {:induction false} KeptAdvance(orders: map<int, Order>, orders': map<int, Order>)
    requires forall id | id in orders :: id in orders' && orders'[id] == orders[id]
    ensures AllAdvance(orders, orders')
  {
  }
}
