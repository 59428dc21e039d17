/**
 The simulated broker as the object that updates its state in place.

 View() is the abstract state; every method is proved to take it to the value that the transition of
 the same name in SimModel defines. Hash-table walks are parameters, because the table promises no order.
 */
module SimOrderClients {
  import opened Wrappers
  import opened SimModel
  import opened SimEffects
  import opened SimRuns

  lemma {:induction false} TranchesStep(cfg: Config, s: State, before: State, after: State, id: int, i: nat, n: nat,
                                        size: Pos, price: real)
    requires id in s.orders && i < n && before == Tranches(cfg, s, id, i, n, size, price)
    requires id in before.orders && after == Tranche(cfg, before, id, size, price, i == n - 1)
    ensures after == Tranches(cfg, s, id, i + 1, n, size, price)
  {
    var _ := TranchesUnfold(cfg, s, id, i + 1, n, size, price);
  }

  /** Triggering stops changes neither type, limit, side nor the set of orders. */
  lemma {:induction false} TriggerKeepsPlans(cfg: Config, s: State, ids: seq<int>, price: real)
    ensures var r := TriggerEach(cfg, s, ids, price);
            && r.orders.Keys == s.orders.Keys
            && (forall id | id in s.orders :: SamePlan(s.orders[id], r.orders[id]))
    decreases |ids|
  {
    if ids != [] {
      var before := TriggerEach(cfg, s, ids[..|ids| - 1], price);
      TriggerKeepsPlans(cfg, s, ids[..|ids| - 1], price);
      TriggerKeepsPlan(cfg, before, ids[|ids| - 1], price);
    }
  }

  ghost predicate SamePlan(o: Order, o': Order) {
    o'.id == o.id && o'.orderType == o.orderType && o'.limitPrice == o.limitPrice && o'.action == o.action
  }

  ghost predicate SamePlans(s: State, r: State) {
    r.orders.Keys == s.orders.Keys && forall id | id in s.orders :: SamePlan(s.orders[id], r.orders[id])
  }

  lemma {:induction false} TranchesKeepPlans(cfg: Config, s: State, id: int, i: nat, n: nat, size: Pos, price: real)
    requires id in s.orders && i <= n
    ensures SamePlans(s, Tranches(cfg, s, id, i, n, size, price))
  {
    if i > 0 {
      TranchesKeepPlans(cfg, s, id, i - 1, n, size, price);
      var before := TranchesUnfold(cfg, s, id, i, n, size, price);
      TrancheKeepsPlans(cfg, s, before, Tranches(cfg, s, id, i, n, size, price), id, size, price, i == n);
    }
  }

  lemma {:induction false} TrancheKeepsPlans(cfg: Config, s: State, before: State, r: State, id: int, size: Pos,
                                             price: real, last: bool)
    requires id in before.orders && SamePlans(s, before) && r == Tranche(cfg, before, id, size, price, last)
    ensures SamePlans(s, r)
  {
  }

  lemma {:induction false} TriggerKeepsPlan(cfg: Config, s: State, id: int, price: real)
    ensures SamePlans(s, TriggerStop(cfg, s, id, price))
  {
    if id in s.orders {
      var o := s.orders[id];
      var working := s.(orders := s.orders[id := o.(status := Status.Working)],
                        log := s.log + [StatusChanged(id, Reported.Submitted, o.filledQty, o.Remaining(), 0.0)]);
      if StopExecution(cfg, o, price).Some? && o.Remaining() > 0.0 {
        var n := TrancheCount(cfg, o.Remaining());
        TranchesKeepPlans(cfg, working, id, n, n, Share(o.Remaining(), n), StopExecution(cfg, o, price).value);
      }
    }
  }

  class SimOrderClient {
    const cfg: Config
    var orders: map<int, Order>
    var links: map<int, seq<int>>
    var marketPrices: map<string, real>
    var positions: map<string, Position>
    var cash: real
    var realizedPnl: real
    var orderCount: nat
    var nextId: int
    var execCounter: int
    /** Every event sent so far. */
    var log: seq<Event>

    function View(): State
      reads this
    {
      State(orders, links, marketPrices, positions, cash, realizedPnl, orderCount, nextId, execCounter, log)
    }

    /** The table's keys are its orders' ids. */
    ghost predicate Keyed()
      reads this
    {
      forall id | id in orders :: orders[id].id == id
    }

    constructor (config: Config)
      ensures cfg == config && View() == Initial(config) && Keyed()
    {
      cfg := config;
      orders, links, marketPrices, positions := map[], map[], map[], map[];
      cash, realizedPnl, orderCount := config.initialCash, 0.0, 0;
      nextId, execCounter, log := config.nextIdSeed, 1, [];
    }

    method NextExecId() returns (n: int)
      modifies this`execCounter
      ensures n == old(execCounter) && execCounter == old(execCounter) + 1
    {
      n := execCounter;
      execCounter := execCounter + 1;
    }

    method ApplyPositionOnFill(symbol: string, action: Action, shares: Pos, price: real, commission: real)
      returns (realized: Option<real>)
      modifies this`cash, this`positions, this`realizedPnl
      ensures (View(), realized) == ApplyFill(old(View()), symbol, action, shares, price, commission)
    {
      var notional := shares * price;
      if action.Buy? {
        cash := cash - (notional + commission);
      } else {
        cash := cash + (notional - commission);
      }
      var signed := Signed(action, shares);
      var pos := PositionOf(positions, symbol);
      if Opens(pos.quantity, signed) {
        realized := None;
        positions := positions[symbol := Increased(pos, signed, price)];
      } else {
        var net := NetGain(pos, signed, price, commission);
        realizedPnl := realizedPnl + net;
        realized := Some(net);
        positions := positions[symbol := Reduced(pos, signed, price)];
      }
      assert (positions[symbol], realized) == ApplyToPosition(pos, signed, price, commission);
      assert cash == old(cash) - Signed(action, notional) - commission;
      assert realizedPnl == old(realizedPnl) + GainOf(realized);
      assert positions == old(positions)[symbol := positions[symbol]];
      ghost var booked := ApplyFill(old(View()), symbol, action, shares, price, commission);
      assert booked.1 == realized;
      assert booked.0 == old(View()).(positions := positions, cash := cash, realized := realizedPnl);
    }

    /** The state with an order put back that a fill has taken out of the table. */
    function With(order: Order): State
      reads this
    {
      View().(orders := orders[order.id := order])
    }

    /** One tranche of an order that has been taken out of the table. */
    method FillTranche(order: Order, shares: Pos, price: real, isLast: bool) returns (filled: Order)
      requires order.id !in orders
      modifies this`cash, this`positions, this`realizedPnl, this`execCounter, this`log
      ensures filled.id == order.id
      ensures With(filled) == Tranche(cfg, old(With(order)), order.id, shares, price, isLast)
    {
      var commission := CommissionFor(cfg, shares);
      var execId := NextExecId();
      filled := AfterTranche(order, shares, price);
      log := log + [Execution(order.id, execId, shares, price)];
      var realized := ApplyPositionOnFill(order.symbol, order.action, shares, price, commission);
      log := log + [Commission(execId, commission, realized)];
      log := log + [StatusChanged(order.id, TrancheStatus(filled, isLast), filled.filledQty,
                                  Max(filled.Remaining(), 0.0), filled.avgFillPrice)];
      assert orders[order.id := order][order.id := filled] == orders[order.id := filled];
    }

    /** The tranche loop: all but the last tranche are of `size` shares, the last takes what is left. */
    method FillTranches(order: Order, fill: Pos, tranches: nat, size: Pos, price: real) returns (filled: Order)
      requires order.id !in orders && tranches >= 1 && fill == Lots(tranches, size)
      modifies this`cash, this`positions, this`realizedPnl, this`execCounter, this`log
      ensures filled.id == order.id
      ensures With(filled) == Tranches(cfg, old(With(order)), order.id, tranches, tranches, size, price)
    {
      filled := order;
      var left: real := fill;
      ghost var start := With(order);
      for i := 0 to tranches
        invariant filled.id == order.id && left == Lots(tranches - i, size)
        invariant With(filled) == Tranches(cfg, start, order.id, i, tranches, size, price)
      {
        var isLast := i == tranches - 1;
        var shares: Pos := if isLast then left else Min(size, left);
        left := left - shares;
        ghost var before := With(filled);
        filled := FillTranche(filled, shares, price, isLast);
        TranchesStep(cfg, start, before, With(filled), order.id, i, tranches, size, price);
      }
    }

    method CancelOrderInner(id: int)
      modifies this`orders, this`log
      ensures View() == CancelInner(old(View()), id)
      ensures old(Keyed()) ==> Keyed()
    {
      if id in orders {
        var order := orders[id];
        if order.status.Terminal() {
          return;
        }
        orders := orders[id := order.(status := Status.Cancelled)];
        log := log + [StatusChanged(id, Reported.Cancelled, order.filledQty, order.Remaining(), order.avgFillPrice)];
        log := log + [Withdrawn(id)];
      }
    }

    method CheckOcaInner(filledId: int)
      modifies this`orders, this`log
      ensures View() == CheckOca(old(View()), filledId)
      ensures old(Keyed()) ==> Keyed()
    {
      if filledId !in orders {
        return;
      }
      match orders[filledId].parentId
      case None => return;
      case Some(parent) =>
        if parent !in links {
          return;
        }
        var siblings := links[parent];
        for i := 0 to |siblings|
          invariant links == old(links) && (old(Keyed()) ==> Keyed())
          invariant View() == CancelOthers(old(View()), siblings[..i], filledId)
        {
          assert siblings[..i + 1][..i] == siblings[..i];
          if siblings[i] != filledId {
            CancelOrderInner(siblings[i]);
          }
        }
        assert siblings[..|siblings|] == siblings;
    }

    /** Fills an order in one or more tranches; the order is out of the table meanwhile. */
    method ExecuteFill(id: int, shares: real, price: real)
      requires Keyed()
      requires id in orders && orders[id].Remaining() > 0.0 ==> shares > 0.0
      modifies this`orders, this`cash, this`positions, this`realizedPnl, this`execCounter, this`log
      ensures View() == SimModel.ExecuteFill(cfg, old(View()), id, shares, price)
      ensures Keyed() && orders.Keys == old(orders.Keys)
    {
      if id !in orders {
        return;
      }
      var order := orders[id];
      var remaining := order.Remaining();
      if remaining <= 0.0 {
        return;
      }
      orders := orders - {id};
      assert With(order) == old(View());
      var fill: Pos := Min(shares, remaining);
      var tranches := TrancheCount(cfg, fill);
      SharesAddUp(fill, tranches);
      order := FillTranches(order, fill, tranches, Share(fill, tranches), price);
      PutBack(order);
    }

    /** Puts an order back into the table with its status settled. */
    method PutBack(order: Order)
      requires Keyed() && order.id !in orders
      modifies this`orders
      ensures var o := order.(status := SettledStatus(order)); orders == old(With(order)).orders[order.id := o]
      ensures Keyed() && orders.Keys == old(orders.Keys) + {order.id}
    {
      var settled := order;
      if order.Remaining() <= 0.0 {
        settled := order.(status := Status.Filled);
      } else if order.filledQty > 0.0 {
        settled := order.(status := Status.PartiallyFilled);
      }
      orders := orders[order.id := settled];
    }

    method FillMarketOrder(id: int)
      requires Keyed()
      modifies this`orders, this`cash, this`positions, this`realizedPnl, this`execCounter, this`log
      ensures View() == SimModel.FillMarketOrder(cfg, old(View()), id) && Keyed()
    {
      if id !in orders {
        return;
      }
      var o := orders[id];
      var price := MarketFillPrice(cfg, MarketPrice(View(), o.symbol), o.action);
      ExecuteFill(id, o.quantity, price);
    }

    /** Releases one held child of an activated parent. */
    method ActivateOne(id: int, parentFilled: bool)
      requires Keyed()
      modifies this`orders, this`log
      ensures View() == ActivateChild(old(View()), id, parentFilled) && Keyed()
    {
      if id in orders && orders[id].status.Held? {
        var child := orders[id];
        if parentFilled && !(child.orderType.Stop? || child.orderType.StopLimit?) {
          orders := orders[id := child.(status := Status.Working)];
          log := log + [Accepted(id), StatusChanged(id, Reported.Submitted, 0.0, child.quantity, 0.0)];
        } else {
          orders := orders[id := child.(status := Status.Triggered)];
          log := log + [StatusChanged(id, Reported.PreSubmitted, 0.0, child.quantity, 0.0)];
        }
      }
    }

    /** Starts the parent, and fills it at once when it is an instant market order. */
    method Open(parent: int)
      requires Keyed() && parent in orders
      modifies this`orders, this`cash, this`positions, this`realizedPnl, this`execCounter, this`log
      ensures View() == OpenParent(cfg, old(View()), parent) && Keyed()
    {
      var p := orders[parent];
      orders := orders[parent := p.(status := Status.Working)];
      log := log + [Accepted(parent), StatusChanged(parent, Reported.Submitted, 0.0, p.quantity, 0.0)];
      if p.orderType.Market? && cfg.instant {
        FillMarketOrder(parent);
      }
    }

    method ActivateBracket(parent: int)
      requires Keyed()
      modifies this`orders, this`cash, this`positions, this`realizedPnl, this`execCounter, this`log
      ensures View() == SimModel.ActivateBracket(cfg, old(View()), parent) && Keyed()
    {
      if parent !in orders || !orders[parent].status.Held? {
        return;
      }
      Open(parent);
      var children := LinksOf(View(), parent);
      var parentFilled := IsFilled(View(), parent);
      ghost var active := View();
      for i := 0 to |children|
        invariant Keyed() && View() == ActivateEach(active, children[..i], parentFilled)
      {
        assert children[..i + 1][..i] == children[..i];
        ActivateOne(children[i], parentFilled);
      }
      assert children[..|children|] == children;
    }

    /** Cancels the siblings of each listed order in turn. */
    method CheckOcaFor(ids: seq<int>)
      requires Keyed()
      modifies this`orders, this`log
      ensures View() == CheckOcaEach(old(View()), ids) && Keyed()
    {
      for i := 0 to |ids|
        invariant Keyed() && View() == CheckOcaEach(old(View()), ids[..i])
      {
        assert ids[..i + 1][..i] == ids[..i];
        CheckOcaInner(ids[i]);
      }
      assert ids[..|ids|] == ids;
    }

    method CheckLimitFills(visit: seq<int>, symbol: string, price: real)
      requires Keyed()
      modifies this`orders, this`cash, this`positions, this`realizedPnl, this`execCounter, this`log
      ensures View() == SimModel.CheckLimitFills(cfg, old(View()), visit, symbol, price) && Keyed()
    {
      var fills := LimitHits(View(), visit, symbol, price);
      for i := 0 to |fills|
        invariant Keyed() && View() == FillEach(cfg, old(View()), fills[..i])
      {
        assert fills[..i + 1][..i] == fills[..i];
        var (id, fill) := fills[i];
        if id in orders {
          ExecuteFill(id, orders[id].Remaining(), fill);
        }
      }
      assert fills[..|fills|] == fills;
      CheckOcaFor(Ids(fills));
    }

    /** Starts one triggered stop working and, when it executes at once, fills it. */
    method TriggerOne(id: int, price: real) returns (executed: bool)
      requires Keyed()
      modifies this`orders, this`cash, this`positions, this`realizedPnl, this`execCounter, this`log
      ensures View() == TriggerStop(cfg, old(View()), id, price) && Keyed()
      ensures executed <==> id in old(orders) && StopExecution(cfg, old(orders)[id], price).Some?
    {
      if id !in orders {
        return false;
      }
      var o := orders[id];
      orders := orders[id := o.(status := Status.Working)];
      log := log + [StatusChanged(id, Reported.Submitted, o.filledQty, o.Remaining(), 0.0)];
      if o.orderType.Stop? {
        ExecuteFill(id, o.Remaining(), MarketFillPrice(cfg, price, o.action));
        return true;
      }
      if o.limitPrice.Some? && Touches(o.action, price, o.limitPrice.value) {
        ExecuteFill(id, o.Remaining(), o.limitPrice.value);
        return true;
      }
      return false;
    }

    method CheckStopTriggers(visit: seq<int>, symbol: string, price: real)
      requires Keyed()
      modifies this`orders, this`cash, this`positions, this`realizedPnl, this`execCounter, this`log
      ensures View() == SimModel.CheckStopTriggers(cfg, old(View()), visit, symbol, price) && Keyed()
    {
      var ids := StopHits(View(), visit, symbol, price);
      var filledIds := [];
      for i := 0 to |ids|
        invariant Keyed() && View() == TriggerEach(cfg, old(View()), ids[..i], price)
        invariant filledIds == Executed(cfg, old(View()), ids[..i], price)
      {
        assert ids[..i + 1][..i] == ids[..i];
        TriggerKeepsPlans(cfg, old(View()), ids[..i], price);
        var executed := TriggerOne(ids[i], price);
        if executed {
          filledIds := filledIds + [ids[i]];
        }
      }
      assert ids[..|ids|] == ids;
      CheckOcaFor(filledIds);
    }

    /** A price move; the two walks of the order table happen in whatever order the table gives them. */
    method SetMarketPrice(symbol: string, price: real, limitVisit: seq<int>, stopVisit: seq<int>)
      requires Keyed()
      modifies this
      ensures View() == SimModel.SetMarketPrice(cfg, old(View()), symbol, price, limitVisit, stopVisit) && Keyed()
    {
      marketPrices := marketPrices[symbol := price];
      CheckLimitFills(limitVisit, symbol, price);
      CheckStopTriggers(stopVisit, symbol, price);
    }

    method NextOrderId() returns (id: int)
      modifies this`nextId
      ensures id == old(nextId) && View() == Step(cfg, old(View()), NextId)
    {
      id := nextId;
      nextId := nextId + 1;
    }

    method PlaceOrder(spec: Spec)
      requires Keyed()
      modifies this
      ensures View() == SimModel.PlaceOrder(cfg, old(View()), spec) && Keyed()
    {
      if spec.id in orders {
        var o := orders[spec.id];
        o := o.(limitPrice := OrKeep(spec.limitPrice, o.limitPrice), stopPrice := OrKeep(spec.stopPrice, o.stopPrice));
        orders := orders[spec.id := o];
        var status := if o.status.Triggered? then Reported.PreSubmitted else Reported.Submitted;
        log := log + [StatusChanged(spec.id, status, o.filledQty, o.Remaining(), o.avgFillPrice)];
        return;
      }
      orderCount := orderCount + 1;
      var rejected := ShouldReject(cfg, orderCount);
      PlaceNew(spec, rejected);
    }

    /** The rest of PlaceOrder for an id not seen before, its order number already counted. */
    method PlaceNew(spec: Spec, rejected: bool)
      requires Keyed() && spec.id !in orders && orderCount > 0
      modifies this`orders, this`links, this`cash, this`positions, this`realizedPnl, this`execCounter, this`log
      ensures View() == SimModel.PlaceNew(cfg, old(View().(orderCount := orderCount - 1)), spec, rejected) && Keyed()
    {
      orders := orders[spec.id := NewOrder(spec, if rejected then Status.Rejected else Status.Held)];
      if rejected {
        log := log + [Refused(spec.id)];
        return;
      }
      if spec.parentId.Some? {
        var parent := spec.parentId.value;
        links := links[parent := LinksOf(View(), parent) + [spec.id]];
      }
      if spec.transmit {
        ActivateBracket(Root(spec));
      }
    }

    method CancelOrder(id: int)
      requires Keyed()
      modifies this`orders, this`log
      ensures View() == SimModel.CancelOrder(old(View()), id) && Keyed()
    {
      if id !in orders || orders[id].status.Terminal() {
        return;
      }
      CancelOrderInner(id);
      var children := LinksOf(View(), id);
      ghost var own := View();
      for i := 0 to |children|
        invariant Keyed() && View() == CancelEach(own, children[..i])
      {
        assert children[..i + 1][..i] == children[..i];
        CancelOrderInner(children[i]);
      }
      assert children[..|children|] == children;
    }

    /** Err when there is no such order. */
    method ModifyOrder(id: int, change: Change) returns (found: bool)
      requires Keyed()
      modifies this`orders
      ensures found == (id in old(orders))
      ensures View() == SimModel.ModifyOrder(old(View()), id, change) && Keyed()
    {
      if id !in orders {
        return false;
      }
      var o := orders[id];
      orders := orders[id := o.(quantity := Or(change.quantity, o.quantity),
                                limitPrice := OrKeep(change.limitPrice, o.limitPrice),
                                stopPrice := OrKeep(change.stopPrice, o.stopPrice),
                                tif := Or(change.tif, o.tif),
                                outsideRth := Or(change.outsideRth, o.outsideRth))];
      return true;
    }
  }
}
