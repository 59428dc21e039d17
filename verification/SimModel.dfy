/**
 The simulated broker's state and its transitions, written on values.

 The class SimOrderClient updates the same state in place, and each of its methods is proved to
 compute the transition defined here; the whole-run theorems are about these transitions.
 Prices and quantities are exact reals.
 */
module SimModel {
  import opened Wrappers

  datatype Action = Buy | Sell

  datatype OrderType =
    | Market | Limit | Stop | StopLimit | TrailingStop | MarketOnClose | LimitOnClose
    | MarketIfTouched | LimitIfTouched | PegToMarket | PegToMidpoint | Relative | Volatility

  datatype Tif = Day | Gtc | Opg | Ioc | Fok | Dtc | Gtd

  datatype Status = Held | Working | Triggered | PartiallyFilled | Filled | Cancelled | Rejected {
    predicate Terminal() { Filled? || Cancelled? || Rejected? }
  }

  datatype Order = Order(
    id: int, symbol: string, action: Action, orderType: OrderType, quantity: real,
    limitPrice: Option<real>, stopPrice: Option<real>, parentId: Option<int>, transmit: bool,
    status: Status, filledQty: NonNeg, avgFillPrice: real, tif: Tif, outsideRth: bool)
  {
    function Remaining(): real { quantity - filledQty }
  }

  datatype Position = Position(quantity: real, avgCost: real)

  /** The status vocabulary of the broadcast events. */
  datatype Reported = PreSubmitted | Submitted | PartiallyFilled | Filled | Cancelled | Rejected

  datatype Event =
    | Accepted(id: int)
    | StatusChanged(id: int, status: Reported, filled: real, remaining: real, avgFillPrice: real)
    | Execution(id: int, execId: int, shares: real, price: real)
    | Commission(execId: int, commission: real, realized: Option<real>)
    | Refused(id: int)
    | Withdrawn(id: int)

  datatype Config = Config(
    instant: bool, initialCash: real, commissionPerShare: real, fillThreshold: real,
    fillTranches: nat, rejectionRate: real, nextIdSeed: int, spread: real)
  {
    /** The per-share charge after the floor at zero. */
    function Rate(): real { Max(commissionPerShare, 0.0) }
  }

  datatype State = State(
    orders: map<int, Order>, links: map<int, seq<int>>, prices: map<string, real>,
    positions: map<string, Position>, cash: real, realized: real, orderCount: nat,
    nextId: int, execCounter: int, log: seq<Event>)

  function Initial(cfg: Config): State {
    State(map[], map[], map[], map[], cfg.initialCash, 0.0, 0, cfg.nextIdSeed, 1, [])
  }

  // ---------------------------------------------------------------- positions and cash

  function Signed(action: Action, shares: real): real { if action.Buy? then shares else -shares }

  /** IEEE signum: zero counts as positive. */
  function Signum(x: real): real { if x >= 0.0 then 1.0 else -1.0 }

  function PositionOf(positions: map<string, Position>, symbol: string): Position {
    if symbol in positions then positions[symbol] else Position(0.0, 0.0)
  }

  predicate Opens(quantity: real, signed: real) {
    Signum(quantity) == Signum(signed) || quantity == 0.0
  }

  function Increased(pos: Position, signed: real, price: real): Position {
    var quantity := pos.quantity + signed;
    var totalCost := pos.avgCost * Abs(pos.quantity) + price * Abs(signed);
    Position(quantity, if Abs(quantity) > 0.0 then totalCost / Abs(quantity) else pos.avgCost)
  }

  /** The closed quantity, carrying the sign of the position it closes. */
  function Closed(quantity: real, signed: real): real {
    Min(Abs(signed), Abs(quantity)) * Signum(quantity)
  }

  function CloseRatio(quantity: real, signed: real): real
    requires signed != 0.0
  {
    Min(Abs(signed), Abs(quantity)) / Abs(signed)
  }

  function Reduced(pos: Position, signed: real, price: real): Position {
    var quantity := pos.quantity + signed;
    Position(quantity, if quantity == 0.0 then 0.0
                       else if Signum(quantity) != Signum(pos.quantity) then price
                       else pos.avgCost)
  }

  /** The profit on the closed shares, less their share of the commission. */
  function NetGain(pos: Position, signed: real, price: real, commission: real): real
    requires signed != 0.0
  {
    (price - pos.avgCost) * Closed(pos.quantity, signed) - CloseRatio(pos.quantity, signed) * commission
  }

  /** The position after an execution, and the profit it realises when it closes shares. */
  function ApplyToPosition(pos: Position, signed: real, price: real, commission: real): (Position, Option<real>)
    requires signed != 0.0
  {
    if Opens(pos.quantity, signed) then (Increased(pos, signed, price), None)
    else (Reduced(pos, signed, price), Some(NetGain(pos, signed, price, commission)))
  }

  function GainOf(realized: Option<real>): real { if realized.Some? then realized.value else 0.0 }

  /** Books one execution: position, cash, realised profit. */
  function ApplyFill(s: State, symbol: string, action: Action, shares: Pos, price: real, commission: real)
    : (State, Option<real>)
  {
    var (pos, realized) := ApplyToPosition(PositionOf(s.positions, symbol), Signed(action, shares), price, commission);
    (s.(positions := s.positions[symbol := pos],
        cash := s.cash - Signed(action, shares * price) - commission,
        realized := s.realized + GainOf(realized)),
     realized)
  }

  // ---------------------------------------------------------------- fills

  function CommissionFor(cfg: Config, shares: real): real { Max(shares * cfg.commissionPerShare, 0.0) }

  function AverageAfter(o: Order, shares: Pos, price: real): real {
    if o.filledQty == 0.0 then price
    else (o.avgFillPrice * o.filledQty + price * shares) / (o.filledQty + shares)
  }

  /** The order after one tranche; its status is settled only after the last one. */
  function AfterTranche(o: Order, shares: Pos, price: real): Order {
    o.(filledQty := o.filledQty + shares, avgFillPrice := AverageAfter(o, shares, price))
  }

  function TrancheStatus(o: Order, last: bool): Reported {
    if o.Remaining() <= 0.0 && last then Reported.Filled
    else if o.filledQty > 0.0 then Reported.PartiallyFilled
    else Reported.Submitted
  }

  function Tranche(cfg: Config, s: State, id: int, shares: Pos, price: real, last: bool): State
    requires id in s.orders
  {
    var o := s.orders[id];
    var commission := CommissionFor(cfg, shares);
    var o' := AfterTranche(o, shares, price);
    var (booked, realized) := ApplyFill(s, o.symbol, o.action, shares, price, commission);
    booked.(orders := s.orders[id := o'], execCounter := s.execCounter + 1,
      log := s.log + [Execution(o.id, s.execCounter, shares, price),
                      Commission(s.execCounter, commission, realized),
                      StatusChanged(o.id, TrancheStatus(o', last), o'.filledQty, Max(o'.Remaining(), 0.0),
                                    o'.avgFillPrice)])
  }

  function TrancheCount(cfg: Config, shares: real): (n: nat)
    ensures n >= 1
  {
    if cfg.fillThreshold > 0.0 && shares > cfg.fillThreshold && cfg.fillTranches > 1
    then cfg.fillTranches else 1
  }

  /** The first `i` of `n` equal tranches. */
  function Tranches(cfg: Config, s: State, id: int, i: nat, n: nat, size: Pos, price: real): (r: State)
    requires id in s.orders && i <= n
    ensures r.orders.Keys == s.orders.Keys
  {
    if i == 0 then s
    else Tranche(cfg, Tranches(cfg, s, id, i - 1, n, size, price), id, size, price, i == n)
  }

  function SettledStatus(o: Order): Status {
    if o.Remaining() <= 0.0 then Status.Filled
    else if o.filledQty > 0.0 then Status.PartiallyFilled
    else o.status
  }

  /** A fill of up to `shares`; an order with nothing remaining is left alone. */
  function ExecuteFill(cfg: Config, s: State, id: int, shares: real, price: real): State
    requires id in s.orders && s.orders[id].Remaining() > 0.0 ==> shares > 0.0
  {
    if id !in s.orders || s.orders[id].Remaining() <= 0.0 then s
    else
      var fill: Pos := Min(shares, s.orders[id].Remaining());
      var n := TrancheCount(cfg, fill);
      var filled := Tranches(cfg, s, id, n, n, Share(fill, n), price);
      var o := filled.orders[id];
      filled.(orders := filled.orders[id := o.(status := SettledStatus(o))])
  }

  function Share(x: Pos, n: nat): Pos
    requires n >= 1
  {
    x / n as real
  }

  // ---------------------------------------------------------------- market prices

  const DEFAULT_PRICE := 100.0

  function MarketPrice(s: State, symbol: string): real {
    if symbol in s.prices then s.prices[symbol] else DEFAULT_PRICE
  }

  function MarketFillPrice(cfg: Config, base: real, action: Action): real {
    base + Signed(action, cfg.spread / 2.0)
  }

  function FillMarketOrder(cfg: Config, s: State, id: int): State {
    if id !in s.orders then s
    else
      var o := s.orders[id];
      ExecuteFill(cfg, s, id, o.quantity, MarketFillPrice(cfg, MarketPrice(s, o.symbol), o.action))
  }

  // ---------------------------------------------------------------- cancels and one-cancels-all

  function CancelInner(s: State, id: int): State {
    if id !in s.orders || s.orders[id].status.Terminal() then s
    else
      var o := s.orders[id];
      s.(orders := s.orders[id := o.(status := Status.Cancelled)],
         log := s.log + [StatusChanged(id, Reported.Cancelled, o.filledQty, o.Remaining(), o.avgFillPrice),
                         Withdrawn(id)])
  }

  function CancelEach(s: State, ids: seq<int>): State
    decreases |ids|
  {
    if ids == [] then s else CancelInner(CancelEach(s, ids[..|ids| - 1]), ids[|ids| - 1])
  }

  function CancelOthers(s: State, ids: seq<int>, except: int): State
    decreases |ids|
  {
    if ids == [] then s
    else
      var before := CancelOthers(s, ids[..|ids| - 1], except);
      var id := ids[|ids| - 1];
      if id != except then CancelInner(before, id) else before
  }

  function LinksOf(s: State, parent: int): seq<int> {
    if parent in s.links then s.links[parent] else []
  }

  /** Cancels the siblings of a filled child. */
  function CheckOca(s: State, filled: int): State {
    if filled !in s.orders then s
    else match s.orders[filled].parentId
      case None => s
      case Some(p) => CancelOthers(s, LinksOf(s, p), filled)
  }

  function CheckOcaEach(s: State, ids: seq<int>): State
    decreases |ids|
  {
    if ids == [] then s else CheckOca(CheckOcaEach(s, ids[..|ids| - 1]), ids[|ids| - 1])
  }

  // ---------------------------------------------------------------- bracket activation

  function ActivatedStatus(o: Order, parentFilled: bool): Status {
    if parentFilled && !(o.orderType.Stop? || o.orderType.StopLimit?) then Status.Working else Status.Triggered
  }

  function ActivateChild(s: State, id: int, parentFilled: bool): State {
    if id !in s.orders || !s.orders[id].status.Held? then s
    else
      var o := s.orders[id];
      var status := ActivatedStatus(o, parentFilled);
      s.(orders := s.orders[id := o.(status := status)],
         log := s.log + if status.Working?
                        then [Accepted(id), StatusChanged(id, Reported.Submitted, 0.0, o.quantity, 0.0)]
                        else [StatusChanged(id, Reported.PreSubmitted, 0.0, o.quantity, 0.0)])
  }

  function ActivateEach(s: State, ids: seq<int>, parentFilled: bool): State
    decreases |ids|
  {
    if ids == [] then s
    else ActivateChild(ActivateEach(s, ids[..|ids| - 1], parentFilled), ids[|ids| - 1], parentFilled)
  }

  function StartWorking(s: State, id: int): State
    requires id in s.orders
  {
    var o := s.orders[id];
    s.(orders := s.orders[id := o.(status := Status.Working)],
       log := s.log + [Accepted(id), StatusChanged(id, Reported.Submitted, 0.0, o.quantity, 0.0)])
  }

  predicate IsFilled(s: State, id: int) { id in s.orders && s.orders[id].status.Filled? }

  function OpenParent(cfg: Config, s: State, parent: int): State
    requires parent in s.orders
  {
    var working := StartWorking(s, parent);
    if s.orders[parent].orderType.Market? && cfg.instant then FillMarketOrder(cfg, working, parent) else working
  }

  function ActivateBracket(cfg: Config, s: State, parent: int): State {
    if parent !in s.orders || !s.orders[parent].status.Held? then s
    else
      var active := OpenParent(cfg, s, parent);
      ActivateEach(active, LinksOf(active, parent), IsFilled(active, parent))
  }

  // ---------------------------------------------------------------- price moves

  predicate Touches(action: Action, price: real, limit: real) {
    if action.Buy? then price <= limit else price >= limit
  }

  function LimitFillPrice(action: Action, price: real, limit: real): real {
    if action.Buy? then Min(limit, price) else Max(limit, price)
  }

  predicate LimitHit(o: Order, symbol: string, price: real) {
    o.symbol == symbol && o.status.Working? && o.orderType.Limit?
    && o.limitPrice.Some? && Touches(o.action, price, o.limitPrice.value)
  }

  /** Working limit orders the price reaches, in the order the table is visited. */
  function LimitHits(s: State, visit: seq<int>, symbol: string, price: real): seq<(int, real)>
    decreases |visit|
  {
    if visit == [] then []
    else
      var rest := LimitHits(s, visit[..|visit| - 1], symbol, price);
      var id := visit[|visit| - 1];
      if id in s.orders && LimitHit(s.orders[id], symbol, price)
      then rest + [(id, LimitFillPrice(s.orders[id].action, price, s.orders[id].limitPrice.value))]
      else rest
  }

  function FillEach(cfg: Config, s: State, fills: seq<(int, real)>): State
    decreases |fills|
  {
    if fills == [] then s
    else
      var before := FillEach(cfg, s, fills[..|fills| - 1]);
      var (id, price) := fills[|fills| - 1];
      if id in before.orders then ExecuteFill(cfg, before, id, before.orders[id].Remaining(), price) else before
  }

  function Ids(fills: seq<(int, real)>): seq<int> { seq(|fills|, i requires 0 <= i < |fills| => fills[i].0) }

  function CheckLimitFills(cfg: Config, s: State, visit: seq<int>, symbol: string, price: real): State {
    var fills := LimitHits(s, visit, symbol, price);
    CheckOcaEach(FillEach(cfg, s, fills), Ids(fills))
  }

  predicate StopHit(o: Order, symbol: string, price: real) {
    o.symbol == symbol && o.status.Triggered? && (o.orderType.Stop? || o.orderType.StopLimit?)
    && o.stopPrice.Some?
    && (if o.action.Sell? then price <= o.stopPrice.value else price >= o.stopPrice.value)
  }

  function StopHits(s: State, visit: seq<int>, symbol: string, price: real): seq<int>
    decreases |visit|
  {
    if visit == [] then []
    else
      var rest := StopHits(s, visit[..|visit| - 1], symbol, price);
      var id := visit[|visit| - 1];
      if id in s.orders && StopHit(s.orders[id], symbol, price) then rest + [id] else rest
  }

  /** The price at which a triggered stop executes at once; a stop-limit off its limit does not. */
  function StopExecution(cfg: Config, o: Order, price: real): Option<real> {
    if o.orderType.Stop? then Some(MarketFillPrice(cfg, price, o.action))
    else if o.limitPrice.Some? && Touches(o.action, price, o.limitPrice.value) then Some(o.limitPrice.value)
    else None
  }

  function TriggerStop(cfg: Config, s: State, id: int, price: real): State {
    if id !in s.orders then s
    else
      var o := s.orders[id];
      var working := s.(orders := s.orders[id := o.(status := Status.Working)],
                        log := s.log + [StatusChanged(id, Reported.Submitted, o.filledQty, o.Remaining(), 0.0)]);
      match StopExecution(cfg, o, price)
      case None => working
      case Some(fill) => ExecuteFill(cfg, working, id, o.Remaining(), fill)
  }

  function TriggerEach(cfg: Config, s: State, ids: seq<int>, price: real): State
    decreases |ids|
  {
    if ids == [] then s
    else TriggerStop(cfg, TriggerEach(cfg, s, ids[..|ids| - 1], price), ids[|ids| - 1], price)
  }

  /** The triggered orders that executed, hence whose siblings are to be cancelled. */
  function Executed(cfg: Config, s: State, ids: seq<int>, price: real): seq<int>
    decreases |ids|
  {
    if ids == [] then []
    else
      var rest := Executed(cfg, s, ids[..|ids| - 1], price);
      var id := ids[|ids| - 1];
      if id in s.orders && StopExecution(cfg, s.orders[id], price).Some? then rest + [id] else rest
  }

  function CheckStopTriggers(cfg: Config, s: State, visit: seq<int>, symbol: string, price: real): State {
    var ids := StopHits(s, visit, symbol, price);
    CheckOcaEach(TriggerEach(cfg, s, ids, price), Executed(cfg, s, ids, price))
  }

  // ---------------------------------------------------------------- public operations

  datatype Spec = Spec(
    id: int, symbol: string, action: Action, orderType: OrderType, quantity: real,
    limitPrice: Option<real>, stopPrice: Option<real>, parentId: Option<int>, transmit: bool,
    tif: Tif, outsideRth: bool)

  datatype Change = Change(
    quantity: Option<real>, limitPrice: Option<real>, stopPrice: Option<real>,
    tif: Option<Tif>, outsideRth: Option<bool>)

  function Or<T>(update: Option<T>, current: T): T { if update.Some? then update.value else current }

  function OrKeep<T>(update: Option<T>, current: Option<T>): Option<T> { if update.Some? then update else current }

  /** Every n-th order is rejected, n being the rounded inverse of the rejection rate. */
  predicate ShouldReject(cfg: Config, count: nat) {
    cfg.rejectionRate > 0.0 &&
    var n := Round(1.0 / cfg.rejectionRate);
    n > 0 && count % n == 0
  }

  function NewOrder(spec: Spec, status: Status): Order {
    Order(spec.id, spec.symbol, spec.action, spec.orderType, spec.quantity, spec.limitPrice, spec.stopPrice,
          spec.parentId, spec.transmit, status, 0.0, 0.0, spec.tif, spec.outsideRth)
  }

  function Reprice(s: State, spec: Spec): State
    requires spec.id in s.orders
  {
    var o := s.orders[spec.id].(limitPrice := OrKeep(spec.limitPrice, s.orders[spec.id].limitPrice),
                                stopPrice := OrKeep(spec.stopPrice, s.orders[spec.id].stopPrice));
    s.(orders := s.orders[spec.id := o],
       log := s.log + [StatusChanged(spec.id, if o.status.Triggered? then Reported.PreSubmitted else Reported.Submitted,
                                     o.filledQty, o.Remaining(), o.avgFillPrice)])
  }

  function Record(s: State, spec: Spec, status: Status): State {
    s.(orders := s.orders[spec.id := NewOrder(spec, status)], orderCount := s.orderCount + 1)
  }

  function Link(s: State, parent: Option<int>, id: int): State {
    if parent.Some? then s.(links := s.links[parent.value := LinksOf(s, parent.value) + [id]]) else s
  }

  /** An order as it first enters the table: rejected, or held and linked to its parent. */
  function Enter(s: State, spec: Spec, rejected: bool): State {
    if rejected then
      var recorded := Record(s, spec, Status.Rejected);
      recorded.(log := s.log + [Refused(spec.id)])
    else
      Link(Record(s, spec, Status.Held), spec.parentId, spec.id)
  }

  /** The order whose bracket a transmitted order activates. */
  function Root(spec: Spec): int { Or(spec.parentId, spec.id) }

  function PlaceNew(cfg: Config, s: State, spec: Spec, rejected: bool): State {
    var entered := Enter(s, spec, rejected);
    if spec.transmit && !rejected then ActivateBracket(cfg, entered, Root(spec)) else entered
  }

  function PlaceOrder(cfg: Config, s: State, spec: Spec): State {
    if spec.id in s.orders then Reprice(s, spec)
    else PlaceNew(cfg, s, spec, ShouldReject(cfg, s.orderCount + 1))
  }

  lemma {:induction false} PlaceIs(cfg: Config, s: State, spec: Spec) returns (rejected: bool)
    requires spec.id !in s.orders
    ensures rejected == ShouldReject(cfg, s.orderCount + 1)
    ensures PlaceOrder(cfg, s, spec) == PlaceNew(cfg, s, spec, rejected)
  {
    rejected := ShouldReject(cfg, s.orderCount + 1);
  }

  function CancelOrder(s: State, id: int): State {
    if id !in s.orders || s.orders[id].status.Terminal() then s
    else
      var own := CancelInner(s, id);
      CancelEach(own, LinksOf(own, id))
  }

  function ModifyOrder(s: State, id: int, change: Change): State {
    if id !in s.orders then s
    else
      var o := s.orders[id];
      s.(orders := s.orders[id := o.(quantity := Or(change.quantity, o.quantity),
                                     limitPrice := OrKeep(change.limitPrice, o.limitPrice),
                                     stopPrice := OrKeep(change.stopPrice, o.stopPrice),
                                     tif := Or(change.tif, o.tif),
                                     outsideRth := Or(change.outsideRth, o.outsideRth))])
  }

  /** `limitVisit` and `stopVisit` are the orders in which the two passes walk the order table. */
  function SetMarketPrice(cfg: Config, s: State, symbol: string, price: real, limitVisit: seq<int>, stopVisit: seq<int>)
    : State
  {
    var priced := s.(prices := s.prices[symbol := price]);
    var limited := CheckLimitFills(cfg, priced, limitVisit, symbol, price);
    CheckStopTriggers(cfg, limited, stopVisit, symbol, price)
  }

  // ---------------------------------------------------------------- runs

  datatype Op =
    | NextId
    | Place(spec: Spec)
    | Cancel(id: int)
    | Modify(target: int, change: Change)
    | SetPrice(symbol: string, price: real, limitVisit: seq<int>, stopVisit: seq<int>)

  function Step(cfg: Config, s: State, op: Op): State {
    match op
    case NextId => s.(nextId := s.nextId + 1)
    case Place(spec) => PlaceOrder(cfg, s, spec)
    case Cancel(id) => CancelOrder(s, id)
    case Modify(id, change) => ModifyOrder(s, id, change)
    case SetPrice(symbol, price, v1, v2) => SetMarketPrice(cfg, s, symbol, price, v1, v2)
  }

  function Run(cfg: Config, ops: seq<Op>): State
    decreases |ops|
  {
    if ops == [] then Initial(cfg) else Step(cfg, Run(cfg, ops[..|ops| - 1]), ops[|ops| - 1])
  }

  /** A walk over the whole table, every order exactly once. */
  ghost predicate Enumerates(visit: seq<int>, orders: map<int, Order>) {
    && (forall i, j | 0 <= i < j < |visit| :: visit[i] != visit[j])
    && (forall id :: id in visit <==> id in orders)
  }

  /** Both passes of a price move walk the whole table. */
  ghost predicate Walks(s: State, op: Op) {
    op.SetPrice? ==> Enumerates(op.limitVisit, s.orders) && Enumerates(op.stopVisit, s.orders)
  }

  /** Every price move of the run walks the table as it then is. */
  ghost predicate Proper(cfg: Config, ops: seq<Op>)
    decreases |ops|
  {
    ops == [] ||
    (Proper(cfg, ops[..|ops| - 1]) && Walks(Run(cfg, ops[..|ops| - 1]), ops[|ops| - 1]))
  }
}
