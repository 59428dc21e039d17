/**
 Bracket submission: entry, take-profit and stop-loss are placed with only the last leg transmitted,
 and children of a market entry stay put until it has filled.
 */
module SimSubmitter {
  import opened Wrappers
  import opened SimModel
  import opened SimEffects
  import opened SimPrices
  import opened SimLifecycle
  import opened SimTheorems
  import opened SimBrackets

  // ---------------------------------------------------------------- the legs

  datatype EntryKind = MarketEntry | LimitEntry | StopEntry | StopLimitEntry | TrailingStopEntry

  datatype TimeInForce = UntilDay | UntilCancelled | Immediate | UntilDate | Opening

  datatype TakeProfit = TakeProfit(price: real, tif: Option<TimeInForce>)

  datatype StopLoss = StopLoss(stopPrice: real, limitPrice: Option<real>, tif: Option<TimeInForce>)

  datatype Params = Params(
    symbol: string, action: Action, quantity: real, entryKind: EntryKind, entryPrice: Option<real>,
    entryStopPrice: Option<real>, takeProfit: Option<TakeProfit>, stopLoss: Option<StopLoss>, outsideRth: bool)
  {
    predicate HasChildren() { takeProfit.Some? || stopLoss.Some? }
  }

  datatype Handle = Handle(entryId: int, tpId: Option<int>, slId: Option<int>)

  function Opposite(action: Action): Action { if action.Buy? then Sell else Buy }

  function TypeOf(kind: EntryKind): OrderType {
    match kind
    case MarketEntry => Market
    case LimitEntry => Limit
    case StopEntry => Stop
    case StopLimitEntry => StopLimit
    case TrailingStopEntry => TrailingStop
  }

  function TifFrom(tif: Option<TimeInForce>): Tif {
    match Or(tif, UntilCancelled)
    case UntilDay => Day
    case UntilCancelled => Gtc
    case Immediate => Ioc
    case UntilDate => Gtd
    case Opening => Opg
  }

  function EntrySpec(id: int, p: Params, transmit: bool): Spec {
    Spec(id, p.symbol, p.action, TypeOf(p.entryKind), p.quantity, p.entryPrice, p.entryStopPrice, None, transmit,
         TifFrom(None), p.outsideRth)
  }

  function TpSpec(id: int, parent: int, p: Params, tp: TakeProfit, transmit: bool): Spec {
    Spec(id, p.symbol, Opposite(p.action), Limit, p.quantity, Some(tp.price), None, Some(parent), transmit,
         TifFrom(tp.tif), p.outsideRth)
  }

  function SlSpec(id: int, parent: int, p: Params, sl: StopLoss, transmit: bool): Spec {
    Spec(id, p.symbol, Opposite(p.action), if sl.limitPrice.Some? then StopLimit else Stop, p.quantity, sl.limitPrice,
         Some(sl.stopPrice), Some(parent), transmit, TifFrom(sl.tif), p.outsideRth)
  }

  // ---------------------------------------------------------------- submission

  /** The ids allocated up front, in the order entry, take-profit, stop-loss. */
  function Allocate(next: int, p: Params): Handle {
    var tpId := if p.takeProfit.Some? then Some(next + 1) else None;
    var slId := if p.stopLoss.Some? then Some(next + if p.takeProfit.Some? then 2 else 1) else None;
    Handle(next, tpId, slId)
  }

  function Allocated(p: Params): int {
    1 + (if p.takeProfit.Some? then 1 else 0) + if p.stopLoss.Some? then 1 else 0
  }

  /** The legs in the order they are placed; only the last one carries the transmit flag. */
  function Legs(h: Handle, p: Params): seq<Spec>
    requires h.tpId.Some? <==> p.takeProfit.Some?
    requires h.slId.Some? <==> p.stopLoss.Some?
  {
    [EntrySpec(h.entryId, p, !p.HasChildren())]
    + (if p.takeProfit.Some? then [TpSpec(h.tpId.value, h.entryId, p, p.takeProfit.value, p.stopLoss.None?)] else [])
    + if p.stopLoss.Some? then [SlSpec(h.slId.value, h.entryId, p, p.stopLoss.value, true)] else []
  }

  function PlaceAll(cfg: Config, s: State, specs: seq<Spec>): State
    decreases |specs|
  {
    if specs == [] then s else PlaceOrder(cfg, PlaceAll(cfg, s, specs[..|specs| - 1]), specs[|specs| - 1])
  }

  lemma {:induction false} PlaceAllPush(cfg: Config, s: State, specs: seq<Spec>, last: Spec)
    ensures PlaceAll(cfg, s, specs + [last]) == PlaceOrder(cfg, PlaceAll(cfg, s, specs), last)
  {
    assert (specs + [last])[..|specs|] == specs;
  }

  function PlaceBracket(cfg: Config, s: State, p: Params): (State, Handle) {
    var h := Allocate(s.nextId, p);
    (PlaceAll(cfg, s.(nextId := s.nextId + Allocated(p)), Legs(h, p)), h)
  }

  /** Submission takes the ids first, and places the legs on what that leaves. */
  lemma {:induction false} BracketIs(cfg: Config, s: State, p: Params, h: Handle, ready: State)
    requires h == Allocate(s.nextId, p) && ready == s.(nextId := s.nextId + Allocated(p))
    ensures PlaceBracket(cfg, s, p) == (PlaceAll(cfg, ready, Legs(h, p)), h)
  {
  }

  // ---------------------------------------------------------------- transmit last

  /** No order and no child refers to any id from `next` on. */
  ghost predicate Unused(s: State, next: int) {
    (forall id | id in s.orders :: id < next) && (forall p | p in s.links :: p < next)
  }

  /** The status with which the k-th further order enters the table. */
  function EntryStatus(cfg: Config, s: State, k: nat): Status {
    if ShouldReject(cfg, s.orderCount + k) then Status.Rejected else Status.Held
  }

  /** A bracket's legs: consecutive ids from `base`, the first the parent of the others. */
  ghost predicate Chain(specs: seq<Spec>, base: int) {
    && (forall i | 0 <= i < |specs| :: specs[i].id == base + i)
    && (forall i | 0 <= i < |specs| :: specs[i].parentId == if i == 0 then None else Some(base))
  }

  /** The statuses with which the next `n` orders enter the table. */
  function EntryStatuses(cfg: Config, s: State, n: nat): (r: seq<Status>)
    ensures |r| == n && forall i | 0 <= i < n :: r[i] == EntryStatus(cfg, s, i + 1)
    ensures Entering(r)
  {
    if n == 0 then [] else EntryStatuses(cfg, s, n - 1) + [EntryStatus(cfg, s, n)]
  }

  /** What placing legs untransmitted leaves: each leg as it entered, and everything else as it was. */
  ghost predicate Waiting(s: State, r: State, specs: seq<Spec>, statuses: seq<Status>, base: int)
    requires |statuses| == |specs|
  {
    && r.cash == s.cash && r.positions == s.positions && r.prices == s.prices
    && r.orderCount == s.orderCount + |specs|
    && (forall id | id in s.orders :: id in r.orders && r.orders[id] == s.orders[id])
    && (forall id | id in r.orders && id !in s.orders :: base <= id < base + |specs|)
    && (forall i | 0 <= i < |specs| ::
          specs[i].id in r.orders && r.orders[specs[i].id] == NewOrder(specs[i], statuses[i]))
    && (forall c | c in LinksOf(r, base) :: base < c < base + |specs|)
    && (forall i | 0 < i < |specs| && statuses[i].Held? :: specs[i].id in LinksOf(r, base))
  }

  lemma {:induction false} LaterEntry(cfg: Config, s: State, before: State, k: nat)
    requires before.orderCount == s.orderCount + k
    ensures EntryStatus(cfg, before, 1) == EntryStatus(cfg, s, k + 1)
  {
  }

  lemma {:induction false} UntransmittedLeg(cfg: Config, s: State, spec: Spec, status: Status)
    requires spec.id !in s.orders && !spec.transmit && status == EntryStatus(cfg, s, 1)
    ensures PlaceOrder(cfg, s, spec) == Enter(s, spec, status.Rejected?)
  {
  }

  lemma {:induction false} NextLegWaits(s: State, before: State, specs: seq<Spec>, statuses: seq<Status>, base: int)
    requires Unused(s, base) && specs != [] && Chain(specs, base) && |statuses| == |specs|
    requires Waiting(s, before, specs[..|specs| - 1], statuses[..|specs| - 1], base)
    requires statuses[|specs| - 1].Held? || statuses[|specs| - 1].Rejected?
    ensures Waiting(s, Enter(before, specs[|specs| - 1], statuses[|specs| - 1].Rejected?), specs, statuses, base)
  {
    var init, last := specs[..|specs| - 1], specs[|specs| - 1];
    var r := Enter(before, last, statuses[|specs| - 1].Rejected?);
    assert r.orders == before.orders[last.id := NewOrder(last, statuses[|specs| - 1])];
    forall i | 0 <= i < |specs|
      ensures specs[i].id in r.orders && r.orders[specs[i].id] == NewOrder(specs[i], statuses[i])
    {
      if i < |init| { assert init[i] == specs[i]; }
    }
    forall i | 0 < i < |specs| && statuses[i].Held? ensures specs[i].id in LinksOf(r, base) {
      if i < |init| { assert init[i].id in LinksOf(before, base); }
    }
  }

  lemma {:induction false} FirstStatuses(cfg: Config, s: State, n: nat)
    ensures EntryStatuses(cfg, s, n + 1)[..n] == EntryStatuses(cfg, s, n)
  {
  }

  /** Until the last leg is placed no leg leaves Held but by rejection, and no money moves. */
  lemma {:induction false} LegsWaitForTheLast(cfg: Config, s: State, specs: seq<Spec>, base: int)
    requires Unused(s, base) && Chain(specs, base)
    requires forall i | 0 <= i < |specs| :: !specs[i].transmit
    ensures Waiting(s, PlaceAll(cfg, s, specs), specs, EntryStatuses(cfg, s, |specs|), base)
    decreases |specs|
  {
    if specs == [] {
      assert base !in s.links;
    } else {
      var init, last := specs[..|specs| - 1], specs[|specs| - 1];
      LegsWaitForTheLast(cfg, s, init, base);
      var before := PlaceAll(cfg, s, init);
      var statuses := EntryStatuses(cfg, s, |specs|);
      FirstStatuses(cfg, s, |init|);
      LaterEntry(cfg, s, before, |init|);
      UntransmittedLeg(cfg, before, last, statuses[|init|]);
      NextLegWaits(s, before, specs, statuses, base);
    }
  }

  lemma {:induction false} AllocationChains(p: Params, next: int)
    ensures var legs := Legs(Allocate(next, p), p);
            && Chain(legs, next) && |legs| == Allocated(p)
            && legs != [] && legs[|legs| - 1].transmit && (forall i | 0 <= i < |legs| - 1 :: !legs[i].transmit)
  {
  }

  /** The bracket goes live when neither its entry nor its last leg was rejected. */
  predicate GoesLive(statuses: seq<Status>)
    requires statuses != []
  {
    statuses[0].Held? && statuses[|statuses| - 1].Held?
  }

  /** A leg after submission: as it entered, or opened with the bracket. */
  function LegAfter(cfg: Config, s: State, specs: seq<Spec>, statuses: seq<Status>, i: nat): Order
    requires i < |specs| == |statuses|
  {
    var entry := OpenedParent(cfg, s, NewOrder(specs[0], Status.Held));
    if !GoesLive(statuses) || statuses[i].Rejected? then NewOrder(specs[i], statuses[i])
    else if i == 0 then entry
    else NewOrder(specs[i], ActivatedStatus(NewOrder(specs[i], Status.Held), entry.status.Filled?))
  }

  ghost predicate LegsPlaced(cfg: Config, s: State, r: State, specs: seq<Spec>, statuses: seq<Status>)
    requires |statuses| == |specs|
  {
    && (forall id | id in s.orders :: id in r.orders && r.orders[id] == s.orders[id])
    && (forall i | 0 <= i < |specs| ::
          specs[i].id in r.orders && r.orders[specs[i].id] == LegAfter(cfg, s, specs, statuses, i))
  }

  lemma {:induction false} WaitingSettles(s: State, r: State, specs: seq<Spec>, statuses: seq<Status>, base: int)
    requires |statuses| == |specs| && Settled(s) && Chain(specs, base) && Waiting(s, r, specs, statuses, base)
    requires Entering(statuses)
    ensures Settled(r)
  {
    forall id | id in r.orders ensures SettledOrder(r.orders[id], id) {
      if id !in s.orders { assert specs[id - base].id == id; }
    }
  }

  ghost predicate Entering(statuses: seq<Status>) {
    forall i | 0 <= i < |statuses| :: statuses[i].Held? || statuses[i].Rejected?
  }

  lemma {:induction false} LegGoesLive(cfg: Config, s: State, r: State, specs: seq<Spec>, statuses: seq<Status>,
                                       base: int, i: nat)
    requires |statuses| == |specs| && i < |specs| && Settled(r) && Chain(specs, base) && Entering(statuses)
    requires Waiting(s, r, specs, statuses, base) && GoesLive(statuses)
    ensures var r' := ActivateBracket(cfg, r, base);
            specs[i].id in r'.orders && r'.orders[specs[i].id] == LegAfter(cfg, s, specs, statuses, i)
  {
    assert specs[0].id == base && r.orders[base] == NewOrder(specs[0], Status.Held);
    ActivateEffect(cfg, r, base);
    assert specs[i].id == base + i;
  }

  lemma {:induction false} OthersStay(cfg: Config, s: State, r: State, specs: seq<Spec>, statuses: seq<Status>,
                                      base: int, id: int)
    requires |statuses| == |specs| && specs != [] && Settled(r) && Unused(s, base) && Chain(specs, base)
    requires Waiting(s, r, specs, statuses, base) && GoesLive(statuses) && id in s.orders
    ensures var r' := ActivateBracket(cfg, r, base); id in r'.orders && r'.orders[id] == s.orders[id]
  {
    assert specs[0].id == base && r.orders[base] == NewOrder(specs[0], Status.Held);
    ActivateEffect(cfg, r, base);
  }

  lemma {:induction false} WaitingGoesLive(cfg: Config, s: State, r: State, specs: seq<Spec>, statuses: seq<Status>,
                                           base: int)
    requires |statuses| == |specs| && specs != [] && Settled(s) && Unused(s, base)
    requires Chain(specs, base) && Waiting(s, r, specs, statuses, base) && Entering(statuses)
    requires statuses[|specs| - 1].Held?
    ensures LegsPlaced(cfg, s, ActivateBracket(cfg, r, base), specs, statuses)
  {
    WaitingSettles(s, r, specs, statuses, base);
    if GoesLive(statuses) {
      var r' := ActivateBracket(cfg, r, base);
      forall id | id in s.orders ensures id in r'.orders && r'.orders[id] == s.orders[id] {
        OthersStay(cfg, s, r, specs, statuses, base, id);
      }
      forall i | 0 <= i < |specs|
        ensures specs[i].id in r'.orders && r'.orders[specs[i].id] == LegAfter(cfg, s, specs, statuses, i)
      {
        LegGoesLive(cfg, s, r, specs, statuses, base, i);
      }
    } else {
      assert specs[0].id == base && r.orders[base] == NewOrder(specs[0], Status.Rejected);
    }
  }

  lemma {:induction false} LastLeg(cfg: Config, s: State, spec: Spec, status: Status)
    requires spec.id !in s.orders && spec.transmit && status == EntryStatus(cfg, s, 1)
    ensures PlaceOrder(cfg, s, spec) == LastPlaced(cfg, s, spec, status)
  {
  }

  function LastPlaced(cfg: Config, s: State, spec: Spec, status: Status): State {
    var entered := Enter(s, spec, status.Rejected?);
    if status.Rejected? then entered else ActivateBracket(cfg, entered, Root(spec))
  }

  lemma {:induction false} LastLegGoesLive(cfg: Config, s: State, before: State, specs: seq<Spec>,
                                           statuses: seq<Status>, base: int)
    requires Settled(s) && Unused(s, base) && Chain(specs, base) && specs != [] && |statuses| == |specs|
    requires Waiting(s, before, specs[..|specs| - 1], statuses[..|specs| - 1], base) && Entering(statuses)
    ensures LegsPlaced(cfg, s, LastPlaced(cfg, before, specs[|specs| - 1], statuses[|specs| - 1]), specs, statuses)
  {
    var last, status := specs[|specs| - 1], statuses[|specs| - 1];
    NextLegWaits(s, before, specs, statuses, base);
    assert Root(last) == base;
    if status.Held? {
      WaitingGoesLive(cfg, s, Enter(before, last, false), specs, statuses, base);
    }
  }

  lemma {:induction false} FirstLegs(cfg: Config, s: State, specs: seq<Spec>, base: int) returns (before: State)
    requires Unused(s, base) && Chain(specs, base) && specs != []
    requires forall i | 0 <= i < |specs| - 1 :: !specs[i].transmit
    ensures before == PlaceAll(cfg, s, specs[..|specs| - 1])
    ensures Waiting(s, before, specs[..|specs| - 1], EntryStatuses(cfg, s, |specs|)[..|specs| - 1], base)
  {
    var init, statuses := specs[..|specs| - 1], EntryStatuses(cfg, s, |specs|);
    LegsWaitForTheLast(cfg, s, init, base);
    FirstStatuses(cfg, s, |init|);
    before := PlaceAll(cfg, s, init);
  }

  lemma {:induction false} LastLegIs(cfg: Config, s: State, before: State, last: Spec, status: Status, base: int,
                                     k: nat)
    requires Unused(s, base) && last.id == base + k && last.transmit
    requires before.orderCount == s.orderCount + k && status == EntryStatus(cfg, s, k + 1)
    requires forall id | id in before.orders && id !in s.orders :: id < base + k
    ensures PlaceOrder(cfg, before, last) == LastPlaced(cfg, before, last, status)
  {
    assert last.id !in before.orders;
    LastLeg(cfg, before, last, status);
  }

  lemma {:induction false} LastLegCompletes(cfg: Config, s: State, before: State, specs: seq<Spec>,
                                            statuses: seq<Status>, base: int)
    requires Settled(s) && Unused(s, base) && Chain(specs, base) && specs != [] && |statuses| == |specs|
    requires Waiting(s, before, specs[..|specs| - 1], statuses[..|specs| - 1], base) && Entering(statuses)
    requires specs[|specs| - 1].transmit && statuses[|specs| - 1] == EntryStatus(cfg, s, |specs|)
    ensures LegsPlaced(cfg, s, PlaceOrder(cfg, before, specs[|specs| - 1]), specs, statuses)
  {
    LastLegGoesLive(cfg, s, before, specs, statuses, base);
    LastLegIs(cfg, s, before, specs[|specs| - 1], statuses[|specs| - 1], base, |specs| - 1);
  }

  lemma {:induction false} ChainGoesLive(cfg: Config, s: State, specs: seq<Spec>, base: int)
    requires Settled(s) && Unused(s, base) && Chain(specs, base) && specs != []
    requires forall i | 0 <= i < |specs| - 1 :: !specs[i].transmit
    requires specs[|specs| - 1].transmit
    ensures LegsPlaced(cfg, s, PlaceAll(cfg, s, specs), specs, EntryStatuses(cfg, s, |specs|))
  {
    var statuses := EntryStatuses(cfg, s, |specs|);
    var before := FirstLegs(cfg, s, specs, base);
    LastLegCompletes(cfg, s, before, specs, statuses, base);
  }

  /**
   The whole outcome of a submission with fresh ids: every leg is Rejected, still Held because the
   entry or the last leg was rejected, or opened together with the bracket; no other order moves.
   */
  lemma {:induction false} BracketOutcome(cfg: Config, s: State, p: Params)
    requires Settled(s) && Unused(s, s.nextId)
    ensures var (r, h) := PlaceBracket(cfg, s, p);
            LegsPlaced(cfg, s, r, Legs(h, p), EntryStatuses(cfg, s, |Legs(h, p)|))
  {
    AllocationChains(p, s.nextId);
    var h, ready := Allocate(s.nextId, p), s.(nextId := s.nextId + Allocated(p));
    BracketIs(cfg, s, p, h, ready);
    LegsFromReady(cfg, s, ready, Legs(h, p), s.nextId);
  }

  lemma {:induction false} LegsFromReady(cfg: Config, s: State, ready: State, legs: seq<Spec>, base: int)
    requires Settled(s) && Unused(s, base) && Chain(legs, base) && legs != []
    requires ready == s.(nextId := ready.nextId)
    requires legs[|legs| - 1].transmit && forall i | 0 <= i < |legs| - 1 :: !legs[i].transmit
    ensures LegsPlaced(cfg, s, PlaceAll(cfg, ready, legs), legs, EntryStatuses(cfg, s, |legs|))
  {
    ChainGoesLive(cfg, ready, legs, base);
    SameCountSameStatuses(cfg, ready, s, |legs|);
    LegsIgnoreNextId(cfg, ready, s, PlaceAll(cfg, ready, legs), legs, EntryStatuses(cfg, s, |legs|));
  }

  lemma {:induction false} SameCountSameStatuses(cfg: Config, s: State, s': State, n: nat)
    requires s.orderCount == s'.orderCount
    ensures EntryStatuses(cfg, s, n) == EntryStatuses(cfg, s', n)
  {
    if n > 0 { SameCountSameStatuses(cfg, s, s', n - 1); }
  }

  lemma {:induction false} LegsIgnoreNextId(cfg: Config, s: State, s': State, r: State, specs: seq<Spec>,
                                            statuses: seq<Status>)
    requires |statuses| == |specs| && s.orders == s'.orders && s.prices == s'.prices
    requires LegsPlaced(cfg, s, r, specs, statuses)
    ensures LegsPlaced(cfg, s', r, specs, statuses)
  {
    forall i | 0 <= i < |specs| ensures LegAfter(cfg, s, specs, statuses, i) == LegAfter(cfg, s', specs, statuses, i) {}
  }

  // ---------------------------------------------------------------- children of a market entry

  ghost predicate Waits(cfg: Config, orders: map<int, Order>) {
    forall id | id in orders && orders[id].parentId.Some? && Live(orders[id])
                && InstantMarket(cfg, orders, orders[id].parentId.value) ::
      orders[orders[id].parentId.value].status.Filled?
  }

  ghost predicate Positive(orders: map<int, Order>) { forall id | id in orders :: orders[id].quantity > 0.0 }

  /** Quantities the caller sends are positive. */
  ghost predicate PositiveOp(op: Op) {
    (op.Place? ==> op.spec.quantity > 0.0)
    && (op.Modify? && op.change.quantity.Some? ==> op.change.quantity.value > 0.0)
  }

  /** Activation fills an instant market entry exactly when its quantity is positive. */
  lemma {:induction false} MarketEntryFillsIff(cfg: Config, s: State, parent: int)
    requires Settled(s) && parent in s.orders && s.orders[parent].status.Held?
    requires InstantMarket(cfg, s.orders, parent)
    ensures IsFilled(ActivateBracket(cfg, s, parent), parent) <==> s.orders[parent].quantity > 0.0
  {
    ActivateEffect(cfg, s, parent);
  }

  ghost predicate Patient(o: Order, o': Order) {
    Advances(o, o') && (o.quantity > 0.0 ==> o'.quantity > 0.0) && (Live(o') ==> Live(o))
  }

  ghost predicate AllPatient(orders: map<int, Order>, orders': map<int, Order>) {
    orders'.Keys == orders.Keys && forall id | id in orders :: Patient(orders[id], orders'[id])
  }

  lemma {:induction false} PatientOf(orders: map<int, Order>, orders': map<int, Order>, id: int)
    requires AllPatient(orders, orders') && id in orders
    ensures Patient(orders[id], orders'[id])
  {
  }

  lemma {:induction false} PatientKeepsWaiting(cfg: Config, orders: map<int, Order>, orders': map<int, Order>)
    requires Waits(cfg, orders) && Positive(orders) && AllPatient(orders, orders')
    ensures Waits(cfg, orders') && Positive(orders')
  {
    forall id | id in orders' && orders'[id].parentId.Some? && Live(orders'[id])
                && InstantMarket(cfg, orders', orders'[id].parentId.value)
      ensures orders'[orders'[id].parentId.value].status.Filled?
    {
      PatientOf(orders, orders', id);
      PatientOf(orders, orders', orders[id].parentId.value);
    }
    forall id | id in orders' ensures orders'[id].quantity > 0.0 { PatientOf(orders, orders', id); }
  }

  lemma {:induction false} ActivateKeepsWaiting(cfg: Config, s: State, parent: int)
    requires Tree(s.orders, s.links) && Waits(cfg, s.orders) && Positive(s.orders)
    requires parent in s.orders ==> s.orders[parent].parentId.None?
    ensures var r := ActivateBracket(cfg, s, parent); Waits(cfg, r.orders) && Positive(r.orders)
  {
    if parent in s.orders && s.orders[parent].status.Held? {
      var r := ActivateBracket(cfg, s, parent);
      ActivateEffect(cfg, s, parent);
      ActivateAdvances(cfg, s, parent);
      forall id | id in r.orders && r.orders[id].parentId.Some? && Live(r.orders[id])
                  && InstantMarket(cfg, r.orders, r.orders[id].parentId.value)
        ensures r.orders[r.orders[id].parentId.value].status.Filled?
      {
        AdvanceOf(s.orders, r.orders, id);
        var p := r.orders[id].parentId.value;
        AdvanceOf(s.orders, r.orders, p);
        ActivateOrder(cfg, s, parent, id);
        if p == parent { MarketEntryFillsIff(cfg, s, parent); }
      }
    }
  }

  lemma {:induction false} EnterKeepsWaiting(cfg: Config, s: State, spec: Spec, rejected: bool)
    requires Tree(s.orders, s.links) && Waits(cfg, s.orders) && Positive(s.orders)
    requires spec.id !in s.orders && spec.quantity > 0.0
    ensures var r := Enter(s, spec, rejected); Waits(cfg, r.orders) && Positive(r.orders)
  {
    var r := Enter(s, spec, rejected);
    forall id | id in r.orders && r.orders[id].parentId.Some? && Live(r.orders[id])
                && InstantMarket(cfg, r.orders, r.orders[id].parentId.value)
      ensures r.orders[r.orders[id].parentId.value].status.Filled?
    {
      assert id in s.orders && r.orders[id].parentId.value in s.orders;
    }
  }

  lemma {:induction false} PlaceKeepsWaiting(cfg: Config, s: State, spec: Spec, rejected: bool)
    requires Tree(s.orders, s.links) && Waits(cfg, s.orders) && Positive(s.orders)
    requires spec.id !in s.orders && spec.quantity > 0.0 && Flat(PlaceNew(cfg, s, spec, rejected).orders)
    ensures var r := PlaceNew(cfg, s, spec, rejected); Waits(cfg, r.orders) && Positive(r.orders)
  {
    var entered := Enter(s, spec, rejected);
    EnterKeepsTree(s, spec, rejected);
    EnterKeepsWaiting(cfg, s, spec, rejected);
    if spec.transmit && !rejected {
      ActivateAdvances(cfg, entered, Root(spec));
      FlatBefore(entered.orders, ActivateBracket(cfg, entered, Root(spec)).orders);
      assert entered.orders[spec.id].parentId == spec.parentId;
      ActivateKeepsWaiting(cfg, entered, Root(spec));
    }
  }

  lemma {:induction false} PriceIsPatient(cfg: Config, orders: map<int, Order>, links: map<int, seq<int>>,
                                          symbol: string, price: real)
    ensures AllPatient(orders, PriceMove(cfg, orders, links, symbol, price))
  {
    var mid, r := AfterLimits(orders, links, symbol, price), PriceMove(cfg, orders, links, symbol, price);
    LimitsAreStage(orders, symbol, price);
    StageAdvances(orders, LimitStage(orders, symbol, price), links, LimitDone(orders, symbol, price));
    StopsAreStage(cfg, mid, symbol, price);
    StageAdvances(mid, StopStage(cfg, mid, symbol, price), links, StopDone(cfg, mid, symbol, price));
    AdvanceTransitive(orders, mid, r);
    PriceCompletes(cfg, orders, links, symbol, price);
    forall id | id in orders ensures Patient(orders[id], r[id]) {
      AdvanceOf(orders, r, id);
      assert Completes(orders[id], r[id]) && (Live(r[id]) ==> Live(mid[id])) && (Live(mid[id]) ==> Live(orders[id]));
    }
  }

  lemma {:induction false} CancelIsPatient(s: State, id: int)
    requires Settled(s)
    ensures AllPatient(s.orders, CancelOrder(s, id).orders)
  {
    CancelIsCalm(s, id);
    CancelOrderEffect(s, id);
  }

  lemma {:induction false} ChangeIsPatient(s: State, id: int, change: Change)
    requires Settled(s) && (change.quantity.Some? ==> change.quantity.value > 0.0)
    ensures AllPatient(s.orders, ModifyOrder(s, id, change).orders)
  {
    ModifyIsCalm(s, id, change);
  }

  lemma {:induction false} RepriceIsPatient(s: State, spec: Spec)
    requires Settled(s) && spec.id in s.orders
    ensures AllPatient(s.orders, Reprice(s, spec).orders)
  {
    RepriceIsCalm(s, spec);
  }

  lemma {:induction false} StepKeepsWaiting(cfg: Config, s: State, op: Op)
    requires Tree(s.orders, s.links) && Waits(cfg, s.orders) && Positive(s.orders)
    requires Walks(s, op) && PositiveOp(op) && Flat(Step(cfg, s, op).orders)
    ensures var r := Step(cfg, s, op); Waits(cfg, r.orders) && Positive(r.orders)
  {
    match op
    case NextId =>
    case Place(spec) =>
      if spec.id in s.orders {
        RepriceIsPatient(s, spec);
        PatientKeepsWaiting(cfg, s.orders, Reprice(s, spec).orders);
      } else {
        var rejected := PlaceIs(cfg, s, spec);
        PlaceKeepsWaiting(cfg, s, spec, rejected);
      }
    case Cancel(id) =>
      CancelIsPatient(s, id);
      PatientKeepsWaiting(cfg, s.orders, CancelOrder(s, id).orders);
    case Modify(id, change) =>
      ChangeIsPatient(s, id, change);
      PatientKeepsWaiting(cfg, s.orders, ModifyOrder(s, id, change).orders);
    case SetPrice(symbol, price, v1, v2) =>
      PriceMoveIsSimultaneous(cfg, s, symbol, price, v1, v2);
      PriceIsPatient(cfg, s.orders, s.links, symbol, price);
      PatientKeepsWaiting(cfg, s.orders, PriceMove(cfg, s.orders, s.links, symbol, price));
  }

  /** In every run of flat brackets with positive quantities a child of a market entry waits for its fill. */
  lemma {:induction false} ChildrenWaitForMarketEntry(cfg: Config, ops: seq<Op>)
    requires Proper(cfg, ops) && Flat(Run(cfg, ops).orders)
    requires forall i | 0 <= i < |ops| :: PositiveOp(ops[i])
    ensures Waits(cfg, Run(cfg, ops).orders) && Positive(Run(cfg, ops).orders)
    decreases |ops|
  {
    if ops != [] {
      var init := ops[..|ops| - 1];
      FillsAreAllOrNothing(cfg, init);
      StepAdvances(cfg, Run(cfg, init), ops[|ops| - 1]);
      FlatBefore(Run(cfg, init).orders, Run(cfg, ops).orders);
      BracketInvariant(cfg, init);
      ChildrenWaitForMarketEntry(cfg, init);
      StepKeepsWaiting(cfg, Run(cfg, init), ops[|ops| - 1]);
    }
  }
}
