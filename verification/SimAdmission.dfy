/** Which orders the simulated broker turns away: every n-th, n being the nearest to the inverse of the rate. */
module SimAdmission {
  import opened Wrappers
  import opened SimModel
  import opened SimEffects
  import SimPrices
  import opened SimLifecycle
  import opened SimTheorems
  import opened SimTwins

  lemma {:induction false} CancelKeepsCount(s: State, id: int)
    requires Settled(s)
    ensures CancelOrder(s, id).orderCount == s.orderCount && CancelOrder(s, id).orders.Keys == s.orders.Keys
  {
    CancelIsCalm(s, id);
  }

  lemma {:induction false} NewCount(cfg: Config, s: State, spec: Spec, rejected: bool)
    requires Settled(s) && spec.id !in s.orders
    ensures PlaceNew(cfg, s, spec, rejected).orderCount == s.orderCount + 1
  {
    EnterAdvances(s, spec, rejected);
    ActivateAdvances(cfg, Enter(s, spec, rejected), Root(spec));
  }

  lemma {:induction false} PlaceCounts(cfg: Config, s: State, spec: Spec)
    requires Settled(s)
    ensures var r := PlaceOrder(cfg, s, spec);
            && r.orders.Keys == s.orders.Keys + {spec.id}
            && r.orderCount == s.orderCount + if spec.id in s.orders then 0 else 1
  {
    PlacedKeys(cfg, s, spec);
    if spec.id !in s.orders {
      var rejected := PlaceIs(cfg, s, spec);
      NewCount(cfg, s, spec, rejected);
    }
  }

  /** In every run the order count is the size of the order table. */
  lemma {:induction false} CountIsSize(cfg: Config, ops: seq<Op>)
    requires Proper(cfg, ops)
    ensures Run(cfg, ops).orderCount == |Run(cfg, ops).orders.Keys|
    decreases |ops|
  {
    if ops != [] {
      var init := ops[..|ops| - 1];
      CountIsSize(cfg, init);
      FillsAreAllOrNothing(cfg, init);
      StepCounts(cfg, Run(cfg, init), ops[|ops| - 1]);
    }
  }

  lemma {:induction false} PlaceKeepsSize(cfg: Config, s: State, spec: Spec)
    requires Settled(s) && s.orderCount == |s.orders.Keys|
    ensures PlaceOrder(cfg, s, spec).orderCount == |PlaceOrder(cfg, s, spec).orders.Keys|
  {
    PlaceCounts(cfg, s, spec);
    if spec.id in s.orders { assert s.orders.Keys + {spec.id} == s.orders.Keys; }
  }

  lemma {:induction false} ModifyKeepsCount(s: State, id: int, change: Change)
    ensures var r := ModifyOrder(s, id, change); r.orderCount == s.orderCount && r.orders.Keys == s.orders.Keys
  {
    if id in s.orders { assert s.orders.Keys + {id} == s.orders.Keys; }
  }

  lemma {:induction false} StepCounts(cfg: Config, s: State, op: Op)
    requires Settled(s) && Walks(s, op) && s.orderCount == |s.orders.Keys|
    ensures Step(cfg, s, op).orderCount == |Step(cfg, s, op).orders.Keys|
  {
    match op
    case NextId =>
    case Place(spec) => PlaceKeepsSize(cfg, s, spec);
    case Cancel(id) => CancelKeepsCount(s, id);
    case Modify(id, change) => ModifyKeepsCount(s, id, change);
    case SetPrice(symbol, price, v1, v2) => SimPrices.PriceMoveIsSimultaneous(cfg, s, symbol, price, v1, v2);
  }

  /** The integer nearest to x, the larger of two. */
  predicate Nearest(n: int, x: real) { n as real - 0.5 <= x < n as real + 0.5 }

  lemma {:induction false} RoundIsNearest(n: int, x: real)
    ensures Nearest(n, x) <==> n == Round(x)
  {
  }

  lemma {:induction false} ScheduleIs(cfg: Config, count: nat, n: int)
    requires cfg.rejectionRate > 0.0 && Nearest(n, 1.0 / cfg.rejectionRate)
    ensures ShouldReject(cfg, count) <==> n > 0 && count % n == 0
  {
    RoundIsNearest(n, 1.0 / cfg.rejectionRate);
  }

  lemma {:induction false} RejectedAtOnce(cfg: Config, s: State, spec: Spec, rejected: bool)
    requires Settled(s) && spec.id !in s.orders
    ensures var r := PlaceNew(cfg, s, spec, rejected);
            spec.id in r.orders && (r.orders[spec.id].status.Rejected? <==> rejected)
  {
    var entered := Enter(s, spec, rejected);
    EnterAdvances(s, spec, rejected);
    if spec.transmit && !rejected && Root(spec) in entered.orders && entered.orders[Root(spec)].status.Held? {
      ActivationRejectsNone(cfg, entered, Root(spec), spec.id);
    }
  }

  lemma {:induction false} ActivationRejectsNone(cfg: Config, s: State, parent: int, id: int)
    requires Settled(s) && parent in s.orders && s.orders[parent].status.Held? && id in s.orders
    ensures var r := ActivateBracket(cfg, s, parent);
            id in r.orders && (r.orders[id].status.Rejected? <==> s.orders[id].status.Rejected?)
  {
    ActivateEffect(cfg, s, parent);
  }

  /** In every run a new order is rejected exactly when a rate is set and it is the n-th, 2n-th, ... of the table. */
  lemma {:induction false} EveryNthIsRejected(cfg: Config, ops: seq<Op>, spec: Spec, n: int)
    requires Proper(cfg, ops) && spec.id !in Run(cfg, ops).orders
    requires cfg.rejectionRate > 0.0 ==> Nearest(n, 1.0 / cfg.rejectionRate)
    ensures var r := Run(cfg, ops + [Place(spec)]);
            && spec.id in r.orders && |r.orders.Keys| == |Run(cfg, ops).orders.Keys| + 1
            && (r.orders[spec.id].status.Rejected? <==> cfg.rejectionRate > 0.0 && n > 0 && |r.orders.Keys| % n == 0)
  {
    assert (ops + [Place(spec)])[..|ops|] == ops;
    var s := Run(cfg, ops);
    FillsAreAllOrNothing(cfg, ops);
    CountIsSize(cfg, ops);
    PlacedKeys(cfg, s, spec);
    var rejected := PlaceIs(cfg, s, spec);
    RejectedAtOnce(cfg, s, spec, rejected);
    if cfg.rejectionRate > 0.0 { ScheduleIs(cfg, s.orderCount + 1, n); }
  }
}
