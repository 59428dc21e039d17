/** Held orders under arbitrary interleaving: what can release a leg that waits for its bracket. */
module SimHolding {
  import opened Wrappers
  import opened SimModel
  import opened SimEffects
  import opened SimPrices
  import opened SimLifecycle
  import opened SimTheorems

  ghost predicate HeldOrCancelled(orders: map<int, Order>, id: int) {
    id in orders && (orders[id].status.Held? || orders[id].status.Cancelled?)
  }

  /** The root of a new order is held once the order has entered. */
  predicate RootIsHeld(s: State, spec: Spec) {
    Root(spec) == spec.id || (Root(spec) in s.orders && s.orders[Root(spec)].status.Held?)
  }

  /** The new order would be transmitted, and the bracket it activates is the one that `id` waits in. */
  predicate Activates(s: State, spec: Spec, id: int)
    requires id in s.orders
  {
    var root := Root(spec);
    && spec.transmit
    && (root == id || (s.orders[id].parentId == Some(root) && RootIsHeld(s, spec)))
  }

  /** The operation releases `id`: it places a new order that is not rejected and activates the bracket of `id`. */
  predicate Releases(cfg: Config, s: State, op: Op, id: int) {
    && id in s.orders && s.orders[id].status.Held?
    && op.Place? && op.spec.id !in s.orders && !ShouldReject(cfg, s.orderCount + 1) && Activates(s, op.spec, id)
  }

  lemma {:induction false} OcaKeepsHeld(orders: map<int, Order>, stage: map<int, Order>, links: map<int, seq<int>>,
                                        done: set<int>, id: int)
    requires HeldOrCancelled(orders, id) && id in stage && stage[id] == orders[id]
    ensures HeldOrCancelled(OcaStage(stage, links, done), id)
  {
  }

  lemma {:induction false} PriceKeepsHeld(cfg: Config, orders: map<int, Order>, links: map<int, seq<int>>,
                                          symbol: string, price: real, id: int)
    requires HeldOrCancelled(orders, id)
    ensures HeldOrCancelled(PriceMove(cfg, orders, links, symbol, price), id)
  {
    var mid := AfterLimits(orders, links, symbol, price);
    OcaKeepsHeld(orders, LimitStage(orders, symbol, price), links, LimitDone(orders, symbol, price), id);
    OcaKeepsHeld(mid, StopStage(cfg, mid, symbol, price), links, StopDone(cfg, mid, symbol, price), id);
  }

  lemma {:induction false} EnterKeeps(s: State, spec: Spec, rejected: bool, id: int)
    requires spec.id !in s.orders && id in s.orders
    ensures id in Enter(s, spec, rejected).orders && Enter(s, spec, rejected).orders[id] == s.orders[id]
  {
  }

  lemma {:induction false} RootEntered(s: State, spec: Spec)
    requires spec.id !in s.orders
    ensures var r := Enter(s, spec, false);
            (Root(spec) in r.orders && r.orders[Root(spec)].status.Held?) <==> RootIsHeld(s, spec)
  {
  }

  lemma {:induction false} LinkedOnEntry(s: State, spec: Spec, id: int)
    requires LinkedTable(s.orders, s.links) && spec.id !in s.orders && id in s.orders && s.orders[id].status.Held?
    ensures id in LinksOf(Enter(s, spec, false), Root(spec)) <==> s.orders[id].parentId == Some(Root(spec))
  {
    EnterKeepsLinks(s, spec, false);
    EnterKeeps(s, spec, false, id);
  }

  lemma {:induction false} OpenedIsLive(cfg: Config, s: State, o: Order)
    ensures OpenedParent(cfg, s, o).status.Working? || OpenedParent(cfg, s, o).status.Filled?
  {
  }

  lemma {:induction false} ActivationOpens(cfg: Config, s: State, root: int)
    requires Settled(s) && root in s.orders && s.orders[root].status.Held?
    ensures !HeldOrCancelled(ActivateBracket(cfg, s, root).orders, root)
  {
    ActivateEffect(cfg, s, root);
    OpenedIsLive(cfg, s, s.orders[root]);
  }

  lemma {:induction false} ActivationReleases(cfg: Config, s: State, root: int, id: int)
    requires Settled(s) && root in s.orders && s.orders[root].status.Held? && id in s.orders
    requires s.orders[id].status.Held? && id != root
    ensures HeldOrCancelled(ActivateBracket(cfg, s, root).orders, id) <==> id !in LinksOf(s, root)
  {
    ActivateEffect(cfg, s, root);
  }

  lemma {:induction false} PlaceReleasesIff(cfg: Config, s: State, spec: Spec, rejected: bool, id: int)
    requires Settled(s) && LinkedTable(s.orders, s.links) && spec.id !in s.orders
    requires id in s.orders && s.orders[id].status.Held?
    ensures HeldOrCancelled(PlaceNew(cfg, s, spec, rejected).orders, id) <==> rejected || !Activates(s, spec, id)
  {
    var entered := Enter(s, spec, rejected);
    EnterKeeps(s, spec, rejected, id);
    if spec.transmit && !rejected {
      RootEntered(s, spec);
      LinkedOnEntry(s, spec, id);
      if RootIsHeld(s, spec) {
        EnterAdvances(s, spec, rejected);
        if id == Root(spec) {
          ActivationOpens(cfg, entered, id);
        } else {
          ActivationReleases(cfg, entered, Root(spec), id);
        }
      }
    }
  }

  /** Under one operation a held leg stays held or is cancelled exactly unless the operation releases it. */
  lemma {:induction false} StepReleasesIff(cfg: Config, s: State, op: Op, id: int)
    requires Settled(s) && LinkedTable(s.orders, s.links) && Walks(s, op)
    requires id in s.orders && s.orders[id].status.Held?
    ensures HeldOrCancelled(Step(cfg, s, op).orders, id) <==> !Releases(cfg, s, op, id)
  {
    match op
    case NextId =>
    case Place(spec) =>
      if spec.id !in s.orders { PlaceReleasesIff(cfg, s, spec, ShouldReject(cfg, s.orderCount + 1), id); }
    case Cancel(other) => CancelOrderEffect(s, other);
    case Modify(_, _) =>
    case SetPrice(symbol, price, v1, v2) =>
      PriceMoveIsSimultaneous(cfg, s, symbol, price, v1, v2);
      PriceKeepsHeld(cfg, s.orders, s.links, symbol, price, id);
  }

  /** At every point of the run from k on the leg is held, or has been cancelled. */
  ghost predicate Waits(cfg: Config, ops: seq<Op>, k: nat, id: int) {
    forall j | k <= j <= |ops| :: HeldOrCancelled(Run(cfg, ops[..j]).orders, id)
  }

  /** No operation from point k on releases the leg. */
  ghost predicate Unreleased(cfg: Config, ops: seq<Op>, k: nat, id: int) {
    forall j | k <= j < |ops| :: !Releases(cfg, Run(cfg, ops[..j]), ops[j], id)
  }

  lemma {:induction false} WaitsOneMore(cfg: Config, ops: seq<Op>, k: nat, id: int)
    requires k < |ops|
    ensures var init := ops[..|ops| - 1];
            Waits(cfg, ops, k, id) <==> Waits(cfg, init, k, id) && HeldOrCancelled(Run(cfg, ops).orders, id)
  {
    var init := ops[..|ops| - 1];
    forall j | k <= j <= |init| ensures init[..j] == ops[..j] {}
    assert ops[..|ops|] == ops;
    if Waits(cfg, ops, k, id) {
      forall j | k <= j <= |init| ensures HeldOrCancelled(Run(cfg, init[..j]).orders, id) {
        assert HeldOrCancelled(Run(cfg, ops[..j]).orders, id);
      }
    }
  }

  lemma {:induction false} UnreleasedOneMore(cfg: Config, ops: seq<Op>, k: nat, id: int)
    requires k < |ops|
    ensures var init := ops[..|ops| - 1];
            Unreleased(cfg, ops, k, id) <==>
              Unreleased(cfg, init, k, id) && !Releases(cfg, Run(cfg, init), ops[|ops| - 1], id)
  {
    var init := ops[..|ops| - 1];
    forall j | k <= j < |init| ensures init[..j] == ops[..j] && init[j] == ops[j] {}
    if Unreleased(cfg, ops, k, id) {
      forall j | k <= j < |init| ensures !Releases(cfg, Run(cfg, init[..j]), init[j], id) {
        assert !Releases(cfg, Run(cfg, ops[..j]), ops[j], id);
      }
    }
  }

  lemma {:induction false} NextWaitsIff(cfg: Config, s: State, op: Op, id: int)
    requires Settled(s) && LinkedTable(s.orders, s.links) && Walks(s, op) && HeldOrCancelled(s.orders, id)
    ensures HeldOrCancelled(Step(cfg, s, op).orders, id) <==> !Releases(cfg, s, op, id)
  {
    if s.orders[id].status.Held? {
      StepReleasesIff(cfg, s, op, id);
    } else {
      StepAdvances(cfg, s, op);
      AdvanceOf(s.orders, Step(cfg, s, op).orders, id);
    }
  }

  /**
   However other operations interleave with the placing of a bracket, a leg that is held at point k of
   a run is held or cancelled from there on exactly when no later operation releases it.
   */
  lemma {:induction false} HeldUntilReleasedIff(cfg: Config, ops: seq<Op>, k: nat, id: int)
    requires Proper(cfg, ops) && k <= |ops|
    requires id in Run(cfg, ops[..k]).orders && Run(cfg, ops[..k]).orders[id].status.Held?
    ensures Waits(cfg, ops, k, id) <==> Unreleased(cfg, ops, k, id)
    decreases |ops|
  {
    if k < |ops| {
      var init := ops[..|ops| - 1];
      assert init[..k] == ops[..k];
      HeldUntilReleasedIff(cfg, init, k, id);
      WaitsOneMore(cfg, ops, k, id);
      UnreleasedOneMore(cfg, ops, k, id);
      if Waits(cfg, init, k, id) {
        FillsAreAllOrNothing(cfg, init);
        LinksAlwaysMatch(cfg, init);
        assert init[..|init|] == init;
        assert HeldOrCancelled(Run(cfg, init[..|init|]).orders, id);
        NextWaitsIff(cfg, Run(cfg, init), ops[|ops| - 1], id);
      }
    }
  }
}
