/** Whole runs under different tranche settings: everything but the events is the same. */
module SimTrancheRuns {
  import opened Wrappers
  import opened SimModel
  import opened SimTranches

  /** Configurations that differ at most in how fills are split. */
  ghost predicate SameButTranches(cfg: Config, cfg': Config) {
    cfg' == cfg.(fillThreshold := cfg'.fillThreshold, fillTranches := cfg'.fillTranches)
  }

  lemma {:induction false} SettledFill(s: State, s': State, id: int)
    requires Agree(s, s') && id in s.orders
    ensures var o := s.orders[id].(status := SettledStatus(s.orders[id]));
            Agree(s.(orders := s.orders[id := o]),
                  s'.(orders := s'.orders[id := s'.orders[id].(status := SettledStatus(s'.orders[id]))]))
  {
  }

  lemma {:induction false} FillAgrees(cfg: Config, cfg': Config, s: State, s': State, id: int, shares: real,
                                      price: real)
    requires SameButTranches(cfg, cfg') && Agree(s, s')
    requires id in s.orders && s.orders[id].Remaining() > 0.0 ==> shares > 0.0
    ensures Agree(ExecuteFill(cfg, s, id, shares, price), ExecuteFill(cfg', s', id, shares, price))
  {
    if id in s.orders && s.orders[id].Remaining() > 0.0 {
      var fill: Pos := Min(shares, s.orders[id].Remaining());
      var r := WholeFill(cfg, s, id, fill, TrancheCount(cfg, fill), price);
      var r' := WholeFill(cfg', s', id, fill, TrancheCount(cfg', fill), price);
      TrancheAgrees(cfg, cfg', s, s', id, fill, price, true, true);
      var one, one' := Tranche(cfg, s, id, fill, price, true), Tranche(cfg', s', id, fill, price, true);
      AgreeTransitive(r, one, one');
      AgreeSymmetric(r', one');
      AgreeTransitive(r, one', r');
      SettledFill(r, r', id);
    }
  }

  lemma {:induction false} MarketFillAgrees(cfg: Config, cfg': Config, s: State, s': State, id: int)
    requires SameButTranches(cfg, cfg') && Agree(s, s')
    requires id in s.orders && s.orders[id].Remaining() > 0.0 ==> s.orders[id].quantity > 0.0
    ensures Agree(FillMarketOrder(cfg, s, id), FillMarketOrder(cfg', s', id))
  {
    if id in s.orders {
      var o := s.orders[id];
      FillAgrees(cfg, cfg', s, s', id, o.quantity, MarketFillPrice(cfg, MarketPrice(s, o.symbol), o.action));
    }
  }

  // ---------------------------------------------------------------- cancels and activation

  lemma {:induction false} CancelEachAgrees(s: State, s': State, ids: seq<int>)
    requires Agree(s, s')
    ensures Agree(CancelEach(s, ids), CancelEach(s', ids))
    decreases |ids|
  {
    if ids != [] { CancelEachAgrees(s, s', ids[..|ids| - 1]); }
  }

  lemma {:induction false} CancelOthersAgrees(s: State, s': State, ids: seq<int>, except: int)
    requires Agree(s, s')
    ensures Agree(CancelOthers(s, ids, except), CancelOthers(s', ids, except))
    decreases |ids|
  {
    if ids != [] { CancelOthersAgrees(s, s', ids[..|ids| - 1], except); }
  }

  lemma {:induction false} OcaAgrees(s: State, s': State, filled: int)
    requires Agree(s, s')
    ensures Agree(CheckOca(s, filled), CheckOca(s', filled))
  {
    if filled in s.orders && s.orders[filled].parentId.Some? {
      CancelOthersAgrees(s, s', LinksOf(s, s.orders[filled].parentId.value), filled);
    }
  }

  lemma {:induction false} OcaEachAgrees(s: State, s': State, ids: seq<int>)
    requires Agree(s, s')
    ensures Agree(CheckOcaEach(s, ids), CheckOcaEach(s', ids))
    decreases |ids|
  {
    if ids != [] {
      OcaEachAgrees(s, s', ids[..|ids| - 1]);
      OcaAgrees(CheckOcaEach(s, ids[..|ids| - 1]), CheckOcaEach(s', ids[..|ids| - 1]), ids[|ids| - 1]);
    }
  }

  lemma {:induction false} ActivateEachAgrees(s: State, s': State, ids: seq<int>, parentFilled: bool)
    requires Agree(s, s')
    ensures Agree(ActivateEach(s, ids, parentFilled), ActivateEach(s', ids, parentFilled))
    decreases |ids|
  {
    if ids != [] { ActivateEachAgrees(s, s', ids[..|ids| - 1], parentFilled); }
  }

  lemma {:induction false} OpenParentAgrees(cfg: Config, cfg': Config, s: State, s': State, parent: int)
    requires SameButTranches(cfg, cfg') && Agree(s, s') && parent in s.orders
    ensures Agree(OpenParent(cfg, s, parent), OpenParent(cfg', s', parent))
  {
    var working, working' := StartWorking(s, parent), StartWorking(s', parent);
    if s.orders[parent].orderType.Market? && cfg.instant { MarketFillAgrees(cfg, cfg', working, working', parent); }
  }

  lemma {:induction false} ActivateAgrees(cfg: Config, cfg': Config, s: State, s': State, parent: int)
    requires SameButTranches(cfg, cfg') && Agree(s, s')
    ensures Agree(ActivateBracket(cfg, s, parent), ActivateBracket(cfg', s', parent))
  {
    if parent in s.orders && s.orders[parent].status.Held? {
      OpenParentAgrees(cfg, cfg', s, s', parent);
      var active, active' := OpenParent(cfg, s, parent), OpenParent(cfg', s', parent);
      ActivateEachAgrees(active, active', LinksOf(active, parent), IsFilled(active, parent));
    }
  }

  // ---------------------------------------------------------------- price moves

  lemma {:induction false} HitsAgree(s: State, s': State, visit: seq<int>, symbol: string, price: real)
    requires s.orders == s'.orders
    ensures LimitHits(s, visit, symbol, price) == LimitHits(s', visit, symbol, price)
    ensures StopHits(s, visit, symbol, price) == StopHits(s', visit, symbol, price)
    decreases |visit|
  {
    if visit != [] { HitsAgree(s, s', visit[..|visit| - 1], symbol, price); }
  }

  lemma {:induction false} FillEachAgrees(cfg: Config, cfg': Config, s: State, s': State, fills: seq<(int, real)>)
    requires SameButTranches(cfg, cfg') && Agree(s, s')
    ensures Agree(FillEach(cfg, s, fills), FillEach(cfg', s', fills))
    decreases |fills|
  {
    if fills != [] {
      FillEachAgrees(cfg, cfg', s, s', fills[..|fills| - 1]);
      var before, before' := FillEach(cfg, s, fills[..|fills| - 1]), FillEach(cfg', s', fills[..|fills| - 1]);
      var (id, price) := fills[|fills| - 1];
      if id in before.orders { FillAgrees(cfg, cfg', before, before', id, before.orders[id].Remaining(), price); }
    }
  }

  lemma {:induction false} TriggerAgrees(cfg: Config, cfg': Config, s: State, s': State, id: int, price: real)
    requires SameButTranches(cfg, cfg') && Agree(s, s')
    ensures Agree(TriggerStop(cfg, s, id, price), TriggerStop(cfg', s', id, price))
  {
    if id in s.orders && StopExecution(cfg, s.orders[id], price).Some? {
      var o, o' := s.orders[id], s'.orders[id];
      var event := StatusChanged(id, Reported.Submitted, o.filledQty, o.Remaining(), 0.0);
      var working := s.(orders := s.orders[id := o.(status := Status.Working)], log := s.log + [event]);
      var working' := s'.(orders := s'.orders[id := o'.(status := Status.Working)], log := s'.log + [event]);
      FillAgrees(cfg, cfg', working, working', id, o.Remaining(), StopExecution(cfg, o, price).value);
    }
  }

  lemma {:induction false} TriggerEachAgrees(cfg: Config, cfg': Config, s: State, s': State, ids: seq<int>, price: real)
    requires SameButTranches(cfg, cfg') && Agree(s, s')
    ensures Agree(TriggerEach(cfg, s, ids, price), TriggerEach(cfg', s', ids, price))
    ensures Executed(cfg, s, ids, price) == Executed(cfg', s', ids, price)
    decreases |ids|
  {
    if ids != [] {
      var init := ids[..|ids| - 1];
      TriggerEachAgrees(cfg, cfg', s, s', init, price);
      TriggerAgrees(cfg, cfg', TriggerEach(cfg, s, init, price), TriggerEach(cfg', s', init, price),
                    ids[|ids| - 1], price);
    }
  }

  lemma {:induction false} PriceAgrees(cfg: Config, cfg': Config, s: State, s': State, symbol: string, price: real,
                                       v1: seq<int>, v2: seq<int>)
    requires SameButTranches(cfg, cfg') && Agree(s, s')
    ensures Agree(SetMarketPrice(cfg, s, symbol, price, v1, v2), SetMarketPrice(cfg', s', symbol, price, v1, v2))
  {
    var p, p' := s.(prices := s.prices[symbol := price]), s'.(prices := s'.prices[symbol := price]);
    HitsAgree(p, p', v1, symbol, price);
    var fills := LimitHits(p, v1, symbol, price);
    FillEachAgrees(cfg, cfg', p, p', fills);
    OcaEachAgrees(FillEach(cfg, p, fills), FillEach(cfg', p', fills), Ids(fills));
    var q, q' := CheckLimitFills(cfg, p, v1, symbol, price), CheckLimitFills(cfg', p', v1, symbol, price);
    HitsAgree(q, q', v2, symbol, price);
    var ids := StopHits(q, v2, symbol, price);
    TriggerEachAgrees(cfg, cfg', q, q', ids, price);
    OcaEachAgrees(TriggerEach(cfg, q, ids, price), TriggerEach(cfg', q', ids, price), Executed(cfg, q, ids, price));
  }

  // ---------------------------------------------------------------- runs

  lemma {:induction false} PlaceNewAgrees(cfg: Config, cfg': Config, s: State, s': State, spec: Spec, rejected: bool)
    requires SameButTranches(cfg, cfg') && Agree(s, s')
    ensures Agree(PlaceNew(cfg, s, spec, rejected), PlaceNew(cfg', s', spec, rejected))
  {
    ActivateAgrees(cfg, cfg', Enter(s, spec, rejected), Enter(s', spec, rejected), Root(spec));
  }

  lemma {:induction false} SameSchedule(cfg: Config, cfg': Config, count: nat)
    requires SameButTranches(cfg, cfg')
    ensures ShouldReject(cfg, count) == ShouldReject(cfg', count)
  {
  }

  lemma {:induction false} RepriceAgrees(s: State, s': State, spec: Spec)
    requires Agree(s, s') && spec.id in s.orders
    ensures Agree(Reprice(s, spec), Reprice(s', spec))
  {
  }

  lemma {:induction false} PlaceAgrees(cfg: Config, cfg': Config, s: State, s': State, spec: Spec)
    requires SameButTranches(cfg, cfg') && Agree(s, s')
    ensures Agree(PlaceOrder(cfg, s, spec), PlaceOrder(cfg', s', spec))
  {
    if spec.id in s.orders {
      RepriceAgrees(s, s', spec);
    } else {
      var rejected := PlaceIs(cfg, s, spec);
      var rejected' := PlaceIs(cfg', s', spec);
      SameSchedule(cfg, cfg', s.orderCount + 1);
      PlaceNewAgrees(cfg, cfg', s, s', spec, rejected);
    }
  }

  lemma {:induction false} CancelAgrees(s: State, s': State, id: int)
    requires Agree(s, s')
    ensures Agree(CancelOrder(s, id), CancelOrder(s', id))
  {
    CancelEachAgrees(CancelInner(s, id), CancelInner(s', id), LinksOf(CancelInner(s, id), id));
  }

  lemma {:induction false} ModifyAgrees(s: State, s': State, id: int, change: Change)
    requires Agree(s, s')
    ensures Agree(ModifyOrder(s, id, change), ModifyOrder(s', id, change))
  {
  }

  lemma {:induction false} StepAgrees(cfg: Config, cfg': Config, s: State, s': State, op: Op)
    requires SameButTranches(cfg, cfg') && Agree(s, s')
    ensures Agree(Step(cfg, s, op), Step(cfg', s', op))
  {
    match op
    case NextId =>
    case Place(spec) => PlaceAgrees(cfg, cfg', s, s', spec);
    case Cancel(id) => CancelAgrees(s, s', id);
    case Modify(id, change) => ModifyAgrees(s, s', id, change);
    case SetPrice(symbol, price, v1, v2) => PriceAgrees(cfg, cfg', s, s', symbol, price, v1, v2);
  }

  /**
   However fills are split into tranches, the same operations leave the same orders, links, prices,
   positions at the same average cost, cash and realised profit: only the events differ.
   */
  lemma {:induction false} TranchesDoNotMatter(cfg: Config, cfg': Config, ops: seq<Op>)
    requires SameButTranches(cfg, cfg')
    ensures Agree(Run(cfg, ops), Run(cfg', ops))
    decreases |ops|
  {
    if ops != [] {
      TranchesDoNotMatter(cfg, cfg', ops[..|ops| - 1]);
      StepAgrees(cfg, cfg', Run(cfg, ops[..|ops| - 1]), Run(cfg', ops[..|ops| - 1]), ops[|ops| - 1]);
    }
  }
}
