/**
 What each transition of the simulated broker does to the order table, order by order.

 The loops of the broker (tranches, children, triggered ids, siblings) are characterised without
 mentioning any order of iteration.
 */
module SimEffects {
  import opened Wrappers
  import opened SimModel

  /** Between public calls fills are all-or-nothing: an order is Filled or has no fill at all. */
  ghost predicate SettledOrder(o: Order, id: int) {
    o.id == id && !o.status.PartiallyFilled? && (o.status.Filled? <==> o.filledQty > 0.0)
  }

  ghost predicate SettledTable(orders: map<int, Order>) {
    forall id | id in orders :: SettledOrder(orders[id], id)
  }

  ghost predicate Settled(s: State) { SettledTable(s.orders) }

  /** Everything but money, events and the order table itself. */
  ghost predicate SameFrame(s: State, s': State) {
    && s'.links == s.links && s'.prices == s.prices && s'.orderCount == s.orderCount && s'.nextId == s.nextId
    && s'.orders.Keys == s.orders.Keys
  }

  // ---------------------------------------------------------------- fills

  /** A complete fill at one price. */
  function FilledAt(o: Order, price: real): Order {
    if o.Remaining() <= 0.0 then o
    else o.(filledQty := o.quantity, avgFillPrice := price, status := Status.Filled)
  }

  /** `i` tranches of `size` shares. */
  function Lots(i: nat, size: Pos): NonNeg {
    if i == 0 then 0.0 else Lots(i - 1, size) + size
  }

  lemma {:induction false} LotsMultiply(i: nat, size: Pos)
    ensures Lots(i, size) == i as real * size
  {
    if i > 0 {
      LotsMultiply(i - 1, size);
      Split((i - 1) as real, size);
    }
  }

  lemma {:induction false} Split(x: real, y: real)
    ensures (x + 1.0) * y == x * y + y
  {
  }

  lemma {:induction false} SharesAddUp(x: Pos, n: nat)
    requires n >= 1
    ensures Lots(n, Share(x, n)) == x
  {
    LotsMultiply(n, Share(x, n));
  }

  lemma {:induction false} WeightedMean(filled: real, price: real, shares: real)
    requires filled + shares > 0.0
    ensures (price * filled + price * shares) / (filled + shares) == price
  {
    var total := filled + shares;
    assert price * filled + price * shares == price * total;
    assert price * total / total == price;
  }

  lemma {:induction false} SamePriceAverage(o: Order, shares: Pos, price: real)
    requires o.filledQty == 0.0 || o.avgFillPrice == price
    ensures AverageAfter(o, shares, price) == price
  {
    WeightedMean(o.filledQty, price, shares);
  }

  lemma {:induction false} TrancheEffect(cfg: Config, s: State, id: int, shares: Pos, price: real, last: bool)
    requires id in s.orders && (s.orders[id].filledQty == 0.0 || s.orders[id].avgFillPrice == price)
    ensures var r, o := Tranche(cfg, s, id, shares, price, last), s.orders[id];
            SameFrame(s, r)
            && r.orders == s.orders[id := o.(filledQty := o.filledQty + shares, avgFillPrice := price)]
  {
    SamePriceAverage(s.orders[id], shares, price);
  }

  ghost predicate PartlyFilled(s: State, r: State, id: int, filled: NonNeg, price: real) {
    && id in s.orders && SameFrame(s, r)
    && r.orders == s.orders[id := s.orders[id].(filledQty := filled, avgFillPrice := price)]
  }

  lemma {:induction false} NextTranche(cfg: Config, s: State, before: State, id: int, filled: NonNeg, shares: Pos,
                                       price: real, last: bool)
    requires PartlyFilled(s, before, id, filled, price)
    ensures PartlyFilled(s, Tranche(cfg, before, id, shares, price, last), id, filled + shares, price)
  {
    TrancheEffect(cfg, before, id, shares, price, last);
  }

  lemma {:induction false} FirstTranche(cfg: Config, s: State, id: int, shares: Pos, price: real, last: bool)
    requires id in s.orders && s.orders[id].filledQty == 0.0
    ensures PartlyFilled(s, Tranche(cfg, s, id, shares, price, last), id, shares, price)
  {
    TrancheEffect(cfg, s, id, shares, price, last);
  }

  lemma {:induction false} TranchesEffect(cfg: Config, s: State, id: int, i: nat, n: nat, size: Pos, price: real)
    requires id in s.orders && 0 < i <= n && s.orders[id].filledQty == 0.0
    ensures PartlyFilled(s, Tranches(cfg, s, id, i, n, size, price), id, Lots(i, size), price)
  {
    if i == 1 {
      FirstTranche(cfg, s, id, size, price, i == n);
    } else {
      TranchesEffect(cfg, s, id, i - 1, n, size, price);
      NextTranche(cfg, s, Tranches(cfg, s, id, i - 1, n, size, price), id, Lots(i - 1, size), size, price, i == n);
    }
  }

  /** A fill of everything that remains completes the order, whatever the number of tranches. */
  lemma {:induction false} FillEffect(cfg: Config, s: State, id: int, price: real)
    requires id in s.orders && s.orders[id].filledQty == 0.0
    ensures var r := ExecuteFill(cfg, s, id, s.orders[id].Remaining(), price);
            SameFrame(s, r) && r.orders == s.orders[id := FilledAt(s.orders[id], price)]
  {
    var o := s.orders[id];
    if o.Remaining() > 0.0 {
      var n := TrancheCount(cfg, o.quantity);
      SharesAddUp(o.quantity, n);
      TranchesEffect(cfg, s, id, n, n, Share(o.quantity, n), price);
    } else {
      assert s.orders == s.orders[id := o];
    }
  }

  ghost predicate Distinct(ids: seq<int>) { forall i, j | 0 <= i < j < |ids| :: ids[i] != ids[j] }

  lemma {:induction false} IdsSplit(fills: seq<(int, real)>)
    requires fills != [] && Distinct(Ids(fills))
    ensures var init, last := fills[..|fills| - 1], fills[|fills| - 1].0;
            Ids(fills) == Ids(init) + [last] && Distinct(Ids(init)) && last !in Ids(init)
  {
    var ids, init := Ids(fills), Ids(fills[..|fills| - 1]);
    assert ids == init + [fills[|fills| - 1].0];
    forall i | 0 <= i < |init| ensures init[i] != ids[|ids| - 1] { assert init[i] == ids[i]; }
    forall i, j | 0 <= i < j < |init| ensures init[i] != init[j] { assert ids[i] == init[i] && ids[j] == init[j]; }
  }

  lemma {:induction false} FillEachEffect(cfg: Config, s: State, fills: seq<(int, real)>, fill: Order -> real)
    requires Distinct(Ids(fills))
    requires forall i | 0 <= i < |fills| :: fills[i].0 in s.orders && s.orders[fills[i].0].filledQty == 0.0
                                         && fills[i].1 == fill(s.orders[fills[i].0])
    ensures var r := FillEach(cfg, s, fills);
            && SameFrame(s, r)
            && (forall id | id in s.orders ::
                  r.orders[id] == if id in Ids(fills) then FilledAt(s.orders[id], fill(s.orders[id])) else s.orders[id])
    decreases |fills|
  {
    if fills != [] {
      var init, last := fills[..|fills| - 1], fills[|fills| - 1].0;
      IdsSplit(fills);
      FillEachEffect(cfg, s, init, fill);
      FillEffect(cfg, FillEach(cfg, s, init), last, fills[|fills| - 1].1);
    }
  }

  // ---------------------------------------------------------------- cancels

  function CancelledOrder(o: Order): Order {
    if o.status.Terminal() then o else o.(status := Status.Cancelled)
  }

  lemma {:induction false} CancelOthersEffect(s: State, ids: seq<int>, except: int)
    ensures var r := CancelOthers(s, ids, except);
            && SameFrame(s, r)
            && (forall id | id in s.orders ::
                  r.orders[id] == if id in ids && id != except then CancelledOrder(s.orders[id]) else s.orders[id])
    decreases |ids|
  {
    if ids != [] {
      CancelOthersEffect(s, ids[..|ids| - 1], except);
      assert ids == ids[..|ids| - 1] + [ids[|ids| - 1]];
    }
  }

  lemma {:induction false} CancelEachEffect(s: State, ids: seq<int>)
    ensures var r := CancelEach(s, ids);
            && SameFrame(s, r)
            && (forall id | id in s.orders ::
                  r.orders[id] == if id in ids then CancelledOrder(s.orders[id]) else s.orders[id])
    decreases |ids|
  {
    if ids != [] {
      CancelEachEffect(s, ids[..|ids| - 1]);
      assert ids == ids[..|ids| - 1] + [ids[|ids| - 1]];
    }
  }

  /** Cancelling a live order cancels it and its linked children, and a terminal one does nothing. */
  lemma {:induction false} CancelOrderEffect(s: State, id: int)
    ensures var r := CancelOrder(s, id);
            && SameFrame(s, r)
            && (forall i | i in s.orders ::
                  r.orders[i] == if id in s.orders && !s.orders[id].status.Terminal()
                  && (i == id || i in LinksOf(s, id))
                                 then CancelledOrder(s.orders[i]) else s.orders[i])
  {
    CancelEachEffect(CancelInner(s, id), LinksOf(s, id));
  }

  /** `b` is cancelled when `a` executes: both hang off one parent, `b` through its links. */
  predicate Sibling(s: State, a: int, b: int) {
    a in s.orders && s.orders[a].parentId.Some? && b in LinksOf(s, s.orders[a].parentId.value) && b != a
  }

  predicate AnySibling(s: State, ids: seq<int>, b: int) { exists i | 0 <= i < |ids| :: Sibling(s, ids[i], b) }

  lemma {:induction false} AnySiblingSplit(s: State, ids: seq<int>, b: int)
    requires ids != []
    ensures AnySibling(s, ids, b) <==> AnySibling(s, ids[..|ids| - 1], b) || Sibling(s, ids[|ids| - 1], b)
  {
    var init := ids[..|ids| - 1];
    if AnySibling(s, init, b) {
      var i :| 0 <= i < |init| && Sibling(s, init[i], b);
      assert ids[i] == init[i];
    }
    if AnySibling(s, ids, b) && !Sibling(s, ids[|ids| - 1], b) {
      var i :| 0 <= i < |ids| && Sibling(s, ids[i], b);
      assert i < |init| && init[i] == ids[i];
    }
  }

  lemma {:induction false} OcaEffect(s: State, ids: seq<int>)
    ensures var r := CheckOcaEach(s, ids);
            && SameFrame(s, r)
            && (forall b | b in s.orders ::
                  r.orders[b] == if AnySibling(s, ids, b) then CancelledOrder(s.orders[b]) else s.orders[b])
    decreases |ids|
  {
    if ids != [] {
      var init, last := ids[..|ids| - 1], ids[|ids| - 1];
      var before := CheckOcaEach(s, init);
      OcaEffect(s, init);
      if last in s.orders && s.orders[last].parentId.Some? {
        CancelOthersEffect(before, LinksOf(before, s.orders[last].parentId.value), last);
      }
      forall b ensures AnySibling(s, ids, b) <==> AnySibling(s, init, b) || Sibling(s, last, b) {
        AnySiblingSplit(s, ids, b);
      }
    }
  }

  // ---------------------------------------------------------------- activation

  lemma {:induction false} ActivateChildEffect(s: State, id: int, parentFilled: bool)
    ensures var r := ActivateChild(s, id, parentFilled);
            SameFrame(s, r) && r.orders == if id !in s.orders || !s.orders[id].status.Held? then s.orders
              else s.orders[id := s.orders[id].(status := ActivatedStatus(s.orders[id], parentFilled))]
  {
  }

  lemma {:induction false} ActivateEachEffect(s: State, ids: seq<int>, parentFilled: bool)
    ensures var r := ActivateEach(s, ids, parentFilled);
            && SameFrame(s, r)
            && (forall id | id in s.orders ::
                  r.orders[id] == if id in ids && s.orders[id].status.Held?
                                  then s.orders[id].(status := ActivatedStatus(s.orders[id], parentFilled))
                                  else s.orders[id])
    decreases |ids|
  {
    if ids != [] {
      var init, last := ids[..|ids| - 1], ids[|ids| - 1];
      ActivateEachEffect(s, init, parentFilled);
      ActivateChildEffect(ActivateEach(s, init, parentFilled), last, parentFilled);
      assert ids == init + [last];
    }
  }

  /** The parent as activation leaves it: filled at once when it is an instant market order. */
  function OpenedParent(cfg: Config, s: State, o: Order): Order {
    var working := o.(status := Status.Working);
    if o.orderType.Market? && cfg.instant
    then FilledAt(working, MarketFillPrice(cfg, MarketPrice(s, o.symbol), o.action))
    else working
  }

  lemma {:induction false} OpenParentEffect(cfg: Config, s: State, parent: int)
    requires Settled(s) && parent in s.orders && s.orders[parent].status.Held?
    ensures var r := OpenParent(cfg, s, parent);
            SameFrame(s, r) && r.orders == s.orders[parent := OpenedParent(cfg, s, s.orders[parent])]
  {
    var working := StartWorking(s, parent);
    if s.orders[parent].orderType.Market? && cfg.instant {
      assert working.orders[parent].Remaining() == working.orders[parent].quantity;
      FillEffect(cfg, working, parent,
                 MarketFillPrice(cfg, MarketPrice(s, s.orders[parent].symbol), s.orders[parent].action));
    }
  }

  /** Activation opens the parent and releases its held children, and touches nothing else. */
  lemma {:induction false} ActivateEffect(cfg: Config, s: State, parent: int)
    requires Settled(s) && parent in s.orders && s.orders[parent].status.Held?
    ensures var r := ActivateBracket(cfg, s, parent);
            var opening := OpenedParent(cfg, s, s.orders[parent]);
            && SameFrame(s, r)
            && (forall id | id in s.orders ::
                  r.orders[id] == if id == parent then opening
                                  else if id in LinksOf(s, parent) && s.orders[id].status.Held?
                                  then s.orders[id].(status := ActivatedStatus(s.orders[id], opening.status.Filled?))
                                  else s.orders[id])
  {
    OpenParentEffect(cfg, s, parent);
    var active := OpenParent(cfg, s, parent);
    ActivateEachEffect(active, LinksOf(active, parent), IsFilled(active, parent));
  }

  // ---------------------------------------------------------------- price moves, stage by stage

  function LimitPriceOf(o: Order, price: real): real {
    LimitFillPrice(o.action, price, Or(o.limitPrice, 0.0))
  }

  lemma {:induction false} LimitHitsAre(s: State, visit: seq<int>, symbol: string, price: real)
    requires Distinct(visit)
    ensures var hits := LimitHits(s, visit, symbol, price);
            && Distinct(Ids(hits))
            && (forall i | 0 <= i < |hits| :: hits[i].0 in visit && hits[i].0 in s.orders
                    && LimitHit(s.orders[hits[i].0], symbol, price)
                    && hits[i].1 == LimitPriceOf(s.orders[hits[i].0], price))
            && (forall id | id in visit && id in s.orders && LimitHit(s.orders[id], symbol, price) :: id in Ids(hits))
    decreases |visit|
  {
    if visit != [] {
      var init, last := visit[..|visit| - 1], visit[|visit| - 1];
      LimitHitsAre(s, init, symbol, price);
      var hits, before := LimitHits(s, visit, symbol, price), LimitHits(s, init, symbol, price);
      assert last !in init;
      if |hits| > |before| {
        assert Ids(hits) == Ids(before) + [last];
      }
    }
  }

  lemma {:induction false} StopHitsAre(s: State, visit: seq<int>, symbol: string, price: real)
    requires Distinct(visit)
    ensures var hits := StopHits(s, visit, symbol, price);
            && Distinct(hits)
            && (forall id :: id in hits <==> id in visit && id in s.orders && StopHit(s.orders[id], symbol, price))
    decreases |visit|
  {
    if visit != [] {
      var init, last := visit[..|visit| - 1], visit[|visit| - 1];
      StopHitsAre(s, init, symbol, price);
      assert visit == init + [last];
    }
  }

  /** A triggered stop: working, and filled when it executes at once. */
  function AfterTrigger(cfg: Config, o: Order, price: real): Order {
    var working := o.(status := Status.Working);
    match StopExecution(cfg, o, price)
    case None => working
    case Some(fill) => FilledAt(working, fill)
  }

  lemma {:induction false} TriggerStopEffect(cfg: Config, s: State, id: int, price: real)
    requires id in s.orders && s.orders[id].filledQty == 0.0
    ensures var r := TriggerStop(cfg, s, id, price);
            SameFrame(s, r) && r.orders == s.orders[id := AfterTrigger(cfg, s.orders[id], price)]
  {
    var o := s.orders[id];
    var working := s.(orders := s.orders[id := o.(status := Status.Working)],
                      log := s.log + [StatusChanged(id, Reported.Submitted, o.filledQty, o.Remaining(), 0.0)]);
    match StopExecution(cfg, o, price)
    case None =>
    case Some(fill) => FillEffect(cfg, working, id, fill);
  }

  lemma {:induction false} TriggerEachEffect(cfg: Config, s: State, ids: seq<int>, price: real)
    requires Distinct(ids) && forall id | id in ids :: id in s.orders && s.orders[id].filledQty == 0.0
    ensures var r := TriggerEach(cfg, s, ids, price);
            && SameFrame(s, r)
            && (forall id | id in s.orders ::
                  r.orders[id] == if id in ids then AfterTrigger(cfg, s.orders[id], price) else s.orders[id])
    decreases |ids|
  {
    if ids != [] {
      var init, last := ids[..|ids| - 1], ids[|ids| - 1];
      assert ids == init + [last] && last !in init;
      TriggerEachEffect(cfg, s, init, price);
      TriggerStopEffect(cfg, TriggerEach(cfg, s, init, price), last, price);
    }
  }

  lemma {:induction false} ExecutedAre(cfg: Config, s: State, ids: seq<int>, price: real)
    ensures forall id :: id in Executed(cfg, s, ids, price)
              <==> id in ids && id in s.orders && StopExecution(cfg, s.orders[id], price).Some?
    decreases |ids|
  {
    if ids != [] {
      ExecutedAre(cfg, s, ids[..|ids| - 1], price);
      assert ids == ids[..|ids| - 1] + [ids[|ids| - 1]];
    }
  }
}
