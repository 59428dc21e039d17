/** The bracket submitter driving the simulated broker: ids first, then the legs, transmit last. */
module BracketSubmitters {
  import opened Wrappers
  import opened SimModel
  import opened SimEffects
  import opened SimLifecycle
  import opened SimSubmitter
  import opened SimOrderClients

  lemma {:induction false} CancelEachMovesNoMoney(s: State, ids: seq<int>)
    ensures CancelEach(s, ids).cash == s.cash && CancelEach(s, ids).positions == s.positions
    decreases |ids|
  {
    if ids != [] { CancelEachMovesNoMoney(s, ids[..|ids| - 1]); }
  }

  lemma {:induction false} CancelMovesNoMoney(s: State, id: int)
    ensures var r := SimModel.CancelOrder(s, id); r.cash == s.cash && r.positions == s.positions
  {
    var own := CancelInner(s, id);
    CancelEachMovesNoMoney(own, LinksOf(own, id));
  }

  function CancelLegs(s: State, legs: seq<int>): State
    decreases |legs|
  {
    if legs == [] then s else SimModel.CancelOrder(CancelLegs(s, legs[..|legs| - 1]), legs[|legs| - 1])
  }

  lemma {:induction false} CancelLegEffect(s: State, leg: int)
    requires Settled(s)
    ensures var r := SimModel.CancelOrder(s, leg);
            && SameFrame(s, r) && Settled(r) && r.cash == s.cash && r.positions == s.positions
            && (leg in s.orders ==> r.orders[leg].status.Terminal())
            && (forall id | id in s.orders ::
                  r.orders[id] == s.orders[id] || r.orders[id] == CancelledOrder(s.orders[id]))
  {
    CancelOrderEffect(s, leg);
    CancelMovesNoMoney(s, leg);
    CancelIsCalm(s, leg);
    CalmSettles(s.orders, SimModel.CancelOrder(s, leg).orders);
  }

  lemma {:induction false} CancelLegsEffect(s: State, legs: seq<int>)
    requires Settled(s)
    ensures var r := CancelLegs(s, legs);
            && SameFrame(s, r) && Settled(r) && r.cash == s.cash && r.positions == s.positions
            && (forall id | id in s.orders && id in legs :: r.orders[id].status.Terminal())
            && (forall id | id in s.orders ::
                  r.orders[id] == s.orders[id] || r.orders[id] == CancelledOrder(s.orders[id]))
    decreases |legs|
  {
    if legs != [] {
      var init, last := legs[..|legs| - 1], legs[|legs| - 1];
      CancelLegsEffect(s, init);
      assert legs == init + [last];
      CancelLegEffect(CancelLegs(s, init), last);
    }
  }

  class BracketSubmitter {
    const client: SimOrderClient

    constructor (c: SimOrderClient)
      ensures client == c
    {
      client := c;
    }

    method AllocateIds(p: Params) returns (h: Handle)
      requires client.Keyed()
      modifies client
      ensures h == Allocate(old(client.nextId), p) && client.Keyed()
      ensures client.View() == old(client.View()).(nextId := old(client.nextId) + Allocated(p))
    {
      var entryId := client.NextOrderId();
      var tpId, slId := None, None;
      if p.takeProfit.Some? {
        var id := client.NextOrderId();
        tpId := Some(id);
      }
      if p.stopLoss.Some? {
        var id := client.NextOrderId();
        slId := Some(id);
      }
      h := Handle(entryId, tpId, slId);
    }

    /** Places the next leg of `legs`, of which `k` have been placed. */
    method PlaceLeg(spec: Spec, ghost ready: State, ghost legs: seq<Spec>, ghost k: nat)
      requires client.Keyed() && k < |legs| && spec == legs[k]
      requires client.View() == PlaceAll(client.cfg, ready, legs[..k])
      modifies client
      ensures client.Keyed() && client.View() == PlaceAll(client.cfg, ready, legs[..k + 1])
    {
      client.PlaceOrder(spec);
      PlaceAllPush(client.cfg, ready, legs[..k], spec);
      assert legs[..k + 1] == legs[..k] + [spec];
    }

    /** Places the children of the entry, the last of them transmitted. */
    method PlaceChildren(p: Params, h: Handle, ghost ready: State)
      requires client.Keyed() && (h.tpId.Some? <==> p.takeProfit.Some?) && (h.slId.Some? <==> p.stopLoss.Some?)
      requires client.View() == PlaceAll(client.cfg, ready, Legs(h, p)[..1])
      modifies client
      ensures client.Keyed() && client.View() == PlaceAll(client.cfg, ready, Legs(h, p))
    {
      ghost var legs := Legs(h, p);
      ghost var k := 1;
      if p.takeProfit.Some? {
        PlaceLeg(TpSpec(h.tpId.value, h.entryId, p, p.takeProfit.value, p.stopLoss.None?), ready, legs, k);
        k := k + 1;
      }
      if p.stopLoss.Some? {
        PlaceLeg(SlSpec(h.slId.value, h.entryId, p, p.stopLoss.value, true), ready, legs, k);
        k := k + 1;
      }
      assert legs[..k] == legs;
    }

    /** Places the entry, then its children. */
    method PlaceLegs(p: Params, h: Handle)
      requires client.Keyed() && (h.tpId.Some? <==> p.takeProfit.Some?) && (h.slId.Some? <==> p.stopLoss.Some?)
      modifies client
      ensures client.Keyed() && client.View() == PlaceAll(client.cfg, old(client.View()), Legs(h, p))
    {
      ghost var ready := client.View();
      assert Legs(h, p)[..0] == [];
      PlaceLeg(EntrySpec(h.entryId, p, !p.HasChildren()), ready, Legs(h, p), 0);
      PlaceChildren(p, h, ready);
    }

    /** Allocates every id, then places entry, take-profit and stop-loss, transmitting with the last. */
    method PlaceBracket(p: Params) returns (h: Handle)
      requires client.Keyed()
      modifies client
      ensures (client.View(), h) == SimSubmitter.PlaceBracket(client.cfg, old(client.View()), p)
      ensures client.Keyed()
    {
      ghost var before := client.View();
      h := AllocateIds(p);
      ghost var ready := client.View();
      PlaceLegs(p, h);
      BracketIs(client.cfg, before, p, h, ready);
    }

    /** Best-effort cancel of every leg the caller still tracks. */
    method CancelBracket(legs: seq<int>)
      requires client.Keyed()
      modifies client
      ensures client.View() == CancelLegs(old(client.View()), legs) && client.Keyed()
    {
      for i := 0 to |legs|
        invariant client.Keyed() && client.View() == CancelLegs(old(client.View()), legs[..i])
      {
        assert legs[..i + 1][..i] == legs[..i];
        client.CancelOrder(legs[i]);
      }
      assert legs[..|legs|] == legs;
    }

    /** Moves the limit or the stop price of one leg, and nothing else. */
    method ModifyBracketLeg(id: int, price: real, isStop: bool) returns (found: bool)
      requires client.Keyed()
      modifies client
      ensures found == (id in old(client.orders)) && client.Keyed()
      ensures client.View() == if id !in old(client.orders) then old(client.View()) else
                var o := old(client.orders)[id];
                old(client.View()).(orders := old(client.orders)[id :=
                  if isStop then o.(stopPrice := Some(price)) else o.(limitPrice := Some(price))])
    {
      found := client.ModifyOrder(id, Change(None, if isStop then None else Some(price),
                                             if isStop then Some(price) else None, None, None));
    }
  }
}
