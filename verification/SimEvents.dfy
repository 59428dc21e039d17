/** The events of a fill: one execution, its commission and a status for every tranche. */
module SimEvents {
  import opened Wrappers
  import opened SimModel
  import opened SimEffects
  import opened SimRuns

  /** The three events of the k-th of n equal tranches of an order, starting at position `at` of the log. */
  ghost predicate TrancheEvents(cfg: Config, log: seq<Event>, at: nat, o: Order, exec: int, k: nat, n: nat, size: Pos,
                                price: real)
    requires k < n
  {
    && at + 2 < |log|
    && log[at] == Execution(o.id, exec + k, size, price)
    && log[at + 1].Commission? && log[at + 1].execId == exec + k
    && log[at + 1].commission == Max(size * cfg.commissionPerShare, 0.0)
    && log[at + 2] == StatusChanged(o.id, if k == n - 1 then Reported.Filled else Reported.PartiallyFilled,
                                    Lots(k + 1, size), Lots(n - 1 - k, size), price)
  }

  /** The log after `i` tranches. */
  ghost predicate FillEvents(cfg: Config, s: State, r: State, o: Order, i: nat, n: nat, size: Pos, price: real)
    requires i <= n
  {
    && |r.log| == |s.log| + 3 * i && r.log[..|s.log|] == s.log && r.execCounter == s.execCounter + i
    && (forall k | 0 <= k < i :: TrancheEvents(cfg, r.log, |s.log| + 3 * k, o, s.execCounter, k, n, size, price))
  }

  lemma {:induction false} LotsSplit(i: nat, n: nat, size: Pos)
    requires i <= n
    ensures Lots(n, size) == Lots(i, size) + Lots(n - i, size)
    ensures i > 0 ==> Lots(i, size) > 0.0
  {
    if i > 0 {
      LotsSplit(i - 1, n - 1, size);
      LotsShift(n - i, size);
    }
  }

  lemma {:induction false} LotsShift(k: nat, size: Pos)
    ensures Lots(k + 1, size) == Lots(k, size) + size
  {
  }

  /** What one tranche appends to the log. */
  lemma {:induction false} TrancheLog(cfg: Config, before: State, id: int, size: Pos, price: real, last: bool)
    returns (commission: Event, status: Event)
    requires id in before.orders
    ensures var r, o' := Tranche(cfg, before, id, size, price, last), AfterTranche(before.orders[id], size, price);
            && r.log == before.log
               + [Execution(before.orders[id].id, before.execCounter, size, price), commission, status]
            && r.execCounter == before.execCounter + 1
            && commission.Commission? && commission.execId == before.execCounter
            && commission.commission == Max(size * cfg.commissionPerShare, 0.0)
            && status == StatusChanged(before.orders[id].id, TrancheStatus(o', last), o'.filledQty,
                                       Max(o'.Remaining(), 0.0), o'.avgFillPrice)
  {
    var r := Tranche(cfg, before, id, size, price, last);
    commission, status := r.log[|before.log| + 1], r.log[|before.log| + 2];
  }

  /** The amounts that the status of the i-th of n tranches reports. */
  lemma {:induction false} TrancheReport(o: Order, i: nat, n: nat, size: Pos, price: real)
    requires i < n && o.filledQty == Lots(i, size) && o.quantity == Lots(n, size)
    requires i > 0 ==> o.avgFillPrice == price
    ensures var o' := AfterTranche(o, size, price);
            && o'.filledQty == Lots(i + 1, size) && o'.avgFillPrice == price
            && Max(o'.Remaining(), 0.0) == Lots(n - 1 - i, size)
            && TrancheStatus(o', i == n - 1) == if i == n - 1 then Reported.Filled else Reported.PartiallyFilled
  {
    LotsSplit(i + 1, n, size);
    if i > 0 { LotsSplit(i, i, size); }
    if i < n - 1 { LotsSplit(n - 1 - i, n - 1 - i, size); }
    SamePriceAverage(o, size, price);
  }

  lemma {:induction false} OneTranche(cfg: Config, before: State, id: int, i: nat, n: nat, size: Pos, price: real)
    requires id in before.orders && i < n
    requires before.orders[id].filledQty == Lots(i, size) && before.orders[id].quantity == Lots(n, size)
    requires i > 0 ==> before.orders[id].avgFillPrice == price
    ensures var r := Tranche(cfg, before, id, size, price, i == n - 1); var o := before.orders[id];
            && |r.log| == |before.log| + 3 && r.log[..|before.log|] == before.log
            && r.execCounter == before.execCounter + 1
            && TrancheEvents(cfg, r.log, |before.log|, o, before.execCounter - i, i, n, size, price)
  {
    var o := before.orders[id];
    var commission, status := TrancheLog(cfg, before, id, size, price, i == n - 1);
    TrancheReport(o, i, n, size, price);
  }

  lemma {:induction false} EventsExtend(cfg: Config, s: State, before: State, r: State, o: Order, o': Order, i: nat,
                                        n: nat, size: Pos, price: real)
    requires i < n && FillEvents(cfg, s, before, o, i, n, size, price) && o'.id == o.id
    requires |r.log| == |before.log| + 3 && r.log[..|before.log|] == before.log
    requires r.execCounter == before.execCounter + 1
    requires TrancheEvents(cfg, r.log, |before.log|, o', s.execCounter, i, n, size, price)
    ensures FillEvents(cfg, s, r, o, i + 1, n, size, price)
  {
    assert r.log[..|s.log|] == r.log[..|before.log|][..|s.log|];
    forall k | 0 <= k < i + 1
      ensures TrancheEvents(cfg, r.log, |s.log| + 3 * k, o, s.execCounter, k, n, size, price)
    {
      if k < i {
        assert TrancheEvents(cfg, before.log, |s.log| + 3 * k, o, s.execCounter, k, n, size, price);
        var at := |s.log| + 3 * k;
        assert r.log[at] == r.log[..|before.log|][at] && r.log[at + 1] == r.log[..|before.log|][at + 1]
            && r.log[at + 2] == r.log[..|before.log|][at + 2];
      }
    }
  }

  lemma {:induction false} TranchesEvents(cfg: Config, s: State, id: int, i: nat, n: nat, size: Pos, price: real)
    requires id in s.orders && i <= n
    requires s.orders[id].filledQty == 0.0 && s.orders[id].quantity == Lots(n, size)
    ensures FillEvents(cfg, s, Tranches(cfg, s, id, i, n, size, price), s.orders[id], i, n, size, price)
  {
    if i > 0 {
      TranchesEvents(cfg, s, id, i - 1, n, size, price);
      var before := TranchesUnfold(cfg, s, id, i, n, size, price);
      if i > 1 { TranchesEffect(cfg, s, id, i - 1, n, size, price); }
      EventsOfNext(cfg, s, before, Tranches(cfg, s, id, i, n, size, price), id, i - 1, n, size, price);
    }
  }

  lemma {:induction false} EventsOfNext(cfg: Config, s: State, before: State, r: State, id: int, i: nat, n: nat,
                                        size: Pos, price: real)
    requires id in s.orders && id in before.orders && before.orders[id].id == s.orders[id].id && i < n
    requires FillEvents(cfg, s, before, s.orders[id], i, n, size, price)
    requires before.orders[id].filledQty == Lots(i, size) && before.orders[id].quantity == Lots(n, size)
    requires i > 0 ==> before.orders[id].avgFillPrice == price
    requires r == Tranche(cfg, before, id, size, price, i + 1 == n)
    ensures FillEvents(cfg, s, r, s.orders[id], i + 1, n, size, price)
  {
    OneTranche(cfg, before, id, i, n, size, price);
    NextEvents(cfg, s, before, r, id, i, n, size, price);
  }

  lemma {:induction false} NextEvents(cfg: Config, s: State, before: State, r: State, id: int, i: nat, n: nat,
                                      size: Pos, price: real)
    requires id in s.orders && id in before.orders && before.orders[id].id == s.orders[id].id && i < n
    requires FillEvents(cfg, s, before, s.orders[id], i, n, size, price)
    requires r == Tranche(cfg, before, id, size, price, i == n - 1)
    requires |r.log| == |before.log| + 3 && r.log[..|before.log|] == before.log
    requires r.execCounter == before.execCounter + 1
    requires TrancheEvents(cfg, r.log, |before.log|, before.orders[id], before.execCounter - i, i, n, size, price)
    ensures FillEvents(cfg, s, r, s.orders[id], i + 1, n, size, price)
  {
    EventsExtend(cfg, s, before, r, s.orders[id], before.orders[id], i, n, size, price);
  }

  /** Fills above a positive threshold are split into the configured number of tranches, others are whole. */
  predicate Split(cfg: Config, quantity: real) {
    cfg.fillThreshold > 0.0 && quantity > cfg.fillThreshold && cfg.fillTranches > 1
  }

  lemma {:induction false} SizeIsShare(quantity: Pos, n: nat, size: Pos)
    requires n >= 1 && size * n as real == quantity
    ensures size == Share(quantity, n)
  {
  }

  /**
   A complete fill sends, for each of its n equal tranches, an execution, the commission with the
   same execution id and a status that is PartiallyFilled up to the last tranche and Filled at it.
   */
  lemma {:induction false} FillSendsEvents(cfg: Config, s: State, id: int, price: real, n: nat, size: Pos)
    requires id in s.orders && s.orders[id].filledQty == 0.0 && s.orders[id].quantity > 0.0
    requires n == (if Split(cfg, s.orders[id].quantity) then cfg.fillTranches else 1)
             && size * n as real == s.orders[id].quantity
    ensures var o := s.orders[id];
            FillEvents(cfg, s, ExecuteFill(cfg, s, id, o.Remaining(), price), o, n, n, size, price)
  {
    var o := s.orders[id];
    SizeIsShare(o.quantity, n, size);
    SharesAddUp(o.quantity, n);
    TranchesEvents(cfg, s, id, n, n, size, price);
  }
}
