/** The books balance after every run: each public operation keeps the three readings of the money. */
module SimRuns {
  import opened Wrappers
  import opened SimModel
  import opened SimBooks

  // ---------------------------------------------------------------- the quiet transitions

  lemma {:induction false} CancelInnerQuiet(s: State, id: int)
    requires Known(s)
    ensures NoFill(s, CancelInner(s, id))
  {
  }

  lemma {:induction false} CancelOthersQuiet(s: State, ids: seq<int>, except: int)
    requires Known(s)
    ensures NoFill(s, CancelOthers(s, ids, except))
    decreases |ids|
  {
    if ids != [] {
      var before := CancelOthers(s, ids[..|ids| - 1], except);
      CancelOthersQuiet(s, ids[..|ids| - 1], except);
      NoFillKeepsKnown(s, before);
      CancelInnerQuiet(before, ids[|ids| - 1]);
      NoFillTransitive(s, before, CancelInner(before, ids[|ids| - 1]));
    }
  }

  lemma {:induction false} CancelEachQuiet(s: State, ids: seq<int>)
    requires Known(s)
    ensures NoFill(s, CancelEach(s, ids))
    decreases |ids|
  {
    if ids != [] {
      var before := CancelEach(s, ids[..|ids| - 1]);
      CancelEachQuiet(s, ids[..|ids| - 1]);
      NoFillKeepsKnown(s, before);
      CancelInnerQuiet(before, ids[|ids| - 1]);
      NoFillTransitive(s, before, CancelInner(before, ids[|ids| - 1]));
    }
  }

  lemma {:induction false} CheckOcaEachQuiet(s: State, ids: seq<int>)
    requires Known(s)
    ensures NoFill(s, CheckOcaEach(s, ids))
    decreases |ids|
  {
    if ids != [] {
      var before, last := CheckOcaEach(s, ids[..|ids| - 1]), ids[|ids| - 1];
      CheckOcaEachQuiet(s, ids[..|ids| - 1]);
      NoFillKeepsKnown(s, before);
      if last in before.orders && before.orders[last].parentId.Some? {
        CancelOthersQuiet(before, LinksOf(before, before.orders[last].parentId.value), last);
        NoFillTransitive(s, before, CheckOca(before, last));
      }
    }
  }

  lemma {:induction false} ActivateEachQuiet(s: State, ids: seq<int>, parentFilled: bool)
    requires Known(s)
    ensures NoFill(s, ActivateEach(s, ids, parentFilled))
    decreases |ids|
  {
    if ids != [] {
      var before := ActivateEach(s, ids[..|ids| - 1], parentFilled);
      ActivateEachQuiet(s, ids[..|ids| - 1], parentFilled);
      NoFillTransitive(s, before, ActivateChild(before, ids[|ids| - 1], parentFilled));
    }
  }

  // ---------------------------------------------------------------- the books after every run

  ghost predicate Sound(cfg: Config, s: State, id: int) { Books(cfg, s) && id in s.orders }

  lemma {:induction false} TrancheIsSound(cfg: Config, s: State, r: State, id: int, shares: Pos, price: real,
                                          last: bool)
    requires Sound(cfg, s, id) && r == Tranche(cfg, s, id, shares, price, last)
    ensures Sound(cfg, r, id)
  {
    TrancheKeepsBooks(cfg, s, id, shares, price, last);
  }

  lemma {:induction false} TranchesUnfold(cfg: Config, s: State, id: int, i: nat, n: nat, size: Pos, price: real)
    returns (before: State)
    requires id in s.orders && 0 < i <= n
    ensures before == Tranches(cfg, s, id, i - 1, n, size, price) && id in before.orders
    ensures Tranches(cfg, s, id, i, n, size, price) == Tranche(cfg, before, id, size, price, i == n)
  {
    before := Tranches(cfg, s, id, i - 1, n, size, price);
  }

  lemma {:induction false} NextTrancheIsSound(cfg: Config, s: State, id: int, i: nat, n: nat, size: Pos, price: real)
    requires id in s.orders && 0 < i <= n
    requires Sound(cfg, Tranches(cfg, s, id, i - 1, n, size, price), id)
    ensures Sound(cfg, Tranches(cfg, s, id, i, n, size, price), id)
  {
    var before := TranchesUnfold(cfg, s, id, i, n, size, price);
    TrancheIsSound(cfg, before, Tranches(cfg, s, id, i, n, size, price), id, size, price, i == n);
  }

  lemma {:induction false} TranchesKeepBooks(cfg: Config, s: State, id: int, i: nat, n: nat, size: Pos, price: real)
    requires Sound(cfg, s, id) && i <= n
    ensures Sound(cfg, Tranches(cfg, s, id, i, n, size, price), id)
  {
    if i > 0 {
      TranchesKeepBooks(cfg, s, id, i - 1, n, size, price);
      NextTrancheIsSound(cfg, s, id, i, n, size, price);
    }
  }

  lemma {:induction false} StatusKeepsBooks(cfg: Config, s: State, id: int, status: Status)
    requires Books(cfg, s) && id in s.orders
    ensures Books(cfg, s.(orders := s.orders[id := s.orders[id].(status := status)]))
  {
    NoFillKeepsBooks(cfg, s, s.(orders := s.orders[id := s.orders[id].(status := status)]));
  }

  lemma {:induction false} FillKeepsBooks(cfg: Config, s: State, id: int, shares: real, price: real)
    requires Books(cfg, s)
    requires id in s.orders && s.orders[id].Remaining() > 0.0 ==> shares > 0.0
    ensures Books(cfg, ExecuteFill(cfg, s, id, shares, price))
  {
    if id in s.orders && s.orders[id].Remaining() > 0.0 {
      var fill: Pos := Min(shares, s.orders[id].Remaining());
      var n := TrancheCount(cfg, fill);
      var filled := Tranches(cfg, s, id, n, n, Share(fill, n), price);
      TranchesKeepBooks(cfg, s, id, n, n, Share(fill, n), price);
      StatusKeepsBooks(cfg, filled, id, SettledStatus(filled.orders[id]));
    }
  }

  lemma {:induction false} ActivateKeepsBooks(cfg: Config, s: State, parent: int)
    requires Books(cfg, s)
    ensures Books(cfg, ActivateBracket(cfg, s, parent))
  {
    if parent in s.orders && s.orders[parent].status.Held? {
      var working := StartWorking(s, parent);
      NoFillKeepsBooks(cfg, s, working);
      var o := working.orders[parent];
      FillKeepsBooks(cfg, working, parent, o.quantity,
                     MarketFillPrice(cfg, MarketPrice(working, o.symbol), o.action));
      var active := OpenParent(cfg, s, parent);
      ActivateEachQuiet(active, LinksOf(active, parent), IsFilled(active, parent));
      NoFillKeepsBooks(cfg, active, ActivateBracket(cfg, s, parent));
    }
  }

  lemma {:induction false} EnterQuiet(s: State, spec: Spec, rejected: bool)
    requires Known(s) && spec.id !in s.orders
    ensures NoFill(s, Enter(s, spec, rejected))
  {
  }

  lemma {:induction false} PlaceNewKeepsBooks(cfg: Config, s: State, spec: Spec, rejected: bool)
    requires Books(cfg, s) && spec.id !in s.orders
    ensures Books(cfg, PlaceNew(cfg, s, spec, rejected))
  {
    EnterQuiet(s, spec, rejected);
    NoFillKeepsBooks(cfg, s, Enter(s, spec, rejected));
    ActivateKeepsBooks(cfg, Enter(s, spec, rejected), Root(spec));
  }

  lemma {:induction false} PlaceKeepsBooks(cfg: Config, s: State, spec: Spec)
    requires Books(cfg, s)
    ensures Books(cfg, PlaceOrder(cfg, s, spec))
  {
    if spec.id in s.orders {
      NoFillKeepsBooks(cfg, s, Reprice(s, spec));
    } else {
      PlaceNewKeepsBooks(cfg, s, spec, ShouldReject(cfg, s.orderCount + 1));
    }
  }

  lemma {:induction false} FillEachKeepsBooks(cfg: Config, s: State, fills: seq<(int, real)>)
    requires Books(cfg, s)
    ensures Books(cfg, FillEach(cfg, s, fills))
    decreases |fills|
  {
    if fills != [] {
      var before := FillEach(cfg, s, fills[..|fills| - 1]);
      var (id, price) := fills[|fills| - 1];
      FillEachKeepsBooks(cfg, s, fills[..|fills| - 1]);
      if id in before.orders {
        FillKeepsBooks(cfg, before, id, before.orders[id].Remaining(), price);
      }
    }
  }

  lemma {:induction false} TriggerStopKeepsBooks(cfg: Config, s: State, id: int, price: real)
    requires Books(cfg, s)
    ensures Books(cfg, TriggerStop(cfg, s, id, price))
  {
    if id in s.orders {
      var o := s.orders[id];
      var working := s.(orders := s.orders[id := o.(status := Status.Working)],
                        log := s.log + [StatusChanged(id, Reported.Submitted, o.filledQty, o.Remaining(), 0.0)]);
      NoFillKeepsBooks(cfg, s, working);
      if StopExecution(cfg, o, price).Some? {
        FillKeepsBooks(cfg, working, id, o.Remaining(), StopExecution(cfg, o, price).value);
      }
    }
  }

  lemma {:induction false} TriggerEachKeepsBooks(cfg: Config, s: State, ids: seq<int>, price: real)
    requires Books(cfg, s)
    ensures Books(cfg, TriggerEach(cfg, s, ids, price))
    decreases |ids|
  {
    if ids != [] {
      TriggerEachKeepsBooks(cfg, s, ids[..|ids| - 1], price);
      TriggerStopKeepsBooks(cfg, TriggerEach(cfg, s, ids[..|ids| - 1], price), ids[|ids| - 1], price);
    }
  }

  lemma {:induction false} OcaKeepsBooks(cfg: Config, s: State, ids: seq<int>)
    requires Books(cfg, s)
    ensures Books(cfg, CheckOcaEach(s, ids))
  {
    CheckOcaEachQuiet(s, ids);
    NoFillKeepsBooks(cfg, s, CheckOcaEach(s, ids));
  }

  lemma {:induction false} PriceKeepsBooks(cfg: Config, s: State, symbol: string, price: real, v1: seq<int>,
                                           v2: seq<int>)
    requires Books(cfg, s)
    ensures Books(cfg, SetMarketPrice(cfg, s, symbol, price, v1, v2))
  {
    var priced := s.(prices := s.prices[symbol := price]);
    NoFillKeepsBooks(cfg, s, priced);
    var fills := LimitHits(priced, v1, symbol, price);
    FillEachKeepsBooks(cfg, priced, fills);
    OcaKeepsBooks(cfg, FillEach(cfg, priced, fills), Ids(fills));
    var limited := CheckLimitFills(cfg, priced, v1, symbol, price);
    var ids := StopHits(limited, v2, symbol, price);
    TriggerEachKeepsBooks(cfg, limited, ids, price);
    OcaKeepsBooks(cfg, TriggerEach(cfg, limited, ids, price), Executed(cfg, limited, ids, price));
  }

  lemma {:induction false} CancelKeepsBooks(cfg: Config, s: State, id: int)
    requires Books(cfg, s)
    ensures Books(cfg, CancelOrder(s, id))
  {
    var own := CancelInner(s, id);
    CancelInnerQuiet(s, id);
    NoFillKeepsBooks(cfg, s, own);
    CancelEachQuiet(own, LinksOf(own, id));
    NoFillKeepsBooks(cfg, own, CancelEach(own, LinksOf(own, id)));
  }

  lemma {:induction false} StepKeepsBooks(cfg: Config, s: State, op: Op)
    requires Books(cfg, s)
    ensures Books(cfg, Step(cfg, s, op))
  {
    match op
    case NextId => NoFillKeepsBooks(cfg, s, Step(cfg, s, op));
    case Place(spec) => PlaceKeepsBooks(cfg, s, spec);
    case Cancel(id) => CancelKeepsBooks(cfg, s, id);
    case Modify(id, change) => NoFillKeepsBooks(cfg, s, ModifyOrder(s, id, change));
    case SetPrice(symbol, price, v1, v2) => PriceKeepsBooks(cfg, s, symbol, price, v1, v2);
  }

  /**
   After any run at all, the order table, the event log and the ledger each account for the broker's
   cash and positions: see TableBooks, ReplayBooks and LedgerBooks.
   */
  lemma {:induction false} BooksAlwaysBalance(cfg: Config, ops: seq<Op>)
    ensures Books(cfg, Run(cfg, ops))
    decreases |ops|
  {
    if ops != [] {
      BooksAlwaysBalance(cfg, ops[..|ops| - 1]);
      StepKeepsBooks(cfg, Run(cfg, ops[..|ops| - 1]), ops[|ops| - 1]);
    }
  }
}
