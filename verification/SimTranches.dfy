/** Splitting fills into tranches changes the events that are sent, and nothing else. */
module SimTranches {
  import opened Wrappers
  import opened SimModel
  import opened SimBooks
  import opened SimEffects

  // ---------------------------------------------------------------- two executions at one price are one

  ghost predicate SameSide(a: real, b: real) { (a > 0.0 && b > 0.0) || (a < 0.0 && b < 0.0) }

  lemma {:induction false} Rejoin(total: real, m: real, b: real, p: real)
    requires m > 0.0
    ensures total / m * m + p * b == total + p * b
  {
  }

  function CostAfter(pos: Position, signed: real, price: real): real {
    pos.avgCost * Abs(pos.quantity) + price * Abs(signed)
  }

  /** An addition by its size and total cost. */
  lemma {:induction false} IncreasedIs(pos: Position, signed: real, price: real) returns (m: real, total: real)
    requires signed != 0.0 && Opens(pos.quantity, signed)
    ensures m == Abs(pos.quantity + signed) == Abs(pos.quantity) + Abs(signed) > 0.0
    ensures total == CostAfter(pos, signed, price)
    ensures Increased(pos, signed, price) == Position(pos.quantity + signed, total / m)
  {
    m, total := Abs(pos.quantity + signed), CostAfter(pos, signed, price);
    assert total == pos.avgCost * Abs(pos.quantity) + price * Abs(signed);
  }

  lemma {:induction false} CostsJoin(q: real, avg: real, a: real, b: real, p: real, m: real, total: real)
    requires m > 0.0 && m == Abs(q + a) && total == CostAfter(Position(q, avg), a, p) && SameSide(a, b)
    ensures CostAfter(Position(q + a, total / m), b, p) == CostAfter(Position(q, avg), a + b, p)
  {
    Rejoin(total, m, Abs(b), p);
    Distribute(Abs(a), Abs(b), p);
  }

  /** Adding to a position twice at one price. */
  lemma {:induction false} IncreasedTwice(pos: Position, a: real, b: real, p: real)
    requires SameSide(a, b) && Opens(pos.quantity, a)
    ensures Opens(pos.quantity + a, b) && Increased(Increased(pos, a, p), b, p) == Increased(pos, a + b, p)
  {
    var m, total := IncreasedIs(pos, a, p);
    var n, more := IncreasedIs(Position(pos.quantity + a, total / m), b, p);
    var k, all := IncreasedIs(pos, a + b, p);
    CostsJoin(pos.quantity, pos.avgCost, a, b, p, m, total);
  }

  lemma {:induction false} SameCost(m: real, b: real, p: real)
    requires m >= 0.0 && b > 0.0
    ensures (p * m + p * b) / (m + b) == p
  {
    Distribute(m, b, p);
    Unscaled(p, m + b);
  }

  lemma {:induction false} Unscaled(p: real, k: real)
    requires k > 0.0
    ensures p * k / k == p
  {
  }

  lemma {:induction false} QuotientIs(total: real, m: real, p: real)
    requires m > 0.0 && total == p * m
    ensures total / m == p
  {
    Unscaled(p, m);
  }

  lemma {:induction false} FirstCost(pos: Position, b: real, p: real)
    requires pos.quantity == 0.0
    ensures CostAfter(pos, b, p) == p * Abs(pos.quantity + b)
  {
    assert pos.avgCost * 0.0 == 0.0;
  }

  /** Adding at its own average cost, or to nothing, costs the price. */
  lemma {:induction false} IncreasedAtCost(pos: Position, b: real, p: real)
    requires b != 0.0 && Opens(pos.quantity, b) && (pos.avgCost == p || pos.quantity == 0.0)
    ensures Increased(pos, b, p) == Position(pos.quantity + b, p)
  {
    var m, total := IncreasedIs(pos, b, p);
    if pos.quantity == 0.0 {
      FirstCost(pos, b, p);
      QuotientIs(total, m, p);
    } else {
      SameCost(Abs(pos.quantity), Abs(b), p);
    }
  }

  function PositionAfter(pos: Position, signed: real, price: real): Position {
    if Opens(pos.quantity, signed) then Increased(pos, signed, price) else Reduced(pos, signed, price)
  }

  /** Two executions on one side at one price leave the position of one. */
  lemma {:induction false} PositionTwice(pos: Position, a: real, b: real, p: real)
    requires SameSide(a, b)
    ensures PositionAfter(PositionAfter(pos, a, p), b, p) == PositionAfter(pos, a + b, p)
  {
    if Opens(pos.quantity, a) {
      IncreasedTwice(pos, a, b, p);
    } else if Abs(a) >= Abs(pos.quantity) {
      IncreasedAtCost(Reduced(pos, a, p), b, p);
    }
  }

  /** The shares of an execution that close some of a position. */
  function Closing(quantity: real, signed: real): real {
    if Opens(quantity, signed) then 0.0 else Min(Abs(signed), Abs(quantity))
  }

  lemma {:induction false} ClosingTwice(q: real, a: real, b: real)
    requires SameSide(a, b)
    ensures Closing(q, a + b) == Closing(q, a) + Closing(q + a, b)
    ensures Closing(q + a, b) > 0.0 ==> !Opens(q, a) && Abs(a) < Abs(q)
  {
  }

  lemma {:induction false} RatioOf(closed: real, size: real, rate: real)
    requires size > 0.0
    ensures closed / size * (rate * size) == rate * closed
  {
  }

  /** A profit from the gap to the average cost, the side, the charge per share and the shares closed. */
  function GainBy(gap: real, sign: real, rate: real, closed: real): real { gap * (closed * sign) - rate * closed }

  ghost predicate Charged(rate: real, shares: real, charge: real) { charge == rate * shares }

  /** The profit of an execution whose commission is charged per share. */
  lemma {:induction false} GainIs(pos: Position, signed: real, p: real, rate: real, charge: real) returns (gain: real)
    requires signed != 0.0 && Charged(rate, Abs(signed), charge)
    ensures gain == GainOf(ApplyToPosition(pos, signed, p, charge).1)
    ensures gain == GainBy(p - pos.avgCost, Signum(pos.quantity), rate, Closing(pos.quantity, signed))
  {
    gain := GainOf(ApplyToPosition(pos, signed, p, charge).1);
    if !Opens(pos.quantity, signed) { RatioOf(Min(Abs(signed), Abs(pos.quantity)), Abs(signed), rate); }
  }

  lemma {:induction false} GainsJoin(gap: real, sign: real, rate: real, c: real, d: real)
    ensures GainBy(gap, sign, rate, c + d) == GainBy(gap, sign, rate, c) + GainBy(gap, sign, rate, d)
  {
  }

  lemma {:induction false} NoGain(gap: real, sign: real, rate: real)
    ensures GainBy(gap, sign, rate, 0.0) == 0.0
  {
  }

  /** Closing nothing gains nothing; closing more of the same position keeps its cost and side. */
  lemma {:induction false} NextGain(pos: Position, a: real, b: real, p: real, rate: real, charge: real)
    returns (gain: real)
    requires SameSide(a, b) && Charged(rate, Abs(b), charge)
    ensures gain == GainOf(ApplyToPosition(PositionAfter(pos, a, p), b, p, charge).1)
    ensures gain == GainBy(p - pos.avgCost, Signum(pos.quantity), rate, Closing(pos.quantity + a, b))
  {
    var next, d := PositionAfter(pos, a, p), Closing(pos.quantity + a, b);
    gain := GainIs(next, b, p, rate, charge);
    ClosingTwice(pos.quantity, a, b);
    if d == 0.0 {
      NoGain(p - next.avgCost, Signum(next.quantity), rate);
      NoGain(p - pos.avgCost, Signum(pos.quantity), rate);
    }
  }

  /** What two executions close, as the profit of one. */
  lemma {:induction false} BothGain(pos: Position, a: real, b: real, p: real, rate: real, charge: real)
    returns (both: real)
    requires SameSide(a, b) && Charged(rate, Abs(a + b), charge)
    ensures both == GainOf(ApplyToPosition(pos, a + b, p, charge).1)
    ensures both == GainBy(p - pos.avgCost, Signum(pos.quantity), rate,
                           Closing(pos.quantity, a) + Closing(pos.quantity + a, b))
  {
    both := GainIs(pos, a + b, p, rate, charge);
    ClosingTwice(pos.quantity, a, b);
  }

  /** Two executions on one side at one price realise together what one does. */
  lemma {:induction false} GainTwice(pos: Position, a: real, b: real, p: real, rate: real, forA: real, forB: real,
                                     forBoth: real)
    returns (g: real, h: real, both: real)
    requires SameSide(a, b)
    requires Charged(rate, Abs(a), forA) && Charged(rate, Abs(b), forB) && Charged(rate, Abs(a + b), forBoth)
    ensures g == GainOf(ApplyToPosition(pos, a, p, forA).1)
    ensures h == GainOf(ApplyToPosition(PositionAfter(pos, a, p), b, p, forB).1)
    ensures both == GainOf(ApplyToPosition(pos, a + b, p, forBoth).1) && both == g + h
  {
    g := GainIs(pos, a, p, rate, forA);
    h := NextGain(pos, a, b, p, rate, forB);
    both := BothGain(pos, a, b, p, rate, forBoth);
    GainsJoin(p - pos.avgCost, Signum(pos.quantity), rate, Closing(pos.quantity, a), Closing(pos.quantity + a, b));
  }

  // ---------------------------------------------------------------- two tranches are one

  /** The same broker, up to the events sent. */
  ghost predicate Agree(s: State, s': State) {
    && s'.orders == s.orders && s'.links == s.links && s'.prices == s.prices && s'.positions == s.positions
    && s'.cash == s.cash && s'.realized == s.realized && s'.orderCount == s.orderCount && s'.nextId == s.nextId
  }

  lemma {:induction false} SignedSize(action: Action, x: Pos, y: Pos)
    ensures Abs(Signed(action, x)) == x && Signed(action, x) != 0.0
    ensures SameSide(Signed(action, x), Signed(action, y))
    ensures Signed(action, x) + Signed(action, y) == Signed(action, x + y)
  {
  }

  lemma {:induction false} CashTwice(action: Action, x: real, y: real, price: real)
    ensures Signed(action, x * price) + Signed(action, y * price) == Signed(action, (x + y) * price)
  {
    Distribute(x, y, price);
  }

  lemma {:induction false} ChargedTwice(rate: real, x: real, y: real, forX: real, forY: real, forBoth: real)
    requires Charged(rate, x, forX) && Charged(rate, y, forY) && Charged(rate, x + y, forBoth)
    ensures forX + forY == forBoth
  {
    Distribute(x, y, rate);
  }

  /** Where one execution leaves the positions, cash and profit. */
  lemma {:induction false} FillMoves(s: State, symbol: string, action: Action, x: Pos, price: real, charge: real)
    returns (r: State, gain: real)
    ensures Signed(action, x) != 0.0 && r == ApplyFill(s, symbol, action, x, price, charge).0
    ensures gain == GainOf(ApplyToPosition(PositionOf(s.positions, symbol), Signed(action, x), price, charge).1)
    ensures var after := PositionAfter(PositionOf(s.positions, symbol), Signed(action, x), price);
            r.positions == s.positions[symbol := after]
    ensures r.cash == s.cash - Signed(action, x * price) - charge && r.realized == s.realized + gain
  {
    r := ApplyFill(s, symbol, action, x, price, charge).0;
    gain := GainOf(ApplyToPosition(PositionOf(s.positions, symbol), Signed(action, x), price, charge).1);
  }

  /** What two executions of an order charge and gain, against one of both. */
  ghost predicate JoinedGains(pos: Position, action: Action, x: Pos, y: Pos, price: real, forX: real, forY: real,
                              forBoth: real)
  {
    Signed(action, x) != 0.0 && Signed(action, y) != 0.0 && Signed(action, x + y) != 0.0 &&
    GainOf(ApplyToPosition(pos, Signed(action, x + y), price, forBoth).1)
    == GainOf(ApplyToPosition(pos, Signed(action, x), price, forX).1)
       + GainOf(ApplyToPosition(PositionAfter(pos, Signed(action, x), price), Signed(action, y), price, forY).1)
  }

  lemma {:induction false} GainsOfSigned(pos: Position, action: Action, a: real, b: real, c: real, x: Pos, y: Pos,
                                         price: real, rate: real, forX: real, forY: real, forBoth: real)
    requires a == Signed(action, x) && b == Signed(action, y) && c == Signed(action, x + y) && c == a + b
    requires SameSide(a, b) && Abs(a) == x && Abs(b) == y && Abs(c) == x + y
    requires Charged(rate, x, forX) && Charged(rate, y, forY) && Charged(rate, x + y, forBoth)
    ensures JoinedGains(pos, action, x, y, price, forX, forY, forBoth)
  {
    var g, h, both := GainTwice(pos, a, b, price, rate, forX, forY, forBoth);
  }

  lemma {:induction false} SignedGains(pos: Position, action: Action, x: Pos, y: Pos, price: real, rate: real,
                                       forX: real, forY: real, forBoth: real)
    requires Charged(rate, x, forX) && Charged(rate, y, forY) && Charged(rate, x + y, forBoth)
    ensures JoinedGains(pos, action, x, y, price, forX, forY, forBoth)
  {
    SignedSize(action, x, y);
    SignedSize(action, y, x);
    SignedSize(action, x + y, x);
    GainsOfSigned(pos, action, Signed(action, x), Signed(action, y), Signed(action, x + y), x, y, price, rate,
                  forX, forY, forBoth);
  }

  function Booked(s: State, symbol: string, action: Action, x: Pos, price: real, charge: real): State {
    ApplyFill(s, symbol, action, x, price, charge).0
  }

  lemma {:induction false} BookedPositions(s: State, symbol: string, action: Action, x: Pos, y: Pos, price: real,
                                           forX: real, forY: real, forBoth: real)
    ensures Booked(Booked(s, symbol, action, x, price, forX), symbol, action, y, price, forY).positions
            == Booked(s, symbol, action, x + y, price, forBoth).positions
  {
    var r, g := FillMoves(s, symbol, action, x, price, forX);
    var r', h := FillMoves(r, symbol, action, y, price, forY);
    var t, both := FillMoves(s, symbol, action, x + y, price, forBoth);
    SignedSize(action, x, y);
    PositionTwice(PositionOf(s.positions, symbol), Signed(action, x), Signed(action, y), price);
    assert r'.positions == t.positions;
  }

  lemma {:induction false} BookedCash(s: State, symbol: string, action: Action, x: Pos, y: Pos, price: real,
                                      forX: real, forY: real, forBoth: real)
    requires forX + forY == forBoth
    ensures Booked(Booked(s, symbol, action, x, price, forX), symbol, action, y, price, forY).cash
            == Booked(s, symbol, action, x + y, price, forBoth).cash
  {
    CashTwice(action, x, y, price);
  }

  lemma {:induction false} BookedGains(s: State, symbol: string, action: Action, x: Pos, y: Pos, price: real,
                                       forX: real, forY: real, forBoth: real)
    requires JoinedGains(PositionOf(s.positions, symbol), action, x, y, price, forX, forY, forBoth)
    ensures Booked(Booked(s, symbol, action, x, price, forX), symbol, action, y, price, forY).realized
            == Booked(s, symbol, action, x + y, price, forBoth).realized
  {
    var r, g := FillMoves(s, symbol, action, x, price, forX);
    var r', h := FillMoves(r, symbol, action, y, price, forY);
    var t, both := FillMoves(s, symbol, action, x + y, price, forBoth);
    assert PositionOf(r.positions, symbol) == PositionAfter(PositionOf(s.positions, symbol), Signed(action, x), price);
  }

  /** Two bookings at one price are one. */
  lemma {:induction false} BookedTwice(s: State, symbol: string, action: Action, x: Pos, y: Pos, price: real,
                                       rate: real, forX: real, forY: real, forBoth: real)
    requires Charged(rate, x, forX) && Charged(rate, y, forY) && Charged(rate, x + y, forBoth)
    ensures var r := Booked(Booked(s, symbol, action, x, price, forX), symbol, action, y, price, forY);
            var t := Booked(s, symbol, action, x + y, price, forBoth);
            r.positions == t.positions && r.cash == t.cash && r.realized == t.realized
  {
    ChargedTwice(rate, x, y, forX, forY, forBoth);
    SignedGains(PositionOf(s.positions, symbol), action, x, y, price, rate, forX, forY, forBoth);
    BookedPositions(s, symbol, action, x, y, price, forX, forY, forBoth);
    BookedCash(s, symbol, action, x, y, price, forX, forY, forBoth);
    BookedGains(s, symbol, action, x, y, price, forX, forY, forBoth);
  }

  lemma {:induction false} AverageTwice(o: Order, x: Pos, y: Pos, price: real)
    ensures AverageAfter(AfterTranche(o, x, price), y, price) == AverageAfter(o, x + y, price)
  {
    if o.filledQty == 0.0 {
      SameCost(x, y, price);
    } else {
      Rejoin(o.avgFillPrice * o.filledQty + price * x, o.filledQty + x, y, price);
      Distribute(x, y, price);
    }
  }

  lemma {:induction false} TrancheIs(cfg: Config, s: State, id: int, x: Pos, price: real, last: bool)
    returns (charge: real)
    requires id in s.orders
    ensures Charged(cfg.Rate(), x, charge)
    ensures var o, r := s.orders[id], Tranche(cfg, s, id, x, price, last);
            var b := Booked(s, o.symbol, o.action, x, price, charge);
            && r.orders == s.orders[id := AfterTranche(o, x, price)] && r.links == s.links && r.prices == s.prices
            && r.positions == b.positions && r.cash == b.cash && r.realized == b.realized
            && r.orderCount == s.orderCount && r.nextId == s.nextId
  {
    charge := CommissionFor(cfg, x);
    CommissionIsLinear(cfg, x);
  }

  lemma {:induction false} BookedAgrees(s: State, s': State, symbol: string, action: Action, x: Pos, price: real,
                                        charge: real)
    requires s.positions == s'.positions && s.cash == s'.cash && s.realized == s'.realized
    ensures var r, r' := Booked(s, symbol, action, x, price, charge), Booked(s', symbol, action, x, price, charge);
            r.positions == r'.positions && r.cash == r'.cash && r.realized == r'.realized
  {
  }

  lemma {:induction false} SameCharge(rate: real, x: real, a: real, b: real)
    requires Charged(rate, x, a) && Charged(rate, x, b)
    ensures a == b
  {
  }

  lemma {:induction false} TrancheAgrees(cfg: Config, cfg': Config, s: State, s': State, id: int, x: Pos, price: real,
                                         last: bool, last': bool)
    requires Agree(s, s') && id in s.orders && cfg.Rate() == cfg'.Rate()
    ensures Agree(Tranche(cfg, s, id, x, price, last), Tranche(cfg', s', id, x, price, last'))
  {
    var charge := TrancheIs(cfg, s, id, x, price, last);
    var charge' := TrancheIs(cfg', s', id, x, price, last');
    SameCharge(cfg.Rate(), x, charge, charge');
    BookedAgrees(s, s', s.orders[id].symbol, s.orders[id].action, x, price, charge);
  }

  /** Two tranches at one price leave what one of their size leaves. */
  lemma {:induction false} TrancheTwice(cfg: Config, s: State, id: int, x: Pos, y: Pos, price: real, l: bool, m: bool,
                                        n: bool)
    requires id in s.orders
    ensures Agree(Tranche(cfg, Tranche(cfg, s, id, x, price, l), id, y, price, m), Tranche(cfg, s, id, x + y, price, n))
  {
    var o, once := s.orders[id], Tranche(cfg, s, id, x, price, l);
    var forX := TrancheIs(cfg, s, id, x, price, l);
    var forY := TrancheIs(cfg, once, id, y, price, m);
    var forBoth := TrancheIs(cfg, s, id, x + y, price, n);
    BookedTwice(s, o.symbol, o.action, x, y, price, cfg.Rate(), forX, forY, forBoth);
    BookedAgrees(once, Booked(s, o.symbol, o.action, x, price, forX), o.symbol, o.action, y, price, forY);
    AverageTwice(o, x, y, price);
    assert AfterTranche(AfterTranche(o, x, price), y, price) == AfterTranche(o, x + y, price);
  }

  // ---------------------------------------------------------------- any number of tranches is one

  lemma {:induction false} AgreeTransitive(a: State, b: State, c: State)
    requires Agree(a, b) && Agree(b, c)
    ensures Agree(a, c)
  {
  }

  lemma {:induction false} AgreeSymmetric(a: State, b: State)
    requires Agree(a, b)
    ensures Agree(b, a)
  {
  }

  lemma {:induction false} FirstTrancheOnly(cfg: Config, s: State, id: int, n: nat, size: Pos, price: real)
    requires id in s.orders && 1 <= n
    ensures Lots(1, size) == size
    ensures Agree(Tranches(cfg, s, id, 1, n, size, price), Tranche(cfg, s, id, size, price, true))
  {
    assert Tranches(cfg, s, id, 0, n, size, price) == s;
    TrancheAgrees(cfg, cfg, s, s, id, size, price, 1 == n, true);
  }

  /** The first i tranches leave what one tranche of their total leaves. */
  lemma {:induction false} TranchesAreOne(cfg: Config, s: State, id: int, i: nat, n: nat, size: Pos, price: real)
    requires id in s.orders && 1 <= i <= n
    ensures Lots(i, size) > 0.0
    ensures Agree(Tranches(cfg, s, id, i, n, size, price), Tranche(cfg, s, id, Lots(i, size), price, true))
    decreases i
  {
    if i == 1 {
      FirstTrancheOnly(cfg, s, id, n, size, price);
    } else {
      TranchesAreOne(cfg, s, id, i - 1, n, size, price);
      var before := Tranches(cfg, s, id, i - 1, n, size, price);
      var one := Tranche(cfg, s, id, Lots(i - 1, size), price, true);
      AgreeSymmetric(before, one);
      TrancheAgrees(cfg, cfg, before, one, id, size, price, i == n, true);
      TrancheTwice(cfg, s, id, Lots(i - 1, size), size, price, true, true, true);
      AgreeTransitive(Tranche(cfg, before, id, size, price, i == n), Tranche(cfg, one, id, size, price, true),
                      Tranche(cfg, s, id, Lots(i - 1, size) + size, price, true));
    }
  }

  /** A fill in however many tranches leaves what a single tranche of the whole leaves. */
  lemma {:induction false} WholeFill(cfg: Config, s: State, id: int, fill: Pos, n: nat, price: real) returns (r: State)
    requires id in s.orders && n >= 1
    ensures r == Tranches(cfg, s, id, n, n, Share(fill, n), price) && Agree(r, Tranche(cfg, s, id, fill, price, true))
  {
    r := Tranches(cfg, s, id, n, n, Share(fill, n), price);
    SharesAddUp(fill, n);
    TranchesAreOne(cfg, s, id, n, n, Share(fill, n), price);
  }
}
