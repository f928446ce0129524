/** How one fill is booked into a position row; the paper and the live broker share this arithmetic. */
module PositionBook {
  import opened Wrappers
  import opened Costs

  /** A positions row: signed quantity, cost-folded average price, lifetime realized P&L. */
  datatype Position = Position(qty: int, avgPrice: real, realizedPnl: real)

  const FLAT := Position(0, 0.0, 0.0)

  /** The row of an instrument; a missing row counts as flat. */
  function PositionOf(positions: map<int, Position>, instrumentId: int): Position {
    if instrumentId in positions then positions[instrumentId] else FLAT
  }

  function QtyOf(positions: map<int, Position>, instrumentId: int): int { PositionOf(positions, instrumentId).qty }

  function SignedQty(side: Side, qty: int): int { if side == BUY then qty else -qty }

  /** What a fill does to the cash account. */
  function CashFlow(side: Side, net: real): real { if side == BUY then -net else net }

  predicate Adding(p: Position, side: Side) { p.qty == 0 || ((p.qty > 0) == (side == BUY)) }

  function PerShare(amount: real, qty: int): real
    requires qty > 0
  {
    amount / qty as real
  }

  /** Book a fill: the new row and the leg's realized P&L (None for an opening or adding leg). */
  function ApplyFill(p: Position, side: Side, qty: int, net: real): (Position, Option<real>)
    requires qty > 0
  {
    var costBasisPerShare := PerShare(net, qty);
    if Adding(p, side) then
      var avg :=
        if p.qty == 0 then costBasisPerShare
        else PerShare(Worth(p.avgPrice, Abs(p.qty)) + Worth(costBasisPerShare, qty), Abs(p.qty) + qty);
      (p.(qty := p.qty + SignedQty(side, qty), avgPrice := avg), None)
    else
      var realized := if side == SELL then net - Worth(p.avgPrice, qty) else Worth(p.avgPrice, qty) - net;
      var newQty := p.qty + SignedQty(side, qty);
      (Position(newQty, if newQty == 0 then 0.0 else p.avgPrice, p.realizedPnl + realized), Some(realized))
  }

  /** The signed cost, at the average price, of the shares a leg moves. */
  function LegCost(side: Side, qty: int, avgPrice: real): real { SignedQty(side, qty) as real * avgPrice }

  /** The signed cost of what is held. */
  function BookValue(p: Position): real { p.qty as real * p.avgPrice }

  function RealizedOf(r: Option<real>): real { if r.None? then 0.0 else r.value }

  lemma PerShareBack(amount: real, qty: int)
    requires qty > 0
    ensures Worth(PerShare(amount, qty), qty) == amount
  {
  }

  /** The book value of `qty` shares held on one side. */
  lemma SignedWorth(side: Side, qty: int, price: real)
    ensures SignedQty(side, qty) as real * price == -CashFlow(side, Worth(price, qty))
  {
  }

  lemma LegCostIs(side: Side, qty: int, price: real)
    ensures LegCost(side, qty, price) == -CashFlow(side, Worth(price, qty))
  {
    SignedWorth(side, qty, price);
  }

  lemma BookValueSplits(a: int, b: int, price: real)
    ensures (a + b) as real * price == a as real * price + b as real * price
  {
  }

  /**
   * Conservation of one fill: cash plus book value changes by exactly what the leg realizes.
   * No case is excluded: a closing leg may exceed the position.
   */
  lemma FillConserves(p: Position, side: Side, qty: int, net: real)
    requires qty > 0
    ensures var (p', r) := ApplyFill(p, side, qty, net);
      && CashFlow(side, net) + BookValue(p') == BookValue(p) + RealizedOf(r)
      && p'.realizedPnl == p.realizedPnl + RealizedOf(r)
      && p'.qty == p.qty + SignedQty(side, qty)
  {
    hide Worth, PerShare;
    var (p', r) := ApplyFill(p, side, qty, net);
    PerShareBack(net, qty);
    if p.qty == 0 {
      SignedWorth(side, qty, p'.avgPrice);
    } else if Adding(p, side) {
      var held := Abs(p.qty);
      PerShareBack(Worth(p.avgPrice, held) + Worth(PerShare(net, qty), qty), held + qty);
      SignedWorth(side, held, p.avgPrice);
      SignedWorth(side, held + qty, p'.avgPrice);
    } else {
      SignedWorth(side, qty, p.avgPrice);
      BookValueSplits(p.qty, SignedQty(side, qty), p.avgPrice);
    }
  }

  // ---- What a leg does to the average price and what it realizes ----

  /** An opening leg costs its net amount, charges included, and realizes nothing. */
  lemma OpeningLeg(p: Position, side: Side, qty: int, net: real)
    requires qty > 0 && p.qty == 0
    ensures var (p', r) := ApplyFill(p, side, qty, net);
      && p'.qty == SignedQty(side, qty) && Worth(p'.avgPrice, qty) == net
      && r == None && p'.realizedPnl == p.realizedPnl
  {
    hide Worth, PerShare;
    PerShareBack(net, qty);
  }

  /** An adding leg puts its net amount on top of the cost, and the new average lies between the two. */
  lemma AddingLeg(p: Position, side: Side, qty: int, net: real)
    requires qty > 0 && p.qty != 0 && Adding(p, side)
    ensures var (p', r) := ApplyFill(p, side, qty, net);
      && Abs(p'.qty) == Abs(p.qty) + qty && (p'.qty > 0) == (p.qty > 0)
      && Worth(p'.avgPrice, Abs(p'.qty)) == Worth(p.avgPrice, Abs(p.qty)) + net
      && (Min(p.avgPrice, PerShare(net, qty)) <= p'.avgPrice <= Max(p.avgPrice, PerShare(net, qty)))
      && r == None && p'.realizedPnl == p.realizedPnl
  {
    hide Worth, PerShare;
    var held, leg := Abs(p.qty), PerShare(net, qty);
    PerShareBack(net, qty);
    PerShareBack(Worth(p.avgPrice, held) + net, held + qty);
    Weighted(p.avgPrice, leg, ApplyFill(p, side, qty, net).0.avgPrice, held, qty);
  }

  lemma Weighted(a: real, b: real, avg: real, m: int, n: int)
    requires m > 0 && n > 0 && Worth(avg, m + n) == Worth(a, m) + Worth(b, n)
    ensures Min(a, b) <= avg <= Max(a, b)
  {
    hide Worth;
    WorthOfLots(avg, m, n);
    if avg < a && avg < b {
      WorthStrict(avg, a, m);
      WorthStrict(avg, b, n);
      assert false;
    }
    if avg > a && avg > b {
      WorthStrict(a, avg, m);
      WorthStrict(b, avg, n);
      assert false;
    }
  }

  lemma WorthOfLots(price: real, m: int, n: int)
    ensures Worth(price, m + n) == Worth(price, m) + Worth(price, n)
  {
  }

  lemma WorthStrict(a: real, b: real, qty: int)
    requires a < b && qty > 0
    ensures Worth(a, qty) < Worth(b, qty)
  {
    MulStrict(a, b, qty as real);
  }

  /**
   * A closing leg realizes its own cash flow against the average cost of the shares it closes, and the shares
   * that are left keep that average; only a flat row has none.
   */
  lemma ClosingLeg(p: Position, side: Side, qty: int, net: real)
    requires qty > 0 && !Adding(p, side)
    ensures var (p', r) := ApplyFill(p, side, qty, net);
      && r == Some(CashFlow(side, net) + LegCost(side, qty, p.avgPrice))
      && p'.qty == p.qty + SignedQty(side, qty)
      && (p'.qty != 0 ==> p'.avgPrice == p.avgPrice) && (p'.qty == 0 ==> p'.avgPrice == 0.0)
      && p'.realizedPnl == p.realizedPnl + r.value
  {
    hide Worth, PerShare, LegCost;
    LegCostIs(side, qty, p.avgPrice);
  }

  /** Closing in two legs realizes, and leaves, what closing in one leg for both amounts does. */
  lemma ClosingSplits(p: Position, side: Side, a: int, b: int, m: real, n: real)
    requires a > 0 && b > 0 && !Adding(p, side) && a < Abs(p.qty)
    ensures var (p1, r1) := ApplyFill(p, side, a, m);
      var (p2, r2) := ApplyFill(p1, side, b, n);
      var (once, r) := ApplyFill(p, side, a + b, m + n);
      p2 == once && RealizedOf(r1) + RealizedOf(r2) == RealizedOf(r)
  {
    hide ApplyFill;
    var p1 := ApplyFill(p, side, a, m).0;
    ClosingLeg(p, side, a, m);
    assert p1.qty != 0 && !Adding(p1, side);
    ClosingLeg(p1, side, b, n);
    ClosingLeg(p, side, a + b, m + n);
    BookValueSplits(SignedQty(side, a), SignedQty(side, b), p.avgPrice);
  }

  /** Building a position in two legs costs what building it in one leg for both amounts does. */
  lemma OpeningSplits(p: Position, side: Side, a: int, b: int, m: real, n: real)
    requires a > 0 && b > 0 && Adding(p, side)
    ensures ApplyFill(ApplyFill(p, side, a, m).0, side, b, n).0 == ApplyFill(p, side, a + b, m + n).0
  {
    hide ApplyFill, Worth, PerShare;
    var p1 := ApplyFill(p, side, a, m).0;
    var p2, once := ApplyFill(p1, side, b, n).0, ApplyFill(p, side, a + b, m + n).0;
    if p.qty == 0 {
      OpeningLeg(p, side, a, m);
      OpeningLeg(p, side, a + b, m + n);
    } else {
      AddingLeg(p, side, a, m);
      AddingLeg(p, side, a + b, m + n);
    }
    assert p1.qty != 0 && Adding(p1, side);
    AddingLeg(p1, side, b, n);
    assert p2.qty == p1.qty + SignedQty(side, b) by { FillConserves(p1, side, b, n); }
    assert p1.qty == p.qty + SignedQty(side, a) by { FillConserves(p, side, a, m); }
    assert once.qty == p.qty + SignedQty(side, a + b) by { FillConserves(p, side, a + b, m + n); }
    SameWorth(p2.avgPrice, once.avgPrice, Abs(once.qty));
  }

  lemma SameWorth(a: real, b: real, qty: int)
    requires qty > 0 && Worth(a, qty) == Worth(b, qty)
    ensures a == b
  {
    if a < b { WorthStrict(a, b, qty); }
    if b < a { WorthStrict(b, a, qty); }
  }

  /** Ten shares at 100, five sold for 550 net: 50 is realized and five shares at 100 are left. */
  lemma HalfCloseRealizesHalf()
    ensures ApplyFill(Position(10, 100.0, 0.0), SELL, 5, 550.0) == (Position(5, 100.0, 50.0), Some(50.0))
    ensures ApplyFill(Position(-10, 100.0, 0.0), BUY, 5, 450.0) == (Position(-5, 100.0, 50.0), Some(50.0))
  {
  }

  /** A leg that closes no more than what is held. */
  predicate NotOverClosing(p: Position, side: Side, qty: int) {
    Adding(p, side) || qty <= Abs(p.qty)
  }

  /** A position changes sign without being flat in between exactly when a leg over-closes. */
  lemma SignFlipsIffOverClosing(p: Position, side: Side, qty: int, net: real)
    requires qty > 0
    ensures var p' := ApplyFill(p, side, qty, net).0;
      ((p.qty > 0 && p'.qty < 0) || (p.qty < 0 && p'.qty > 0)) <==> !NotOverClosing(p, side, qty)
  {
  }
}
