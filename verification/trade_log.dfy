/** The trades table as an independent record: what a reader can rebuild from it alone. */
module TradeLog {
  import opened Wrappers
  import opened Costs
  import opened PositionBook

  /** A trades row; `instrumentId` and `side` are read through its order. */
  datatype Trade = Trade(
    orderId: nat,
    instrumentId: int,
    side: Side,
    price: real,
    qty: int,
    costs: TradeCosts,
    realizedPnl: Option<real>)

  /** Costs were computed by the cost model for this very leg. */
  ghost predicate Costed(segment: Segment, rates: Rates, t: Trade) {
    CalculateCosts(t.side, t.price, t.qty, segment, rates) == Ok(t.costs)
  }

  function TradesOf(trades: seq<Trade>, instrumentId: int): (r: seq<Trade>)
    ensures forall k :: 0 <= k < |r| ==> r[k].instrumentId == instrumentId && r[k] in trades
  {
    if trades == [] then []
    else
      var last := trades[|trades|-1];
      TradesOf(trades[..|trades|-1], instrumentId) + (if last.instrumentId == instrumentId then [last] else [])
  }

  lemma TradesOfAppend(trades: seq<Trade>, t: Trade, instrumentId: int)
    ensures TradesOf(trades + [t], instrumentId)
         == TradesOf(trades, instrumentId) + (if t.instrumentId == instrumentId then [t] else [])
  {
    assert (trades + [t])[..|trades|] == trades;
  }

  /** Shares booked against order `id`. */
  function FilledBy(trades: seq<Trade>, id: nat): int {
    if trades == [] then 0
    else FilledBy(trades[..|trades|-1], id) + (if trades[|trades|-1].orderId == id then trades[|trades|-1].qty else 0)
  }

  lemma {:induction false} NothingFilledYet(trades: seq<Trade>, id: nat)
    requires forall k :: 0 <= k < |trades| ==> trades[k].orderId != id
    ensures FilledBy(trades, id) == 0
  {
    if trades != [] { NothingFilledYet(trades[..|trades|-1], id); }
  }

  /** Σ SELL net − Σ BUY net. */
  function NetFlow(trades: seq<Trade>): real {
    if trades == [] then 0.0
    else
      var last := trades[|trades|-1];
      NetFlow(trades[..|trades|-1]) + CashFlow(last.side, last.costs.netAmount)
  }

  /** Σ of the realized P&L of the closing legs. */
  function RealizedSum(trades: seq<Trade>): real {
    if trades == [] then 0.0
    else RealizedSum(trades[..|trades|-1]) + RealizedOf(trades[|trades|-1].realizedPnl)
  }

  /** The position one instrument's trades lead to. */
  ghost function Replay(trades: seq<Trade>): Position
    requires forall k :: 0 <= k < |trades| ==> trades[k].qty > 0
  {
    if trades == [] then FLAT
    else
      var last := trades[|trades|-1];
      ApplyFill(Replay(trades[..|trades|-1]), last.side, last.qty, last.costs.netAmount).0
  }

  ghost predicate PositiveLegs(trades: seq<Trade>) {
    forall k :: 0 <= k < |trades| ==> trades[k].qty > 0
  }

  /** Each leg carries the realized P&L of booking it after the legs before it. */
  ghost predicate Booked(trades: seq<Trade>)
    requires PositiveLegs(trades)
  {
    forall k :: 0 <= k < |trades| ==>
      trades[k].realizedPnl
        == ApplyFill(Replay(trades[..k]), trades[k].side, trades[k].qty, trades[k].costs.netAmount).1
  }

  lemma BookedAppend(trades: seq<Trade>, t: Trade)
    requires PositiveLegs(trades) && t.qty > 0 && Booked(trades)
    requires t.realizedPnl == ApplyFill(Replay(trades), t.side, t.qty, t.costs.netAmount).1
    ensures PositiveLegs(trades + [t]) && Booked(trades + [t])
    ensures Replay(trades + [t]) == ApplyFill(Replay(trades), t.side, t.qty, t.costs.netAmount).0
  {
    var ts := trades + [t];
    assert ts[..|trades|] == trades;
    forall k | 0 <= k < |ts|
      ensures ts[k].realizedPnl == ApplyFill(Replay(ts[..k]), ts[k].side, ts[k].qty, ts[k].costs.netAmount).1
    {
      if k < |trades| { assert ts[..k] == trades[..k]; }
    }
  }

  lemma BookedPrefix(trades: seq<Trade>, n: nat)
    requires PositiveLegs(trades) && Booked(trades) && n <= |trades|
    ensures PositiveLegs(trades[..n]) && Booked(trades[..n])
  {
    forall k | 0 <= k < n
      ensures trades[..n][k].realizedPnl
           == ApplyFill(Replay(trades[..n][..k]), trades[k].side, trades[k].qty, trades[k].costs.netAmount).1
    {
      assert trades[..n][..k] == trades[..k];
    }
  }

  lemma LastLegConserves(trades: seq<Trade>)
    requires |trades| > 0 && PositiveLegs(trades) && Booked(trades)
    ensures var n := |trades| - 1;
      var before, after, t := Replay(trades[..n]), Replay(trades), trades[n];
      && CashFlow(t.side, t.costs.netAmount) + BookValue(after) == BookValue(before) + RealizedOf(t.realizedPnl)
      && after.realizedPnl == before.realizedPnl + RealizedOf(t.realizedPnl)
      && after.qty == before.qty + SignedQty(t.side, t.qty)
  {
    hide ApplyFill, BookValue, CashFlow;
    var n := |trades| - 1;
    FillConserves(Replay(trades[..n]), trades[n].side, trades[n].qty, trades[n].costs.netAmount);
  }

  /**
   * One instrument's books balance at every point: cash taken in plus the cost of what is
   * held equals what has been realized, and the realized P&L column adds up to the row.
   */
  lemma {:induction false} BookedConservation(trades: seq<Trade>)
    requires PositiveLegs(trades) && Booked(trades)
    ensures NetFlow(trades) + BookValue(Replay(trades)) == Replay(trades).realizedPnl
    ensures Replay(trades).realizedPnl == RealizedSum(trades)
  {
    hide ApplyFill, CashFlow;
    if trades != [] {
      var n := |trades| - 1;
      BookedPrefix(trades, n);
      BookedConservation(trades[..n]);
      LastLegConserves(trades);
    }
  }
}
