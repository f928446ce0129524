/** Readers of the trade log, and what they agree on with the broker's own tables. */
module Pnl {
  import opened Wrappers
  import opened Costs
  import opened PositionBook
  import opened TradeLog
  import opened OrderStates
  import opened PaperLedger
  import opened PaperLifecycle
  import opened PaperAccounting
  import opened FillOutcomes
  import opened Journal

  /** Cash after each fill, starting with the initial cash; empty when nothing was traded. */
  method EquityCurveFromTrades(initialCash: real, trades: seq<Trade>) returns (series: seq<real>)
    ensures trades == [] ==> series == []
    ensures trades != [] ==> |series| == |trades| + 1
    ensures trades != [] ==> forall k :: 0 <= k <= |trades| ==> series[k] == initialCash + NetFlow(trades[..k])
  {
    if trades == [] { return []; }
    var cash := initialCash;
    series := [cash];
    for k := 0 to |trades|
      invariant |series| == k + 1 && cash == initialCash + NetFlow(trades[..k])
      invariant forall j :: 0 <= j <= k ==> series[j] == initialCash + NetFlow(trades[..j])
    {
      assert trades[..k+1][..k] == trades[..k];
      var trade := trades[k];
      cash := cash + if trade.side == SELL then trade.costs.netAmount else -trade.costs.netAmount;
      series := series + [cash];
    }
  }

  /** Realized P&L of the closing legs, skipping legs that realize nothing. */
  method SumRealizedPnl(trades: seq<Trade>) returns (total: real)
    ensures total == RealizedSum(trades)
  {
    total := 0.0;
    for k := 0 to |trades|
      invariant total == RealizedSum(trades[..k])
    {
      assert trades[..k+1][..k] == trades[..k];
      if trades[k].realizedPnl.Some? { total := total + trades[k].realizedPnl.value; }
    }
    assert trades[..|trades|] == trades;
  }

  /** What closing legs executed at or after `since` realized. */
  function RealizedSince(trades: seq<Trade>, executedAt: seq<int>, since: int): real
    requires |trades| == |executedAt|
  {
    if trades == [] then 0.0
    else
      var n := |trades| - 1;
      RealizedSince(trades[..n], executedAt[..n], since)
      + (if executedAt[n] >= since then RealizedOf(trades[n].realizedPnl) else 0.0)
  }

  method SumRealizedPnlSince(trades: seq<Trade>, executedAt: seq<int>, since: int) returns (total: real)
    requires |trades| == |executedAt|
    ensures total == RealizedSince(trades, executedAt, since)
  {
    total := 0.0;
    for k := 0 to |trades|
      invariant total == RealizedSince(trades[..k], executedAt[..k], since)
    {
      assert trades[..k+1][..k] == trades[..k] && executedAt[..k+1][..k] == executedAt[..k];
      if executedAt[k] >= since && trades[k].realizedPnl.Some? { total := total + trades[k].realizedPnl.value; }
    }
    assert trades[..|trades|] == trades && executedAt[..|trades|] == executedAt;
  }

  /** When trades are booked in time order, what was realized since a moment is what a tail of the log realized. */
  lemma {:induction false} SinceIsTail(trades: seq<Trade>, executedAt: seq<int>, since: int, from: nat)
    requires |trades| == |executedAt| && from <= |trades|
    requires forall k :: 0 <= k < |trades| ==> (executedAt[k] >= since <==> k >= from)
    ensures RealizedSince(trades, executedAt, since) == RealizedSum(trades[from..])
    decreases |trades|
  {
    if trades != [] {
      var n := |trades| - 1;
      if from <= n {
        SinceIsTail(trades[..n], executedAt[..n], since, from);
        assert trades[from..][..n - from] == trades[..n][from..];
      } else {
        SinceIsTail(trades[..n], executedAt[..n], since, n);
        assert trades[from..] == [] && trades[..n][n..] == [];
      }
    } else {
      assert trades[from..] == [];
    }
  }

  /**
   * Ledger and analytics agree after any operations: the account's cash is where the equity curve
   * ends, the positions' realized P&L adds up to the trades', and each position row is what the
   * journal's replay of that instrument's trades has open, over-closed legs included.
   */
  lemma LedgerAgreesWithAnalytics(cfg: Config, initialCash: real, ops: seq<Op>, i: int)
    ensures var l := Run(cfg, NewLedger(initialCash), ops);
      var own := TradesOf(l.trades, i);
      && l.cash == initialCash + NetFlow(l.trades)
      && Total(REALIZED, l.positions) == RealizedSum(l.trades)
      && PositionOf(l.positions, i).realizedPnl == RealizedSum(own)
      && TrackAll(own).qty == PositionOf(l.positions, i).qty
      && (TrackAll(own).entry == [] <==> PositionOf(l.positions, i).qty == 0)
  {
    hide Run, Tracks, Booked, Costed;
    RunBooks(cfg, initialCash, ops);
    var l := Run(cfg, NewLedger(initialCash), ops);
    var own := TradesOf(l.trades, i);
    assert RowMatchesTrades(l.positions, l.trades, i);
    BookedConservation(own);
    TracksTailOf(own);
  }

  lemma TracksTailOf(own: seq<Trade>)
    requires PositiveLegs(own) && Booked(own)
    ensures TrackAll(own).qty == Replay(own).qty
    ensures TrackAll(own).entry == [] <==> Replay(own).qty == 0
  {
    hide Booked, Accounts, TrackAll, Replay;
    assert own[..|own|] == own;
    TracksAll(own, |own|);
  }

  /**
   * The journal of any paper run: the closed round trips are consecutive stretches of the
   * instrument's trades; each satisfies the P&L identity unless one of its legs over-closed, and
   * its entry and exit quantities differ exactly then.
   */
  lemma RunJournal(cfg: Config, initialCash: real, ops: seq<Op>, i: int, k: nat)
    ensures var own := TradesOf(Run(cfg, NewLedger(initialCash), ops).trades, i);
      && PositiveLegs(own) && TracksDone(own, TrackAll(own).done, TrackAll(own).from)
      && (k < |TrackAll(own).done| ==>
            var e := TrackAll(own).done[k];
            && Closed(own, e)
            && (TotalQty(e.entry) == TotalQty(e.exit) <==> NoneOverCloses(own, e.from, e.to))
            && var entry := BuildEntry(e.entry, e.exit);
               && entry.realizedPnl == SignedValue(e.entry) + SignedValue(e.exit) - entry.totalCosts
               && (NoneOverCloses(own, e.from, e.to) ==>
                     entry.realizedPnl
                       == (if entry.side == BUY then entry.exitPrice - entry.entryPrice
                           else entry.entryPrice - entry.exitPrice)
                            * entry.qty as real - entry.totalCosts))
  {
    hide *;
    var own := OwnTradesAreBooked(cfg, initialCash, ops, i);
    var done := DoneAreClosed(own);
    if k < |done| {
      EntryQtyMatchesIff(own, done[k]);
      EntryConservation(cfg.segment, cfg.rates, own, done[k]);
      if NoneOverCloses(own, done[k].from, done[k].to) {
        EntryIdentity(cfg.segment, cfg.rates, own, done[k]);
      }
    }
  }

  /**
   * The quantities and prices of every journal entry of every run: the quantity adds up the entry legs, and both
   * prices pay for their legs and lie between the cheapest and the dearest of them.
   */
  lemma RunEntryAverages(cfg: Config, initialCash: real, ops: seq<Op>, i: int, k: nat)
    ensures var done := TrackAll(TradesOf(Run(cfg, NewLedger(initialCash), ops).trades, i)).done;
      k < |done| ==>
        var e := done[k];
        && e.entry != [] && e.exit != [] && PositiveLegs(e.entry) && PositiveLegs(e.exit)
        && var entry := BuildEntry(e.entry, e.exit);
           && entry.qty == TotalQty(e.entry)
           && AveragesLegs(entry.entryPrice, e.entry) && AveragesLegs(entry.exitPrice, e.exit)
           && (|e.entry| == 1 && |e.exit| == 1 ==>
                 && entry.qty == e.entry[0].qty
                 && entry.entryPrice == e.entry[0].price && entry.exitPrice == e.exit[0].price)
  {
    hide *;
    var own := OwnTradesAreBooked(cfg, initialCash, ops, i);
    var done := DoneAreClosed(own);
    if k < |done| {
      EntryAverages(done[k].entry, done[k].exit);
      if |done[k].entry| == 1 && |done[k].exit| == 1 { OneLegEach(done[k].entry, done[k].exit); }
    }
  }

  lemma OneLegEach(entry: seq<Trade>, exit: seq<Trade>)
    requires |entry| == 1 && |exit| == 1 && PositiveLegs(entry) && PositiveLegs(exit)
    ensures var e := BuildEntry(entry, exit);
      e.qty == entry[0].qty && e.entryPrice == entry[0].price && e.exitPrice == exit[0].price
  {
    hide BuildEntry;
    SingleLegEntry(entry[0], exit[0]);
    assert entry == [entry[0]] && exit == [exit[0]];
  }

  /** What trade `k` of an instrument realized, given the row its earlier trades had led to, and the row after it. */
  ghost predicate RealizesAgainstAverage(own: seq<Trade>, k: nat)
    requires PositiveLegs(own) && k < |own|
  {
    var t, before, after := own[k], Replay(own[..k]), Replay(own[..k+1]);
    && after.qty == before.qty + SignedQty(t.side, t.qty)
    && (if Adding(before, t.side) then
          && t.realizedPnl == None
          && Worth(after.avgPrice, Abs(after.qty)) == Worth(before.avgPrice, Abs(before.qty)) + t.costs.netAmount
        else
          && t.realizedPnl
               == Some(CashFlow(t.side, t.costs.netAmount) + LegCost(t.side, t.qty, before.avgPrice))
          && after.avgPrice == (if after.qty == 0 then 0.0 else before.avgPrice))
  }

  /**
   * In every run, a trade that adds to a position realizes nothing and puts its net amount on top of the cost; one
   * that closes realizes its cash flow against the average cost before it, and leaves that average to the rest.
   */
  lemma RunTradesRealize(cfg: Config, initialCash: real, ops: seq<Op>, i: int, k: nat)
    ensures var l := Run(cfg, NewLedger(initialCash), ops);
      var own := TradesOf(l.trades, i);
      && PositiveLegs(own) && PositionOf(l.positions, i) == Replay(own)
      && (k < |own| ==> RealizesAgainstAverage(own, k))
  {
    hide Run, Booked, Costed, Replay;
    RunBooks(cfg, initialCash, ops);
    var l := Run(cfg, NewLedger(initialCash), ops);
    var own := OwnTradesAreBooked(cfg, initialCash, ops, i);
    assert RowMatchesTrades(l.positions, l.trades, i);
    if k < |own| { LegRealizes(own, k); }
  }

  lemma LegRealizes(own: seq<Trade>, k: nat)
    requires PositiveLegs(own) && Booked(own) && k < |own|
    ensures RealizesAgainstAverage(own, k)
  {
    hide ApplyFill, Worth, LegCost;
    var t, before := own[k], Replay(own[..k]);
    assert own[..k+1][..k] == own[..k];
    assert Replay(own[..k+1]) == ApplyFill(before, t.side, t.qty, t.costs.netAmount).0;
    if before.qty == 0 {
      OpeningLeg(before, t.side, t.qty, t.costs.netAmount);
      assert Worth(before.avgPrice, 0) == 0.0 by { NothingIsWorthNothing(before.avgPrice); }
    } else if Adding(before, t.side) {
      AddingLeg(before, t.side, t.qty, t.costs.netAmount);
      FillConserves(before, t.side, t.qty, t.costs.netAmount);
    } else {
      ClosingLeg(before, t.side, t.qty, t.costs.netAmount);
    }
  }

  lemma NothingIsWorthNothing(price: real)
    ensures Worth(price, 0) == 0.0
  {
  }

  lemma OwnTradesAreBooked(cfg: Config, initialCash: real, ops: seq<Op>, i: int) returns (own: seq<Trade>)
    ensures own == TradesOf(Run(cfg, NewLedger(initialCash), ops).trades, i)
    ensures PositiveLegs(own) && Booked(own) && AllCosted(cfg.segment, cfg.rates, own)
  {
    hide Run, Booked, Costed, Replay;
    RunBooks(cfg, initialCash, ops);
    var l := Run(cfg, NewLedger(initialCash), ops);
    own := TradesOf(l.trades, i);
    assert RowMatchesTrades(l.positions, l.trades, i);
    assert forall k :: 0 <= k < |own| ==> own[k] in l.trades;
  }

  lemma DoneAreClosed(own: seq<Trade>) returns (done: seq<Episode>)
    requires PositiveLegs(own) && Booked(own)
    ensures done == TrackAll(own).done && TracksDone(own, done, TrackAll(own).from)
    ensures forall k :: 0 <= k < |done| ==>
      && done[k].entry != [] && done[k].exit != []
      && PositiveLegs(done[k].entry) && PositiveLegs(done[k].exit)
      && done[k].from < done[k].to <= |own| && Closed(own, done[k])
  {
    hide Booked, TrackAll, Replay, Overshoot, NoneOverCloses;
    assert own[..|own|] == own;
    TracksAll(own, |own|);
    done := TrackAll(own).done;
  }

  // ---- A round trip that buys back more than it sold ----

  const FREE_TRADING := PaperLedger.Config({0}, DELIVERY, 0.0, CostRates(0.0, 0.0, 0.0, 0.0, 0.0, 0.0, 0.0, 0.0, 0.0))

  const AT_ONE: Quotes := map[0 := 1.0]

  function AtOne(side: Side, qty: int): Op { Place(OrderRequest(0, side, MARKET, qty, None), AT_ONE) }

  /** Sell one share short, buy two, sell one. */
  const SELL_BUY_SELL: seq<Op> := [AtOne(SELL, 1), AtOne(BUY, 2), AtOne(SELL, 1)]

  /** A market order at a price of one, without charges, fills in full if the account can pay for it. */
  lemma FreeFill(l: Ledger, side: Side, qty: int) returns (t: Trade)
    requires Lifecycle(l) && qty > 0 && (side == BUY ==> qty as real <= l.cash)
    ensures var l' := Step(FREE_TRADING, l, AtOne(side, qty)).ledger;
      && l'.trades == l.trades + [t] && t.instrumentId == 0 && t.side == side && t.qty == qty
      && l'.cash == l.cash + (if side == BUY then -(qty as real) else qty as real)
  {
    hide ApplyFill, Lifecycle, PlaceOrder;
    var r := OrderRequest(0, side, MARKET, qty, None);
    t := MarketOrderOutcome(FREE_TRADING, l, r, AT_ONE);
    assert ApplySlippage(1.0, side, 0.0) == 1.0;
    assert CalculateCosts(side, 1.0, qty, DELIVERY, FREE_TRADING.rates)
        == Ok(TradeCosts(0.0, 0.0, 0.0, 0.0, 0.0, 0.0, 0.0, qty as real));
  }

  lemma ThreeTrades() returns (a: Trade, b: Trade, c: Trade)
    ensures Run(FREE_TRADING, NewLedger(10.0), SELL_BUY_SELL).trades == [a, b, c]
    ensures a.instrumentId == 0 && b.instrumentId == 0 && c.instrumentId == 0
    ensures a.side == SELL && a.qty == 1 && b.side == BUY && b.qty == 2 && c.side == SELL && c.qty == 1
  {
    hide Step, Lifecycle;
    var ops, start := SELL_BUY_SELL, NewLedger(10.0);
    RunHasLifecycle(FREE_TRADING, 10.0, []);
    a := FreeFill(start, SELL, 1);
    assert ops[..1][..0] == [] && ops[..1][0] == AtOne(SELL, 1);
    var l1 := Run(FREE_TRADING, start, ops[..1]);
    assert l1 == Step(FREE_TRADING, start, AtOne(SELL, 1)).ledger;
    RunHasLifecycle(FREE_TRADING, 10.0, ops[..1]);
    b := FreeFill(l1, BUY, 2);
    assert ops[..2][..1] == ops[..1];
    var l2 := Run(FREE_TRADING, start, ops[..2]);
    assert l2 == Step(FREE_TRADING, l1, AtOne(BUY, 2)).ledger;
    RunHasLifecycle(FREE_TRADING, 10.0, ops[..2]);
    c := FreeFill(l2, SELL, 1);
    assert ops[..|ops|-1] == ops[..2];
  }

  /** The journal of that run has one entry, which entered one share and exited three. */
  lemma JournalEntryCanOverClose()
    ensures var own := TradesOf(Run(FREE_TRADING, NewLedger(10.0), SELL_BUY_SELL).trades, 0);
      && PositiveLegs(own) && |TrackAll(own).done| == 1
      && var e := TrackAll(own).done[0];
         && Closed(own, e) && TotalQty(e.entry) == 1 && TotalQty(e.exit) == 3 && !NoneOverCloses(own, e.from, e.to)
  {
    hide Run, Booked, Costed, Replay, Closed, NoneOverCloses;
    var own := OwnTradesAreBooked(FREE_TRADING, 10.0, SELL_BUY_SELL, 0);
    var a, b, c := ThreeTrades();
    assert own == [a, b, c] by { AllOfOne(a, b, c); }
    OneRoundTrip(a, b, c);
    var done := DoneAreClosed(own);
    EntryQtyMatchesIff(own, done[0]);
  }

  lemma AllOfOne(a: Trade, b: Trade, c: Trade)
    requires a.instrumentId == 0 && b.instrumentId == 0 && c.instrumentId == 0
    ensures TradesOf([a, b, c], 0) == [a, b, c]
  {
    hide TradesOf;
    assert TradesOf([], 0) == [] by { NoTrades(); }
    assert [] + [a] == [a] && [a] + [b] == [a, b] && [a, b] + [c] == [a, b, c];
    TradesOfAppend([], a, 0);
    TradesOfAppend([a], b, 0);
    TradesOfAppend([a, b], c, 0);
  }

  lemma NoTrades()
    ensures TradesOf([], 0) == []
  {
  }

  lemma OneRoundTrip(a: Trade, b: Trade, c: Trade)
    requires a.side == SELL && a.qty == 1 && b.side == BUY && b.qty == 2 && c.side == SELL && c.qty == 1
    ensures TrackAll([a, b, c]).done == [Episode([a], [b, c], 0, 3)]
    ensures TotalQty([a]) == 1 && TotalQty([b, c]) == 3
  {
    assert [a, b, c][..2] == [a, b] && [a, b][..1] == [a] && [a][..0] == [];
    assert TrackAll([a]) == Tracker([], -1, [a], [], 0);
    assert TrackAll([a, b]) == Tracker([], 1, [a], [b], 0);
    assert [b] + [c] == [b, c] && [b, c][..1] == [b] && [b][..0] == [];
    assert TotalQty([b]) == 2;
  }
}
