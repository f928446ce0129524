/** The shape and the money of a backtest run. */
module BacktestLedger {
  import opened Wrappers
  import opened Costs
  import opened PositionBook
  import opened IndicatorsBatch
  import opened IndicatorViews
  import opened Strategies
  import opened Backtest

  function RealizedTotal(trades: seq<ExecutedTrade>): real {
    if trades == [] then 0.0 else RealizedTotal(trades[..|trades|-1]) + RealizedOf(trades[|trades|-1].realizedPnl)
  }

  /** The per-share cost basis an opening trade leaves in the book. */
  function Basis(t: ExecutedTrade): real
    requires t.qty > 0
  {
    PerShare(t.costs.netAmount, t.qty)
  }

  /** What the trade at j is, given the one before it: opens and closes alternate. */
  ghost predicate TradeOk(cfg: BacktestConfig, trades: seq<ExecutedTrade>, j: nat)
    requires j < |trades|
  {
    var t := trades[j];
    && t.qty > 0 && CalculateCosts(t.side, t.price, t.qty, cfg.segment, cfg.rates) == Ok(t.costs)
    && t.index == t.signalIndex + 1
    && (j % 2 == 0 ==> t.realizedPnl == None)
    && (j % 2 == 1 ==>
          var o := trades[j-1];
          && o.qty > 0 && t.side != o.side && t.qty <= o.qty && (t.side == SELL ==> t.qty == o.qty)
          && t.realizedPnl == Some(if t.side == SELL then t.costs.netAmount - Worth(Basis(o), t.qty)
                                   else Worth(Basis(o), t.qty) - t.costs.netAmount))
  }

  ghost predicate AllTradesOk(cfg: BacktestConfig, trades: seq<ExecutedTrade>) {
    forall j :: 0 <= j < |trades| ==> TradeOk(cfg, trades, j)
  }

  /** What clamped covers made vanish: shares that were never bought back, at the basis they were sold at. */
  ghost function Leak(cfg: BacktestConfig, trades: seq<ExecutedTrade>): real
    requires AllTradesOk(cfg, trades)
  {
    if trades == [] then 0.0
    else
      TradesPrefix(cfg, trades);
      Leak(cfg, trades[..|trades|-1]) + LegLeak(cfg, trades, |trades| - 1)
  }

  ghost function LegLeak(cfg: BacktestConfig, trades: seq<ExecutedTrade>, j: nat): real
    requires j < |trades| && TradeOk(cfg, trades, j)
  {
    if j % 2 == 0 then 0.0 else Worth(Basis(trades[j-1]), trades[j-1].qty - trades[j].qty)
  }

  lemma TradesPrefix(cfg: BacktestConfig, trades: seq<ExecutedTrade>)
    requires |trades| > 0 && AllTradesOk(cfg, trades)
    ensures AllTradesOk(cfg, trades[..|trades|-1])
  {
    hide CalculateCosts, Worth, PerShare;
    var before := trades[..|trades|-1];
    forall j | 0 <= j < |before| ensures TradeOk(cfg, before, j) {
      assert TradeOk(cfg, trades, j);
    }
  }

  /** Trades alternate, the book holds exactly the open one, and the money adds up to what leaked. */
  ghost predicate LedgerOk(cfg: BacktestConfig, capital: real, trades: seq<ExecutedTrade>, b: Book) {
    && AllTradesOk(cfg, trades)
    && (if |trades| % 2 == 0 then b.qty == 0 && b.avgPrice == 0.0
        else
          var o := trades[|trades|-1];
          o.qty > 0 && b.qty == SignedQty(o.side, o.qty) && b.avgPrice == Basis(o))
    && b.cash + Worth(b.avgPrice, b.qty) == capital + RealizedTotal(trades) + Leak(cfg, trades)
  }

  lemma TradeOkAppend(cfg: BacktestConfig, trades: seq<ExecutedTrade>, t: ExecutedTrade)
    requires AllTradesOk(cfg, trades)
    requires TradeOk(cfg, trades + [t], |trades|)
    ensures AllTradesOk(cfg, trades + [t])
    ensures Leak(cfg, trades + [t]) == Leak(cfg, trades) + LegLeak(cfg, trades + [t], |trades|)
    ensures RealizedTotal(trades + [t]) == RealizedTotal(trades) + RealizedOf(t.realizedPnl)
  {
    hide CalculateCosts, Worth, PerShare;
    assert (trades + [t])[..|trades|] == trades;
    forall j | 0 <= j < |trades| ensures TradeOk(cfg, trades + [t], j) {
      assert TradeOk(cfg, trades, j);
    }
  }

  /** What a signal that trades does to the book. */
  lemma ExecuteEffect(cfg: BacktestConfig, s: Signal, signalIndex: nat, i: nat, ts: int, open: real, b: Book)
    requires Execute(cfg, s, signalIndex, i, ts, open, b).Ok?
    ensures var (b', trade) := Execute(cfg, s, signalIndex, i, ts, open, b).value;
      && (trade.None? ==> b' == b)
      && (trade.Some? ==>
            var t := trade.value;
            && t.qty > 0 && CalculateCosts(t.side, t.price, t.qty, cfg.segment, cfg.rates) == Ok(t.costs)
            && t.index == i && t.ts == ts && t.signalIndex == signalIndex
            && (t.side == BUY ==> t.costs.netAmount <= b.cash)
            && (b.qty == 0 ==> t.realizedPnl == None && b' == OpenOrAddTo(b, t.side, t.qty, t.costs.netAmount))
            && (b.qty != 0 ==>
                  && t.side == (if b.qty > 0 then SELL else BUY)
                  && t.qty <= Abs(b.qty) && (t.side == SELL ==> t.qty == Abs(b.qty))
                  && (b', t.realizedPnl) == (CloseOf(b, t.side, t.qty, t.costs.netAmount).0,
                                             Some(CloseOf(b, t.side, t.qty, t.costs.netAmount).1))))
  {
    hide CostsOnTurnover, Worth, PerShare, ApplySlippage;
  }

  lemma OpenKeepsLedger(cfg: BacktestConfig, capital: real, trades: seq<ExecutedTrade>, b: Book, t: ExecutedTrade)
    requires LedgerOk(cfg, capital, trades, b) && b.qty == 0
    requires t.qty > 0 && CalculateCosts(t.side, t.price, t.qty, cfg.segment, cfg.rates) == Ok(t.costs)
    requires t.index == t.signalIndex + 1 && t.realizedPnl == None
    ensures LedgerOk(cfg, capital, trades + [t], OpenOrAddTo(b, t.side, t.qty, t.costs.netAmount))
  {
    hide CalculateCosts, Leak;
    TradeOkAppend(cfg, trades, t);
    var b' := OpenOrAddTo(b, t.side, t.qty, t.costs.netAmount);
    assert Worth(Basis(t), t.qty) == t.costs.netAmount;
    assert Worth(b'.avgPrice, b'.qty) == if t.side == BUY then t.costs.netAmount else -t.costs.netAmount;
    assert Worth(b.avgPrice, b.qty) == 0.0;
  }

  lemma CloseKeepsLedger(cfg: BacktestConfig, capital: real, trades: seq<ExecutedTrade>, b: Book, t: ExecutedTrade)
    requires LedgerOk(cfg, capital, trades, b) && b.qty != 0
    requires t.qty > 0 && CalculateCosts(t.side, t.price, t.qty, cfg.segment, cfg.rates) == Ok(t.costs)
    requires t.index == t.signalIndex + 1
    requires t.side == (if b.qty > 0 then SELL else BUY)
    requires t.qty <= Abs(b.qty) && (t.side == SELL ==> t.qty == Abs(b.qty))
    requires t.realizedPnl == Some(CloseOf(b, t.side, t.qty, t.costs.netAmount).1)
    ensures LedgerOk(cfg, capital, trades + [t], CloseOf(b, t.side, t.qty, t.costs.netAmount).0)
  {
    hide TradeOk, AllTradesOk, CalculateCosts, Leak, LegLeak, RealizedTotal, CloseOf, Worth, Basis;
    var o := trades[|trades|-1];
    CloseTradeOk(cfg, capital, trades, b, t);
    TradeOkAppend(cfg, trades, t);
    ClosingLegLeak(cfg, trades, t);
    CloseMoney(b, t.side, o.qty, t.qty, t.costs.netAmount);
  }

  lemma CloseTradeOk(cfg: BacktestConfig, capital: real, trades: seq<ExecutedTrade>, b: Book, t: ExecutedTrade)
    requires LedgerOk(cfg, capital, trades, b) && b.qty != 0
    requires t.qty > 0 && CalculateCosts(t.side, t.price, t.qty, cfg.segment, cfg.rates) == Ok(t.costs)
    requires t.index == t.signalIndex + 1
    requires t.side == (if b.qty > 0 then SELL else BUY)
    requires t.qty <= Abs(b.qty) && (t.side == SELL ==> t.qty == Abs(b.qty))
    requires t.realizedPnl == Some(CloseOf(b, t.side, t.qty, t.costs.netAmount).1)
    ensures TradeOk(cfg, trades + [t], |trades|)
  {
    hide AllTradesOk, CalculateCosts, Leak, RealizedTotal, Worth, Basis;
    assert (trades + [t])[|trades|-1] == trades[|trades|-1];
  }

  lemma ClosingLegLeak(cfg: BacktestConfig, trades: seq<ExecutedTrade>, t: ExecutedTrade)
    requires |trades| % 2 == 1 && TradeOk(cfg, trades + [t], |trades|)
    ensures var o := trades[|trades|-1];
      LegLeak(cfg, trades + [t], |trades|) == Worth(Basis(o), o.qty - t.qty)
  {
    hide TradeOk, Worth, Basis;
    assert (trades + [t])[|trades|-1] == trades[|trades|-1];
  }

  /** Closing `traded` of `held` shares turns their cost into cash and realized P&L; the rest of the cost leaks. */
  lemma CloseMoney(b: Book, side: Side, held: int, traded: int, net: real)
    requires b.qty == (if side == SELL then held else -held) && (side == SELL ==> traded == held)
    ensures var (b', realized) := CloseOf(b, side, traded, net);
      && b'.qty == 0 && b'.avgPrice == 0.0
      && b'.cash + Worth(b'.avgPrice, b'.qty)
           == b.cash + Worth(b.avgPrice, b.qty) + realized + Worth(b.avgPrice, held - traded)
  {
    hide Worth;
    WorthSplits(b.avgPrice, held, traded);
    WorthlessWhenFlat(b.avgPrice);
    WorthlessWhenFlat(0.0);
  }

  lemma WorthlessWhenFlat(price: real)
    ensures Worth(price, 0) == 0.0
  {
  }

  lemma WorthSplits(price: real, held: int, traded: int)
    ensures Worth(price, held) == Worth(price, traded) + Worth(price, held - traded)
    ensures Worth(price, -held) == -Worth(price, held)
  {
  }

  // ---- Whole runs ----

  ghost predicate EngineOk<S>(cfg: BacktestConfig, capital: real, m: nat, e: Engine<S>) {
    && LedgerOk(cfg, capital, e.trades, e.book)
    && (e.pending.Some? ==> e.pending.value.1 + 1 == m)
    && |e.equity| == m
    && (forall j :: 0 <= j < m ==> e.equity[j].index == j)
  }

  lemma FillKeepsLedger<S>(cfg: BacktestConfig, capital: real, c: Candle, i: nat, e: Engine<S>)
    requires EngineOk(cfg, capital, i, e) && FillPending(cfg, c, i, e).Ok?
    ensures var f := FillPending(cfg, c, i, e).value;
      LedgerOk(cfg, capital, f.trades, f.book) && f.equity == e.equity && f.pending.None?
  {
    hide LedgerOk, Execute, OpenOrAddTo, CloseOf, CalculateCosts;
    if e.pending.Some? {
      var (s, signalIndex) := e.pending.value;
      ExecuteEffect(cfg, s, signalIndex, i, c.ts, c.open, e.book);
      var trade := Execute(cfg, s, signalIndex, i, c.ts, c.open, e.book).value.1;
      if trade.Some? {
        if e.book.qty == 0 {
          OpenKeepsLedger(cfg, capital, e.trades, e.book, trade.value);
        } else {
          CloseKeepsLedger(cfg, capital, e.trades, e.book, trade.value);
        }
      }
    }
  }

  lemma {:induction false} RunOk<S>(st: Strategy<S, Dict<Series>>, cfg: BacktestConfig, candles: seq<Candle>,
                                    d: Dict<Series>, start: int, capital: real, m: nat)
    requires m <= |candles| && AllLength(d, |candles|) && BarsRun(st, cfg, candles, d, start, capital, m).Ok?
    ensures EngineOk(cfg, capital, m, BarsRun(st, cfg, candles, d, start, capital, m).value)
  {
    hide LedgerOk, FillPending, EquityOf, Visible;
    if m == 0 {
      NothingTraded(cfg, capital);
    } else {
      RunOk(st, cfg, candles, d, start, capital, m - 1);
      FillKeepsLedger(cfg, capital, candles[m-1], m - 1, BarsRun(st, cfg, candles, d, start, capital, m - 1).value);
    }
  }

  lemma NothingTraded(cfg: BacktestConfig, capital: real)
    ensures LedgerOk(cfg, capital, [], Book(capital, 0, 0.0))
  {
  }

  /**
   * Run shape: opens and closes strictly alternate, every trade fills one bar after its signal, the
   * book holds exactly the last open, and there is one equity point per bar.
   */
  lemma RunShape<S>(st: Strategy<S, Dict<Series>>, candles: seq<Candle>, capital: real, cfg: BacktestConfig)
    requires BacktestOf(st, candles, capital, cfg).Ok?
    ensures EngineOk(cfg, capital, |candles|, BacktestOf(st, candles, capital, cfg).value)
  {
    hide BarsRun, EngineOk, IndicatorSet, EffectiveStart;
    var d := IndicatorSet(BarsOf(candles), st.required);
    SetLength(BarsOf(candles), st.required);
    RunOk(st, cfg, candles, d, EffectiveStart(st, d), capital, |candles|);
  }

  /** What is refused before the first bar: no candles, no capital, or an indicator that cannot be computed. */
  lemma RefusedUpFront<S>(st: Strategy<S, Dict<Series>>, candles: seq<Candle>, capital: real, cfg: BacktestConfig)
    ensures candles == [] || capital <= 0.0 ==> BacktestOf(st, candles, capital, cfg) == Err(BacktestError)
    ensures candles != [] && capital > 0.0 && !AllComputable(st.required) ==>
      FirstSpecError(st.required).Some?
      && BacktestOf(st, candles, capital, cfg) == Err(FirstSpecError(st.required).value)
    ensures BacktestOf(st, candles, capital, cfg).Ok? ==>
      && candles != [] && capital > 0.0 && AllComputable(st.required)
      && |BacktestOf(st, candles, capital, cfg).value.equity| == |candles|
  {
    hide BarsRun, IndicatorSet, EffectiveStart;
    if BacktestOf(st, candles, capital, cfg).Ok? { RunShape(st, candles, capital, cfg); }
  }

  // ---- The equity curve ----

  /** The point of one bar: the book's cash and quantity, the quantity at the bar's close, and both together. */
  predicate PointOf(c: Candle, j: nat, b: Book, point: EquityPoint) {
    && point.index == j && point.ts == c.ts && point.cash == b.cash && point.positionQty == b.qty
    && point.positionValue == b.qty as real * c.close && point.equity == point.cash + point.positionValue
  }

  /** Point `j` is that of the book after the first j + 1 bars. */
  ghost predicate PointAt<S>(st: Strategy<S, Dict<Series>>, cfg: BacktestConfig, candles: seq<Candle>, d: Dict<Series>,
                             start: int, capital: real, j: nat, point: EquityPoint)
    requires j < |candles| && AllLength(d, |candles|)
  {
    var run := BarsRun(st, cfg, candles, d, start, capital, j + 1);
    run.Ok? && PointOf(candles[j], j, run.value.book, point)
  }

  lemma NewPoint<S>(st: Strategy<S, Dict<Series>>, cfg: BacktestConfig, candles: seq<Candle>, d: Dict<Series>,
                    start: int, capital: real, j: nat)
    requires j < |candles| && AllLength(d, |candles|) && BarsRun(st, cfg, candles, d, start, capital, j + 1).Ok?
    ensures BarsRun(st, cfg, candles, d, start, capital, j).Ok?
    ensures var before := BarsRun(st, cfg, candles, d, start, capital, j).value.equity;
      var after := BarsRun(st, cfg, candles, d, start, capital, j + 1).value.equity;
      && |after| == |before| + 1 && after[..|before|] == before
      && PointAt(st, cfg, candles, d, start, capital, j, after[|before|])
  {
    hide FillLeftover, Visible;
  }

  lemma {:induction false} PointsOfRun<S>(st: Strategy<S, Dict<Series>>, cfg: BacktestConfig, candles: seq<Candle>,
                                          d: Dict<Series>, start: int, capital: real, m: nat)
    requires m <= |candles| && AllLength(d, |candles|) && BarsRun(st, cfg, candles, d, start, capital, m).Ok?
    ensures var points := BarsRun(st, cfg, candles, d, start, capital, m).value.equity;
      |points| == m && forall j: nat :: j < m ==> PointAt(st, cfg, candles, d, start, capital, j, points[j])
  {
    hide BarStep, PointAt;
    if m > 0 {
      NewPoint(st, cfg, candles, d, start, capital, m - 1);
      PointsOfRun(st, cfg, candles, d, start, capital, m - 1);
      var before := BarsRun(st, cfg, candles, d, start, capital, m - 1).value.equity;
      var points := BarsRun(st, cfg, candles, d, start, capital, m).value.equity;
      forall j: nat | j < m ensures PointAt(st, cfg, candles, d, start, capital, j, points[j]) {
        if j < m - 1 { assert points[j] == points[..m-1][j] == before[j]; }
      }
    }
  }

  /**
   * The equity curve of a finished backtest: one point per bar, holding the cash and quantity of the book after
   * that bar's fill, that quantity at the bar's close, and the sum of the two.
   */
  lemma EquityCurve<S>(st: Strategy<S, Dict<Series>>, candles: seq<Candle>, capital: real, cfg: BacktestConfig)
    requires BacktestOf(st, candles, capital, cfg).Ok?
    ensures FirstSpecError(st.required) == None
    ensures var d := IndicatorSet(BarsOf(candles), st.required);
      && AllLength(d, |candles|)
      && var points := BacktestOf(st, candles, capital, cfg).value.equity;
         && |points| == |candles|
         && forall j: nat :: j < |candles| ==>
              PointAt(st, cfg, candles, d, EffectiveStart(st, d), capital, j, points[j])
  {
    hide BarsRun, PointAt, IndicatorSet, EffectiveStart;
    var d := IndicatorSet(BarsOf(candles), st.required);
    SetLength(BarsOf(candles), st.required);
    PointsOfRun(st, cfg, candles, d, EffectiveStart(st, d), capital, |candles|);
  }

  /**
   * From its first bar on the strategy is asked once a bar, about that bar and the position on its equity point, so
   * after the fill at its open, at the average cost of the book; before that it is not asked.
   */
  lemma QuestionAsked<S>(st: Strategy<S, Dict<Series>>, cfg: BacktestConfig, candles: seq<Candle>, d: Dict<Series>,
                         start: int, i: nat, e: Engine<S>)
    requires i < |candles| && AllLength(d, |candles|) && BarStep(st, cfg, candles, d, start, i, e).Ok?
    ensures var e' := BarStep(st, cfg, candles, d, start, i, e).value;
      && |e'.equity| == |e.equity| + 1
      && var qty := e'.equity[|e.equity|].positionQty;
         var shown := PositionView(qty, if qty == 0 then 0.0 else e'.book.avgPrice);
         e'.strat == if i < start then e.strat
                     else st.onCandle(e.strat, Context(i, candles[i].ts, candles[..i+1], Visible(d, i), shown)).0
  {
    hide FillLeftover, Visible;
  }

  lemma MarkSplits(close: real, avg: real, qty: int)
    ensures qty as real * close == Worth(avg, qty) + qty as real * (close - avg)
  {
  }

  // ---- When and at what price trades fill ----

  /** The trade was filled on one of the first `m` bars, at its time and its slipped open. */
  ghost predicate AtOpen(cfg: BacktestConfig, candles: seq<Candle>, m: nat, t: ExecutedTrade)
    requires m <= |candles|
  {
    && t.index < m && t.ts == candles[t.index].ts
    && t.price == ApplySlippage(candles[t.index].open, t.side, cfg.slippageBps)
  }

  lemma FillAtSlippedOpen<S>(cfg: BacktestConfig, c: Candle, i: nat, e: Engine<S>)
    requires FillPending(cfg, c, i, e).Ok?
    ensures var trades := FillPending(cfg, c, i, e).value.trades;
      || trades == e.trades
      || (|trades| == |e.trades| + 1 && trades[..|e.trades|] == e.trades
          && var t := trades[|e.trades|];
             t.index == i && t.ts == c.ts && t.price == ApplySlippage(c.open, t.side, cfg.slippageBps))
  {
    hide CostsOnTurnover, ApplySlippage, Worth, PerShare;
  }

  /** Every trade of a run fills at the slipped open of its bar, and carries that bar's time. */
  lemma {:induction false} TradesAtOpens<S>(st: Strategy<S, Dict<Series>>, cfg: BacktestConfig, candles: seq<Candle>,
                                            d: Dict<Series>, start: int, capital: real, m: nat)
    requires m <= |candles| && AllLength(d, |candles|) && BarsRun(st, cfg, candles, d, start, capital, m).Ok?
    ensures var trades := BarsRun(st, cfg, candles, d, start, capital, m).value.trades;
      forall k :: 0 <= k < |trades| ==> AtOpen(cfg, candles, m, trades[k])
  {
    hide FillPending, EquityOf, Visible, ApplySlippage;
    if m > 0 {
      TradesAtOpens(st, cfg, candles, d, start, capital, m - 1);
      var e := BarsRun(st, cfg, candles, d, start, capital, m - 1).value;
      FillAtSlippedOpen(cfg, candles[m-1], m - 1, e);
      var trades := BarsRun(st, cfg, candles, d, start, capital, m).value.trades;
      forall k | 0 <= k < |trades| ensures AtOpen(cfg, candles, m, trades[k]) {
        if k < |e.trades| {
          assert trades[k] == trades[..|e.trades|][k] == e.trades[k];
          assert AtOpen(cfg, candles, m - 1, e.trades[k]);
        }
      }
    }
  }

  /** Every close bought or sold back exactly what was opened. */
  ghost predicate ClosesInFull(trades: seq<ExecutedTrade>) {
    forall j :: 0 <= j < |trades| && j % 2 == 1 ==> trades[j].qty == trades[j-1].qty
  }

  /** A pending cover the account can begin but not finish: cash for one share, not for all that were sold short. */
  ghost predicate CoverClamped(cfg: BacktestConfig, s: Signal, open: real, b: Book) {
    var price := ApplySlippage(open, BUY, cfg.slippageBps);
    && s.direction == EXIT && b.qty < 0 && price > 0.0
    && NetAmount(BUY, price, 1, cfg.segment, cfg.rates) <= b.cash
    && b.cash < NetAmount(BUY, price, -b.qty, cfg.segment, cfg.rates)
  }

  /** What becomes of a cover: clamped exactly so, full exactly if the cash suffices, skipped exactly if not for one. */
  lemma CoverOutcomeIff(cfg: BacktestConfig, s: Signal, signalIndex: nat, i: nat, ts: int, open: real, b: Book)
    requires s.direction == EXIT && b.qty < 0 && ApplySlippage(open, BUY, cfg.slippageBps) > 0.0
    ensures var price := ApplySlippage(open, BUY, cfg.slippageBps);
      && Execute(cfg, s, signalIndex, i, ts, open, b).Ok?
      && var (b', trade) := Execute(cfg, s, signalIndex, i, ts, open, b).value;
         && (trade.Some? && trade.value.qty < -b.qty <==> CoverClamped(cfg, s, open, b))
         && (trade.Some? && trade.value.qty == -b.qty
             <==> NetAmount(BUY, price, -b.qty, cfg.segment, cfg.rates) <= b.cash)
         && (trade.None? <==> b.cash < NetAmount(BUY, price, 1, cfg.segment, cfg.rates))
  {
    hide CostsOnTurnover, Worth, ApplySlippage;
    ClampIsGreatestAffordable(-b.qty, ApplySlippage(open, BUY, cfg.slippageBps), cfg.segment, cfg.rates, b.cash);
  }

  /** Before each of the first `m` bars, the pending signal was no cover that would be clamped. */
  ghost predicate NoClampedCover<S>(st: Strategy<S, Dict<Series>>, cfg: BacktestConfig, candles: seq<Candle>,
                                    d: Dict<Series>, start: int, capital: real, m: nat)
    requires m <= |candles| && AllLength(d, |candles|)
  {
    forall j :: 0 <= j < m ==> !ClampsAt(st, cfg, candles, d, start, capital, j)
  }

  ghost predicate ClampsAt<S>(st: Strategy<S, Dict<Series>>, cfg: BacktestConfig, candles: seq<Candle>, d: Dict<Series>,
                              start: int, capital: real, j: nat)
    requires j < |candles| && AllLength(d, |candles|)
  {
    var run := BarsRun(st, cfg, candles, d, start, capital, j);
    && run.Ok? && run.value.pending.Some?
    && CoverClamped(cfg, run.value.pending.value.0, candles[j].open, run.value.book)
  }

  /** One bar's fill breaks full closing exactly when it is a clamped cover. */
  lemma FillClosesInFullIff<S>(cfg: BacktestConfig, capital: real, c: Candle, i: nat, e: Engine<S>)
    requires EngineOk(cfg, capital, i, e) && FillPending(cfg, c, i, e).Ok?
    ensures ClosesInFull(FillPending(cfg, c, i, e).value.trades)
       <==> ClosesInFull(e.trades) && !(e.pending.Some? && CoverClamped(cfg, e.pending.value.0, c.open, e.book))
  {
    hide Execute, Worth, CalculateCosts, Leak, TradeOk, ApplySlippage, NetAmount, ClosesInFull;
    if e.pending.Some? {
      var (s, signalIndex) := e.pending.value;
      ExecuteEffect(cfg, s, signalIndex, i, c.ts, c.open, e.book);
      var trade := Execute(cfg, s, signalIndex, i, c.ts, c.open, e.book).value.1;
      OnlyExitCloses(cfg, s, signalIndex, i, c.ts, c.open, e.book);
      if s.direction == EXIT && e.book.qty < 0 && ApplySlippage(c.open, BUY, cfg.slippageBps) > 0.0 {
        CoverOutcomeIff(cfg, s, signalIndex, i, c.ts, c.open, e.book);
      }
      if trade.Some? { ClosesInFullAppend(e.trades, trade.value); }
    }
  }

  /** A fill on a held position is an EXIT at a positive price, and an EXIT without a fill is no clamped cover. */
  lemma OnlyExitCloses(cfg: BacktestConfig, s: Signal, signalIndex: nat, i: nat, ts: int, open: real, b: Book)
    requires Execute(cfg, s, signalIndex, i, ts, open, b).Ok?
    ensures Execute(cfg, s, signalIndex, i, ts, open, b).value.1.Some? && b.qty < 0 ==>
      s.direction == EXIT && ApplySlippage(open, BUY, cfg.slippageBps) > 0.0
  {
    hide CostsOnTurnover, Worth, PerShare, ApplySlippage;
  }

  lemma ClosesInFullAppend(trades: seq<ExecutedTrade>, t: ExecutedTrade)
    ensures ClosesInFull(trades + [t])
       <==> ClosesInFull(trades) && (|trades| % 2 == 1 ==> t.qty == trades[|trades|-1].qty)
  {
    var all := trades + [t];
    if ClosesInFull(all) {
      forall j | 0 <= j < |trades| && j % 2 == 1 ensures trades[j].qty == trades[j-1].qty {
        assert all[j].qty == all[j-1].qty;
      }
      if |trades| % 2 == 1 { assert all[|trades|].qty == all[|trades|-1].qty; }
    }
  }

  /** Every close of a run was a full one exactly when no cover was about to be clamped when it was filled. */
  lemma {:induction false} ClosesInFullIff<S>(st: Strategy<S, Dict<Series>>, cfg: BacktestConfig, candles: seq<Candle>,
                                              d: Dict<Series>, start: int, capital: real, m: nat)
    requires m <= |candles| && AllLength(d, |candles|) && BarsRun(st, cfg, candles, d, start, capital, m).Ok?
    ensures ClosesInFull(BarsRun(st, cfg, candles, d, start, capital, m).value.trades)
       <==> NoClampedCover(st, cfg, candles, d, start, capital, m)
  {
    hide FillPending, EngineOk, ClosesInFull, CoverClamped, EquityOf, Visible;
    if m == 0 {
      NoTradesClose();
    } else {
      ClosesInFullIff(st, cfg, candles, d, start, capital, m - 1);
      RunOk(st, cfg, candles, d, start, capital, m - 1);
      var e := BarsRun(st, cfg, candles, d, start, capital, m - 1).value;
      FillClosesInFullIff(cfg, capital, candles[m-1], m - 1, e);
      assert BarsRun(st, cfg, candles, d, start, capital, m).value.trades
          == FillPending(cfg, candles[m-1], m - 1, e).value.trades;
      assert ClampsAt(st, cfg, candles, d, start, capital, m - 1)
        <==> e.pending.Some? && CoverClamped(cfg, e.pending.value.0, candles[m-1].open, e.book);
    }
  }

  lemma NoTradesClose()
    ensures ClosesInFull([])
  {
  }

  lemma BasisPositive(cfg: BacktestConfig, t: ExecutedTrade)
    requires SellRate(cfg.segment, cfg.rates) < 1.0
    requires t.qty > 0 && CalculateCosts(t.side, t.price, t.qty, cfg.segment, cfg.rates) == Ok(t.costs)
    ensures t.costs.netAmount > 0.0 && Basis(t) > 0.0
  {
    hide CostsOnTurnover, SellRate;
    if t.side == SELL {
      SellNetPositive(t.price, t.qty, cfg.segment, cfg.rates);
    } else {
      BuyNetStrictlyMonotone(t.price / 2.0, t.qty, t.price, t.qty, cfg.segment, cfg.rates);
    }
    PerSharePositive(t.costs.netAmount, t.qty);
  }

  lemma PerSharePositive(x: real, q: int)
    requires x > 0.0 && q > 0
    ensures PerShare(x, q) > 0.0
  {
  }

  lemma LegLeakSign(cfg: BacktestConfig, trades: seq<ExecutedTrade>, j: nat)
    requires SellRate(cfg.segment, cfg.rates) < 1.0 && AllTradesOk(cfg, trades) && j < |trades|
    ensures LegLeak(cfg, trades, j) >= 0.0
    ensures LegLeak(cfg, trades, j) == 0.0 <==> (j % 2 == 1 ==> trades[j].qty == trades[j-1].qty)
  {
    hide CalculateCosts, SellRate, Basis;
    assert TradeOk(cfg, trades, j);
    if j % 2 == 1 {
      assert TradeOk(cfg, trades, j - 1);
      BasisPositive(cfg, trades[j-1]);
      var short := trades[j-1].qty - trades[j].qty;
      if short > 0 { MulStrict(0.0, Basis(trades[j-1]), short as real); }
    }
  }

  lemma {:induction false} LeakSign(cfg: BacktestConfig, trades: seq<ExecutedTrade>)
    requires SellRate(cfg.segment, cfg.rates) < 1.0 && AllTradesOk(cfg, trades)
    ensures Leak(cfg, trades) >= 0.0
    ensures Leak(cfg, trades) == 0.0 <==> ClosesInFull(trades)
  {
    hide CalculateCosts, SellRate, LegLeak, TradeOk;
    if trades != [] {
      var n := |trades| - 1;
      TradesPrefix(cfg, trades);
      LeakSign(cfg, trades[..n]);
      LegLeakSign(cfg, trades, n);
      if ClosesInFull(trades[..n]) && (n % 2 == 1 ==> trades[n].qty == trades[n-1].qty) {
        forall j | 0 <= j < |trades| && j % 2 == 1 ensures trades[j].qty == trades[j-1].qty {
          if j < n { assert trades[..n][j] == trades[j] && trades[..n][j-1] == trades[j-1]; }
        }
      } else if ClosesInFull(trades) {
        forall j | 0 <= j < n && j % 2 == 1 ensures trades[..n][j].qty == trades[..n][j-1].qty {
          assert trades[..n][j] == trades[j] && trades[..n][j-1] == trades[j-1];
        }
      }
    }
  }

  /**
   * Conservation: at every bar, cash plus the signed cost of the position equals the initial capital plus
   * all realized P&L exactly when no cover so far found the account able to pay for one share but not for all.
   */
  lemma ConservationIff<S>(st: Strategy<S, Dict<Series>>, cfg: BacktestConfig, candles: seq<Candle>, d: Dict<Series>,
                           start: int, capital: real, m: nat)
    requires m <= |candles| && AllLength(d, |candles|) && BarsRun(st, cfg, candles, d, start, capital, m).Ok?
    requires SellRate(cfg.segment, cfg.rates) < 1.0
    ensures var e := BarsRun(st, cfg, candles, d, start, capital, m).value;
      (e.book.cash + Worth(e.book.avgPrice, e.book.qty) == capital + RealizedTotal(e.trades))
      <==> NoClampedCover(st, cfg, candles, d, start, capital, m)
  {
    hide BarsRun, TradeOk, Leak, RealizedTotal, Worth, SellRate, ClosesInFull, NoClampedCover;
    RunOk(st, cfg, candles, d, start, capital, m);
    ClosesInFullIff(st, cfg, candles, d, start, capital, m);
    LeakSign(cfg, BarsRun(st, cfg, candles, d, start, capital, m).value.trades);
  }

  lemma {:induction false} NoLeakWhenClosedInFull(cfg: BacktestConfig, trades: seq<ExecutedTrade>)
    requires AllTradesOk(cfg, trades) && ClosesInFull(trades)
    ensures Leak(cfg, trades) == 0.0
  {
    hide CalculateCosts, TradeOk, Basis;
    if trades != [] {
      var n := |trades| - 1;
      TradesPrefix(cfg, trades);
      forall j | 0 <= j < n && j % 2 == 1 ensures trades[..n][j].qty == trades[..n][j-1].qty {
        assert trades[j].qty == trades[j-1].qty;
      }
      NoLeakWhenClosedInFull(cfg, trades[..n]);
    }
  }

  /** Whatever the rates, a run without a clamped cover balances at every bar. */
  lemma UnclampedRunConserves<S>(st: Strategy<S, Dict<Series>>, cfg: BacktestConfig, candles: seq<Candle>,
                                 d: Dict<Series>, start: int, capital: real, m: nat)
    requires m <= |candles| && AllLength(d, |candles|) && BarsRun(st, cfg, candles, d, start, capital, m).Ok?
    requires NoClampedCover(st, cfg, candles, d, start, capital, m)
    ensures var e := BarsRun(st, cfg, candles, d, start, capital, m).value;
      e.book.cash + Worth(e.book.avgPrice, e.book.qty) == capital + RealizedTotal(e.trades)
  {
    hide BarsRun, TradeOk, Leak, RealizedTotal, Worth, ClosesInFull, NoClampedCover;
    RunOk(st, cfg, candles, d, start, capital, m);
    ClosesInFullIff(st, cfg, candles, d, start, capital, m);
    NoLeakWhenClosedInFull(cfg, BarsRun(st, cfg, candles, d, start, capital, m).value.trades);
  }

  /** Mark to market, whatever the rates: capital, plus realized so far, plus the open position's gain at the close. */
  lemma MarkToMarket<S>(st: Strategy<S, Dict<Series>>, cfg: BacktestConfig, candles: seq<Candle>, d: Dict<Series>,
                        start: int, capital: real, m: nat, j: nat)
    requires j < m <= |candles| && AllLength(d, |candles|) && BarsRun(st, cfg, candles, d, start, capital, m).Ok?
    requires NoClampedCover(st, cfg, candles, d, start, capital, j + 1)
    ensures |BarsRun(st, cfg, candles, d, start, capital, m).value.equity| == m
    ensures BarsRun(st, cfg, candles, d, start, capital, j + 1).Ok?
    ensures var point := BarsRun(st, cfg, candles, d, start, capital, m).value.equity[j];
      var e := BarsRun(st, cfg, candles, d, start, capital, j + 1).value;
      point.equity == capital + RealizedTotal(e.trades) + e.book.qty as real * (candles[j].close - e.book.avgPrice)
  {
    hide BarsRun, NoClampedCover, RealizedTotal, Worth;
    PointsOfRun(st, cfg, candles, d, start, capital, m);
    var point := BarsRun(st, cfg, candles, d, start, capital, m).value.equity[j];
    assert PointAt(st, cfg, candles, d, start, capital, j, point);
    var e := BarsRun(st, cfg, candles, d, start, capital, j + 1).value;
    UnclampedRunConserves(st, cfg, candles, d, start, capital, j + 1);
    MarkSplits(candles[j].close, e.book.avgPrice, e.book.qty);
  }

  /**
   * Mark to market: at every bar the equity is the capital, plus what was realized so far, plus what the open
   * position has gained since it was opened, exactly if no cover was clamped up to that bar.
   */
  lemma MarkToMarketIff<S>(st: Strategy<S, Dict<Series>>, cfg: BacktestConfig, candles: seq<Candle>, d: Dict<Series>,
                           start: int, capital: real, m: nat, j: nat)
    requires j < m <= |candles| && AllLength(d, |candles|) && BarsRun(st, cfg, candles, d, start, capital, m).Ok?
    requires SellRate(cfg.segment, cfg.rates) < 1.0
    ensures |BarsRun(st, cfg, candles, d, start, capital, m).value.equity| == m
    ensures BarsRun(st, cfg, candles, d, start, capital, j + 1).Ok?
    ensures var point := BarsRun(st, cfg, candles, d, start, capital, m).value.equity[j];
      var e := BarsRun(st, cfg, candles, d, start, capital, j + 1).value;
      point.equity == capital + RealizedTotal(e.trades) + e.book.qty as real * (candles[j].close - e.book.avgPrice)
      <==> NoClampedCover(st, cfg, candles, d, start, capital, j + 1)
  {
    hide BarsRun, NoClampedCover, RealizedTotal, Worth;
    PointsOfRun(st, cfg, candles, d, start, capital, m);
    var point := BarsRun(st, cfg, candles, d, start, capital, m).value.equity[j];
    assert PointAt(st, cfg, candles, d, start, capital, j, point);
    var e := BarsRun(st, cfg, candles, d, start, capital, j + 1).value;
    ConservationIff(st, cfg, candles, d, start, capital, j + 1);
    MarkSplits(candles[j].close, e.book.avgPrice, e.book.qty);
  }

  // ---- A clamped cover: two shares sold short at 1, and at 3 only one can be bought back ----

  const FREE_RUN := BacktestConfig((equity: real, price: real) => 2, DELIVERY, 0.0,
                                   CostRates(0.0, 0.0, 0.0, 0.0, 0.0, 0.0, 0.0, 0.0, 0.0))

  const SHORT_THEN_EXIT: Strategy<(), Dict<Series>> := Strategy((), 0, [],
    (s: (), ctx: Context<Dict<Series>>) => ((), Some(Signal(if ctx.index == 0 then SHORT else EXIT, 1.0))))

  const RISING := [Candle(0, 1.0, 1.0, 1.0, 1.0, 0), Candle(1, 1.0, 1.0, 1.0, 1.0, 0), Candle(2, 3.0, 3.0, 3.0, 3.0, 0)]

  function FreeTrade(index: nat, side: Side, qty: int, price: real, realizedPnl: Option<real>): ExecutedTrade
    requires index > 0
  {
    var turnover := price * qty as real;
    ExecutedTrade(index, index, side, qty, price, TradeCosts(0.0, 0.0, 0.0, 0.0, 0.0, 0.0, 0.0, turnover), index - 1,
                  realizedPnl)
  }

  lemma FreeCosts(side: Side, price: real, qty: int, t: ExecutedTrade)
    requires price > 0.0 && qty > 0 && t == FreeTrade(1, side, qty, price, None)
    ensures CalculateCosts(side, price, qty, DELIVERY, FREE_RUN.rates) == Ok(t.costs)
  {
    NothingTimes(price * qty as real);
  }

  lemma NothingTimes(x: real)
    ensures x * 0.0 == 0.0
  {
  }

  lemma FreePrice(price: real, side: Side)
    ensures ApplySlippage(price, side, FREE_RUN.slippageBps) == price
  {
  }

  lemma ShortFills()
    ensures Execute(FREE_RUN, Signal(SHORT, 1.0), 0, 1, 1, 1.0, Book(1.0, 0, 0.0))
         == Ok((Book(3.0, -2, 1.0), Some(FreeTrade(1, SELL, 2, 1.0, None))))
  {
    hide CalculateCosts, ApplySlippage;
    FreePrice(1.0, SELL);
    FreeCosts(SELL, 1.0, 2, FreeTrade(1, SELL, 2, 1.0, None));
  }

  lemma CoverIsClamped()
    ensures Execute(FREE_RUN, Signal(EXIT, 1.0), 1, 2, 2, 3.0, Book(3.0, -2, 1.0))
         == Ok((Book(0.0, 0, 0.0), Some(FreeTrade(2, BUY, 1, 3.0, Some(-2.0)))))
  {
    hide CalculateCosts, ApplySlippage;
    FreePrice(3.0, BUY);
    FreeCosts(BUY, 3.0, 1, FreeTrade(1, BUY, 1, 3.0, None));
    FreeCosts(BUY, 3.0, 2, FreeTrade(1, BUY, 2, 3.0, None));
    assert ClampToCash(1, 3.0, DELIVERY, FREE_RUN.rates, 3.0) == Ok(1);
  }

  /** The engine after each of the three bars. */
  lemma ThreeBars() returns (e: Engine<()>)
    ensures BarsRun(SHORT_THEN_EXIT, FREE_RUN, RISING, [], 0, 1.0, 3) == Ok(e)
    ensures e.book == Book(0.0, 0, 0.0)
    ensures e.trades == [FreeTrade(1, SELL, 2, 1.0, None), FreeTrade(2, BUY, 1, 3.0, Some(-2.0))]
  {
    hide Execute, FreeTrade, EquityOf, Worth, Visible;
    ShortFills();
    CoverIsClamped();
    var start := StartEngine(SHORT_THEN_EXIT, 1.0);
    var e1 := BarStep(SHORT_THEN_EXIT, FREE_RUN, RISING, [], 0, 0, start).value;
    assert e1.book == Book(1.0, 0, 0.0) && e1.trades == [] && e1.pending == Some((Signal(SHORT, 1.0), 0));
    assert BarsRun(SHORT_THEN_EXIT, FREE_RUN, RISING, [], 0, 1.0, 1) == Ok(e1);
    var e2 := BarStep(SHORT_THEN_EXIT, FREE_RUN, RISING, [], 0, 1, e1).value;
    assert e2.book == Book(3.0, -2, 1.0) && e2.trades == [FreeTrade(1, SELL, 2, 1.0, None)];
    assert e2.pending == Some((Signal(EXIT, 1.0), 1));
    assert BarsRun(SHORT_THEN_EXIT, FREE_RUN, RISING, [], 0, 1.0, 2) == Ok(e2);
    e := BarStep(SHORT_THEN_EXIT, FREE_RUN, RISING, [], 0, 2, e2).value;
  }

  /** The cover empties the account and the position with it: one share still owed has vanished from the books. */
  lemma ClampedCoverVanishes()
    ensures BacktestOf(SHORT_THEN_EXIT, RISING, 1.0, FREE_RUN).Ok?
    ensures var e := BacktestOf(SHORT_THEN_EXIT, RISING, 1.0, FREE_RUN).value;
      && |e.trades| == 2 && e.trades[0].qty == 2 && e.trades[1].qty == 1
      && e.book == Book(0.0, 0, 0.0) && RealizedTotal(e.trades) == -2.0
      && e.book.cash + Worth(e.book.avgPrice, e.book.qty) != 1.0 + RealizedTotal(e.trades)
  {
    hide BarsRun;
    var e := ThreeBars();
    assert FirstAllValid([]) == 0;
    var first, both := [e.trades[0]], e.trades;
    assert both[..1] == first && first[..0] == [];
    assert RealizedTotal(first) == 0.0;
  }

  /** A run that never opens a short closes every position in full, so its books balance. */
  lemma LongOnlyClosesInFull(cfg: BacktestConfig, trades: seq<ExecutedTrade>)
    requires AllTradesOk(cfg, trades)
    requires forall j :: 0 <= j < |trades| && j % 2 == 0 ==> trades[j].side == BUY
    ensures ClosesInFull(trades)
  {
    hide CalculateCosts;
    forall j | 0 <= j < |trades| && j % 2 == 1 ensures trades[j].qty == trades[j-1].qty {
      assert TradeOk(cfg, trades, j);
      assert trades[j-1].side == BUY;
    }
  }

  /** A close realizes SELL net less BUY net of its pair exactly when it closed in full. */
  lemma RoundTripPnlIff(cfg: BacktestConfig, trades: seq<ExecutedTrade>, j: nat)
    requires SellRate(cfg.segment, cfg.rates) < 1.0 && AllTradesOk(cfg, trades) && j < |trades| && j % 2 == 1
    ensures trades[j].realizedPnl.Some?
    ensures trades[j].realizedPnl.value
         == CashFlow(trades[j-1].side, trades[j-1].costs.netAmount)
            + CashFlow(trades[j].side, trades[j].costs.netAmount)
       <==> trades[j].qty == trades[j-1].qty
  {
    hide CalculateCosts, SellRate;
    assert TradeOk(cfg, trades, j) && TradeOk(cfg, trades, j - 1);
    var o, t := trades[j-1], trades[j];
    BasisPositive(cfg, o);
    assert Worth(Basis(o), o.qty) == o.costs.netAmount;
    LegLeakSign(cfg, trades, j);
    WorthSplits(Basis(o), o.qty, t.qty);
  }

  // ---- Solvency ----

  lemma FillKeepsSolvent<S>(cfg: BacktestConfig, c: Candle, i: nat, e: Engine<S>)
    requires SellRate(cfg.segment, cfg.rates) <= 1.0 && e.book.cash >= 0.0 && FillPending(cfg, c, i, e).Ok?
    ensures FillPending(cfg, c, i, e).value.book.cash >= 0.0
  {
    hide Execute, CostsOnTurnover, SellRate, Worth, PerShare;
    if e.pending.Some? {
      var (s, signalIndex) := e.pending.value;
      ExecuteEffect(cfg, s, signalIndex, i, c.ts, c.open, e.book);
      var trade := Execute(cfg, s, signalIndex, i, c.ts, c.open, e.book).value.1;
      if trade.Some? { SellNetNonNegative(trade.value.price, trade.value.qty, cfg.segment, cfg.rates); }
    }
  }

  /** Cash is never negative at any bar of any run, shorts and covers included. */
  lemma {:induction false} RunIsSolvent<S>(st: Strategy<S, Dict<Series>>, cfg: BacktestConfig, candles: seq<Candle>,
                                           d: Dict<Series>, start: int, capital: real, m: nat)
    requires m <= |candles| && AllLength(d, |candles|) && BarsRun(st, cfg, candles, d, start, capital, m).Ok?
    requires capital >= 0.0 && SellRate(cfg.segment, cfg.rates) <= 1.0
    ensures BarsRun(st, cfg, candles, d, start, capital, m).value.book.cash >= 0.0
  {
    hide FillPending, EquityOf, Visible, SellRate;
    if m > 0 {
      RunIsSolvent(st, cfg, candles, d, start, capital, m - 1);
      FillKeepsSolvent(cfg, candles[m-1], m - 1, BarsRun(st, cfg, candles, d, start, capital, m - 1).value);
    }
  }

  // ---- Lockstep with the paper ledger ----

  /** One fill handed to both ledgers. */
  datatype Fill = Fill(side: Side, qty: int, net: real)

  /** The fills the backtest can make: open when flat, add on the same side, or close in full. */
  predicate FullClose(p: Position, f: Fill) { f.qty > 0 && (Adding(p, f.side) || f.qty == Abs(p.qty)) }

  function BacktestFill(b: Book, f: Fill): (Book, Option<real>)
    requires f.qty > 0
  {
    if b.qty == 0 || ((b.qty > 0) == (f.side == BUY)) then (OpenOrAddTo(b, f.side, f.qty, f.net), None)
    else
      var (b', r) := CloseOf(b, f.side, f.qty, f.net);
      (b', Some(r))
  }

  datatype Account = Account(cash: real, position: Position)

  function PaperFill(a: Account, f: Fill): (Account, Option<real>)
    requires f.qty > 0
  {
    var (p, r) := ApplyFill(a.position, f.side, f.qty, f.net);
    (Account(a.cash + CashFlow(f.side, f.net), p), r)
  }

  ghost predicate InStep(b: Book, a: Account) {
    b.cash == a.cash && b.qty == a.position.qty && b.avgPrice == a.position.avgPrice
  }

  /** One fill keeps both ledgers equal in cash, quantity, average price and realized P&L. */
  lemma FillInStep(b: Book, a: Account, f: Fill)
    requires InStep(b, a) && FullClose(a.position, f)
    ensures InStep(BacktestFill(b, f).0, PaperFill(a, f).0)
    ensures BacktestFill(b, f).1 == PaperFill(a, f).1
  {
    hide Worth, PerShare;
  }

  function BacktestFills(b: Book, fills: seq<Fill>): (Book, real)
    requires forall k :: 0 <= k < |fills| ==> fills[k].qty > 0
  {
    if fills == [] then (b, 0.0)
    else
      var (before, realized) := BacktestFills(b, fills[..|fills|-1]);
      var (after, r) := BacktestFill(before, fills[|fills|-1]);
      (after, realized + RealizedOf(r))
  }

  function PaperFills(a: Account, fills: seq<Fill>): Account
    requires forall k :: 0 <= k < |fills| ==> fills[k].qty > 0
  {
    if fills == [] then a else PaperFill(PaperFills(a, fills[..|fills|-1]), fills[|fills|-1]).0
  }

  ghost predicate AllFullCloses(a: Account, fills: seq<Fill>)
    requires forall k :: 0 <= k < |fills| ==> fills[k].qty > 0
  {
    forall k :: 0 <= k < |fills| ==> FullClose(PaperFills(a, fills[..k]).position, fills[k])
  }

  /**
   * Lockstep: fed the same fills, every close being a full one, the backtest's portfolio and the paper
   * account with its position row have equal cash, quantity, average price and realized P&L throughout.
   */
  lemma {:induction false} LedgersInLockstep(cash: real, fills: seq<Fill>)
    requires forall k :: 0 <= k < |fills| ==> fills[k].qty > 0
    requires AllFullCloses(Account(cash, FLAT), fills)
    ensures var (b, realized) := BacktestFills(Book(cash, 0, 0.0), fills);
      var a := PaperFills(Account(cash, FLAT), fills);
      InStep(b, a) && a.position.realizedPnl == realized
  {
    hide ApplyFill, BacktestFill;
    if fills != [] {
      var n := |fills| - 1;
      var a0 := Account(cash, FLAT);
      assert AllFullCloses(a0, fills[..n]) by {
        forall k | 0 <= k < n ensures FullClose(PaperFills(a0, fills[..n][..k]).position, fills[..n][k]) {
          assert fills[..n][..k] == fills[..k];
        }
      }
      LedgersInLockstep(cash, fills[..n]);
      var a := PaperFills(a0, fills[..n]);
      FillInStep(BacktestFills(Book(cash, 0, 0.0), fills[..n]).0, a, fills[n]);
      FillConserves(a.position, fills[n].side, fills[n].qty, fills[n].net);
    }
  }
}
