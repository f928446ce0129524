/** The signals of a backtest, placed as market orders with the paper broker, end to end. */
module BacktestVsPaper {
  import opened Wrappers
  import opened Costs
  import opened OrderStates
  import opened PositionBook
  import opened TradeLog
  import opened PaperLedger
  import opened PaperLifecycle
  import opened FillOutcomes
  import opened IndicatorsBatch
  import opened IndicatorViews
  import opened Strategies
  import opened Backtest
  import opened BacktestLedger

  // ---- What the paper broker is asked to do ----

  function PaperConfig(cfg: BacktestConfig, i: int): PaperLedger.Config {
    PaperLedger.Config({i}, cfg.segment, cfg.slippageBps, cfg.rates)
  }

  function AtMarket(i: int, side: Side, qty: int): OrderRequest { OrderRequest(i, side, MARKET, qty, None) }

  /**
   * Side and quantity a signal asks for: an EXIT the whole position back, LONG and SHORT from flat what the sizer
   * makes of the cash at the open. Anything else asks for nothing.
   */
  function Sized(cfg: BacktestConfig, s: Signal, open: real, b: Book): Option<(Side, int)> {
    if s.direction == EXIT then
      if b.qty == 0 then None else Some((if b.qty > 0 then SELL else BUY, Abs(b.qty)))
    else if b.qty != 0 || cfg.sizer(b.cash, open) <= 0 then None
    else Some((if s.direction == LONG then BUY else SELL, cfg.sizer(b.cash, open)))
  }

  /** Place what the pending signal asks for, quoted at the bar's open, and cancel what was not filled. */
  function BarOps(cfg: BacktestConfig, i: int, pending: Option<(Signal, nat)>, open: real, b: Book, id: nat): seq<Op> {
    if pending.None? then []
    else
      match Sized(cfg, pending.value.0, open, b)
      case None => []
      case Some((side, wanted)) => [Place(AtMarket(i, side, wanted), map[i := open]), Cancel(id)]
  }

  /** The paper account after the first `m` bars of the backtest. */
  ghost function PaperAfter<S>(st: Strategy<S, Dict<Series>>, cfg: BacktestConfig, candles: seq<Candle>,
                               d: Dict<Series>, start: int, capital: real, m: nat, i: int): Ledger
    requires m <= |candles| && AllLength(d, |candles|)
  {
    Run(PaperConfig(cfg, i), NewLedger(capital), AllOps(st, cfg, candles, d, start, capital, m, i))
  }

  /** The operations of the first `m` bars, two for each order. */
  ghost function AllOps<S>(st: Strategy<S, Dict<Series>>, cfg: BacktestConfig, candles: seq<Candle>, d: Dict<Series>,
                           start: int, capital: real, m: nat, i: int): seq<Op>
    requires m <= |candles| && AllLength(d, |candles|)
  {
    if m == 0 then []
    else
      var before := AllOps(st, cfg, candles, d, start, capital, m - 1, i);
      match BarsRun(st, cfg, candles, d, start, capital, m - 1)
      case Err(_) => before
      case Ok(e) => before + BarOps(cfg, i, e.pending, candles[m-1].open, e.book, |before| / 2)
  }

  // ---- What each side does with one signal ----

  /** The backtest's side: it fills what the paper broker would, and books it against its own position. */
  lemma ExecuteIs(cfg: BacktestConfig, s: Signal, signalIndex: nat, bar: nat, ts: int, open: real, b: Book, i: int)
    requires Execute(cfg, s, signalIndex, bar, ts, open, b).Ok?
    ensures var (b', trade) := Execute(cfg, s, signalIndex, bar, ts, open, b).value;
      match Sized(cfg, s, open, b)
      case None => b' == b && trade == None
      case Some((side, wanted)) =>
        var price := ApplySlippage(open, side, cfg.slippageBps);
        && wanted > 0 && price > 0.0
        && var q := MarketQty(PaperConfig(cfg, i), b.cash, AtMarket(i, side, wanted), price);
           if q <= 0 then b' == b && trade == None
           else
             && trade.Some?
             && var t := trade.value;
                && t.side == side && t.qty == q && t.price == price
                && CalculateCosts(side, price, q, cfg.segment, cfg.rates) == Ok(t.costs)
                && (b', t.realizedPnl) == BacktestFill(b, Fill(side, q, t.costs.netAmount))
  {
    hide CostsOnTurnover, Worth, PerShare, ApplySlippage;
    if b.qty == 0 { FlatEquity(b, open); }
    match Sized(cfg, s, open, b) {
      case None =>
      case Some((side, wanted)) =>
        if side == BUY && ApplySlippage(open, side, cfg.slippageBps) > 0.0 {
          ClampIsGreatestAffordable(wanted, ApplySlippage(open, side, cfg.slippageBps), cfg.segment, cfg.rates, b.cash);
        }
    }
  }

  lemma FlatEquity(b: Book, mark: real)
    requires b.qty == 0
    ensures EquityOf(b, mark) == b.cash
  {
  }

  /** The paper broker's side: place the order, then cancel what is left of it. */
  lemma PlaceAndCancel(cfg: PaperLedger.Config, l: Ledger, r: OrderRequest, quotes: Quotes) returns (t: Trade)
    requires Lifecycle(l) && r.orderType == MARKET && r.qty > 0
    requires r.instrumentId in cfg.instruments && r.instrumentId in quotes
    requires ApplySlippage(quotes[r.instrumentId], r.side, cfg.slippageBps) > 0.0
    ensures var l' := Step(cfg, Step(cfg, l, Place(r, quotes)).ledger, Cancel(|l.orders|)).ledger;
      var price := ApplySlippage(quotes[r.instrumentId], r.side, cfg.slippageBps);
      var q := MarketQty(cfg, l.cash, r, price);
      && |l'.orders| == |l.orders| + 1 && l'.orders[..|l.orders|] == l.orders
      && l'.orders[|l.orders|].state in {FILLED, CANCELLED}
      && 0 <= q <= r.qty
      && (q > 0 ==> BooksOrder(cfg, l, r, q, price, l', t))
      && (q == 0 ==> BooksNothing(l, l'))
  {
    hide PlaceOrder, ApplySlippage, MarketQty, Lifecycle, OrderOk, ApplyFill, Costed;
    t := MarketOrderOutcome(cfg, l, r, quotes);
    MarketQtyIff(cfg, l.cash, r, ApplySlippage(quotes[r.instrumentId], r.side, cfg.slippageBps));
    var placed := Step(cfg, l, Place(r, quotes)).ledger;
    StepKeepsLifecycle(cfg, l, Place(r, quotes));
    CancelOnlyCancels(cfg, placed, |l.orders|);
    var l' := Step(cfg, placed, Cancel(|l.orders|)).ledger;
    assert l'.orders[..|l.orders|] == placed.orders[..|l.orders|];
  }

  lemma StepKeepsLifecycle(cfg: PaperLedger.Config, l: Ledger, op: Op)
    requires Lifecycle(l)
    ensures Lifecycle(Step(cfg, l, op).ledger)
  {
    hide Lifecycle, Step;
    var actions := StepRefines(cfg, l, op);
    ReachableLifecycle(cfg, l, actions, Step(cfg, l, op).ledger);
  }

  /** Cancelling finishes one order and touches neither cash nor positions nor trades. */
  lemma CancelOnlyCancels(cfg: PaperLedger.Config, l: Ledger, id: nat)
    requires Lifecycle(l) && id < |l.orders|
    ensures var l' := Step(cfg, l, Cancel(id)).ledger;
      && BooksNothing(l, l') && |l'.orders| == |l.orders|
      && l'.orders[id].state in {FILLED, CANCELLED}
      && forall k :: 0 <= k < |l.orders| && k != id ==> l'.orders[k] == l.orders[k]
  {
    hide LogIsPath, FilledBy;
    if Live(l.orders[id]) { DropKeepsOrderOk(l.orders[id]); }
  }

  // ---- Bar by bar ----

  /** A paper trade and a backtest trade with the same side, quantity, price, charges and realized P&L. */
  predicate SameTrade(t: ExecutedTrade, p: Trade) {
    p.side == t.side && p.qty == t.qty && p.price == t.price && p.costs == t.costs && p.realizedPnl == t.realizedPnl
  }

  /** The paper account stands where the book does, with the same trades, and no order is left live. */
  ghost predicate Mirrors(b: Book, trades: seq<ExecutedTrade>, i: int, l: Ledger) {
    && InStep(b, Account(l.cash, PositionOf(l.positions, i)))
    && |l.trades| == |trades| && (forall j :: 0 <= j < |trades| ==> SameTrade(trades[j], l.trades[j]))
    && (forall j :: 0 <= j < |l.orders| ==> l.orders[j].state in {FILLED, CANCELLED})
  }

  /** The same fill keeps both sides equal exactly when it does not close a position only in part. */
  lemma FillMirrorsIff(cfg: PaperLedger.Config, b: Book, trades: seq<ExecutedTrade>, i: int, t: ExecutedTrade,
                       l: Ledger, r: OrderRequest, l': Ledger, p: Trade)
    requires Mirrors(b, trades, i, l) && t.qty > 0 && r.instrumentId == i && r.side == t.side
    requires b.qty == 0 || (t.side == (if b.qty > 0 then SELL else BUY) && t.qty <= Abs(b.qty))
    requires BooksOrder(cfg, l, r, t.qty, t.price, l', p)
    requires CalculateCosts(t.side, t.price, t.qty, cfg.segment, cfg.rates) == Ok(t.costs)
    requires t.realizedPnl == BacktestFill(b, Fill(t.side, t.qty, t.costs.netAmount)).1
    requires |l'.orders| == |l.orders| + 1 && l'.orders[..|l.orders|] == l.orders
    requires l'.orders[|l.orders|].state in {FILLED, CANCELLED}
    ensures Mirrors(BacktestFill(b, Fill(t.side, t.qty, t.costs.netAmount)).0, trades + [t], i, l')
       <==> b.qty == 0 || t.qty == Abs(b.qty)
  {
    hide CalculateCosts, ApplyFill, BacktestFill, CashFlow;
    var a, f := Account(l.cash, PositionOf(l.positions, i)), Fill(t.side, t.qty, t.costs.netAmount);
    assert p.costs == t.costs;
    assert Account(l'.cash, PositionOf(l'.positions, i)) == PaperFill(a, f).0;
    if b.qty == 0 || t.qty == Abs(b.qty) {
      FillInStep(b, a, f);
      forall j | 0 <= j < |l'.orders| ensures l'.orders[j].state in {FILLED, CANCELLED} {
        if j < |l.orders| { assert l'.orders[j] == l'.orders[..|l.orders|][j]; }
      }
    } else {
      PartCloseDiffers(b, a, f);
    }
  }

  /** A part of a position closed: the backtest forgets the rest, the paper broker does not. */
  lemma PartCloseDiffers(b: Book, a: Account, f: Fill)
    requires InStep(b, a) && b.qty != 0 && 0 < f.qty < Abs(b.qty) && f.side == (if b.qty > 0 then SELL else BUY)
    ensures !InStep(BacktestFill(b, f).0, PaperFill(a, f).0)
  {
    hide Worth, PerShare;
  }

  /** One bar. */
  lemma BarMirrorsIff<S>(cfg: BacktestConfig, capital: real, c: Candle, bar: nat, e: Engine<S>, i: int, l: Ledger,
                         ops: seq<Op>, start: Ledger)
    requires EngineOk(cfg, capital, bar, e) && FillPending(cfg, c, bar, e).Ok?
    requires Lifecycle(l) && Mirrors(e.book, e.trades, i, l) && l == Run(PaperConfig(cfg, i), start, ops)
    ensures var f := FillPending(cfg, c, bar, e).value;
      var l' := Run(PaperConfig(cfg, i), start, ops + BarOps(cfg, i, e.pending, c.open, e.book, |l.orders|));
      && (Mirrors(f.book, f.trades, i, l')
          <==> !(e.pending.Some? && CoverClamped(cfg, e.pending.value.0, c.open, e.book)))
      && |l'.orders| == |l.orders| + |BarOps(cfg, i, e.pending, c.open, e.book, |l.orders|)| / 2
  {
    hide Execute, ApplySlippage, Lifecycle, Mirrors, BacktestFill, CalculateCosts, MarketQty, BooksOrder, Step, Worth,
         Leak, TradeOk, EquityOf, CoverClamped;
    var none: seq<Op> := [];
    assert ops + none == ops;
    if e.pending.Some? {
      var (s, signalIndex) := e.pending.value;
      var pcfg, b := PaperConfig(cfg, i), e.book;
      ExecuteIs(cfg, s, signalIndex, bar, c.ts, c.open, b, i);
      match Sized(cfg, s, c.open, b) {
        case None => NothingClamped(cfg, s, c.open, b);
        case Some((side, wanted)) =>
          var r, quotes, id := AtMarket(i, side, wanted), map[i := c.open], |l.orders|;
          RunTwo(pcfg, start, ops, Place(r, quotes), Cancel(id));
          MirrorsCash(b, e.trades, i, l);
          var t := PlaceAndCancel(pcfg, l, r, quotes);
          var l' := Run(pcfg, start, ops + [Place(r, quotes), Cancel(id)]);
          ClampedIs(cfg, s, c.open, b, i);
          var price := ApplySlippage(c.open, side, cfg.slippageBps);
          var q := MarketQty(pcfg, b.cash, r, price);
          SizedShape(cfg, s, c.open, b);
          if q <= 0 {
            NothingMirrors(b, e.trades, i, l, l');
          } else {
            var trade := Execute(cfg, s, signalIndex, bar, c.ts, c.open, b).value.1.value;
            FillMirrorsIff(pcfg, b, e.trades, i, trade, l, r, l', t);
          }
      }
    }
  }

  lemma RunTwo(cfg: PaperLedger.Config, start: Ledger, ops: seq<Op>, a: Op, b: Op)
    ensures Run(cfg, start, ops + [a, b]) == Step(cfg, Step(cfg, Run(cfg, start, ops), a).ledger, b).ledger
  {
    hide Step;
    var all := ops + [a, b];
    assert all[..|all|-1] == ops + [a] && (ops + [a])[..|ops|] == ops;
  }

  lemma MirrorsCash(b: Book, trades: seq<ExecutedTrade>, i: int, l: Ledger)
    requires Mirrors(b, trades, i, l)
    ensures l.cash == b.cash
  {
  }

  /** What a signal asks for opens from flat or is a whole position. */
  lemma SizedShape(cfg: BacktestConfig, s: Signal, open: real, b: Book)
    ensures match Sized(cfg, s, open, b)
            case None => true
            case Some((side, wanted)) =>
              wanted > 0 && (b.qty != 0 ==> side == (if b.qty > 0 then SELL else BUY) && wanted == Abs(b.qty))
  {
    hide EquityOf;
  }

  lemma NothingClamped(cfg: BacktestConfig, s: Signal, open: real, b: Book)
    requires Sized(cfg, s, open, b).None?
    ensures !CoverClamped(cfg, s, open, b)
  {
    hide NetAmount, ApplySlippage, EquityOf;
  }

  /** The guard of a clamped cover, in terms of what is asked for and what the cash pays for. */
  lemma ClampedIs(cfg: BacktestConfig, s: Signal, open: real, b: Book, i: int)
    requires Sized(cfg, s, open, b).Some?
    requires ApplySlippage(open, Sized(cfg, s, open, b).value.0, cfg.slippageBps) > 0.0
    requires Sized(cfg, s, open, b).value.1 > 0
    ensures var (side, wanted) := Sized(cfg, s, open, b).value;
      var q := MarketQty(PaperConfig(cfg, i), b.cash, AtMarket(i, side, wanted),
                         ApplySlippage(open, side, cfg.slippageBps));
      CoverClamped(cfg, s, open, b) <==> b.qty != 0 && 0 < q < wanted
  {
    hide MarketQty, NetAmount, ApplySlippage, EquityOf;
    var (side, wanted) := Sized(cfg, s, open, b).value;
    MarketQtyIff(PaperConfig(cfg, i), b.cash, AtMarket(i, side, wanted), ApplySlippage(open, side, cfg.slippageBps));
  }

  lemma NothingMirrors(b: Book, trades: seq<ExecutedTrade>, i: int, l: Ledger, l': Ledger)
    requires Mirrors(b, trades, i, l) && BooksNothing(l, l')
    requires |l'.orders| == |l.orders| + 1 && l'.orders[..|l.orders|] == l.orders
    requires l'.orders[|l.orders|].state in {FILLED, CANCELLED}
    ensures Mirrors(b, trades, i, l')
  {
    forall j | 0 <= j < |l'.orders| ensures l'.orders[j].state in {FILLED, CANCELLED} {
      if j < |l.orders| { assert l'.orders[j] == l'.orders[..|l.orders|][j]; }
    }
  }

  // ---- Whole runs ----

  ghost predicate MirrorsAt<S>(st: Strategy<S, Dict<Series>>, cfg: BacktestConfig, candles: seq<Candle>,
                               d: Dict<Series>, start: int, capital: real, k: nat, i: int)
    requires k <= |candles| && AllLength(d, |candles|)
  {
    var run := BarsRun(st, cfg, candles, d, start, capital, k);
    run.Ok? && Mirrors(run.value.book, run.value.trades, i, PaperAfter(st, cfg, candles, d, start, capital, k, i))
  }

  ghost predicate AlwaysMirrors<S>(st: Strategy<S, Dict<Series>>, cfg: BacktestConfig, candles: seq<Candle>,
                                   d: Dict<Series>, start: int, capital: real, m: nat, i: int)
    requires m <= |candles| && AllLength(d, |candles|)
  {
    forall k: nat :: k <= m ==> MirrorsAt(st, cfg, candles, d, start, capital, k, i)
  }

  /** Two operations were made for each order. */
  ghost predicate TwoPerOrder<S>(st: Strategy<S, Dict<Series>>, cfg: BacktestConfig, candles: seq<Candle>,
                                 d: Dict<Series>, start: int, capital: real, m: nat, i: int)
    requires m <= |candles| && AllLength(d, |candles|)
  {
    |AllOps(st, cfg, candles, d, start, capital, m, i)|
      == 2 * |PaperAfter(st, cfg, candles, d, start, capital, m, i).orders|
  }

  lemma NextBarMirrorsIff<S>(st: Strategy<S, Dict<Series>>, cfg: BacktestConfig, candles: seq<Candle>, d: Dict<Series>,
                             start: int, capital: real, m: nat, i: int)
    requires 0 < m <= |candles| && AllLength(d, |candles|) && BarsRun(st, cfg, candles, d, start, capital, m).Ok?
    requires MirrorsAt(st, cfg, candles, d, start, capital, m - 1, i)
    requires TwoPerOrder(st, cfg, candles, d, start, capital, m - 1, i)
    ensures MirrorsAt(st, cfg, candles, d, start, capital, m, i)
       <==> !ClampsAt(st, cfg, candles, d, start, capital, m - 1)
    ensures TwoPerOrder(st, cfg, candles, d, start, capital, m, i)
  {
    hide EngineOk, FillPending, BarOps, Mirrors, CoverClamped, Run, Visible, EquityOf, Lifecycle;
    var n := m - 1;
    var e := BarsRun(st, cfg, candles, d, start, capital, n).value;
    var pcfg, ops := PaperConfig(cfg, i), AllOps(st, cfg, candles, d, start, capital, n, i);
    var l := Run(pcfg, NewLedger(capital), ops);
    RunOk(st, cfg, candles, d, start, capital, n);
    RunHasLifecycle(pcfg, capital, ops);
    EvenOps(cfg, i, e.pending, candles[n].open, e.book, |l.orders|);
    BarMirrorsIff(cfg, capital, candles[n], n, e, i, l, ops, NewLedger(capital));
  }

  lemma EvenOps(cfg: BacktestConfig, i: int, pending: Option<(Signal, nat)>, open: real, b: Book, id: nat)
    ensures |BarOps(cfg, i, pending, open, b, id)| % 2 == 0
  {
    hide Sized;
  }

  lemma NothingHappenedYet<S>(st: Strategy<S, Dict<Series>>, cfg: BacktestConfig, candles: seq<Candle>,
                              d: Dict<Series>, start: int, capital: real, i: int)
    requires AllLength(d, |candles|)
    ensures MirrorsAt(st, cfg, candles, d, start, capital, 0, i)
    ensures TwoPerOrder(st, cfg, candles, d, start, capital, 0, i)
  {
  }

  /**
   * The backtest has the paper broker's economics. Place every quantity its signals ask for as a market order,
   * quoted at the open it fills on, and cancel what the cash does not pay for. Bar by bar the account has the
   * book's cash, quantity and average price, and the same trades with the same prices, charges and realized
   * P&L, if and only if no cover was about to be clamped.
   */
  lemma {:induction false} PaperReplaysBacktest<S>(st: Strategy<S, Dict<Series>>, cfg: BacktestConfig,
                                                   candles: seq<Candle>, d: Dict<Series>, start: int, capital: real,
                                                   m: nat, i: int)
    requires m <= |candles| && AllLength(d, |candles|) && BarsRun(st, cfg, candles, d, start, capital, m).Ok?
    ensures AlwaysMirrors(st, cfg, candles, d, start, capital, m, i)
       <==> NoClampedCover(st, cfg, candles, d, start, capital, m)
    ensures NoClampedCover(st, cfg, candles, d, start, capital, m) ==>
      TwoPerOrder(st, cfg, candles, d, start, capital, m, i)
  {
    hide MirrorsAt, TwoPerOrder, ClampsAt, BarStep;
    if m == 0 {
      NothingHappenedYet(st, cfg, candles, d, start, capital, i);
    } else {
      PaperReplaysBacktest(st, cfg, candles, d, start, capital, m - 1, i);
      if NoClampedCover(st, cfg, candles, d, start, capital, m - 1) {
        assert MirrorsAt(st, cfg, candles, d, start, capital, m - 1, i);
        NextBarMirrorsIff(st, cfg, candles, d, start, capital, m, i);
      }
    }
  }
}
