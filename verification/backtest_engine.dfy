/** The backtest: one instrument, one strategy, fills at the next bar's open. */
module Backtest {
  import opened Wrappers
  import opened Costs
  import opened PositionBook
  import opened IndicatorsBatch
  import opened IndicatorViews
  import opened Strategies

  datatype ExecutedTrade = ExecutedTrade(
    index: nat,
    ts: int,
    side: Side,
    qty: int,
    price: real,
    costs: TradeCosts,
    signalIndex: nat,
    realizedPnl: Option<real>)

  datatype EquityPoint = EquityPoint(index: nat, ts: int, cash: real, positionQty: int, positionValue: real,
                                     equity: real)

  datatype UnfilledSignal = UnfilledSignal(index: nat, ts: int, direction: Direction)

  /** The engine's single-position ledger; the average price includes costs. */
  datatype Book = Book(cash: real, qty: int, avgPrice: real)

  datatype BacktestConfig = BacktestConfig(sizer: (real, real) -> int, segment: Segment, slippageBps: real,
                                           rates: Rates)

  function ViewOf(b: Book): PositionView { if b.qty == 0 then FLAT_POSITION else PositionView(b.qty, b.avgPrice) }

  function EquityOf(b: Book, mark: real): real { b.cash + Worth(mark, b.qty) }

  /** The side a signal trades on and whether it closes; None when it is ignored. */
  function ResolveAction(qty: int, direction: Direction): Option<(Side, bool)> {
    match direction
    case LONG => if qty == 0 then Some((BUY, false)) else None
    case SHORT => if qty == 0 then Some((SELL, false)) else None
    case EXIT => if qty > 0 then Some((SELL, true)) else if qty < 0 then Some((BUY, true)) else None
  }

  function OpenOrAddTo(b: Book, side: Side, qty: int, net: real): Book
    requires qty > 0 && (b.qty == 0 || Abs(b.qty + SignedQty(side, qty)) > 0)
  {
    var basis := PerShare(net, qty);
    var newQty := b.qty + SignedQty(side, qty);
    var avg := if b.qty == 0 then basis else PerShare(Worth(b.avgPrice, Abs(b.qty)) + Worth(basis, qty), Abs(newQty));
    Book(b.cash + CashFlow(side, net), newQty, avg)
  }

  /** Whatever quantity was bought or sold, the whole position is gone afterwards. */
  function CloseOf(b: Book, side: Side, qty: int, net: real): (Book, real) {
    var realized := if side == SELL then net - Worth(b.avgPrice, qty) else Worth(b.avgPrice, qty) - net;
    (Book(b.cash + CashFlow(side, net), 0, 0.0), realized)
  }

  function Execute(cfg: BacktestConfig, s: Signal, signalIndex: nat, fillIndex: nat, ts: int, rawOpen: real, b: Book)
    : Result<(Book, Option<ExecutedTrade>)>
  {
    match ResolveAction(b.qty, s.direction)
    case None => Ok((b, None))
    case Some((side, closing)) =>
      var wanted := if closing then Abs(b.qty) else cfg.sizer(EquityOf(b, rawOpen), rawOpen);
      if wanted <= 0 then Ok((b, None))
      else
        var price := ApplySlippage(rawOpen, side, cfg.slippageBps);
        match (if side == BUY then ClampToCash(wanted, price, cfg.segment, cfg.rates, b.cash) else Ok(wanted))
        case Err(e) => Err(e)
        case Ok(qty) =>
          if qty <= 0 then Ok((b, None))
          else
            match CalculateCosts(side, price, qty, cfg.segment, cfg.rates)
            case Err(e) => Err(e)
            case Ok(costs) =>
              var (b', realized) :=
                if closing then (var (c, r) := CloseOf(b, side, qty, costs.netAmount); (c, Some(r)))
                else (OpenOrAddTo(b, side, qty, costs.netAmount), None);
              Ok((b', Some(ExecutedTrade(fillIndex, ts, side, qty, price, costs, signalIndex, realized))))
  }

  // ---- The bar loop as a function of how many bars have been replayed ----

  datatype Engine<!S> = Engine(
    book: Book,
    trades: seq<ExecutedTrade>,
    equity: seq<EquityPoint>,
    unfilled: seq<UnfilledSignal>,
    pending: Option<(Signal, nat)>,
    strat: S)

  /** Fill the signal left over from the previous bar at this bar's open. */
  function FillLeftover(cfg: BacktestConfig, c: Candle, i: nat, pending: Option<(Signal, nat)>,
                        b: Book): Result<(Book, Option<ExecutedTrade>)> {
    match pending
    case None => Ok((b, None))
    case Some((signal, signalIndex)) => Execute(cfg, signal, signalIndex, i, c.ts, c.open, b)
  }

  function Append<T>(s: seq<T>, x: Option<T>): seq<T> { if x.Some? then s + [x.value] else s }

  function FillPending<S>(cfg: BacktestConfig, c: Candle, i: nat, e: Engine<S>): Result<Engine<S>> {
    match FillLeftover(cfg, c, i, e.pending, e.book)
    case Err(err) => Err(err)
    case Ok((b, trade)) => Ok(e.(book := b, trades := Append(e.trades, trade), pending := None))
  }

  function MarkEquity<S>(c: Candle, i: nat, e: Engine<S>): Engine<S> {
    var point := EquityPoint(i, c.ts, e.book.cash, e.book.qty, Worth(c.close, e.book.qty), EquityOf(e.book, c.close));
    e.(equity := e.equity + [point])
  }

  /** Ask the strategy, and remember its signal for the next bar if there is one. */
  function Decide<S>(st: Strategy<S, Dict<Series>>, candles: seq<Candle>, d: Dict<Series>, start: int, i: nat,
                     e: Engine<S>): Engine<S>
    requires i < |candles| && AllLength(d, |candles|)
  {
    if i < start then e
    else
      var ctx := Context(i, candles[i].ts, candles[..i+1], Visible(d, i), ViewOf(e.book));
      var (strat, signal) := st.onCandle(e.strat, ctx);
      var e' := e.(strat := strat);
      match signal
      case None => e'
      case Some(s) =>
        if i == |candles| - 1 then e'.(unfilled := e'.unfilled + [UnfilledSignal(i, candles[i].ts, s.direction)])
        else e'.(pending := Some((s, i)))
  }

  function BarStep<S>(st: Strategy<S, Dict<Series>>, cfg: BacktestConfig, candles: seq<Candle>, d: Dict<Series>,
                      start: int, i: nat, e: Engine<S>)
    : Result<Engine<S>>
    requires i < |candles| && AllLength(d, |candles|)
  {
    match FillPending(cfg, candles[i], i, e)
    case Err(err) => Err(err)
    case Ok(filled) => Ok(Decide(st, candles, d, start, i, MarkEquity(candles[i], i, filled)))
  }

  function StartEngine<S>(st: Strategy<S, Dict<Series>>, capital: real): Engine<S> {
    Engine(Book(capital, 0, 0.0), [], [], [], None, st.initial)
  }

  /** The engine after the first m bars. */
  function BarsRun<S>(st: Strategy<S, Dict<Series>>, cfg: BacktestConfig, candles: seq<Candle>, d: Dict<Series>,
                      start: int, capital: real, m: nat)
    : Result<Engine<S>>
    requires m <= |candles| && AllLength(d, |candles|)
  {
    if m == 0 then Ok(StartEngine(st, capital))
    else
      match BarsRun(st, cfg, candles, d, start, capital, m - 1)
      case Err(err) => Err(err)
      case Ok(e) => BarStep(st, cfg, candles, d, start, m - 1, e)
  }

  /** An exception ends the run: no later bar undoes it. */
  lemma {:induction false} ErrorSticks<S>(st: Strategy<S, Dict<Series>>, cfg: BacktestConfig, candles: seq<Candle>,
                                          d: Dict<Series>, start: int, capital: real, m: nat, n: nat)
    requires m <= n <= |candles| && AllLength(d, |candles|)
    requires BarsRun(st, cfg, candles, d, start, capital, m).Err?
    ensures BarsRun(st, cfg, candles, d, start, capital, n) == BarsRun(st, cfg, candles, d, start, capital, m)
    decreases n - m
  {
    hide BarStep;
    if m < n { ErrorSticks(st, cfg, candles, d, start, capital, m, n - 1); }
  }

  lemma NoBars<S>(st: Strategy<S, Dict<Series>>, cfg: BacktestConfig, candles: seq<Candle>, d: Dict<Series>,
                  start: int, capital: real)
    requires AllLength(d, |candles|)
    ensures BarsRun(st, cfg, candles, d, start, capital, 0) == Ok(StartEngine(st, capital))
  {
  }

  /** One more bar, once its fill is known. */
  lemma NextBar<S>(st: Strategy<S, Dict<Series>>, cfg: BacktestConfig, candles: seq<Candle>, d: Dict<Series>,
                   start: int, capital: real, i: nat, e: Engine<S>)
    requires i < |candles| && AllLength(d, |candles|) && BarsRun(st, cfg, candles, d, start, capital, i) == Ok(e)
    ensures match FillLeftover(cfg, candles[i], i, e.pending, e.book)
            case Err(err) => BarsRun(st, cfg, candles, d, start, capital, i + 1) == Err(err)
            case Ok((b, trade)) =>
              var f := e.(book := b, trades := Append(e.trades, trade), pending := None);
              BarsRun(st, cfg, candles, d, start, capital, i + 1)
                == Ok(Decide(st, candles, d, start, i, MarkEquity(candles[i], i, f)))
  {
    hide FillLeftover, Append, Decide, MarkEquity;
  }

  function EffectiveStart<S>(st: Strategy<S, Dict<Series>>, d: Dict<Series>): int
    requires |d| > 0 ==> AllLength(d, |d[0].1|)
  {
    var f := FirstAllValid(d);
    if f > st.warmupBars then f else st.warmupBars
  }

  function BacktestOf<S>(st: Strategy<S, Dict<Series>>, candles: seq<Candle>, capital: real,
                         cfg: BacktestConfig): Result<Engine<S>> {
    if candles == [] || capital <= 0.0 then Err(BacktestError)
    else
      match FirstSpecError(st.required)
      case Some(e) => Err(e)
      case None =>
        var d := IndicatorSet(BarsOf(candles), st.required);
        SetLength(BarsOf(candles), st.required);
        BarsRun(st, cfg, candles, d, EffectiveStart(st, d), capital, |candles|)
  }

  // ---- The engine itself ----

  class Portfolio {
    var cash: real
    var qty: int
    var avgPrice: real

    function State(): Book
      reads this
    {
      Book(cash, qty, avgPrice)
    }

    constructor (cash: real)
      ensures State() == Book(cash, 0, 0.0)
    {
      this.cash, qty, avgPrice := cash, 0, 0.0;
    }

    method OpenOrAdd(side: Side, q: int, net: real)
      requires q > 0 && (qty == 0 || Abs(qty + SignedQty(side, q)) > 0)
      modifies this
      ensures State() == OpenOrAddTo(old(State()), side, q, net)
    {
      hide Worth, PerShare;
      var signedQty := if side == BUY then q else -q;
      var costBasisPerShare := PerShare(net, q);
      if qty == 0 {
        qty := signedQty;
        avgPrice := costBasisPerShare;
      } else {
        var totalCost := Worth(avgPrice, Abs(qty)) + Worth(costBasisPerShare, q);
        qty := qty + signedQty;
        avgPrice := PerShare(totalCost, Abs(qty));
      }
      cash := cash + if side == SELL then net else -net;
    }

    method Close(side: Side, q: int, net: real) returns (realized: real)
      modifies this
      ensures (State(), realized) == CloseOf(old(State()), side, q, net)
    {
      hide Worth;
      if side == SELL {
        realized := net - Worth(avgPrice, q);
        cash := cash + net;
      } else {
        realized := Worth(avgPrice, q) - net;
        cash := cash - net;
      }
      qty := 0;
      avgPrice := 0.0;
    }
  }

  /** Reduce qty until a BUY of that size, costs included, fits in cash. */
  method Clamp(qty: int, price: real, segment: Segment, rates: Rates, cash: real) returns (r: Result<int>)
    ensures r == ClampToCash(qty, price, segment, rates, cash)
  {
    hide CostsOnTurnover;
    var q := qty;
    while q > 0
      invariant ClampToCash(qty, price, segment, rates, cash) == ClampToCash(q, price, segment, rates, cash)
    {
      var costs := CalculateCosts(BUY, price, q, segment, rates);
      if costs.Err? { return Err(costs.error); }
      if costs.value.netAmount <= cash { return Ok(q); }
      q := q - 1;
    }
    r := Ok(0);
  }

  method ExecuteSignal(cfg: BacktestConfig, s: Signal, signalIndex: nat, fillIndex: nat, ts: int, rawOpen: real,
                       portfolio: Portfolio)
    returns (r: Result<Option<ExecutedTrade>>)
    modifies portfolio
    ensures match Execute(cfg, s, signalIndex, fillIndex, ts, rawOpen, old(portfolio.State()))
            case Err(e) => r == Err(e)
            case Ok((b, trade)) => r == Ok(trade) && portfolio.State() == b
  {
    hide CostsOnTurnover, Worth, PerShare;
    var action := ResolveAction(portfolio.qty, s.direction);
    if action.None? { return Ok(None); }
    var (side, closing) := action.value;
    var qty := if closing then Abs(portfolio.qty)
               else cfg.sizer(portfolio.cash + Worth(rawOpen, portfolio.qty), rawOpen);
    if qty <= 0 { return Ok(None); }
    var price := ApplySlippage(rawOpen, side, cfg.slippageBps);
    if side == BUY {
      var clamped := Clamp(qty, price, cfg.segment, cfg.rates, portfolio.cash);
      if clamped.Err? { return Err(clamped.error); }
      qty := clamped.value;
      if qty <= 0 { return Ok(None); }
    }
    var costs := CalculateCosts(side, price, qty, cfg.segment, cfg.rates);
    if costs.Err? { return Err(costs.error); }
    var realizedPnl: Option<real> := None;
    if closing {
      var realized := portfolio.Close(side, qty, costs.value.netAmount);
      realizedPnl := Some(realized);
    } else {
      portfolio.OpenOrAdd(side, qty, costs.value.netAmount);
    }
    r := Ok(Some(ExecutedTrade(fillIndex, ts, side, qty, price, costs.value, signalIndex, realizedPnl)));
  }

  method FillAtOpen(cfg: BacktestConfig, c: Candle, i: nat, pending: Option<(Signal, nat)>, portfolio: Portfolio)
    returns (r: Result<Option<ExecutedTrade>>)
    modifies portfolio
    ensures match FillLeftover(cfg, c, i, pending, old(portfolio.State()))
            case Err(e) => r == Err(e)
            case Ok((b, trade)) => r == Ok(trade) && portfolio.State() == b
  {
    hide Execute;
    if pending.None? { return Ok(None); }
    var (signal, signalIndex) := pending.value;
    r := ExecuteSignal(cfg, signal, signalIndex, i, c.ts, c.open, portfolio);
  }

  /** Replay the candles through the strategy; the outcome is the engine after the last bar. */
  method RunBacktest<S>(st: Strategy<S, Dict<Series>>, candles: seq<Candle>, capital: real, cfg: BacktestConfig)
    returns (r: Result<Engine<S>>)
    ensures r == BacktestOf(st, candles, capital, cfg)
  {
    hide FillLeftover, Append, Worth, IndicatorSet, FirstAllValid, FirstSpecError, IsFirstAllValid, Visible, BarsRun;
    if candles == [] || capital <= 0.0 { return Err(BacktestError); }
    var n := |candles|;
    var indicators := ComputeIndicatorSet(BarsOf(candles), st.required);
    if indicators.Err? { return Err(indicators.error); }
    var d := indicators.value;
    SetLength(BarsOf(candles), st.required);
    var first := FirstAllValidIndex(d);
    FirstAllValidUnique(d, first, FirstAllValid(d));
    var start := if first > st.warmupBars then first else st.warmupBars;

    var portfolio := new Portfolio(capital);
    var trades: seq<ExecutedTrade> := [];
    var equity: seq<EquityPoint> := [];
    var unfilled: seq<UnfilledSignal> := [];
    var pending: Option<(Signal, nat)> := None;
    var strat := st.initial;
    NoBars(st, cfg, candles, d, start, capital);
    for i := 0 to n
      invariant BarsRun(st, cfg, candles, d, start, capital, i)
             == Ok(Engine(portfolio.State(), trades, equity, unfilled, pending, strat))
    {
      var candle := candles[i];
      NextBar(st, cfg, candles, d, start, capital, i,
              Engine(portfolio.State(), trades, equity, unfilled, pending, strat));
      var trade := FillAtOpen(cfg, candle, i, pending, portfolio);
      if trade.Err? {
        ErrorSticks(st, cfg, candles, d, start, capital, i + 1, n);
        return Err(trade.error);
      }
      trades := Append(trades, trade.value);
      pending := None;
      equity := equity + [EquityPoint(i, candle.ts, portfolio.cash, portfolio.qty,
                                      Worth(candle.close, portfolio.qty),
                                      portfolio.cash + Worth(candle.close, portfolio.qty))];
      if i < start { continue; }
      var view := if portfolio.qty == 0 then FLAT_POSITION else PositionView(portfolio.qty, portfolio.avgPrice);
      var (next, signal) := st.onCandle(strat, Context(i, candle.ts, candles[..i+1], Visible(d, i), view));
      strat := next;
      if signal.None? { continue; }
      if i == n - 1 {
        unfilled := unfilled + [UnfilledSignal(i, candle.ts, signal.value.direction)];
        continue;
      }
      pending := Some((signal.value, i));
    }
    r := Ok(Engine(portfolio.State(), trades, equity, unfilled, pending, strat));
  }
}
