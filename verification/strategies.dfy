/** The strategy contract: an abstract, possibly stateful, deterministic decision function. */
module Strategies {
  import opened Wrappers
  import opened IndicatorsBatch
  import opened IndicatorViews

  datatype Direction = LONG | SHORT | EXIT

  datatype Signal = Signal(direction: Direction, refPrice: real)

  datatype Candle = Candle(ts: int, open: real, high: real, low: real, close: real, volume: int)

  // Times are milliseconds UTC; a trading day starts at midnight Indian time, five and a half hours ahead.
  const DAY := 86400000
  const IST_OFFSET := 19800000

  function TradingDay(ts: int): int { (ts + IST_OFFSET) / DAY }

  function BarOf(c: Candle): Bar { Bar(c.high, c.low, c.close, c.volume, TradingDay(c.ts)) }

  function BarsOf(candles: seq<Candle>): (r: seq<Bar>)
    ensures |r| == |candles|
  {
    seq(|candles|, i requires 0 <= i < |candles| => BarOf(candles[i]))
  }

  datatype PositionView = PositionView(qty: int, avgPrice: real)

  const FLAT_POSITION := PositionView(0, 0.0)

  /** Everything a strategy may look at on one bar. */
  datatype Context<!V> = Context(index: nat, ts: int, candles: seq<Candle>, indicators: V, position: PositionView)

  /** `onCandle` maps the strategy's own state and the context to its next state and at most one signal. */
  datatype Strategy<!S, !V> = Strategy(
    initial: S,
    warmupBars: int,
    required: Specs,
    onCandle: (S, Context<V>) -> (S, Option<Signal>))

  /** What a batch view bound to bar i can reach: each series up to and including bar i. */
  function Visible(d: Dict<Series>, i: nat): Dict<Series>
    requires forall k :: 0 <= k < |d| ==> i < |d[k].1|
  {
    seq(|d|, k requires 0 <= k < |d| => (d[k].0, d[k].1[..i+1]))
  }
}
