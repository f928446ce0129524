/** The incremental state objects behind one interface: one object per declared indicator. */
module IndicatorObjects {
  import opened Wrappers
  import opened IndicatorsBatch
  import opened IndicatorStates
  import opened IndicatorViews

  datatype IndObject =
    | SmaO(sma: SMAState)
    | EmaO(ema: EMAState)
    | RsiO(rsi: RSIState)
    | AtrO(atr: ATRState)
    | MacdO(macd: MACDState)
    | BollingerO(bollinger: BollingerState)

  /** The objects an indicator consists of. */
  function Footprint(x: IndObject): set<object> {
    match x
    case SmaO(o) => {o}
    case EmaO(o) => {o}
    case RsiO(o) => {o}
    case AtrO(o) => {o}
    case MacdO(o) => {o, o.fast, o.slow, o.signal}
    case BollingerO(o) => {o}
  }

  /** A valid object of the declared kind and parameters that was fed exactly these bars. */
  ghost predicate Fits(spec: Spec, x: IndObject, bars: seq<Bar>)
    reads Footprint(x)
  {
    match spec
    case SMA(p) => x.SmaO? && x.sma.Valid() && x.sma.period == p && x.sma.fed == Closes(bars)
    case EMA(p) => x.EmaO? && x.ema.Valid() && x.ema.period == p && x.ema.fed == Closes(bars)
    case RSI(p) => x.RsiO? && x.rsi.Valid() && x.rsi.period == p && x.rsi.fed == Closes(bars)
    case ATR(p) => x.AtrO? && x.atr.Valid() && x.atr.period == p && x.atr.fed == bars
    case MACD(f, s, g) =>
      && x.MacdO? && x.macd.Valid() && x.macd.fed == Closes(bars)
      && x.macd.fast.period == f && x.macd.slow.period == s && x.macd.signal.period == g
    case BOLLINGER(p, k, sqrt) =>
      && x.BollingerO? && x.bollinger.Valid() && x.bollinger.fed == Closes(bars)
      && x.bollinger.period == p && x.bollinger.numStd == k && x.bollinger.sqrt == sqrt
    case _ => false
  }

  method NewObject(spec: Spec) returns (x: IndObject)
    requires Streamable(spec)
    ensures fresh(Footprint(x)) && Fits(spec, x, [])
  {
    match spec {
      case SMA(p) =>
        var o := new SMAState(p);
        x := SmaO(o);
      case EMA(p) =>
        var o := new EMAState(p);
        x := EmaO(o);
      case RSI(p) =>
        var o := new RSIState(p);
        x := RsiO(o);
      case ATR(p) =>
        var o := new ATRState(p);
        x := AtrO(o);
      case MACD(f, s, g) =>
        var o := new MACDState(f, s, g);
        x := MacdO(o);
      case BOLLINGER(p, k, sqrt) =>
        var o := new BollingerState(p, k, sqrt);
        x := BollingerO(o);
    }
  }

  lemma ClosesAppend(bars: seq<Bar>, b: Bar)
    ensures Closes(bars + [b]) == Closes(bars) + [b.close]
  {
  }

  /** Feed one bar: ATR takes high, low and close, every other object the close. It answers the batch columns. */
  method FeedObject(spec: Spec, x: IndObject, high: real, low: real, close: real, ghost b: Bar, ghost bars: seq<Bar>)
    returns (result: seq<Option<real>>)
    requires b.high == high && b.low == low && b.close == close
    requires Streamable(spec) && Fits(spec, x, bars)
    modifies Footprint(x)
    ensures Fits(spec, x, bars + [b]) && result == ColumnsAt(spec, bars + [b], |bars|)
  {
    hide SmaAt, EmaAt, RsiAt, AtrAt, MacdLineAt, MacdSignalAt, BollingerAt, Closes;
    ClosesAppend(bars, b);
    match spec {
      case SMA(p) =>
        var v := x.sma.Update(close);
        result := [v];
      case EMA(p) =>
        var v := x.ema.Update(close);
        result := [v];
      case RSI(p) =>
        var v := x.rsi.Update(close);
        result := [v];
      case ATR(p) =>
        var v := x.atr.Update(high, low, close, b);
        result := [v];
      case MACD(f, s, g) =>
        var v := x.macd.Update(close);
        result := if v.None? then [None, None, None] else [Some(v.value.macd), v.value.signal, v.value.hist];
      case BOLLINGER(p, k, sqrt) =>
        var v := x.bollinger.Update(close);
        result := if v.None? then [None, None, None] else [Some(v.value.0), Some(v.value.1), Some(v.value.2)];
    }
  }
}
