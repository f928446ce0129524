/** The batch view, the streaming states behind the live one, and the columns both present. */
module ViewColumns {
  import opened Wrappers
  import opened Costs
  import opened IndicatorsBatch
  import opened IndicatorsStreaming
  import opened IndicatorViews

  /** How much per-indicator history the live view keeps. */
  const WINDOW_MAXLEN: nat := 500

  // ---- Batch view ----

  /** The view bound to bar `index` of the precomputed series. */
  datatype BatchIndicatorView = BatchIndicatorView(series: Dict<Series>, index: nat) {
    predicate Bound() { forall k :: 0 <= k < |series| ==> index < |series[k].1| }

    function Value(name: string): Result<Option<real>>
      requires Bound()
    {
      if !HasKey(series, name) then Err(KeyError) else Ok(series[IndexOf(series, name)].1[index])
    }

    function Window(name: string, n: int): Result<seq<real>>
      requires Bound()
    {
      if !HasKey(series, name) then Err(KeyError)
      else Ok(WindowOf(series[IndexOf(series, name)].1, index, n))
    }
  }

  function WindowOf(s: Series, index: nat, n: int): seq<real>
    requires index < |s|
  {
    var lo := if index - n + 1 < 0 then 0 else index - n + 1;
    if lo > index then [] else DropNone(s[lo..index+1])
  }

  // ---- One streaming state per declared indicator ----

  datatype IndState =
    | SmaS(buf: seq<real>)
    | EmaS(ema: EmaSt)
    | RsiS(rsi: RsiSt)
    | AtrS(atr: AtrSt)
    | MacdS(macd: MacdSt)
    | BollingerS(window: seq<real>)

  /** The state an indicator is in after the given bars; on no bars, a new state. */
  function IndAfter(spec: Spec, bars: seq<Bar>): IndState
    requires Streamable(spec)
  {
    var closes := Closes(bars);
    match spec
    case SMA(p) => SmaS(LastN(closes, p))
    case EMA(p) => EmaS(EmaAfter(p, closes))
    case RSI(p) => RsiS(RsiAfter(p, closes))
    case ATR(p) => AtrS(AtrAfter(p, bars))
    case MACD(f, s, g) => MacdS(MacdAfter(f, s, g, closes))
    case BOLLINGER(p, _, _) => BollingerS(LastN(closes, p))
  }

  predicate StateFits(spec: Spec, st: IndState) {
    match spec
    case SMA(_) => st.SmaS?
    case EMA(_) => st.EmaS?
    case RSI(_) => st.RsiS? && RsiOk(st.rsi)
    case ATR(_) => st.AtrS?
    case MACD(_, _, _) => st.MacdS?
    case BOLLINGER(_, _, _) => st.BollingerS?
    case _ => false
  }

  /** Feed one bar: ATR takes high, low and close, every other state the close. */
  function IndUpdate(spec: Spec, st: IndState, b: Bar): (r: (IndState, seq<Option<real>>))
    requires Streamable(spec) && StateFits(spec, st)
    ensures |r.1| == |ExpandNames("", spec)|
  {
    match spec
    case SMA(p) => var (s, v) := SmaUpdate(p, st.buf, b.close); (SmaS(s), [v])
    case EMA(p) => var (s, v) := EmaUpdate(p, st.ema, b.close); (EmaS(s), [v])
    case RSI(p) => var (s, v) := RsiUpdate(p, st.rsi, b.close); (RsiS(s), [v])
    case ATR(p) => var (s, v) := AtrUpdate(p, st.atr, b); (AtrS(s), [v])
    case MACD(f, sl, g) =>
      var (s, v) := MacdUpdate(f, sl, g, st.macd, b.close);
      (MacdS(s), if v.None? then [None, None, None] else [Some(v.value.macd), v.value.signal, v.value.hist])
    case BOLLINGER(p, k, sqrt) =>
      var (s, v) := BollingerUpdate(p, k, sqrt, st.window, b.close);
      (BollingerS(s), if v.None? then [None, None, None] else [Some(v.value.0), Some(v.value.1), Some(v.value.2)])
  }

  /** Streaming refines batch: each update answers with the batch columns at the bar just fed. */
  lemma IndRefines(spec: Spec, bars: seq<Bar>, b: Bar)
    requires Streamable(spec)
    ensures StateFits(spec, IndAfter(spec, bars))
    ensures IndUpdate(spec, IndAfter(spec, bars), b)
         == (IndAfter(spec, bars + [b]), ColumnsAt(spec, bars + [b], |bars|))
  {
    hide SmaUpdate, EmaUpdate, RsiUpdate, AtrUpdate, MacdUpdate, BollingerUpdate, RsiOk,
         EmaAfter, RsiAfter, AtrAfter, MacdAfter, LastN,
         SmaAt, EmaAt, RsiAt, AtrAt, MacdLineAt, MacdSignalAt, BollingerAt;
    var v := Closes(bars);
    assert Closes(bars + [b]) == v + [b.close];
    match spec {
      case SMA(p) => SmaRefines(p, v, b.close);
      case EMA(p) => EmaRefines(p, v, b.close);
      case RSI(p) => RsiRefines(p, v, b.close);
      case ATR(p) => AtrRefines(p, bars, b);
      case MACD(f, s, g) =>
        MacdRefines(f, s, g, v, b.close);
        var w := v + [b.close];
        var line, sig := MacdLineAt(w, f, s, |v|), MacdSignalAt(w, f, s, g, |v|);
        assert ColumnsAt(spec, bars + [b], |bars|) == [line, sig, Minus(line, sig)];
        var (st, r) := MacdUpdate(f, s, g, MacdAfter(f, s, g, v), b.close);
        if r.None? { assert line == None && sig == None && Minus(line, sig) == None; }
        assert IndUpdate(spec, IndAfter(spec, bars), b).1 == [line, sig, Minus(line, sig)];
      case BOLLINGER(p, k, sqrt) => BollingerRefines(p, k, sqrt, v, b.close);
    }
  }

  /** Feeding whole series: after any bars, the outputs were the batch columns at every index. */
  function IndRun(spec: Spec, bars: seq<Bar>): (r: (IndState, seq<seq<Option<real>>>))
    requires Streamable(spec)
    ensures StateFits(spec, r.0)
    decreases |bars|
  {
    IndRefines(spec, [], Bar(0.0, 0.0, 0.0, 0, 0));
    if bars == [] then (IndAfter(spec, []), [])
    else
      var (st, outs) := IndRun(spec, bars[..|bars|-1]);
      var (st', out) := IndUpdate(spec, st, bars[|bars|-1]);
      IndUpdateFits(spec, st, bars[|bars|-1]);
      (st', outs + [out])
  }

  lemma IndUpdateFits(spec: Spec, st: IndState, b: Bar)
    requires Streamable(spec) && StateFits(spec, st)
    ensures StateFits(spec, IndUpdate(spec, st, b).0)
  {
    hide Mean, WilderStep, EmaStep, RsiValue, MacdUpdate, BollingerUpdate, AtrUpdate, EmaUpdate, SmaUpdate;
    match spec {
      case RSI(p) => RsiUpdateOk(p, st.rsi, b.close);
      case _ =>
    }
  }

  lemma RsiUpdateOk(period: nat, st: RsiSt, close: real)
    requires period >= 1 && RsiOk(st)
    ensures RsiOk(RsiUpdate(period, st, close).0)
  {
    hide Mean, WilderStep, RsiValue;
    if st.prevClose.Some? {
      var delta := close - st.prevClose.value;
      var gain, loss := Max(delta, 0.0), Max(-delta, 0.0);
      if st.avgGain.None? || st.avgLoss.None? {
        if |st.seedGains| + 1 >= period {
          MeanNonNegative(st.seedGains + [gain]);
          MeanNonNegative(st.seedLosses + [loss]);
        }
      } else {
        WilderNonNegative(period, st.avgGain.value, gain);
        WilderNonNegative(period, st.avgLoss.value, loss);
      }
    }
  }

  lemma {:induction false} StreamingRefinesBatch(spec: Spec, bars: seq<Bar>)
    requires Streamable(spec)
    ensures var (st, outs) := IndRun(spec, bars);
      st == IndAfter(spec, bars) && |outs| == |bars|
      && forall i :: 0 <= i < |bars| ==> outs[i] == ColumnsAt(spec, bars, i)
    decreases |bars|
  {
    hide IndUpdate, IndAfter, ColumnsAt;
    if bars != [] {
      var n := |bars| - 1;
      StreamingRefinesBatch(spec, bars[..n]);
      IndRefines(spec, bars[..n], bars[n]);
      assert bars[..n] + [bars[n]] == bars;
      forall i | 0 <= i < n
        ensures ColumnsAt(spec, bars[..n], i) == ColumnsAt(spec, bars, i)
      {
        assert bars[..n][..i+1] == bars[..i+1];
        ColumnsAreCausal(spec, bars[..n], bars, i);
      }
    }
  }

  // ---- All columns of all declared indicators, in declaration order ----

  datatype RawCol = Col(key: string, spec: Spec, c: nat)

  ghost predicate ColOk(col: RawCol) { Streamable(col.spec) && col.c < |ExpandNames("", col.spec)| }

  type Col = col: RawCol | ColOk(col) witness Col("", SMA(1), 0)

  function ColsOf(name: string, spec: Spec): (cols: seq<Col>)
    requires Streamable(spec)
    ensures |cols| == |ExpandNames("", spec)|
  {
    var keys := ExpandNames(name, spec);
    seq(|keys|, c requires 0 <= c < |keys| => Col(keys[c], spec, c))
  }

  predicate AllStreamable(specs: Specs) { forall k :: 0 <= k < |specs| ==> Streamable(specs[k].1) }

  function FlatCols(specs: Specs): (cols: seq<Col>)
    requires AllStreamable(specs)
  {
    if specs == [] then []
    else FlatCols(specs[..|specs|-1]) + ColsOf(specs[|specs|-1].0, specs[|specs|-1].1)
  }

  lemma {:induction false} IndexOfAt<V>(d: Dict<V>, k: nat)
    requires k < |d| && forall i, j :: 0 <= i < j < |d| ==> d[i].0 != d[j].0
    ensures HasKey(d, d[k].0) && IndexOf(d, d[k].0) == k
    decreases |d|
  {
    if k > 0 {
      assert d[0].0 != d[k].0;
      IndexOfAt(d[1..], k - 1);
      assert d[1..][k-1] == d[k];
    }
  }
}
