/**
 * Incremental indicator states. Each state's update is related to the batch value at the bar just
 * fed: None exactly where batch is NaN, the same number otherwise.
 */
module IndicatorsStreaming {
  import opened Wrappers
  import opened Costs
  import opened IndicatorsBatch

  // ---- Batch values only look back ----

  lemma {:induction false} EmaIsCausal(v: seq<real>, w: seq<real>, period: nat, i: nat)
    requires period >= 1 && i < |v| && i < |w| && v[..i+1] == w[..i+1]
    ensures EmaAt(v, period, i) == EmaAt(w, period, i)
  {
    assert v[i] == v[..i+1][i] && w[i] == w[..i+1][i];
    if i + 1 == period {
      assert v[..period] == w[..period];
    } else if i + 1 > period {
      assert v[..i] == v[..i+1][..i] && w[..i] == w[..i+1][..i];
      EmaIsCausal(v, w, period, i - 1);
    }
  }

  lemma {:induction false} WilderIsCausal(v: seq<real>, w: seq<real>, period: nat, i: nat)
    requires period >= 1 && i < |v| && i < |w| && v[..i+1] == w[..i+1]
    ensures WilderAt(v, period, i) == WilderAt(w, period, i)
  {
    hide WilderStep, Mean;
    assert v[i] == v[..i+1][i] && w[i] == w[..i+1][i];
    if i + 1 == period {
      assert v[..period] == w[..period];
    } else if i + 1 > period {
      assert v[..i] == v[..i+1][..i] && w[..i] == w[..i+1][..i];
      WilderIsCausal(v, w, period, i - 1);
    }
  }

  lemma SameGains(v: seq<real>, w: seq<real>, n: nat)
    requires n < |v| && n < |w| && v[..n+1] == w[..n+1]
    ensures Gains(v, n) == Gains(w, n) && Losses(v, n) == Losses(w, n)
  {
    forall j | 0 <= j < n
      ensures Gain(v, j) == Gain(w, j) && Loss(v, j) == Loss(w, j)
    {
      assert v[j] == v[..n+1][j] && w[j] == w[..n+1][j];
      assert v[j+1] == v[..n+1][j+1] && w[j+1] == w[..n+1][j+1];
    }
  }

  lemma {:induction false} WilderAvgIsCausal(v: seq<real>, w: seq<real>, period: nat, i: nat)
    requires period >= 1 && period <= i && i < |v| && i < |w| && v[..i+1] == w[..i+1]
    ensures WilderAvg(v, period, i) == WilderAvg(w, period, i)
  {
    hide WilderStep, Mean, Gains, Losses;
    assert v[i] == v[..i+1][i] && w[i] == w[..i+1][i];
    assert v[i-1] == v[..i+1][i-1] && w[i-1] == w[..i+1][i-1];
    assert v[..i] == v[..i+1][..i] && w[..i] == w[..i+1][..i];
    if i == period {
      SameGains(v, w, period);
    } else {
      WilderAvgIsCausal(v, w, period, i - 1);
    }
  }

  // ---- SMA and Bollinger: a bounded buffer ----

  /** Append to a deque that keeps at most `maxlen` items. */
  function Push<T>(buf: seq<T>, x: T, maxlen: nat): seq<T>
    requires maxlen >= 1
  {
    if |buf| < maxlen then buf + [x] else buf[|buf| + 1 - maxlen..] + [x]
  }

  /** The last `n` items, or all of them. */
  function LastN<T>(v: seq<T>, n: nat): seq<T> { if |v| < n then v else v[|v|-n..] }

  lemma PushIsLastN<T>(v: seq<T>, x: T, maxlen: nat)
    requires maxlen >= 1
    ensures Push(LastN(v, maxlen), x, maxlen) == LastN(v + [x], maxlen)
  {
  }

  function SmaUpdate(period: nat, buf: seq<real>, x: real): (seq<real>, Option<real>)
    requires period >= 1
  {
    var buf' := Push(buf, x, period);
    (buf', if |buf'| < period then None else Some(Mean(buf')))
  }

  lemma SmaRefines(period: nat, v: seq<real>, x: real)
    requires period >= 1
    ensures var (buf, r) := SmaUpdate(period, LastN(v, period), x);
      buf == LastN(v + [x], period) && r == SmaAt(v + [x], period, |v|)
  {
    PushIsLastN(v, x, period);
    if |v| + 1 >= period { LastNIsWindow(v + [x], period); }
  }

  lemma LastNIsWindow<T>(w: seq<T>, n: nat)
    requires 1 <= n <= |w|
    ensures LastN(w, n) == w[|w|-n..|w|]
  {
  }

  function BollingerUpdate(period: nat, numStd: real, sqrt: real -> real, buf: seq<real>, x: real)
    : (seq<real>, Option<(real, real, real)>)
    requires period >= 2
  {
    var buf' := Push(buf, x, period);
    (buf', if |buf'| < period then None else Some(Bands(buf', numStd, sqrt)))
  }

  lemma BollingerRefines(period: nat, numStd: real, sqrt: real -> real, v: seq<real>, x: real)
    requires period >= 2
    ensures var (buf, r) := BollingerUpdate(period, numStd, sqrt, LastN(v, period), x);
      buf == LastN(v + [x], period) && r == BollingerAt(v + [x], period, numStd, sqrt, |v|)
  {
    hide Bands;
    PushIsLastN(v, x, period);
    if |v| + 1 >= period { LastNIsWindow(v + [x], period); }
  }

  // ---- EMA ----

  datatype EmaSt = EmaSt(seedBuf: seq<real>, value: Option<real>)

  function EmaUpdate(period: nat, st: EmaSt, x: real): (EmaSt, Option<real>)
    requires period >= 1
  {
    if st.value.None? then
      var seed := st.seedBuf + [x];
      if |seed| < period then (EmaSt(seed, None), None)
      else (EmaSt(seed, Some(Mean(seed))), Some(Mean(seed)))
    else
      var next := EmaStep(period, st.value.value, x);
      (st.(value := Some(next)), Some(next))
  }

  /** The state after feeding `v`. */
  function EmaAfter(period: nat, v: seq<real>): EmaSt
    requires period >= 1
  {
    if |v| < period then EmaSt(v, None) else EmaSt(v[..period], EmaAt(v, period, |v| - 1))
  }

  lemma EmaRefines(period: nat, v: seq<real>, x: real)
    requires period >= 1
    ensures var (st, r) := EmaUpdate(period, EmaAfter(period, v), x);
      st == EmaAfter(period, v + [x]) && r == EmaAt(v + [x], period, |v|)
  {
    hide Mean, EmaStep;
    var w := v + [x];
    if |v| >= period {
      assert w[..|v|] == v[..|v|];
      EmaIsCausal(v, w, period, |v| - 1);
      assert w[..period] == v[..period];
    } else if |w| == period {
      assert w[..period] == w;
    }
  }

  // ---- RSI ----

  datatype RsiSt = RsiSt(prevClose: Option<real>, seedGains: seq<real>, seedLosses: seq<real>, avgGain: Option<real>,
                         avgLoss: Option<real>)

  /** Averages are only ever built from gains and losses, so they are never negative. */
  predicate RsiOk(st: RsiSt) {
    && (st.avgGain.Some? ==> st.avgGain.value >= 0.0)
    && (st.avgLoss.Some? ==> st.avgLoss.value >= 0.0)
    && |st.seedGains| == |st.seedLosses|
    && (forall k :: 0 <= k < |st.seedGains| ==> st.seedGains[k] >= 0.0)
    && (forall k :: 0 <= k < |st.seedLosses| ==> st.seedLosses[k] >= 0.0)
  }

  function RsiUpdate(period: nat, st: RsiSt, close: real): (RsiSt, Option<real>)
    requires period >= 1 && RsiOk(st)
  {
    if st.prevClose.None? then (st.(prevClose := Some(close)), None)
    else
      var delta := close - st.prevClose.value;
      var gain, loss := Max(delta, 0.0), Max(-delta, 0.0);
      if st.avgGain.None? || st.avgLoss.None? then
        var gains, losses := st.seedGains + [gain], st.seedLosses + [loss];
        if |gains| < period then (st.(prevClose := Some(close), seedGains := gains, seedLosses := losses), None)
        else
          MeanNonNegative(gains); MeanNonNegative(losses);
          (RsiSt(Some(close), gains, losses, Some(Mean(gains)), Some(Mean(losses))),
           Some(RsiValue(Mean(gains), Mean(losses))))
      else
        var g, l := WilderStep(period, st.avgGain.value, gain), WilderStep(period, st.avgLoss.value, loss);
        WilderNonNegative(period, st.avgGain.value, gain); WilderNonNegative(period, st.avgLoss.value, loss);
        (st.(prevClose := Some(close), avgGain := Some(g), avgLoss := Some(l)), Some(RsiValue(g, l)))
  }

  lemma WilderNonNegative(period: nat, previous: real, x: real)
    requires period >= 1 && previous >= 0.0 && x >= 0.0
    ensures WilderStep(period, previous, x) >= 0.0
  {
    MulNonNegative(previous, (period - 1) as real);
  }

  function RsiAfter(period: nat, v: seq<real>): (st: RsiSt)
    requires period >= 1
  {
    if v == [] then RsiSt(None, [], [], None, None)
    else
      var n := |v| - 1;
      var last := Some(v[n]);
      if n < period then RsiSt(last, Gains(v, n), Losses(v, n), None, None)
      else
        var (g, l) := WilderAvg(v, period, n);
        RsiSt(last, Gains(v, period), Losses(v, period), Some(g), Some(l))
  }

  lemma RsiAfterOk(period: nat, v: seq<real>)
    requires period >= 1
    ensures RsiOk(RsiAfter(period, v))
  {
    hide WilderAvg;
  }

  lemma GainsAppend(v: seq<real>, x: real)
    requires v != []
    ensures var w := v + [x];
      Gains(w, |v|) == Gains(v, |v| - 1) + [Max(x - v[|v|-1], 0.0)]
      && Losses(w, |v|) == Losses(v, |v| - 1) + [Max(-(x - v[|v|-1]), 0.0)]
  {
    var w := v + [x];
    assert w[..|v|] == v[..|v|];
    SameGains(v, w, |v| - 1);
  }

  lemma RsiRefines(period: nat, v: seq<real>, x: real)
    requires period >= 1
    ensures RsiOk(RsiAfter(period, v))
    ensures var (st, r) := RsiUpdate(period, RsiAfter(period, v), x);
      st == RsiAfter(period, v + [x]) && r == RsiAt(v + [x], period, |v|)
  {
    hide Mean, WilderStep, RsiValue, Gains, Losses, WilderAvg;
    RsiAfterOk(period, v);
    var w := v + [x];
    if v == [] {
      NoGains(w);
    } else {
      GainsAppend(v, x);
      assert w[..|v|] == v[..|v|];
      if |v| > period {
        WilderAvgIsCausal(v, w, period, |v| - 1);
        WilderAvgUnrolls(w, period, |v|);
        assert w[..period+1] == v[..period+1];
        SameGains(v, w, period);
      } else if |v| == period {
        WilderAvgSeed(w, period);
      }
    }
  }

  lemma NoGains(v: seq<real>)
    ensures Gains(v, 0) == [] && Losses(v, 0) == []
  {
  }

  // ---- ATR ----

  datatype AtrSt = AtrSt(prevClose: Option<real>, seedTrs: seq<real>, value: Option<real>)

  function AtrUpdate(period: nat, st: AtrSt, b: Bar): (AtrSt, Option<real>)
    requires period >= 1
  {
    var tr := if st.prevClose.None? then b.high - b.low else TrueRange(b.high, b.low, st.prevClose.value);
    if st.value.None? then
      var seed := st.seedTrs + [tr];
      if |seed| < period then (AtrSt(Some(b.close), seed, None), None)
      else (AtrSt(Some(b.close), seed, Some(Mean(seed))), Some(Mean(seed)))
    else
      var next := WilderStep(period, st.value.value, tr);
      (AtrSt(Some(b.close), st.seedTrs, Some(next)), Some(next))
  }

  function AtrAfter(period: nat, bars: seq<Bar>): AtrSt
    requires period >= 1
  {
    var tr := TrueRanges(bars);
    var prev := if bars == [] then None else Some(bars[|bars|-1].close);
    if |bars| < period then AtrSt(prev, tr, None)
    else AtrSt(prev, tr[..period], WilderAt(tr, period, |bars| - 1))
  }

  lemma TrueRangesAppend(bars: seq<Bar>, b: Bar)
    ensures TrueRanges(bars + [b])
         == TrueRanges(bars) + [if bars == [] then b.high - b.low else TrueRange(b.high, b.low, bars[|bars|-1].close)]
  {
  }

  lemma AtrRefines(period: nat, bars: seq<Bar>, b: Bar)
    requires period >= 1
    ensures var (st, r) := AtrUpdate(period, AtrAfter(period, bars), b);
      st == AtrAfter(period, bars + [b]) && r == AtrAt(bars + [b], period, |bars|)
  {
    hide Mean, WilderStep, TrueRange, TrueRanges, WilderAt;
    var tr, tr' := TrueRanges(bars), TrueRanges(bars + [b]);
    TrueRangesAppend(bars, b);
    if |bars| >= period {
      assert tr'[..|bars|] == tr[..|bars|];
      WilderIsCausal(tr, tr', period, |bars| - 1);
      WilderUnrolls(tr', period, |bars|);
      assert tr'[..period] == tr[..period];
    } else if |bars| + 1 == period {
      WilderSeed(tr', period);
      assert tr'[..period] == tr';
    } else {
      NotSeeded(tr', period, |bars|);
    }
  }

  lemma NotSeeded(tr: seq<real>, period: nat, i: nat)
    requires period >= 1 && i < |tr| && i + 1 < period
    ensures WilderAt(tr, period, i) == None
  {
  }

  // ---- MACD ----

  datatype MacdSt = MacdSt(fast: EmaSt, slow: EmaSt, signal: EmaSt)

  datatype MacdValue = MacdValue(macd: real, signal: Option<real>, hist: Option<real>)

  function MacdUpdate(fast: nat, slow: nat, signal: nat, st: MacdSt, close: real): (MacdSt, Option<MacdValue>)
    requires 1 <= fast < slow && signal >= 1
  {
    var (f, fastValue) := EmaUpdate(fast, st.fast, close);
    var (s, slowValue) := EmaUpdate(slow, st.slow, close);
    if fastValue.None? || slowValue.None? then (MacdSt(f, s, st.signal), None)
    else
      var macd := fastValue.value - slowValue.value;
      var (g, signalValue) := EmaUpdate(signal, st.signal, macd);
      (MacdSt(f, s, g), Some(MacdValue(macd, signalValue, Minus(Some(macd), signalValue))))
  }

  function MacdAfter(fast: nat, slow: nat, signal: nat, v: seq<real>): MacdSt
    requires 1 <= fast < slow && signal >= 1
  {
    MacdSt(EmaAfter(fast, v), EmaAfter(slow, v), EmaAfter(signal, DropNone(MacdLine(v, fast, slow))))
  }

  lemma MacdLineIsCausal(v: seq<real>, w: seq<real>, fast: nat, slow: nat, n: nat)
    requires 1 <= fast < slow && n <= |v| && n <= |w| && v[..n] == w[..n]
    ensures MacdLine(v, fast, slow)[..n] == MacdLine(w, fast, slow)[..n]
  {
    forall i | 0 <= i < n
      ensures MacdLineAt(v, fast, slow, i) == MacdLineAt(w, fast, slow, i)
    {
      assert v[..i+1] == v[..n][..i+1] && w[..i+1] == w[..n][..i+1];
      EmaIsCausal(v, w, fast, i);
      EmaIsCausal(v, w, slow, i);
    }
  }

  lemma MacdRefines(fast: nat, slow: nat, signal: nat, v: seq<real>, x: real)
    requires 1 <= fast < slow && signal >= 1
    ensures var w := v + [x];
      var (st, r) := MacdUpdate(fast, slow, signal, MacdAfter(fast, slow, signal, v), x);
      var line, sig := MacdLineAt(w, fast, slow, |v|), MacdSignalAt(w, fast, slow, signal, |v|);
      && st == MacdAfter(fast, slow, signal, w)
      && (r.None? <==> line.None?)
      && (r.None? ==> sig.None?)
      && (r.Some? ==> Some(r.value.macd) == line && r.value.signal == sig && r.value.hist == Minus(line, sig))
  {
    hide EmaUpdate, EmaAt, EmaAfter;
    var w := v + [x];
    EmaRefines(fast, v, x);
    EmaRefines(slow, v, x);
    var before, after := MacdLine(v, fast, slow), MacdLine(w, fast, slow);
    assert v[..|v|] == w[..|v|];
    MacdLineIsCausal(v, w, fast, slow, |v|);
    assert after[..|v|] == before[..|v|] == before;
    var line := MacdLineAt(w, fast, slow, |v|);
    assert after == before + [line];
    assert after[..|after|-1] == before;
    assert after[..|v|] == before;
    if line.Some? {
      EmaRefines(signal, DropNone(before), line.value);
      assert DropNone(after) == DropNone(before) + [line.value];
      assert MacdSignalAt(w, fast, slow, signal, |v|) == EmaAt(DropNone(after), signal, |DropNone(before)|);
    } else {
      assert DropNone(after) == DropNone(before);
      assert MacdSignalAt(w, fast, slow, signal, |v|) == None;
      var (st, r) := MacdUpdate(fast, slow, signal, MacdAfter(fast, slow, signal, v), x);
      assert st.fast == EmaAfter(fast, w);
      assert r.None?;
      assert st == MacdAfter(fast, slow, signal, w);
    }
  }

  /** The MACD line is valid exactly from the slow period on, so its signal starts there too. */
  lemma MacdValidFrom(v: seq<real>, fast: nat, slow: nat, signal: nat, i: nat)
    requires 1 <= fast < slow && signal >= 1 && i < |v|
    ensures MacdLineAt(v, fast, slow, i).Some? <==> i + 1 >= slow
    ensures MacdSignalAt(v, fast, slow, signal, i).Some? <==> i + 2 >= slow + signal
  {
    hide EmaAt;
    var line := MacdLine(v, fast, slow);
    DropNoneRank(line, i);
    ValidCount(v, fast, slow, i);
  }

  lemma {:induction false} ValidCount(v: seq<real>, fast: nat, slow: nat, n: nat)
    requires 1 <= fast < slow && n <= |v|
    ensures |DropNone(MacdLine(v, fast, slow)[..n])| == if n < slow then 0 else n - slow + 1
  {
    hide EmaAt;
    var line := MacdLine(v, fast, slow);
    if n > 0 {
      ValidCount(v, fast, slow, n - 1);
      assert line[..n][..n-1] == line[..n-1];
    }
  }
}
