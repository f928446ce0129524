/** Batch indicators: what each series holds at every bar, and the loops that fill it. None stands for NaN. */
module IndicatorsBatch {
  import opened Wrappers
  import opened Costs

  type Series = seq<Option<real>>

  function Sum(xs: seq<real>): real {
    if xs == [] then 0.0 else Sum(xs[..|xs|-1]) + xs[|xs|-1]
  }

  function Mean(xs: seq<real>): real
    requires xs != []
  {
    Sum(xs) / |xs| as real
  }

  function AbsReal(x: real): real { if x < 0.0 then -x else x }

  /** Population variance; the deviation itself goes through an uninterpreted square root. */
  function Variance(xs: seq<real>): real
    requires xs != []
  {
    var m := Mean(xs);
    Mean(seq(|xs|, i requires 0 <= i < |xs| => (xs[i] - m) * (xs[i] - m)))
  }

  // ---- Value of each indicator at bar i ----

  function SmaAt(v: seq<real>, period: nat, i: nat): Option<real>
    requires period >= 1 && i < |v|
  {
    if i + 1 < period then None else Some(Mean(v[i+1-period..i+1]))
  }

  function Alpha(period: nat): real { 2.0 / (period as real + 1.0) }

  function EmaStep(period: nat, previous: real, x: real): real {
    Alpha(period) * x + (1.0 - Alpha(period)) * previous
  }

  /** SMA of the first `period` values, then exponential smoothing. */
  function EmaAt(v: seq<real>, period: nat, i: nat): (r: Option<real>)
    requires period >= 1 && i < |v|
    ensures r.None? <==> i + 1 < period
  {
    if i + 1 < period then None
    else if i + 1 == period then Some(Mean(v[..period]))
    else Some(EmaStep(period, EmaAt(v, period, i - 1).value, v[i]))
  }

  function Gain(v: seq<real>, j: nat): real
    requires j + 1 < |v|
  {
    Max(v[j+1] - v[j], 0.0)
  }

  function Loss(v: seq<real>, j: nat): real
    requires j + 1 < |v|
  {
    Max(-(v[j+1] - v[j]), 0.0)
  }

  function Gains(v: seq<real>, n: nat): (r: seq<real>)
    requires n < |v| || n == 0
    ensures |r| == n
  {
    seq(n, j requires 0 <= j < n => Gain(v, j))
  }

  function Losses(v: seq<real>, n: nat): (r: seq<real>)
    requires n < |v| || n == 0
    ensures |r| == n
  {
    seq(n, j requires 0 <= j < n => Loss(v, j))
  }

  function WilderStep(period: nat, previous: real, x: real): real
    requires period >= 1
  {
    (previous * (period - 1) as real + x) / period as real
  }

  lemma {:induction false} MeanNonNegative(xs: seq<real>)
    requires xs != [] && forall k :: 0 <= k < |xs| ==> xs[k] >= 0.0
    ensures Sum(xs) >= 0.0 && Mean(xs) >= 0.0
  {
    if |xs| > 1 { MeanNonNegative(xs[..|xs|-1]); }
  }

  lemma SeedNonNegative(v: seq<real>, period: nat)
    requires 1 <= period < |v|
    ensures Mean(Gains(v, period)) >= 0.0 && Mean(Losses(v, period)) >= 0.0
  {
    MeanNonNegative(Gains(v, period));
    MeanNonNegative(Losses(v, period));
  }

  lemma StepNonNegative(period: nat, previous: real, x: real)
    requires period >= 1 && previous >= 0.0 && x >= 0.0
    ensures WilderStep(period, previous, x) >= 0.0
  {
    MulNonNegative(previous, (period - 1) as real);
  }

  /** Wilder averages of gains and losses up to bar i. */
  function WilderAvg(v: seq<real>, period: nat, i: nat): (r: (real, real))
    requires period >= 1 && period <= i < |v|
    ensures r.0 >= 0.0 && r.1 >= 0.0
  {
    hide WilderStep, Mean, Gains, Losses;
    SeedNonNegative(v, period);
    if i == period then (Mean(Gains(v, period)), Mean(Losses(v, period)))
    else
      var (g, l) := WilderAvg(v, period, i - 1);
      StepNonNegative(period, g, Gain(v, i - 1)); StepNonNegative(period, l, Loss(v, i - 1));
      (WilderStep(period, g, Gain(v, i - 1)), WilderStep(period, l, Loss(v, i - 1)))
  }

  function RsiValue(avgGain: real, avgLoss: real): real
    requires avgGain >= 0.0 && avgLoss >= 0.0
  {
    if avgLoss == 0.0 then (if avgGain > 0.0 then 100.0 else 50.0)
    else 100.0 - 100.0 / (1.0 + avgGain / avgLoss)
  }

  lemma WilderAvgSeed(v: seq<real>, period: nat)
    requires 1 <= period < |v|
    ensures WilderAvg(v, period, period) == (Mean(Gains(v, period)), Mean(Losses(v, period)))
  {
  }

  lemma WilderAvgUnrolls(v: seq<real>, period: nat, i: nat)
    requires period >= 1 && period < i < |v|
    ensures WilderAvg(v, period, i)
         == (WilderStep(period, WilderAvg(v, period, i - 1).0, Gain(v, i - 1)),
             WilderStep(period, WilderAvg(v, period, i - 1).1, Loss(v, i - 1)))
  {
  }

  function RsiAt(v: seq<real>, period: nat, i: nat): Option<real>
    requires period >= 1 && i < |v|
  {
    if i < period then None
    else
      var (g, l) := WilderAvg(v, period, i);
      Some(RsiValue(g, l))
  }

  /** What the indicators use of a candle; `day` is the trading day it belongs to. */
  datatype Bar = Bar(high: real, low: real, close: real, volume: int, day: int)

  function TrueRangeAt(bars: seq<Bar>, i: nat): real
    requires i < |bars|
  {
    if i == 0 then bars[0].high - bars[0].low
    else TrueRange(bars[i].high, bars[i].low, bars[i-1].close)
  }

  function TrueRange(high: real, low: real, prevClose: real): real {
    Max(Max(high - low, AbsReal(high - prevClose)), AbsReal(low - prevClose))
  }

  function TrueRanges(bars: seq<Bar>): (r: seq<real>)
    ensures |r| == |bars|
  {
    seq(|bars|, i requires 0 <= i < |bars| => TrueRangeAt(bars, i))
  }

  /** Wilder smoothing of a series, seeded with the mean of its first `period` values. */
  function WilderAt(tr: seq<real>, period: nat, i: nat): (r: Option<real>)
    requires period >= 1 && i < |tr|
    ensures r.None? <==> i + 1 < period
  {
    if i + 1 < period then None
    else if i + 1 == period then Some(Mean(tr[..period]))
    else Some(WilderStep(period, WilderAt(tr, period, i - 1).value, tr[i]))
  }

  lemma WilderSeed(tr: seq<real>, period: nat)
    requires 1 <= period <= |tr|
    ensures WilderAt(tr, period, period - 1) == Some(Mean(tr[..period]))
  {
  }

  lemma WilderUnrolls(tr: seq<real>, period: nat, i: nat)
    requires 1 <= period <= i < |tr|
    ensures WilderAt(tr, period, i) == Some(WilderStep(period, WilderAt(tr, period, i - 1).value, tr[i]))
  {
  }

  function AtrAt(bars: seq<Bar>, period: nat, i: nat): Option<real>
    requires period >= 1 && i < |bars|
  {
    WilderAt(TrueRanges(bars), period, i)
  }

  // ---- Volume and trend ----

  function Typical(b: Bar): real { (b.high + b.low + b.close) / 3.0 }

  /** Volume, and typical price times volume, of one day's bars among the first `n`. */
  function DayVolume(bars: seq<Bar>, n: nat, day: int): int
    requires n <= |bars|
  {
    if n == 0 then 0 else DayVolume(bars, n - 1, day) + (if bars[n-1].day == day then bars[n-1].volume else 0)
  }

  function DayTurnover(bars: seq<Bar>, n: nat, day: int): real
    requires n <= |bars|
  {
    if n == 0 then 0.0
    else
      DayTurnover(bars, n - 1, day)
      + (if bars[n-1].day == day then Worth(Typical(bars[n-1]), bars[n-1].volume) else 0.0)
  }

  /** The day's volume-weighted average price so far; undefined while nothing was traded. */
  function VwapAt(bars: seq<Bar>, i: nat): Option<real>
    requires i < |bars|
  {
    var volume := DayVolume(bars, i + 1, bars[i].day);
    if volume == 0 then None else Some(DayTurnover(bars, i + 1, bars[i].day) / volume as real)
  }

  function Sign(x: real): int { if x > 0.0 then 1 else if x < 0.0 then -1 else 0 }

  /** Volume of rising bars less that of falling ones. */
  function ObvAt(bars: seq<Bar>, i: nat): int
    requires i < |bars|
  {
    if i == 0 then 0 else ObvAt(bars, i - 1) + Sign(bars[i].close - bars[i-1].close) * bars[i].volume
  }

  /** The two final bands and which side of them the trend is on: 1 above the lower, -1 below the upper. */
  datatype Trend = Trend(upper: real, lower: real, direction: int)

  function Mid(b: Bar): real { (b.high + b.low) / 2.0 }

  function UpperBasic(bars: seq<Bar>, period: nat, multiplier: real, i: nat): real
    requires 1 <= period <= i + 1 <= |bars|
  {
    Mid(bars[i]) + multiplier * AtrAt(bars, period, i).value
  }

  function LowerBasic(bars: seq<Bar>, period: nat, multiplier: real, i: nat): real
    requires 1 <= period <= i + 1 <= |bars|
  {
    Mid(bars[i]) - multiplier * AtrAt(bars, period, i).value
  }

  /** A band only tightens, unless the last close was beyond it; the trend turns when a close crosses its band. */
  function NextTrend(t: Trend, upperBasic: real, lowerBasic: real, prevClose: real, close: real): Trend {
    var upper := if prevClose <= t.upper then Min(upperBasic, t.upper) else upperBasic;
    var lower := if prevClose >= t.lower then Max(lowerBasic, t.lower) else lowerBasic;
    var direction := if t.direction == -1 then (if close > upper then 1 else -1) else (if close < lower then -1 else 1);
    Trend(upper, lower, direction)
  }

  function TrendAt(bars: seq<Bar>, period: nat, multiplier: real, i: nat): (t: Trend)
    requires 1 <= period <= i + 1 <= |bars|
    ensures t.direction == 1 || t.direction == -1
  {
    var upper, lower := UpperBasic(bars, period, multiplier, i), LowerBasic(bars, period, multiplier, i);
    if i == period - 1 then Trend(upper, lower, if bars[i].close > Mid(bars[i]) then 1 else -1)
    else NextTrend(TrendAt(bars, period, multiplier, i - 1), upper, lower, bars[i-1].close, bars[i].close)
  }

  /** The band the trend rests on, and its direction, which is 0 during the warm-up. */
  function SupertrendAt(bars: seq<Bar>, period: nat, multiplier: real, i: nat): (Option<real>, int)
    requires period >= 1 && i < |bars|
  {
    if i + 1 < period then (None, 0)
    else
      var t := TrendAt(bars, period, multiplier, i);
      (Some(if t.direction == 1 then t.lower else t.upper), t.direction)
  }

  function Minus(a: Option<real>, b: Option<real>): Option<real> {
    if a.None? || b.None? then None else Some(a.value - b.value)
  }

  function MacdLineAt(v: seq<real>, fast: nat, slow: nat, i: nat): Option<real>
    requires 1 <= fast < slow && i < |v|
  {
    Minus(EmaAt(v, fast, i), EmaAt(v, slow, i))
  }

  function MacdLine(v: seq<real>, fast: nat, slow: nat): Series
    requires 1 <= fast < slow
  {
    seq(|v|, i requires 0 <= i < |v| => MacdLineAt(v, fast, slow, i))
  }

  /** The values of a series that are not NaN, in order. */
  function DropNone(s: Series): seq<real> {
    if s == [] then []
    else DropNone(s[..|s|-1]) + (if s[|s|-1].Some? then [s[|s|-1].value] else [])
  }

  /** An EMA over the valid MACD values only, written back at the bars those values came from. */
  function MacdSignalAt(v: seq<real>, fast: nat, slow: nat, signal: nat, i: nat): Option<real>
    requires 1 <= fast < slow && signal >= 1 && i < |v|
  {
    var line := MacdLine(v, fast, slow);
    var rank := |DropNone(line[..i])|;
    DropNoneRank(line, i);
    if line[i].None? then None else EmaAt(DropNone(line), signal, rank)
  }

  /** The i-th entry, when valid, is the valid value whose rank is the number of valid entries before it. */
  lemma {:induction false} DropNoneRank(s: Series, i: nat)
    requires i < |s|
    ensures s[i].Some? ==> |DropNone(s[..i])| < |DropNone(s)| && DropNone(s)[|DropNone(s[..i])|] == s[i].value
    decreases |s|
  {
    if i < |s| - 1 {
      assert s[..|s|-1][..i] == s[..i];
      DropNoneRank(s[..|s|-1], i);
    }
  }

  function BollingerAt(v: seq<real>, period: nat, numStd: real, sqrt: real -> real, i: nat): Option<(real, real, real)>
    requires period >= 2 && i < |v|
  {
    if i + 1 < period then None
    else Some(Bands(v[i+1-period..i+1], numStd, sqrt))
  }

  /** Middle, upper and lower band of one window. */
  function Bands(w: seq<real>, numStd: real, sqrt: real -> real): (real, real, real)
    requires w != []
  {
    var middle := Mean(w);
    var band := numStd * sqrt(Variance(w));
    (middle, middle + band, middle - band)
  }

  // ---- The array-filling loops ----

  /** The first `n` bars hold their EMA; the rest are still NaN. */
  ghost predicate EmaFilled(a: Series, v: seq<real>, period: nat, n: nat)
    requires period >= 1
  {
    |a| == |v| && forall j :: 0 <= j < |v| ==> a[j] == if j < n then EmaAt(v, period, j) else None
  }

  lemma EmaFillSeed(a: Series, v: seq<real>, period: nat)
    requires period >= 1 && |a| == |v| && forall j :: 0 <= j < |v| ==> a[j] == None
    ensures |v| < period ==> EmaFilled(a, v, period, |v|)
    ensures |v| >= period ==> EmaFilled(a[period - 1 := Some(Mean(v[..period]))], v, period, period)
  {
  }

  lemma EmaFillNext(a: Series, v: seq<real>, period: nat, i: nat)
    requires 1 <= period <= i < |v| && EmaFilled(a, v, period, i)
    ensures |a| == |v| && a[i-1].Some? && EmaFilled(a[i := Some(EmaStep(period, a[i-1].value, v[i]))], v, period, i + 1)
  {
  }

  lemma EmaFilledAll(a: Series, v: seq<real>, period: nat)
    requires period >= 1 && EmaFilled(a, v, period, |v|)
    ensures forall i :: 0 <= i < |v| ==> a[i] == EmaAt(v, period, i)
  {
  }

  method Ema(values: seq<real>, period: int) returns (out: Result<array<Option<real>>>)
    ensures out.Err? <==> period < 1
    ensures out.Ok? ==> fresh(out.value) && out.value.Length == |values|
    ensures out.Ok? ==> forall i :: 0 <= i < |values| ==> out.value[i] == EmaAt(values, period, i)
  {
    if period < 1 { return Err(ValueError); }
    hide EmaAt, EmaStep, Mean, EmaFilled;
    var a := new Option<real>[|values|](_ => None);
    EmaFillSeed(a[..], values, period);
    if |values| >= period {
      a[period-1] := Some(Mean(values[..period]));
      for i := period to |values|
        invariant EmaFilled(a[..], values, period, i)
      {
        EmaFillNext(a[..], values, period, i);
        a[i] := Some(EmaStep(period, a[i-1].value, values[i]));
      }
    }
    out := Ok(a);
    EmaFilledAll(a[..], values, period);
  }

  method Rsi(values: seq<real>, period: int) returns (out: Result<array<Option<real>>>)
    ensures out.Err? <==> period < 1
    ensures out.Ok? ==> fresh(out.value) && out.value.Length == |values|
    ensures out.Ok? ==> forall i :: 0 <= i < |values| ==> out.value[i] == RsiAt(values, period, i)
  {
    if period < 1 { return Err(ValueError); }
    hide WilderStep, WilderAvg, Mean, Gains, Losses, Gain, Loss, RsiValue;
    var n := |values|;
    var a := new Option<real>[n](_ => None);
    if n >= period + 1 {
      var avgGain, avgLoss := Mean(Gains(values, period)), Mean(Losses(values, period));
      WilderAvgSeed(values, period);
      a[period] := Some(RsiValue(avgGain, avgLoss));
      for i := period + 1 to n
        invariant (avgGain, avgLoss) == WilderAvg(values, period, i - 1)
        invariant forall j :: 0 <= j < i ==> a[j] == RsiAt(values, period, j)
      {
        WilderAvgUnrolls(values, period, i);
        avgGain := WilderStep(period, avgGain, Gain(values, i - 1));
        avgLoss := WilderStep(period, avgLoss, Loss(values, i - 1));
        a[i] := Some(RsiValue(avgGain, avgLoss));
      }
    }
    out := Ok(a);
  }

  /** The first `n` bars hold their smoothed value; the rest are still NaN. */
  ghost predicate WilderFilled(a: Series, tr: seq<real>, period: nat, n: nat)
    requires period >= 1
  {
    |a| == |tr| && forall j :: 0 <= j < |tr| ==> a[j] == if j < n then WilderAt(tr, period, j) else None
  }

  lemma WilderFillSeed(a: Series, tr: seq<real>, period: nat)
    requires period >= 1 && |a| == |tr| && forall j :: 0 <= j < |tr| ==> a[j] == None
    ensures |tr| < period ==> WilderFilled(a, tr, period, |tr|)
    ensures |tr| >= period ==> WilderFilled(a[period - 1 := Some(Mean(tr[..period]))], tr, period, period)
  {
  }

  lemma WilderFillNext(a: Series, tr: seq<real>, period: nat, i: nat)
    requires 1 <= period <= i < |tr| && WilderFilled(a, tr, period, i)
    ensures |a| == |tr| && a[i-1].Some?
    ensures WilderFilled(a[i := Some(WilderStep(period, a[i-1].value, tr[i]))], tr, period, i + 1)
  {
  }

  lemma WilderFilledAll(a: Series, bars: seq<Bar>, period: nat)
    requires period >= 1 && WilderFilled(a, TrueRanges(bars), period, |bars|)
    ensures forall i :: 0 <= i < |bars| ==> a[i] == AtrAt(bars, period, i)
  {
  }

  method Atr(bars: seq<Bar>, period: int) returns (out: Result<array<Option<real>>>)
    ensures out.Err? <==> period < 1
    ensures out.Ok? ==> fresh(out.value) && out.value.Length == |bars|
    ensures out.Ok? ==> forall i :: 0 <= i < |bars| ==> out.value[i] == AtrAt(bars, period, i)
  {
    if period < 1 { return Err(ValueError); }
    hide WilderStep, WilderFilled, Mean, TrueRanges, AtrAt;
    var tr := TrueRanges(bars);
    var n := |tr|;
    var a := new Option<real>[n](_ => None);
    WilderFillSeed(a[..], tr, period);
    if n >= period {
      a[period-1] := Some(Mean(tr[..period]));
      for i := period to n
        invariant WilderFilled(a[..], tr, period, i)
      {
        WilderFillNext(a[..], tr, period, i);
        a[i] := Some(WilderStep(period, a[i-1].value, tr[i]));
      }
    }
    out := Ok(a);
    WilderFilledAll(a[..], bars, period);
  }

  /** The first `n` bars hold the Supertrend and its direction. */
  ghost predicate TrendFilled(st: seq<Option<real>>, direction: seq<int>, bars: seq<Bar>, period: nat, multiplier: real,
                              n: nat)
    requires period >= 1
  {
    && |st| == |direction| == |bars| && n <= |bars|
    && (forall i :: 0 <= i < n ==> (st[i], direction[i]) == SupertrendAt(bars, period, multiplier, i))
    && (forall i :: n <= i < |bars| ==> st[i] == None && direction[i] == 0)
  }

  lemma TrendWarmup(bars: seq<Bar>, period: nat, multiplier: real, st: seq<Option<real>>, direction: seq<int>)
    requires period >= 1 && |st| == |direction| == |bars|
    requires forall i :: 0 <= i < |bars| ==> st[i] == None && direction[i] == 0
    ensures TrendFilled(st, direction, bars, period, multiplier, if |bars| < period then |bars| else period - 1)
  {
    hide TrendAt;
  }

  lemma TrendFillNext(st: seq<Option<real>>, direction: seq<int>, bars: seq<Bar>, period: nat, multiplier: real, i: nat)
    requires 1 <= period <= i + 1 <= |bars| && TrendFilled(st, direction, bars, period, multiplier, i)
    ensures var (v, d) := SupertrendAt(bars, period, multiplier, i);
      TrendFilled(st[i := v], direction[i := d], bars, period, multiplier, i + 1)
  {
    hide SupertrendAt;
  }

  lemma TrendDirections(st: seq<Option<real>>, direction: seq<int>, bars: seq<Bar>, period: nat, multiplier: real,
                        i: nat)
    requires 1 <= period <= i < |bars| && TrendFilled(st, direction, bars, period, multiplier, i)
    ensures direction[i-1] == TrendAt(bars, period, multiplier, i - 1).direction
  {
    hide TrendAt;
    assert (st[i-1], direction[i-1]) == SupertrendAt(bars, period, multiplier, i - 1);
  }

  lemma TrendUnrolls(bars: seq<Bar>, period: nat, multiplier: real, i: nat)
    requires 1 <= period <= i < |bars|
    ensures TrendAt(bars, period, multiplier, i)
         == NextTrend(TrendAt(bars, period, multiplier, i - 1), UpperBasic(bars, period, multiplier, i),
                      LowerBasic(bars, period, multiplier, i), bars[i-1].close, bars[i].close)
  {
    hide NextTrend, UpperBasic, LowerBasic;
  }

  /** The two final bands are carried from bar to bar; the direction is read back from the array. */
  method Supertrend(bars: seq<Bar>, period: int, multiplier: real)
    returns (out: Result<(array<Option<real>>, array<int>)>)
    ensures out.Err? <==> period < 1
    ensures out.Ok? ==> fresh(out.value.0) && fresh(out.value.1)
    ensures out.Ok? ==> TrendFilled(out.value.0[..], out.value.1[..], bars, period, multiplier, |bars|)
  {
    hide AtrAt, NextTrend, TrendAt, SupertrendAt, TrendFilled, Mid, UpperBasic, LowerBasic;
    var atr := Atr(bars, period);
    if atr.Err? { return Err(atr.error); }
    var values, n, start := atr.value, |bars|, period - 1;
    var st := new Option<real>[n](_ => None);
    var direction := new int[n](_ => 0);
    TrendWarmup(bars, period, multiplier, st[..], direction[..]);
    if n > start {
      BasicBands(bars, period, multiplier, start);
      FirstTrend(bars, period, multiplier);
      TrendFillNext(st[..], direction[..], bars, period, multiplier, start);
      ghost var s0, d0 := st[..], direction[..];
      var finalUpper := Mid(bars[start]) + multiplier * values[start].value;
      var finalLower := Mid(bars[start]) - multiplier * values[start].value;
      assert finalUpper == UpperBasic(bars, period, multiplier, start);
      assert finalLower == LowerBasic(bars, period, multiplier, start);
      direction[start] := if bars[start].close > Mid(bars[start]) then 1 else -1;
      st[start] := if direction[start] == 1 then Some(finalLower) else Some(finalUpper);
      assert (st[start], direction[start]) == SupertrendAt(bars, period, multiplier, start);
      assert st[..] == s0[start := st[start]] && direction[..] == d0[start := direction[start]];
      for i := period to n
        invariant forall j :: 0 <= j < n ==> values[j] == AtrAt(bars, period, j)
        invariant TrendFilled(st[..], direction[..], bars, period, multiplier, i)
        invariant var t := TrendAt(bars, period, multiplier, i - 1); finalUpper == t.upper && finalLower == t.lower
      {
        BasicBands(bars, period, multiplier, i);
        TrendUnrolls(bars, period, multiplier, i);
        TrendDirections(st[..], direction[..], bars, period, multiplier, i);
        ShownTrend(bars, period, multiplier, i);
        TrendFillNext(st[..], direction[..], bars, period, multiplier, i);
        s0, d0 := st[..], direction[..];
        var upperBasic := Mid(bars[i]) + multiplier * values[i].value;
        var lowerBasic := Mid(bars[i]) - multiplier * values[i].value;
        var t := NextTrend(Trend(finalUpper, finalLower, direction[i-1]), upperBasic, lowerBasic, bars[i-1].close,
                           bars[i].close);
        assert upperBasic == UpperBasic(bars, period, multiplier, i);
        assert Trend(finalUpper, finalLower, direction[i-1]) == TrendAt(bars, period, multiplier, i - 1);
        finalUpper, finalLower, direction[i] := t.upper, t.lower, t.direction;
        st[i] := if direction[i] == 1 then Some(finalLower) else Some(finalUpper);
        assert st[..] == s0[i := st[i]] && direction[..] == d0[i := direction[i]];
      }
    }
    out := Ok((st, direction));
  }

  lemma BasicBands(bars: seq<Bar>, period: nat, multiplier: real, i: nat)
    requires 1 <= period <= i + 1 <= |bars|
    ensures AtrAt(bars, period, i).Some?
    ensures UpperBasic(bars, period, multiplier, i) == Mid(bars[i]) + multiplier * AtrAt(bars, period, i).value
    ensures LowerBasic(bars, period, multiplier, i) == Mid(bars[i]) - multiplier * AtrAt(bars, period, i).value
  {
    hide WilderAt;
  }

  lemma ShownTrend(bars: seq<Bar>, period: nat, multiplier: real, i: nat)
    requires 1 <= period <= i + 1 <= |bars|
    ensures var t := TrendAt(bars, period, multiplier, i);
      SupertrendAt(bars, period, multiplier, i) == (Some(if t.direction == 1 then t.lower else t.upper), t.direction)
  {
    hide TrendAt;
  }

  lemma FirstTrend(bars: seq<Bar>, period: nat, multiplier: real)
    requires 1 <= period <= |bars|
    ensures var t := TrendAt(bars, period, multiplier, period - 1);
      && t == Trend(UpperBasic(bars, period, multiplier, period - 1), LowerBasic(bars, period, multiplier, period - 1),
                    if bars[period-1].close > Mid(bars[period-1]) then 1 else -1)
      && SupertrendAt(bars, period, multiplier, period - 1)
           == (Some(if t.direction == 1 then t.lower else t.upper), t.direction)
  {
    hide UpperBasic, LowerBasic, Mid;
  }
}
