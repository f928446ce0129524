/** What the range, band, volume and trend indicators say about the bars. */
module RangeLaws {
  import opened Wrappers
  import opened Costs
  import opened IndicatorsBatch
  import opened IndicatorLaws
  import opened IndicatorViews
  import opened Strategies

  // ---- True range ----

  /** For a bar whose low is not above its high: the length of the shortest interval with the bar and the last close. */
  lemma TrueRangeIsSpan(high: real, low: real, prevClose: real)
    requires low <= high
    ensures TrueRange(high, low, prevClose) == Max(high, prevClose) - Min(low, prevClose)
  {
  }

  ghost predicate Proper(bars: seq<Bar>) { forall i :: 0 <= i < |bars| ==> bars[i].low <= bars[i].high }

  /** The range of the bar, or of the gap before it if the last close lies outside. */
  lemma TrueRangesSpan(bars: seq<Bar>, i: nat)
    requires Proper(bars) && i < |bars|
    ensures TrueRanges(bars)[i]
         == if i == 0 then bars[0].high - bars[0].low
            else Max(bars[i].high, bars[i-1].close) - Min(bars[i].low, bars[i-1].close)
    ensures bars[i].high - bars[i].low <= TrueRanges(bars)[i]
  {
  }

  /** The first average true range is the mean of the first `period` ranges; afterwards each moves it by a period-th. */
  lemma AtrMoves(bars: seq<Bar>, period: nat, i: nat)
    requires 1 <= period <= i + 1 <= |bars|
    ensures AtrAt(bars, period, i).Some?
    ensures i + 1 == period ==> AtrAt(bars, period, i).value * period as real == Sum(TrueRanges(bars)[..period])
    ensures i >= period ==>
      && AtrAt(bars, period, i - 1).Some?
      && (AtrAt(bars, period, i).value - AtrAt(bars, period, i - 1).value) * period as real
           == TrueRanges(bars)[i] - AtrAt(bars, period, i - 1).value
  {
    hide Sum, Mean, WilderStep;
    var tr := TrueRanges(bars);
    if i + 1 == period {
      SumIsMeanTimes(tr[..period]);
    } else {
      WilderUnrolls(tr, period, i);
      WilderMoves(period, WilderAt(tr, period, i - 1).value, tr[i]);
    }
  }

  lemma WilderMoves(period: nat, previous: real, x: real)
    requires period >= 1
    ensures (WilderStep(period, previous, x) - previous) * period as real == x - previous
  {
    var p := period as real;
    Quotient(previous * (p - 1.0) + x, p);
  }

  /** The average true range stays between the smallest and the largest range seen. */
  lemma {:induction false} WilderWithin(tr: seq<real>, period: nat, i: nat, lo: real, hi: real)
    requires 1 <= period <= i + 1 <= |tr| && Within(tr, lo, hi)
    ensures WilderAt(tr, period, i).Some? && lo <= WilderAt(tr, period, i).value <= hi
  {
    hide Mean, WilderStep;
    if i + 1 == period {
      MeanWithin(tr[..period], lo, hi);
    } else {
      WilderWithin(tr, period, i - 1, lo, hi);
      WilderStepWithin(period, WilderAt(tr, period, i - 1).value, tr[i], lo, hi);
    }
  }

  lemma WilderStepWithin(period: nat, previous: real, x: real, lo: real, hi: real)
    requires period >= 1 && lo <= previous <= hi && lo <= x <= hi
    ensures lo <= WilderStep(period, previous, x) <= hi
  {
    hide WilderStep, EmaStep;
    WilderIsSlowEma(period, previous, x);
    StepWithin(2 * period - 1, previous, x, lo, hi);
  }

  lemma AtrWithin(bars: seq<Bar>, period: nat, i: nat, lo: real, hi: real)
    requires 1 <= period <= i + 1 <= |bars| && Within(TrueRanges(bars), lo, hi)
    ensures AtrAt(bars, period, i).Some? && lo <= AtrAt(bars, period, i).value <= hi
  {
    WilderWithin(TrueRanges(bars), period, i, lo, hi);
  }

  ghost predicate FirstOfDay(candles: seq<Candle>, i: nat)
    requires i < |candles|
  {
    forall j :: 0 <= j < i ==> TradingDay(candles[j].ts) != TradingDay(candles[i].ts)
  }

  /**
   * What the columns read of a candle: its own range and the last candle's close, and, on the first candle of a
   * trading day, its high, low and close for a volume-weighted price. Averages are over closes.
   */
  lemma CandlesAreRead(candles: seq<Candle>, i: nat)
    requires i < |candles|
    ensures TrueRanges(BarsOf(candles))[i]
         == if i == 0 then candles[0].high - candles[0].low
            else TrueRange(candles[i].high, candles[i].low, candles[i-1].close)
    ensures ColumnsAt(SMA(1), BarsOf(candles), i) == [Some(candles[i].close)]
    ensures candles[i].volume > 0 && FirstOfDay(candles, i) ==>
      VwapAt(BarsOf(candles), i) == Some((candles[i].high + candles[i].low + candles[i].close) / 3.0)
  {
    hide TrueRange, VwapAt, TradingDay;
    SumIsMeanTimes([candles[i].close]);
    assert Closes(BarsOf(candles))[i..i+1] == [candles[i].close];
    if candles[i].volume > 0 && FirstOfDay(candles, i) {
      FirstVwapOfDay(BarsOf(candles), i);
    }
  }

  // ---- MACD ----

  /** On a steady move the line is the move times the difference of the lags, from the first bar it is valid. */
  lemma MacdOfLine(n: nat, from: real, slope: real, fast: nat, slow: nat, i: nat)
    requires 1 <= fast < slow <= i + 1 <= n
    ensures MacdLineAt(Line(n, from, slope), fast, slow, i) == Some(slope * (Lag(slow) - Lag(fast)))
  {
    hide EmaAt, Line;
    EmaOfLine(n, from, slope, fast, i);
    EmaOfLine(n, from, slope, slow, i);
  }

  lemma {:induction false} DropConstant(s: Series, from: nat, c: real)
    requires forall i :: 0 <= i < |s| ==> s[i] == if i < from then None else Some(c)
    ensures DropNone(s) == Line(if |s| < from then 0 else |s| - from, c, 0.0)
  {
    if s != [] {
      var n := |s| - 1;
      DropConstant(s[..n], from, c);
      assert LineAt(c, 0.0, (n - from) as real) == c;
    }
  }

  /** The signal follows it there, so the histogram of a steady move is zero. */
  lemma MacdSettles(n: nat, from: real, slope: real, fast: nat, slow: nat, signal: nat, i: nat)
    requires 1 <= fast < slow && signal >= 1 && slow + signal - 1 <= i + 1 <= n
    ensures MacdSignalAt(Line(n, from, slope), fast, slow, signal, i) == Some(slope * (Lag(slow) - Lag(fast)))
    ensures Minus(MacdLineAt(Line(n, from, slope), fast, slow, i),
                  MacdSignalAt(Line(n, from, slope), fast, slow, signal, i)) == Some(0.0)
  {
    hide EmaAt, Line, Lag;
    var v, c := Line(n, from, slope), slope * (Lag(slow) - Lag(fast));
    var line := MacdLine(v, fast, slow);
    forall j | 0 <= j < n ensures line[j] == if j < slow - 1 then None else Some(c) {
      if j >= slow - 1 { MacdOfLine(n, from, slope, fast, slow, j); } else { TooEarly(v, slow, j); }
    }
    DropConstant(line, slow - 1, c);
    DropConstant(line[..i], slow - 1, c);
    var count := n - (slow - 1);
    EmaOfLine(count, c, 0.0, signal, i - (slow - 1));
    assert LineAt(c, 0.0, (i - (slow - 1)) as real - Lag(signal)) == c;
  }

  lemma TooEarly(v: seq<real>, period: nat, i: nat)
    requires i < |v| && i + 1 < period
    ensures EmaAt(v, period, i) == None
  {
  }

  /** Shifting all prices leaves the line alone; scaling them scales it. */
  lemma MacdAffine(v: seq<real>, k: real, d: real, fast: nat, slow: nat, i: nat)
    requires 1 <= fast < slow <= i + 1 <= |v|
    ensures MacdLineAt(v, fast, slow, i).Some?
    ensures MacdLineAt(Affine(v, k, d), fast, slow, i) == Some(Moved(MacdLineAt(v, fast, slow, i).value, k, 0.0))
  {
    hide EmaAt, Affine, Moved;
    EmaAffine(v, k, d, fast, i);
    EmaAffine(v, k, d, slow, i);
    DifferenceMoves(EmaAt(v, fast, i).value, EmaAt(v, slow, i).value, k, d);
  }

  lemma DifferenceMoves(a: real, b: real, k: real, d: real)
    ensures Moved(a, k, d) - Moved(b, k, d) == Moved(a - b, k, 0.0)
  {
  }

  // ---- Bollinger bands ----

  function Square(x: real): real { x * x }

  function Squares(v: seq<real>): (r: seq<real>)
    ensures |r| == |v| && forall i :: 0 <= i < |v| ==> r[i] == Square(v[i])
  {
    seq(|v|, i requires 0 <= i < |v| => Square(v[i]))
  }

  function SquaresAround(v: seq<real>, m: real): (r: seq<real>)
    ensures |r| == |v| && forall i :: 0 <= i < |v| ==> r[i] == Square(v[i] - m)
  {
    seq(|v|, i requires 0 <= i < |v| => Square(v[i] - m))
  }

  /** What the squares around `m` add up to, given the plain sums. */
  function AroundSum(squares: real, sum: real, n: real, m: real): real { squares - 2.0 * m * sum + n * (m * m) }

  lemma {:induction false} SumAround(v: seq<real>, m: real)
    ensures Sum(SquaresAround(v, m)) == AroundSum(Sum(Squares(v)), Sum(v), |v| as real, m)
  {
    hide Square, AroundSum;
    if v == [] {
      assert SquaresAround(v, m) == [] && Squares(v) == [];
      NothingAround(m);
    } else {
      var n := |v| - 1;
      assert SquaresAround(v, m)[..n] == SquaresAround(v[..n], m) && Squares(v)[..n] == Squares(v[..n]);
      SumAround(v[..n], m);
      AroundArithmetic(Sum(Squares(v[..n])), Sum(v[..n]), v[n], m, n as real);
    }
  }

  lemma NothingAround(m: real)
    ensures AroundSum(0.0, 0.0, 0.0, m) == 0.0
  {
  }

  lemma AroundArithmetic(q: real, s: real, x: real, m: real, n: real)
    ensures AroundSum(q, s, n, m) + Square(x - m) == AroundSum(q + Square(x), s + x, n + 1.0, m)
  {
  }

  /** The variance is the mean of the squares less the square of the mean, over the whole window. */
  lemma VarianceIs(v: seq<real>)
    requires v != []
    ensures Variance(v) == Mean(Squares(v)) - Square(Mean(v))
    ensures Variance(v) >= 0.0
    ensures Variance(v) == 0.0 <==> forall i :: 0 <= i < |v| ==> v[i] == Mean(v)
  {
    hide Sum, Mean, Square, AroundSum;
    var m, n, around := Mean(v), |v| as real, SquaresAround(v, Mean(v));
    VarianceIsMeanAround(v);
    SumAround(v, m);
    SumIsMeanTimes(around);
    SumIsMeanTimes(Squares(v));
    SumIsMeanTimes(v);
    var q := Mean(Squares(v));
    assert q * n == Sum(Squares(v)) && m * n == Sum(v);
    assert Mean(around) * n == Sum(around);
    SolveVariance(Mean(around), q, m, n);
    forall i | 0 <= i < |v| ensures around[i] >= 0.0 && (around[i] == 0.0 <==> v[i] == m) {
      SquareZeroIff(v[i] - m);
    }
    MeanZeroIff(around);
    MeanNonNegative(around);
  }

  lemma VarianceIsMeanAround(v: seq<real>)
    requires v != []
    ensures Variance(v) == Mean(SquaresAround(v, Mean(v)))
  {
    hide Mean;
    var m := Mean(v);
    assert seq(|v|, i requires 0 <= i < |v| => (v[i] - m) * (v[i] - m)) == SquaresAround(v, m);
  }

  lemma SolveVariance(variance: real, q: real, m: real, n: real)
    requires n > 0.0 && variance * n == AroundSum(q * n, m * n, n, m)
    ensures variance == q - Square(m)
  {
    assert variance * n == (q - m * m) * n;
  }

  lemma SquareZeroIff(x: real)
    ensures Square(x) >= 0.0 && (Square(x) == 0.0 <==> x == 0.0)
  {
    hide Square;
    SquareOfPart(x);
    SquareOfPart(-x);
    SquareEven(x);
  }

  lemma SquareOfPart(x: real)
    ensures x > 0.0 ==> Square(x) > 0.0
    ensures x == 0.0 ==> Square(x) == 0.0
  {
    if x > 0.0 { PositiveProduct(x, x, Square(x)); }
  }

  lemma PositiveProduct(a: real, b: real, p: real)
    requires a > 0.0 && b > 0.0 && p == a * b
    ensures p > 0.0
  {
  }

  lemma SquareEven(x: real)
    ensures Square(-x) == Square(x)
  {
  }

  /** What a square root must do; which one is used does not matter. */
  ghost predicate IsRoot(sqrt: real -> real) { forall x: real :: x >= 0.0 ==> sqrt(x) >= 0.0 && sqrt(x) * sqrt(x) == x }

  /** The middle band is the moving average, the others lie symmetrically at `numStd` deviations. */
  lemma BandsAre(v: seq<real>, period: nat, numStd: real, sqrt: real -> real, i: nat)
    requires 2 <= period <= i + 1 <= |v| && IsRoot(sqrt)
    ensures BollingerAt(v, period, numStd, sqrt, i).Some? && SmaAt(v, period, i).Some?
    ensures var (middle, upper, lower) := BollingerAt(v, period, numStd, sqrt, i).value;
      && middle == SmaAt(v, period, i).value
      && upper - middle == middle - lower
      && Square(upper - middle) == Square(numStd) * Variance(v[i+1-period..i+1])
      && (numStd >= 0.0 ==> lower <= middle <= upper)
  {
    hide Mean, Variance, Square;
    var w := v[i+1-period..i+1];
    VarianceIs(w);
    var root := sqrt(Variance(w));
    BandArithmetic(numStd, root, Variance(w));
    var (middle, upper, lower) := BollingerAt(v, period, numStd, sqrt, i).value;
    assert upper - middle == numStd * root;
  }

  lemma BandArithmetic(k: real, root: real, variance: real)
    requires root >= 0.0 && root * root == variance
    ensures Square(k * root) == Square(k) * variance && (k >= 0.0 ==> k * root >= 0.0)
  {
    assert (k * root) * (k * root) == k * k * (root * root);
    if k >= 0.0 { MulNonNegative(k, root); }
  }

  // ---- Volume ----

  ghost predicate Traded(bars: seq<Bar>) { forall i :: 0 <= i < |bars| ==> bars[i].volume >= 0 }

  /** The first bar of a day that trades has its own typical price, whatever came on other days. */
  lemma FirstVwapOfDay(bars: seq<Bar>, i: nat)
    requires i < |bars| && bars[i].volume > 0 && forall j :: 0 <= j < i ==> bars[j].day != bars[i].day
    ensures VwapAt(bars, i) == Some((bars[i].high + bars[i].low + bars[i].close) / 3.0)
  {
    hide Worth, Typical;
    NothingOnOtherDays(bars, i, bars[i].day);
    TimesAndBack(Typical(bars[i]), bars[i].volume);
    TypicalIs(bars[i]);
  }

  lemma TypicalIs(b: Bar)
    ensures Typical(b) == (b.high + b.low + b.close) / 3.0
  {
  }

  lemma TimesAndBack(x: real, n: int)
    requires n != 0
    ensures Worth(x, n) / n as real == x
  {
  }

  lemma {:induction false} NothingOnOtherDays(bars: seq<Bar>, n: nat, day: int)
    requires n <= |bars| && forall j :: 0 <= j < n ==> bars[j].day != day
    ensures DayVolume(bars, n, day) == 0 && DayTurnover(bars, n, day) == 0.0
  {
    if n > 0 { NothingOnOtherDays(bars, n - 1, day); }
  }

  /**
   * Each further bar of the day moves the price towards its own typical price in proportion to its share of the
   * volume so far.
   */
  lemma VwapMoves(bars: seq<Bar>, j: nat, i: nat)
    requires j < i < |bars| && bars[j].day == bars[i].day && forall k :: j < k < i ==> bars[k].day != bars[i].day
    requires VwapAt(bars, j).Some? && VwapAt(bars, i).Some?
    ensures var (before, after) := (DayVolume(bars, j + 1, bars[i].day), DayVolume(bars, i + 1, bars[i].day));
      && after == before + bars[i].volume
      && Worth(VwapAt(bars, i).value, after)
           == Worth(VwapAt(bars, j).value, before)
              + Worth((bars[i].high + bars[i].low + bars[i].close) / 3.0, bars[i].volume)
  {
    hide Worth, Typical;
    var day := bars[i].day;
    SameDayTotals(bars, j + 1, i, day);
    QuotientWorth(DayTurnover(bars, j + 1, day), DayVolume(bars, j + 1, day));
    QuotientWorth(DayTurnover(bars, i + 1, day), DayVolume(bars, i + 1, day));
    TypicalIs(bars[i]);
  }

  lemma QuotientWorth(amount: real, n: int)
    requires n != 0
    ensures Worth(amount / n as real, n) == amount
  {
  }

  lemma {:induction false} SameDayTotals(bars: seq<Bar>, m: nat, n: nat, day: int)
    requires m <= n <= |bars| && forall k :: m <= k < n ==> bars[k].day != day
    ensures DayVolume(bars, n, day) == DayVolume(bars, m, day)
    ensures DayTurnover(bars, n, day) == DayTurnover(bars, m, day)
    decreases n
  {
    if m < n { SameDayTotals(bars, m, n - 1, day); }
  }

  /** On-balance volume starts at zero and gains a rising bar's volume, loses a falling one's, and stands still else. */
  lemma ObvMoves(bars: seq<Bar>, i: nat)
    requires i < |bars|
    ensures i == 0 ==> ObvAt(bars, i) == 0
    ensures i > 0 && bars[i].close > bars[i-1].close ==> ObvAt(bars, i) == ObvAt(bars, i - 1) + bars[i].volume
    ensures i > 0 && bars[i].close < bars[i-1].close ==> ObvAt(bars, i) == ObvAt(bars, i - 1) - bars[i].volume
    ensures i > 0 && bars[i].close == bars[i-1].close ==> ObvAt(bars, i) == ObvAt(bars, i - 1)
  {
  }

  /** The bars with their closes upside down. */
  function Upturned(bars: seq<Bar>, c: real): (r: seq<Bar>)
    ensures |r| == |bars| && forall i :: 0 <= i < |bars| ==> r[i] == bars[i].(close := c - bars[i].close)
  {
    seq(|bars|, i requires 0 <= i < |bars| => bars[i].(close := c - bars[i].close))
  }

  lemma {:induction false} ObvReflects(bars: seq<Bar>, c: real, i: nat)
    requires i < |bars|
    ensures ObvAt(Upturned(bars, c), i) == -ObvAt(bars, i)
  {
    if i > 0 { ObvReflects(bars, c, i - 1); }
  }

  // ---- Supertrend ----

  /** The unbounded bands are centred on the bar and `multiplier` average true ranges away from its middle. */
  lemma BasicBandsAre(bars: seq<Bar>, period: nat, multiplier: real, i: nat)
    requires 1 <= period <= i + 1 <= |bars|
    ensures AtrAt(bars, period, i).Some?
    ensures var (upper, lower) := (UpperBasic(bars, period, multiplier, i), LowerBasic(bars, period, multiplier, i));
      && upper + lower == bars[i].high + bars[i].low
      && upper - lower == 2.0 * (multiplier * AtrAt(bars, period, i).value)
  {
    hide AtrAt;
    BasicBands(bars, period, multiplier, i);
  }

  /**
   * The trend starts with the first average true range: up exactly if that bar closes above its middle, with the
   * line `multiplier` ranges below the middle, and otherwise as far above it. Before that there is no line.
   */
  lemma TrendStarts(bars: seq<Bar>, period: nat, multiplier: real, i: nat)
    requires 1 <= period && i < |bars| && i <= period - 1
    ensures var (line, direction) := SupertrendAt(bars, period, multiplier, i);
      && (i < period - 1 ==> line == None && direction == 0)
      && (i == period - 1 ==>
            && line.Some? && AtrAt(bars, period, i).Some?
            && direction == (if 2.0 * bars[i].close > bars[i].high + bars[i].low then 1 else -1)
            && 2.0 * line.value
                 == bars[i].high + bars[i].low - 2.0 * (direction as real * multiplier * AtrAt(bars, period, i).value))
  {
    hide AtrAt;
    if i == period - 1 { BasicBands(bars, period, multiplier, i); }
  }

  /** While the trend stays up the line it rests on never falls, while it stays down it never rises. */
  lemma StopOnlyTightens(bars: seq<Bar>, period: nat, multiplier: real, i: nat)
    requires 1 <= period && period + 2 <= i + 1 <= |bars|
    ensures var (t0, t1, t2) := (TrendAt(bars, period, multiplier, i - 2), TrendAt(bars, period, multiplier, i - 1),
                                 TrendAt(bars, period, multiplier, i));
      && SupertrendAt(bars, period, multiplier, i - 1).0.Some? && SupertrendAt(bars, period, multiplier, i).0.Some?
      && var (line, next) := (SupertrendAt(bars, period, multiplier, i - 1).0.value,
                              SupertrendAt(bars, period, multiplier, i).0.value);
         && (t0.direction == 1 && t1.direction == 1 && t2.direction == 1 ==> line <= next && bars[i].close >= next)
         && (t0.direction == -1 && t1.direction == -1 && t2.direction == -1 ==> line >= next && bars[i].close <= next)
  {
    hide UpperBasic, LowerBasic, TrendAt;
    TrendUnrolls(bars, period, multiplier, i - 1);
    TrendUnrolls(bars, period, multiplier, i);
  }

  /**
   * The trend turns down exactly when a close falls below the line it was resting on, raised first by the new bar
   * unless the last close had already broken it; it turns up in the same way.
   */
  lemma TurnsIff(bars: seq<Bar>, period: nat, multiplier: real, i: nat)
    requires 1 <= period <= i < |bars|
    ensures var (t, t') := (TrendAt(bars, period, multiplier, i - 1), TrendAt(bars, period, multiplier, i));
      && (t.direction == 1 && t.lower <= bars[i-1].close ==>
            (t'.direction == -1
             <==> bars[i].close < t.lower || bars[i].close < LowerBasic(bars, period, multiplier, i)))
      && (t.direction == -1 && t.upper >= bars[i-1].close ==>
            (t'.direction == 1
             <==> bars[i].close > t.upper || bars[i].close > UpperBasic(bars, period, multiplier, i)))
  {
    hide UpperBasic, LowerBasic, TrendAt;
    TrendUnrolls(bars, period, multiplier, i);
  }
}
