/** What the indicator formulas mean, each law stated without the formula it is about. */
module IndicatorLaws {
  import opened Wrappers
  import opened Costs
  import opened IndicatorsBatch

  // ---- Sums and means ----

  /** Scale by `k` and shift by `d`. */
  function Moved(x: real, k: real, d: real): real { k * x + d }

  function Affine(v: seq<real>, k: real, d: real): (r: seq<real>)
    ensures |r| == |v| && forall i :: 0 <= i < |v| ==> r[i] == Moved(v[i], k, d)
  {
    seq(|v|, i requires 0 <= i < |v| => Moved(v[i], k, d))
  }

  lemma AffineSlice(v: seq<real>, k: real, d: real, lo: nat, hi: nat)
    requires lo <= hi <= |v|
    ensures Affine(v, k, d)[lo..hi] == Affine(v[lo..hi], k, d)
  {
    hide Moved;
  }

  lemma {:induction false} SumAffine(v: seq<real>, k: real, d: real)
    ensures Sum(Affine(v, k, d)) == k * Sum(v) + d * |v| as real
  {
    hide Moved;
    if v == [] {
      assert Affine(v, k, d) == [];
    } else {
      var n := |v| - 1;
      AffineSlice(v, k, d, 0, n);
      assert Affine(v, k, d)[..n] == Affine(v, k, d)[0..n] && v[0..n] == v[..n];
      SumAffine(v[..n], k, d);
      AffineArithmetic(Sum(v[..n]), v[n], k, d, n as real);
    }
  }

  lemma AffineArithmetic(s: real, x: real, k: real, d: real, n: real)
    ensures (k * s + d * n) + Moved(x, k, d) == k * (s + x) + d * (n + 1.0)
  {
  }

  lemma SumIsMeanTimes(v: seq<real>)
    requires v != []
    ensures Mean(v) * |v| as real == Sum(v)
  {
    hide Sum;
    Quotient(Sum(v), |v| as real);
  }

  lemma Quotient(a: real, n: real)
    requires n != 0.0
    ensures (a / n) * n == a
  {
  }

  lemma MeanAffine(v: seq<real>, k: real, d: real)
    requires v != []
    ensures Mean(Affine(v, k, d)) == Moved(Mean(v), k, d)
  {
    hide Sum, Affine, Mean;
    SumAffine(v, k, d);
    SumIsMeanTimes(v);
    SumIsMeanTimes(Affine(v, k, d));
    SolveMean(Mean(Affine(v, k, d)), Mean(v), k, d, |v| as real);
  }

  lemma SolveMean(a: real, m: real, k: real, d: real, n: real)
    requires n > 0.0 && a * n == k * (m * n) + d * n
    ensures a == Moved(m, k, d)
  {
    assert a * n == Moved(m, k, d) * n;
  }

  /** No value exceeds `hi` or falls below `lo`. */
  predicate Within(v: seq<real>, lo: real, hi: real) { forall i :: 0 <= i < |v| ==> lo <= v[i] <= hi }

  lemma {:induction false} SumWithin(v: seq<real>, lo: real, hi: real)
    requires Within(v, lo, hi)
    ensures Worth(lo, |v|) <= Sum(v) <= Worth(hi, |v|)
  {
    hide Worth;
    NoneAndOneMore(lo, |v| - 1);
    NoneAndOneMore(hi, |v| - 1);
    if v != [] { SumWithin(v[..|v|-1], lo, hi); }
  }

  lemma NoneAndOneMore(x: real, n: int)
    ensures Worth(x, 0) == 0.0 && Worth(x, n + 1) == Worth(x, n) + x
  {
  }

  lemma MeanWithin(v: seq<real>, lo: real, hi: real)
    requires v != [] && Within(v, lo, hi)
    ensures lo <= Mean(v) <= hi
  {
    hide Sum, Mean;
    SumWithin(v, lo, hi);
    SumIsMeanTimes(v);
    BetweenWhenScaled(Mean(v), lo, hi, |v| as real);
  }

  lemma BetweenWhenScaled(m: real, lo: real, hi: real, n: real)
    requires n > 0.0 && lo * n <= m * n <= hi * n
    ensures lo <= m <= hi
  {
  }

  lemma {:induction false} SumZeroIff(v: seq<real>)
    requires forall i :: 0 <= i < |v| ==> v[i] >= 0.0
    ensures Sum(v) >= 0.0
    ensures Sum(v) == 0.0 <==> forall i :: 0 <= i < |v| ==> v[i] == 0.0
  {
    if v != [] { SumZeroIff(v[..|v|-1]); }
  }

  lemma MeanZeroIff(v: seq<real>)
    requires v != [] && forall i :: 0 <= i < |v| ==> v[i] >= 0.0
    ensures Mean(v) == 0.0 <==> forall i :: 0 <= i < |v| ==> v[i] == 0.0
  {
    hide Sum;
    SumZeroIff(v);
    SumIsMeanTimes(v);
  }

  // ---- Moving averages ----

  lemma {:induction false} SumOfParts(a: seq<real>, b: seq<real>)
    ensures Sum(a + b) == Sum(a) + Sum(b)
  {
    if b == [] {
      assert a + b == a;
    } else {
      assert (a + b)[..|a + b|-1] == a + b[..|b|-1];
      SumOfParts(a, b[..|b|-1]);
    }
  }

  /** From bar to bar the moving average drops the oldest value and takes in the newest, each with equal weight. */
  lemma SmaRolls(v: seq<real>, period: nat, i: nat)
    requires 1 <= period <= i < |v|
    ensures SmaAt(v, period, i - 1).Some? && SmaAt(v, period, i).Some?
    ensures (SmaAt(v, period, i).value - SmaAt(v, period, i - 1).value) * period as real == v[i] - v[i-period]
  {
    hide Sum;
    var lo := i - period;
    var shared, a, b := v[lo+1..i], v[lo..i], v[lo+1..i+1];
    assert a == [v[lo]] + shared && b == shared + [v[i]];
    SumOfParts([v[lo]], shared);
    SumOfParts(shared, [v[i]]);
    SumOfOne(v[lo]);
    SumOfOne(v[i]);
    SumIsMeanTimes(a);
    SumIsMeanTimes(b);
    assert i - 1 + 1 - period == lo && i + 1 - period == lo + 1;
  }

  lemma SumOfOne(x: real)
    ensures Sum([x]) == x
  {
    assert [x][..0] == [];
  }

  /** A market that moves by `slope` each bar, `t` bars in. */
  function LineAt(from: real, slope: real, t: real): real { from + slope * t }

  function Line(n: nat, from: real, slope: real): (r: seq<real>)
    ensures |r| == n && forall i :: 0 <= i < n ==> r[i] == LineAt(from, slope, i as real)
  {
    seq(n, i requires 0 <= i < n => LineAt(from, slope, i as real))
  }

  lemma {:induction false} SumOfLine(n: nat, from: real, slope: real)
    ensures Sum(Line(n, from, slope)) == LineSum(n as real, from, slope)
  {
    hide LineAt, LineSum;
    if n == 0 {
      LineSumStep(0.0, from, slope);
    } else {
      assert Line(n, from, slope)[..n-1] == Line(n - 1, from, slope);
      SumOfLine(n - 1, from, slope);
      LineSumStep(n as real - 1.0, from, slope);
    }
  }

  function LineSum(n: real, from: real, slope: real): real { n * from + slope * (n * (n - 1.0) / 2.0) }

  lemma LineSumStep(n: real, from: real, slope: real)
    ensures LineSum(n, from, slope) + LineAt(from, slope, n) == LineSum(n + 1.0, from, slope)
    ensures LineSum(0.0, from, slope) == 0.0
  {
  }

  /** How many bars an average of `period` values is behind a steady move. */
  function Lag(period: nat): real { (period as real - 1.0) / 2.0 }

  lemma MeanOfLine(n: nat, from: real, slope: real)
    requires n >= 1
    ensures Mean(Line(n, from, slope)) == LineAt(from, slope, Lag(n))
  {
    hide Sum, Line, LineAt, LineSum, Mean, Lag;
    SumOfLine(n, from, slope);
    SumIsMeanTimes(Line(n, from, slope));
    SolveLine(Mean(Line(n, from, slope)), n, from, slope);
  }

  lemma SolveLine(m: real, n: nat, from: real, slope: real)
    requires n >= 1 && m * n as real == LineSum(n as real, from, slope)
    ensures m == LineAt(from, slope, Lag(n))
  {
    assert LineAt(from, slope, Lag(n)) * n as real == LineSum(n as real, from, slope);
  }

  /** On a steady move the moving average is (period - 1) / 2 bars behind. */
  lemma SmaOfLine(n: nat, from: real, slope: real, period: nat, i: nat)
    requires 1 <= period <= i + 1 <= n
    ensures SmaAt(Line(n, from, slope), period, i) == Some(LineAt(from, slope, i as real - Lag(period)))
  {
    hide Mean, LineAt, Lag;
    var lo := i + 1 - period;
    LineTail(n, from, slope, lo, i + 1);
    MeanOfLine(period, LineAt(from, slope, lo as real), slope);
    LagArithmetic(from, slope, i, period);
  }

  lemma LineTail(n: nat, from: real, slope: real, lo: nat, hi: nat)
    requires lo <= hi <= n
    ensures Line(n, from, slope)[lo..hi] == Line(hi - lo, LineAt(from, slope, lo as real), slope)
  {
    hide LineAt;
    var a, b := Line(n, from, slope)[lo..hi], Line(hi - lo, LineAt(from, slope, lo as real), slope);
    forall k | 0 <= k < hi - lo ensures a[k] == b[k] { LineFrom(from, slope, lo as real, k as real); }
  }

  lemma LineFrom(from: real, slope: real, a: real, b: real)
    ensures LineAt(LineAt(from, slope, a), slope, b) == LineAt(from, slope, a + b)
  {
  }

  lemma LagArithmetic(from: real, slope: real, i: nat, period: nat)
    requires 1 <= period <= i + 1
    ensures LineAt(LineAt(from, slope, (i + 1 - period) as real), slope, Lag(period))
         == LineAt(from, slope, i as real - Lag(period))
  {
    LineFrom(from, slope, (i + 1 - period) as real, Lag(period));
  }

  /** The exponential average is behind a steady move by just as much, at every bar: that is what fixes its weight. */
  lemma {:induction false} EmaOfLine(n: nat, from: real, slope: real, period: nat, i: nat)
    requires 1 <= period <= i + 1 <= n
    ensures EmaAt(Line(n, from, slope), period, i) == Some(LineAt(from, slope, i as real - Lag(period)))
  {
    hide Mean, EmaStep, LineAt;
    var v := Line(n, from, slope);
    if i + 1 == period {
      assert v[..period] == Line(period, from, slope);
      MeanOfLine(period, from, slope);
      assert i as real - Lag(period) == Lag(period);
    } else {
      EmaOfLine(n, from, slope, period, i - 1);
      StepOnLine(period, from, slope, i as real);
    }
  }

  lemma StepOnLine(period: nat, from: real, slope: real, i: real)
    requires period >= 1
    ensures EmaStep(period, LineAt(from, slope, i - 1.0 - Lag(period)), LineAt(from, slope, i))
         == LineAt(from, slope, i - Lag(period))
  {
    hide Alpha, Lag;
    WeightIs(period);
    StepArithmetic(Alpha(period), from, slope, i, Lag(period));
  }

  lemma WeightIs(period: nat)
    requires period >= 1
    ensures (1.0 - Alpha(period)) * (1.0 + Lag(period)) == Lag(period)
  {
    var a, p := Alpha(period), period as real;
    Quotient(2.0, p + 1.0);
    assert a * (p + 1.0) == 2.0;
    assert (1.0 - a) * (1.0 + (p - 1.0) / 2.0) == (p + 1.0) / 2.0 - a * (p + 1.0) / 2.0;
  }

  lemma StepArithmetic(a: real, from: real, slope: real, i: real, lag: real)
    requires (1.0 - a) * (1.0 + lag) == lag
    ensures a * LineAt(from, slope, i) + (1.0 - a) * LineAt(from, slope, i - 1.0 - lag) == LineAt(from, slope, i - lag)
  {
    assert a * (from + slope * i) + (1.0 - a) * (from + slope * (i - 1.0 - lag))
        == from + slope * i - slope * ((1.0 - a) * (1.0 + lag));
  }

  /** Scaling and shifting the prices scales and shifts the exponential average. */
  lemma {:induction false} EmaAffine(v: seq<real>, k: real, d: real, period: nat, i: nat)
    requires 1 <= period <= i + 1 <= |v|
    ensures EmaAt(v, period, i).Some?
    ensures EmaAt(Affine(v, k, d), period, i) == Some(Moved(EmaAt(v, period, i).value, k, d))
  {
    hide Mean, EmaStep, Moved;
    if i + 1 == period {
      AffineSlice(v, k, d, 0, period);
      assert Affine(v, k, d)[..period] == Affine(v, k, d)[0..period] && v[0..period] == v[..period];
      MeanAffine(v[..period], k, d);
    } else {
      EmaAffine(v, k, d, period, i - 1);
      StepAffine(period, EmaAt(v, period, i - 1).value, v[i], k, d);
    }
  }

  lemma StepAffine(period: nat, previous: real, x: real, k: real, d: real)
    ensures EmaStep(period, Moved(previous, k, d), Moved(x, k, d)) == Moved(EmaStep(period, previous, x), k, d)
  {
    AffineStepArithmetic(Alpha(period), previous, x, k, d);
  }

  lemma AffineStepArithmetic(a: real, previous: real, x: real, k: real, d: real)
    ensures a * (k * x + d) + (1.0 - a) * (k * previous + d) == k * (a * x + (1.0 - a) * previous) + d
  {
  }

  /** The exponential average never leaves the range of the prices it has seen. */
  lemma {:induction false} EmaWithin(v: seq<real>, period: nat, i: nat, lo: real, hi: real)
    requires 1 <= period <= i + 1 <= |v| && Within(v, lo, hi)
    ensures EmaAt(v, period, i).Some? && lo <= EmaAt(v, period, i).value <= hi
  {
    hide Mean, EmaStep;
    if i + 1 == period {
      MeanWithin(v[..period], lo, hi);
    } else {
      EmaWithin(v, period, i - 1, lo, hi);
      StepWithin(period, EmaAt(v, period, i - 1).value, v[i], lo, hi);
    }
  }

  lemma StepWithin(period: nat, previous: real, x: real, lo: real, hi: real)
    requires period >= 1 && lo <= previous <= hi && lo <= x <= hi
    ensures lo <= EmaStep(period, previous, x) <= hi
  {
    var a := Alpha(period);
    assert a * (period as real + 1.0) == 2.0;
    assert 0.0 < a <= 1.0;
    MixWithin(a, previous, x, lo, hi);
  }

  lemma MixWithin(a: real, p: real, x: real, lo: real, hi: real)
    requires 0.0 <= a <= 1.0 && lo <= p <= hi && lo <= x <= hi
    ensures lo <= a * x + (1.0 - a) * p <= hi
  {
    var l1 := NotLost(lo, x, a);
    var l2 := NotLost(lo, p, 1.0 - a);
    var h1 := NotLost(x, hi, a);
    var h2 := NotLost(p, hi, 1.0 - a);
    assert a * x + (1.0 - a) * p - lo == l1 + l2 && hi - (a * x + (1.0 - a) * p) == h1 + h2;
  }

  /** Wilder's smoothing over `period` bars is the exponential average over 2 * period - 1. */
  lemma WilderIsSlowEma(period: nat, previous: real, x: real)
    requires period >= 1
    ensures WilderStep(period, previous, x) == EmaStep(2 * period - 1, previous, x)
  {
    var a, p := Alpha(2 * period - 1), period as real;
    assert (2 * period - 1) as real + 1.0 == 2.0 * p;
    assert a * (2.0 * p) == 2.0;
    assert WilderStep(period, previous, x) * p == previous * (p - 1.0) + x;
    SolveWilder(WilderStep(period, previous, x), a, p, previous, x);
  }

  lemma SolveWilder(w: real, a: real, p: real, previous: real, x: real)
    requires p >= 1.0 && a * (2.0 * p) == 2.0 && w * p == previous * (p - 1.0) + x
    ensures w == a * x + (1.0 - a) * previous
  {
    assert a * p == 1.0;
    assert (a * x + (1.0 - a) * previous) * p == (a * p) * x + (p - a * p) * previous;
  }
}
