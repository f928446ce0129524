/** What the relative strength index says about the closes. */
module RsiLaws {
  import opened Wrappers
  import opened Costs
  import opened IndicatorsBatch
  import opened IndicatorLaws

  // ---- The share of the movement that was upwards ----

  /** The index is the gains' share, in per cent, of the average movement; half of it when nothing moved. */
  lemma RsiIsShare(v: seq<real>, period: nat, i: nat)
    requires 1 <= period <= i < |v|
    ensures RsiAt(v, period, i).Some?
    ensures var (rsi, g, l) := (RsiAt(v, period, i).value, WilderAvg(v, period, i).0, WilderAvg(v, period, i).1);
      && rsi * (g + l) == 100.0 * g
      && (g == 0.0 && l == 0.0 ==> rsi == 50.0)
  {
    hide WilderAvg;
    var (g, l) := WilderAvg(v, period, i);
    if l != 0.0 { ShareArithmetic(g, l, RsiAt(v, period, i).value); }
  }

  lemma ShareArithmetic(g: real, l: real, rsi: real)
    requires g >= 0.0 && l > 0.0 && rsi == 100.0 - 100.0 / (1.0 + g / l)
    ensures rsi * (g + l) == 100.0 * g
  {
    var q := 100.0 / (1.0 + g / l);
    Quotient(g, l);
    Quotient(100.0, 1.0 + g / l);
    assert (1.0 + g / l) * l == l + g;
    assert q * (g + l) == 100.0 * l;
  }

  /** Over the first `period` moves, that is the sum of the rises among all moves. */
  lemma FirstRsi(v: seq<real>, period: nat)
    requires 1 <= period < |v|
    ensures RsiAt(v, period, period).Some?
    ensures RsiAt(v, period, period).value * (Sum(Gains(v, period)) + Sum(Losses(v, period)))
         == 100.0 * Sum(Gains(v, period))
    ensures Sum(Gains(v, period)) - Sum(Losses(v, period)) == v[period] - v[0]
  {
    hide Sum, Mean, RsiAt, Gains, Losses;
    WilderAvgSeed(v, period);
    RsiIsShare(v, period, period);
    var g, l := Gains(v, period), Losses(v, period);
    SumIsMeanTimes(g);
    SumIsMeanTimes(l);
    ShareScales(RsiAt(v, period, period).value, Mean(g), Mean(l), Sum(g), Sum(l), period as real);
    NetMove(v, period);
  }

  lemma ShareScales(rsi: real, g: real, l: real, gs: real, ls: real, n: real)
    requires rsi * (g + l) == 100.0 * g && g * n == gs && l * n == ls
    ensures rsi * (gs + ls) == 100.0 * gs
  {
    assert rsi * (gs + ls) == (rsi * (g + l)) * n;
  }

  /** Rises less falls are the net move. */
  lemma {:induction false} NetMove(v: seq<real>, n: nat)
    requires n < |v|
    ensures Sum(Gains(v, n)) - Sum(Losses(v, n)) == v[n] - v[0]
  {
    if n > 0 {
      NetMove(v, n - 1);
      assert Gains(v, n)[..n-1] == Gains(v, n - 1) && Losses(v, n)[..n-1] == Losses(v, n - 1);
    }
  }

  // ---- Which moves are in the average ----

  /** Wilder's averages never forget a move, except that a period of one remembers only the last. */
  predicate Remembers(period: nat, i: nat, j: nat) { j < i && (period > 1 || j + 1 == i) }

  /** Some remembered close was above, or below, the one before it. */
  ghost predicate Rose(v: seq<real>, period: nat, i: nat)
    requires i < |v|
  {
    exists j: nat :: Remembers(period, i, j) && v[j+1] > v[j]
  }

  ghost predicate Fell(v: seq<real>, period: nat, i: nat)
    requires i < |v|
  {
    exists j: nat :: Remembers(period, i, j) && v[j+1] < v[j]
  }

  lemma SeedZeroIff(v: seq<real>, period: nat)
    requires 1 <= period < |v|
    ensures Mean(Gains(v, period)) == 0.0 <==> !Rose(v, period, period)
    ensures Mean(Losses(v, period)) == 0.0 <==> !Fell(v, period, period)
  {
    hide Mean;
    var g, l := Gains(v, period), Losses(v, period);
    MeanZeroIff(g);
    MeanZeroIff(l);
    if !Rose(v, period, period) {
      forall j | 0 <= j < period ensures g[j] == 0.0 {
        assert Remembers(period, period, j);
      }
    }
    if !Fell(v, period, period) {
      forall j | 0 <= j < period ensures l[j] == 0.0 {
        assert Remembers(period, period, j);
      }
    }
    assert forall j :: 0 <= j < period ==> (g[j] == 0.0 <==> v[j+1] <= v[j]) && (l[j] == 0.0 <==> v[j+1] >= v[j]);
  }

  lemma StepZeroIff(period: nat, previous: real, x: real)
    requires period >= 1 && previous >= 0.0 && x >= 0.0
    ensures WilderStep(period, previous, x) == 0.0 <==> x == 0.0 && (period > 1 ==> previous == 0.0)
  {
    var p := period as real;
    MulNonNegative(previous, p - 1.0);
    Quotient(previous * (p - 1.0) + x, p);
    if period > 1 && previous > 0.0 { MulStrict(0.0, previous, p - 1.0); }
  }

  lemma {:induction false} AveragesZeroIff(v: seq<real>, period: nat, i: nat)
    requires 1 <= period <= i < |v|
    ensures WilderAvg(v, period, i).0 == 0.0 <==> !Rose(v, period, i)
    ensures WilderAvg(v, period, i).1 == 0.0 <==> !Fell(v, period, i)
  {
    hide WilderStep, Mean, Gains, Losses, WilderAvg;
    if i == period {
      WilderAvgSeed(v, period);
      SeedZeroIff(v, period);
    } else {
      AveragesZeroIff(v, period, i - 1);
      WilderAvgUnrolls(v, period, i);
      StepZeroIff(period, WilderAvg(v, period, i - 1).0, Gain(v, i - 1));
      StepZeroIff(period, WilderAvg(v, period, i - 1).1, Loss(v, i - 1));
      OneMoreMove(v, period, i);
    }
  }

  lemma OneMoreMove(v: seq<real>, period: nat, i: nat)
    requires 0 < i < |v|
    ensures Rose(v, period, i) <==> v[i] > v[i-1] || (period > 1 && Rose(v, period, i - 1))
    ensures Fell(v, period, i) <==> v[i] < v[i-1] || (period > 1 && Fell(v, period, i - 1))
  {
    assert Remembers(period, i, i - 1);
    assert forall j: nat :: Remembers(period, i - 1, j) && period > 1 ==> Remembers(period, i, j);
    assert forall j: nat :: Remembers(period, i, j) && j + 1 != i ==> Remembers(period, i - 1, j) && period > 1;
  }

  /**
   * The index lies between 0 and 100. It is 100 exactly when some remembered close rose and none fell, 0 exactly when
   * some fell and none rose, and 50 when none of them moved.
   */
  lemma RsiExtremes(v: seq<real>, period: nat, i: nat)
    requires 1 <= period <= i < |v|
    ensures RsiAt(v, period, i).Some?
    ensures var rsi := RsiAt(v, period, i).value;
      && 0.0 <= rsi <= 100.0
      && (rsi == 100.0 <==> Rose(v, period, i) && !Fell(v, period, i))
      && (rsi == 0.0 <==> Fell(v, period, i) && !Rose(v, period, i))
      && (!Rose(v, period, i) && !Fell(v, period, i) ==> rsi == 50.0)
  {
    hide WilderAvg, RsiAt, Rose, Fell;
    RsiIsShare(v, period, i);
    AveragesZeroIff(v, period, i);
    ShareBounds(RsiAt(v, period, i).value, WilderAvg(v, period, i).0, WilderAvg(v, period, i).1);
  }

  lemma ShareBounds(rsi: real, g: real, l: real)
    requires g >= 0.0 && l >= 0.0 && rsi * (g + l) == 100.0 * g && (g == 0.0 && l == 0.0 ==> rsi == 50.0)
    ensures 0.0 <= rsi <= 100.0
    ensures rsi == 100.0 <==> g > 0.0 && l == 0.0
    ensures rsi == 0.0 <==> g == 0.0 && l > 0.0
  {
    var m := g + l;
    if m > 0.0 {
      BetweenWhenScaled(rsi, 0.0, 100.0, m);
      if rsi == 100.0 { assert 100.0 * m == 100.0 * g; }
      if rsi == 0.0 { assert 0.0 * m == 100.0 * g; }
      if l == 0.0 { SameWhenScaled(rsi, 100.0, m); }
      if g == 0.0 { SameWhenScaled(rsi, 0.0, m); }
    }
  }

  lemma SameWhenScaled(a: real, b: real, n: real)
    requires n > 0.0 && a * n == b * n
    ensures a == b
  {
  }

  // ---- Rises and falls are treated alike ----

  lemma {:induction false} AveragesReflect(v: seq<real>, c: real, period: nat, i: nat)
    requires 1 <= period <= i < |v|
    ensures WilderAvg(Affine(v, -1.0, c), period, i)
         == (WilderAvg(v, period, i).1, WilderAvg(v, period, i).0)
  {
    hide WilderStep, Mean, WilderAvg;
    var w := Affine(v, -1.0, c);
    assert forall j :: 0 <= j < |v| - 1 ==> Gain(w, j) == Loss(v, j) && Loss(w, j) == Gain(v, j);
    if i == period {
      WilderAvgSeed(v, period);
      WilderAvgSeed(w, period);
      assert Gains(w, period) == Losses(v, period) && Losses(w, period) == Gains(v, period);
    } else {
      AveragesReflect(v, c, period, i - 1);
      WilderAvgUnrolls(v, period, i);
      WilderAvgUnrolls(w, period, i);
    }
  }

  /** Turning the closes upside down turns the index into its complement. */
  lemma RsiReflects(v: seq<real>, c: real, period: nat, i: nat)
    requires 1 <= period <= i < |v|
    ensures RsiAt(v, period, i).Some?
    ensures RsiAt(Affine(v, -1.0, c), period, i) == Some(100.0 - RsiAt(v, period, i).value)
  {
    hide WilderAvg, RsiAt, Affine;
    var w := Affine(v, -1.0, c);
    RsiIsShare(v, period, i);
    RsiIsShare(w, period, i);
    AveragesReflect(v, c, period, i);
    var (g, l) := WilderAvg(v, period, i);
    if g + l > 0.0 {
      Complement(RsiAt(w, period, i).value, RsiAt(v, period, i).value, g, l);
    }
  }

  lemma Complement(a: real, b: real, g: real, l: real)
    requires g + l > 0.0 && a * (l + g) == 100.0 * l && b * (g + l) == 100.0 * g
    ensures a == 100.0 - b
  {
    assert l + g == g + l;
    ComplementOf(a, b, g, l, g + l);
  }

  lemma ComplementOf(a: real, b: real, g: real, l: real, m: real)
    requires m == g + l && m > 0.0 && a * m == 100.0 * l && b * m == 100.0 * g
    ensures a == 100.0 - b
  {
    LessTimes(100.0, b, m);
    SameWhenScaled(a, 100.0 - b, m);
  }

  lemma LessTimes(a: real, b: real, m: real)
    ensures (a - b) * m == a * m - b * m
  {
  }

  lemma {:induction false} AveragesScale(v: seq<real>, k: real, d: real, period: nat, i: nat)
    requires 1 <= period <= i < |v| && k > 0.0
    ensures WilderAvg(Affine(v, k, d), period, i)
         == (Moved(WilderAvg(v, period, i).0, k, 0.0), Moved(WilderAvg(v, period, i).1, k, 0.0))
  {
    hide WilderStep, Mean, WilderAvg, Moved, Gain, Loss;
    var w := Affine(v, k, d);
    forall j | 0 <= j < |v| - 1
      ensures Gain(w, j) == Moved(Gain(v, j), k, 0.0) && Loss(w, j) == Moved(Loss(v, j), k, 0.0)
    {
      MoveScales(v, k, d, j);
    }
    if i == period {
      WilderAvgSeed(v, period);
      WilderAvgSeed(w, period);
      assert Gains(w, period) == Affine(Gains(v, period), k, 0.0);
      assert Losses(w, period) == Affine(Losses(v, period), k, 0.0);
      MeanAffine(Gains(v, period), k, 0.0);
      MeanAffine(Losses(v, period), k, 0.0);
    } else {
      AveragesScale(v, k, d, period, i - 1);
      WilderAvgUnrolls(v, period, i);
      WilderAvgUnrolls(w, period, i);
      WilderScales(period, WilderAvg(v, period, i - 1).0, Gain(v, i - 1), k);
      WilderScales(period, WilderAvg(v, period, i - 1).1, Loss(v, i - 1), k);
    }
  }

  lemma MoveScales(v: seq<real>, k: real, d: real, j: nat)
    requires j + 1 < |v| && k > 0.0
    ensures Gain(Affine(v, k, d), j) == Moved(Gain(v, j), k, 0.0)
    ensures Loss(Affine(v, k, d), j) == Moved(Loss(v, j), k, 0.0)
  {
    var move := v[j+1] - v[j];
    assert Affine(v, k, d)[j+1] - Affine(v, k, d)[j] == k * move;
    if move > 0.0 { MulStrict(0.0, move, k); }
    if move < 0.0 { MulStrict(move, 0.0, k); }
  }

  lemma WilderScales(period: nat, previous: real, x: real, k: real)
    requires period >= 1
    ensures WilderStep(period, Moved(previous, k, 0.0), Moved(x, k, 0.0))
         == Moved(WilderStep(period, previous, x), k, 0.0)
  {
    hide WilderStep, EmaStep;
    WilderIsSlowEma(period, previous, x);
    WilderIsSlowEma(period, Moved(previous, k, 0.0), Moved(x, k, 0.0));
    StepAffine(2 * period - 1, previous, x, k, 0.0);
  }

  /** The index does not depend on the currency or the level of the prices. */
  lemma RsiScales(v: seq<real>, k: real, d: real, period: nat, i: nat)
    requires 1 <= period <= i < |v| && k > 0.0
    ensures RsiAt(Affine(v, k, d), period, i) == RsiAt(v, period, i)
  {
    hide WilderAvg, RsiAt, Affine;
    var w := Affine(v, k, d);
    RsiIsShare(v, period, i);
    RsiIsShare(w, period, i);
    AveragesScale(v, k, d, period, i);
    var (g, l) := WilderAvg(v, period, i);
    if g + l > 0.0 { SameShare(RsiAt(w, period, i).value, RsiAt(v, period, i).value, g, l, k); }
  }

  lemma SameShare(a: real, b: real, g: real, l: real, k: real)
    requires g + l > 0.0 && k > 0.0
    requires a * (Moved(g, k, 0.0) + Moved(l, k, 0.0)) == 100.0 * Moved(g, k, 0.0) && b * (g + l) == 100.0 * g
    ensures a == b
  {
    assert Moved(g, k, 0.0) + Moved(l, k, 0.0) == k * (g + l);
    assert (a * (g + l)) * k == (b * (g + l)) * k;
    SameWhenScaled(a * (g + l), b * (g + l), k);
    SameWhenScaled(a, b, g + l);
  }

  /** Two rises in a row: 100. A rise of one after a fall of three: 25. */
  lemma RsiExamples()
    ensures RsiAt([1.0, 2.0, 3.0], 2, 2) == Some(100.0)
    ensures RsiAt([5.0, 2.0, 3.0], 2, 2) == Some(25.0)
  {
    assert [1.0, 2.0, 3.0][0] == 1.0;
    FirstRsi([1.0, 2.0, 3.0], 2);
    FirstRsi([5.0, 2.0, 3.0], 2);
    assert Gains([1.0, 2.0, 3.0], 2) == [1.0, 1.0] && Losses([1.0, 2.0, 3.0], 2) == [0.0, 0.0];
    assert Gains([5.0, 2.0, 3.0], 2) == [0.0, 1.0] && Losses([5.0, 2.0, 3.0], 2) == [3.0, 0.0];
    SumOfTwo(1.0, 1.0);
    SumOfTwo(0.0, 0.0);
    SumOfTwo(0.0, 1.0);
    SumOfTwo(3.0, 0.0);
  }

  lemma SumOfTwo(a: real, b: real)
    ensures Sum([a, b]) == a + b
  {
    SumOfParts([a], [b]);
    SumOfOne(a);
    SumOfOne(b);
    assert [a] + [b] == [a, b];
  }
}
