/** Future bars never change earlier results. */
module BacktestLookAhead {
  import opened IndicatorsBatch
  import opened IndicatorViews
  import opened Strategies
  import opened Backtest

  /** What two engines agree on once the last bar of the shorter run may have left a signal behind. */
  ghost predicate SameResults<S>(a: Engine<S>, b: Engine<S>) {
    a.book == b.book && a.trades == b.trades && a.equity == b.equity && a.strat == b.strat
  }

  /** Two start bars no bar before k can tell apart. */
  predicate SameUpTo(k: nat, startA: int, startB: int) { startA == startB || (startA >= k && startB >= k) }

  lemma VisiblePrefix(a: Dict<Series>, b: Dict<Series>, n: nat, m: nat, i: nat)
    requires IsPrefix(a, b, n) && AllLength(b, m) && i < n <= m
    ensures Visible(a, i) == Visible(b, i)
  {
    forall k | 0 <= k < |a| ensures a[k].1[..i+1] == b[k].1[..i+1] {
      assert a[k].1 == b[k].1[..n];
    }
  }

  /** One bar before the end of the shorter run: both runs do exactly the same. On its last bar, the same results. */
  lemma SameBar<S>(st: Strategy<S, Dict<Series>>, cfg: BacktestConfig, candles: seq<Candle>, k: nat,
                   a: Dict<Series>, b: Dict<Series>, startA: int, startB: int, i: nat, e: Engine<S>)
    requires i < k <= |candles| && IsPrefix(a, b, k) && AllLength(b, |candles|)
    requires i < startA <==> i < startB
    ensures var x, y := BarStep(st, cfg, candles[..k], a, startA, i, e), BarStep(st, cfg, candles, b, startB, i, e);
      && (i + 1 < k ==> x == y)
      && (if x.Err? then y == x else y.Ok? && SameResults(x.value, y.value))
  {
    hide Visible, FillPending, MarkEquity;
    VisiblePrefix(a, b, k, |candles|, i);
    assert candles[..k][..i+1] == candles[..i+1];
  }

  lemma {:induction false} SameRun<S>(st: Strategy<S, Dict<Series>>, cfg: BacktestConfig, candles: seq<Candle>, k: nat,
                                      a: Dict<Series>, b: Dict<Series>, startA: int, startB: int, capital: real, m: nat)
    requires m <= k <= |candles| && IsPrefix(a, b, k) && AllLength(b, |candles|)
    requires SameUpTo(k, startA, startB)
    ensures var x, y := BarsRun(st, cfg, candles[..k], a, startA, capital, m),
                     BarsRun(st, cfg, candles, b, startB, capital, m);
      && (m < k ==> x == y)
      && (if x.Err? then y == x else y.Ok? && SameResults(x.value, y.value))
  {
    hide BarStep;
    if m > 0 {
      SameRun(st, cfg, candles, k, a, b, startA, startB, capital, m - 1);
      var x := BarsRun(st, cfg, candles[..k], a, startA, capital, m - 1);
      if x.Ok? { SameBar(st, cfg, candles, k, a, b, startA, startB, m - 1, x.value); }
    }
  }

  // ---- Later bars only append ----

  ghost predicate TradesBefore(trades: seq<ExecutedTrade>, from: nat, to: nat) {
    forall j :: 0 <= j < |trades| ==> from <= trades[j].index < to
  }

  lemma {:induction false} RunOnlyAppends<S>(st: Strategy<S, Dict<Series>>, cfg: BacktestConfig, candles: seq<Candle>,
                                             d: Dict<Series>, start: int, capital: real, k: nat, m: nat)
    requires k <= m <= |candles| && AllLength(d, |candles|)
    requires BarsRun(st, cfg, candles, d, start, capital, m).Ok?
    ensures var x, y := BarsRun(st, cfg, candles, d, start, capital, k),
                     BarsRun(st, cfg, candles, d, start, capital, m);
      && x.Ok?
      && |x.value.equity| == k && |y.value.equity| == m && x.value.equity == y.value.equity[..k]
      && |x.value.trades| <= |y.value.trades| && x.value.trades == y.value.trades[..|x.value.trades|]
      && TradesBefore(x.value.trades, 0, k) && TradesBefore(y.value.trades, 0, m)
      && TradesBefore(y.value.trades[|x.value.trades|..], k, m)
    decreases m
  {
    hide BarStep;
    if k < m {
      RunOnlyAppends(st, cfg, candles, d, start, capital, k, m - 1);
      StepAppends(st, cfg, candles, d, start, m - 1, BarsRun(st, cfg, candles, d, start, capital, m - 1).value);
    } else if k > 0 {
      RunOnlyAppends(st, cfg, candles, d, start, capital, k - 1, k - 1);
      StepAppends(st, cfg, candles, d, start, k - 1, BarsRun(st, cfg, candles, d, start, capital, k - 1).value);
    }
  }

  /** One bar appends one equity point and at most one trade, filled on that bar. */
  lemma StepAppends<S>(st: Strategy<S, Dict<Series>>, cfg: BacktestConfig, candles: seq<Candle>, d: Dict<Series>,
                       start: int, i: nat, e: Engine<S>)
    requires i < |candles| && AllLength(d, |candles|) && BarStep(st, cfg, candles, d, start, i, e).Ok?
    ensures var e' := BarStep(st, cfg, candles, d, start, i, e).value;
      && |e'.equity| == |e.equity| + 1 && e'.equity[..|e.equity|] == e.equity
      && (e'.trades == e.trades
          || (&& |e'.trades| == |e.trades| + 1 && e'.trades[..|e.trades|] == e.trades
              && e'.trades[|e.trades|].index == i))
  {
    var filled := FillPending(cfg, candles[i], i, e).value;
    if e.pending.Some? {
      ExecuteStampsIndex(cfg, e.pending.value.0, e.pending.value.1, i, candles[i].ts, candles[i].open, e.book);
    }
    DecideKeeps(st, candles, d, start, i, MarkEquity(candles[i], i, filled));
  }

  lemma ExecuteStampsIndex(cfg: BacktestConfig, s: Signal, signalIndex: nat, i: nat, ts: int, open: real, b: Book)
    ensures var r := Execute(cfg, s, signalIndex, i, ts, open, b);
      r.Ok? && r.value.1.Some? ==> r.value.1.value.index == i && r.value.1.value.signalIndex == signalIndex
  {
  }

  lemma DecideKeeps<S>(st: Strategy<S, Dict<Series>>, candles: seq<Candle>, d: Dict<Series>, start: int, i: nat,
                       e: Engine<S>)
    requires i < |candles| && AllLength(d, |candles|)
    ensures var e' := Decide(st, candles, d, start, i, e);
      e'.book == e.book && e'.trades == e.trades && e'.equity == e.equity
  {
    hide Visible;
  }

  // ---- The theorem ----

  /** The effective start bar on a truncated series opens and closes the gate on the same bars. */
  lemma SameGate<S>(st: Strategy<S, Dict<Series>>, candles: seq<Candle>, k: nat)
    requires 0 < k <= |candles| && AllComputable(st.required)
    ensures var a, b := IndicatorSet(BarsOf(candles[..k]), st.required), IndicatorSet(BarsOf(candles), st.required);
      && IsPrefix(a, b, k) && AllLength(b, |candles|)
      && SameUpTo(k, EffectiveStart(st, a), EffectiveStart(st, b))
  {
    hide IndicatorSet, FirstAllValid, IsFirstAllValid;
    assert BarsOf(candles[..k]) == BarsOf(candles)[..k];
    IndicatorSetIsCausal(BarsOf(candles), st.required, k);
    SetLength(BarsOf(candles), st.required);
    var a, b := IndicatorSet(BarsOf(candles[..k]), st.required), IndicatorSet(BarsOf(candles), st.required);
    FirstAllValidOnPrefix(a, b, k, |candles|, FirstAllValid(a), FirstAllValid(b));
  }

  /**
   * No look-ahead: replaying only the first k candles gives exactly the first k equity points of the
   * full run and exactly the full run's trades filled before bar k; and it raises only if the full run does.
   */
  lemma NoLookAhead<S>(st: Strategy<S, Dict<Series>>, candles: seq<Candle>, k: nat, capital: real, cfg: BacktestConfig)
    requires 0 < k <= |candles|
    ensures var full, part := BacktestOf(st, candles, capital, cfg), BacktestOf(st, candles[..k], capital, cfg);
      && (part.Err? ==> full == part)
      && (full.Ok? ==>
            && part.Ok?
            && k <= |full.value.equity| && part.value.equity == full.value.equity[..k]
            && |part.value.trades| <= |full.value.trades|
            && part.value.trades == full.value.trades[..|part.value.trades|]
            && TradesBefore(part.value.trades, 0, k)
            && TradesBefore(full.value.trades[|part.value.trades|..], k, |candles|))
  {
    hide BarsRun, IndicatorSet, EffectiveStart;
    if capital > 0.0 && AllComputable(st.required) {
      var n := |candles|;
      var a, b := IndicatorSet(BarsOf(candles[..k]), st.required), IndicatorSet(BarsOf(candles), st.required);
      SameGate(st, candles, k);
      SetLength(BarsOf(candles[..k]), st.required);
      var startA, startB := EffectiveStart(st, a), EffectiveStart(st, b);
      SameRun(st, cfg, candles, k, a, b, startA, startB, capital, k);
      if BarsRun(st, cfg, candles, b, startB, capital, k).Err? {
        ErrorSticks(st, cfg, candles, b, startB, capital, k, n);
      }
      if BarsRun(st, cfg, candles, b, startB, capital, n).Ok? {
        RunOnlyAppends(st, cfg, candles, b, startB, capital, k, n);
      }
    }
  }

  /** Two series that share their first k candles lead to the same first k equity points and early trades. */
  lemma SharedPastSameResults<S>(st: Strategy<S, Dict<Series>>, c1: seq<Candle>, c2: seq<Candle>, k: nat, capital: real,
                                 cfg: BacktestConfig)
    requires 0 < k <= |c1| && k <= |c2| && c1[..k] == c2[..k]
    ensures var r1, r2 := BacktestOf(st, c1, capital, cfg), BacktestOf(st, c2, capital, cfg);
      r1.Ok? && r2.Ok? ==>
        && k <= |r1.value.equity| && k <= |r2.value.equity| && r1.value.equity[..k] == r2.value.equity[..k]
        && exists early: nat ::
             && early <= |r1.value.trades| && early <= |r2.value.trades|
             && r1.value.trades[..early] == r2.value.trades[..early]
             && TradesBefore(r1.value.trades[early..], k, |c1|) && TradesBefore(r2.value.trades[early..], k, |c2|)
  {
    hide BacktestOf;
    NoLookAhead(st, c1, k, capital, cfg);
    NoLookAhead(st, c2, k, capital, cfg);
  }
}
