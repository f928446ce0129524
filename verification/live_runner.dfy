/** The live per-bar step, and how it compares with the backtest's. */
module LiveRunner {
  import opened Wrappers
  import opened IndicatorsBatch
  import opened IndicatorsStreaming
  import opened IndicatorViews
  import opened ViewColumns
  import opened ViewTables
  import opened LiveViews
  import opened ViewParity
  import opened Strategies
  import opened CandleFrames
  import opened Backtest

  /** All a strategy can ask an indicator view: each name's current value and its windows of 1 to 500 bars. */
  type Observations = seq<(string, Option<real>, seq<seq<real>>)>

  function LiveWindows(history: seq<real>): (r: seq<seq<real>>)
    ensures |r| == WINDOW_MAXLEN
  {
    seq(WINDOW_MAXLEN, n requires 0 <= n < WINDOW_MAXLEN => LastOfHistory(history, n + 1))
  }

  function BatchWindows(s: Series, i: nat): (r: seq<seq<real>>)
    requires i < |s|
    ensures |r| == WINDOW_MAXLEN
  {
    seq(WINDOW_MAXLEN, n requires 0 <= n < WINDOW_MAXLEN => WindowOf(s, i, n + 1))
  }

  function ObserveTables(latest: Dict<Option<real>>, history: Dict<seq<real>>): Observations
    requires |latest| == |history|
  {
    seq(|latest|, k requires 0 <= k < |latest| =>
      (latest[k].0, latest[k].1, LiveWindows(history[k].1)))
  }

  /** What the live view shows after these bars. */
  ghost function ObserveLive(specs: Specs, bars: seq<Bar>): Observations
    requires AllStreamable(specs)
  {
    var t := TablesAfter(FlatCols(specs), bars);
    TablesKeys(FlatCols(specs), bars, []);
    ObserveTables(t.latest, t.history)
  }

  function ObserveBatch(d: Dict<Series>, i: nat): Observations {
    if exists k :: 0 <= k < |d| && i >= |d[k].1| then []
    else
      seq(|d|, k requires 0 <= k < |d| => (d[k].0, d[k].1[i], BatchWindows(d[k].1, i)))
  }

  /** A strategy written against observations, as the backtest runs it. */
  function ForBacktest<S>(st: Strategy<S, Observations>): Strategy<S, Dict<Series>> {
    Strategy(st.initial, st.warmupBars, st.required,
      (s: S, ctx: Context<Dict<Series>>) =>
        st.onCandle(s, Context(ctx.index, ctx.ts, ctx.candles, ObserveBatch(ctx.indicators, ctx.index), ctx.position)))
  }

  /** Enough candles, and every declared indicator warm. */
  ghost predicate GateOpen<S>(st: Strategy<S, Observations>, candles: seq<Candle>)
    requires AllStreamable(st.required)
  {
    |candles| >= st.warmupBars && Warm(TablesAfter(FlatCols(st.required), BarsOf(candles)).latest)
  }

  /** The live step: the candles received up to now, the position just fetched, the strategy's own state. */
  ghost function LiveAnswer<S>(st: Strategy<S, Observations>, candles: seq<Candle>, position: PositionView,
                               strat: S): (S, Option<Signal>)
    requires candles != [] && AllStreamable(st.required)
  {
    if !GateOpen(st, candles) then (strat, None)
    else
      var i := |candles| - 1;
      st.onCandle(strat, Context(i, candles[i].ts, Normalized(candles), ObserveLive(st.required, BarsOf(candles)),
                                 position))
  }

  class LiveStrategyRunner<S> {
    const strategy: Strategy<S, Observations>
    const indicators: LiveIndicatorView
    var buffer: seq<Candle>
    var barCount: nat
    var strat: S

    ghost predicate Valid()
      reads this, indicators, indicators.repr
    {
      && this !in indicators.repr && indicators.Valid() && indicators.specs == strategy.required
      && barCount == |buffer| && indicators.fed == BarsOf(buffer)
    }

    constructor (strategy: Strategy<S, Observations>, indicators: LiveIndicatorView)
      requires indicators.Valid() && indicators.fed == [] && indicators.specs == strategy.required
      ensures Valid() && buffer == [] && strat == strategy.initial
      ensures this.strategy == strategy && this.indicators == indicators
    {
      this.strategy, this.indicators := strategy, indicators;
      buffer, barCount, strat := [], 0, strategy.initial;
    }

    /** `position` is fetched by the caller right before the call, never cached here. */
    method OnCandle(c: Candle, position: PositionView) returns (signal: Option<Signal>)
      requires Valid()
      modifies this, indicators, indicators.repr
      ensures Valid() && buffer == old(buffer) + [c]
      ensures (strat, signal) == LiveAnswer(strategy, buffer, position, old(strat))
    {
      hide Normalized, FlatCols, TablesAfter, IndAfter, ObserveTables;
      assert BarsOf(buffer + [c]) == BarsOf(buffer) + [BarOf(c)];
      buffer := buffer + [c];
      indicators.Update(c.high, c.low, c.close, BarOf(c));
      barCount := barCount + 1;
      if barCount < strategy.warmupBars { return None; }
      if !indicators.AllWarm() { return None; }
      TablesKeys(FlatCols(indicators.specs), indicators.fed, []);
      var ctx := Context(barCount - 1, c.ts, Normalized(buffer), ObserveTables(indicators.latest, indicators.history),
                         position);
      var (next, answer) := strategy.onCandle(strat, ctx);
      strat := next;
      signal := answer;
    }
  }

  // ---- What the strategy sees ----

  lemma WindowsAgree(col: Col, bars: seq<Bar>, i: nat)
    requires i < |bars|
    ensures var s := Column(col.spec, col.c, bars);
      LiveWindows(LastN(DropNone(s[..i+1]), WINDOW_MAXLEN)) == BatchWindows(s, i)
  {
    hide Column, LastN, DropNone, WindowOf, LastOfHistory, ValidFrom;
    ColumnParity(col, bars, i);
    var s := Column(col.spec, col.c, bars);
    var live, batch := LiveWindows(LastN(DropNone(s[..i+1]), WINDOW_MAXLEN)), BatchWindows(s, i);
    forall n | 0 <= n < WINDOW_MAXLEN ensures live[n] == batch[n] {
      WindowParityIff(s, ValidFrom(col.spec, col.c), i, n + 1);
    }
  }

  /** Under every name, only the last declared column has warmed up. */
  ghost predicate AllSilent(cols: seq<Col>, m: nat) { forall name :: OthersSilent(cols, name, m) }

  /** Entry `k` of either view: the same name, the same value, windows of the same values while others are silent. */
  lemma EntryAgrees(specs: Specs, bars: seq<Bar>, i: nat, k: nat)
    requires AllStreamable(specs) && i < |bars| && AllComputable(specs)
    requires |ObserveLive(specs, bars[..i+1])| == |IndicatorSet(bars, specs)| && k < |IndicatorSet(bars, specs)|
    ensures var (name, s) := IndicatorSet(bars, specs)[k];
      && i < |s|
      && (OthersSilent(FlatCols(specs), name, i + 1) ==>
            ObserveLive(specs, bars[..i+1])[k] == (name, s[i], BatchWindows(s, i)))
      && (!OthersSilent(FlatCols(specs), name, i + 1) && i + 1 < WINDOW_MAXLEN ==>
            ObserveLive(specs, bars[..i+1])[k].2 != BatchWindows(s, i))
  {
    hide Column, FlatCols, IndicatorSet, LiveWindows, BatchWindows, TablesAfter, SetUpTo, UniqueKeys, LastN, DropNone,
         AllPushed, OthersSilent, LastCol, IndexOf, HasKey;
    var cols, now := FlatCols(specs), bars[..i+1];
    var d, t := IndicatorSet(bars, specs), TablesAfter(cols, now);
    var (name, s) := d[k];
    TablesKeys(cols, now, bars);
    IndicatorSetIsSet(bars, specs);
    NameAgrees(specs, bars, i, name);
    LookupAt(d, k);
    LookupAt(t.latest, k);
    TablesLookup(cols, now, name);
    LookupAt(t.history, k);
    TablesHistory(cols, now, name);
    var col := cols[LastCol(cols, |cols|, name).value];
    ColumnPrefix(col.spec, col.c, bars, i + 1);
    assert Column(col.spec, col.c, now) == s[..i+1];
    HistoryIsOwnIff(cols, now, name);
    WindowsAgree(col, bars, i);
    if !OthersSilent(cols, name, i + 1) && i + 1 < WINDOW_MAXLEN {
      LongerHistoryShows(AllPushed(cols, now, name), s, i);
    }
  }

  /** A history with more than the valid values shows in its longest window. */
  lemma LongerHistoryShows(all: seq<real>, s: Series, i: nat)
    requires i < |s| && i + 1 < WINDOW_MAXLEN && |DropNone(s[..i+1])| < |all|
    ensures LiveWindows(LastN(all, WINDOW_MAXLEN)) != BatchWindows(s, i)
  {
    hide DropNone;
    var n := WINDOW_MAXLEN - 1;
    assert s[0..i+1] == s[..i+1];
    TailIsShort(s[..i+1]);
    assert |LiveWindows(LastN(all, WINDOW_MAXLEN))[n]| > |BatchWindows(s, i)[n]|;
  }

  /** At every bar the two views give a strategy the same observations, unless a lost column has warmed up. */
  lemma ObservationsAgree(specs: Specs, bars: seq<Bar>, i: nat)
    requires AllStreamable(specs) && i < |bars| && AllSilent(FlatCols(specs), i + 1)
    ensures AllComputable(specs)
    ensures ObserveLive(specs, bars[..i+1]) == ObserveBatch(IndicatorSet(bars, specs), i)
  {
    hide FlatCols, IndicatorSet, BatchWindows, ObserveLive, OthersSilent;
    SameEntries(specs, bars, i);
    var d := IndicatorSet(bars, specs);
    var live, batch := ObserveLive(specs, bars[..i+1]), ObserveBatch(d, i);
    forall k | 0 <= k < |d| ensures live[k] == batch[k] {
      EntryAgrees(specs, bars, i, k);
    }
  }

  lemma SameEntries(specs: Specs, bars: seq<Bar>, i: nat)
    requires AllStreamable(specs) && i < |bars|
    ensures AllComputable(specs) && AllLength(IndicatorSet(bars, specs), |bars|)
    ensures |ObserveLive(specs, bars[..i+1])| == |IndicatorSet(bars, specs)|
  {
    hide FlatCols, IndicatorSet, TablesAfter, SetUpTo;
    IndicatorSetIsSet(bars, specs);
    SetLength(bars, specs);
    TablesKeys(FlatCols(specs), bars[..i+1], bars);
  }

  /** While fewer than 500 bars were seen, a lost column that has warmed up is always visible. */
  lemma ObservationsAgreeIff(specs: Specs, bars: seq<Bar>, i: nat)
    requires AllStreamable(specs) && i < |bars| && i + 1 < WINDOW_MAXLEN
    ensures AllComputable(specs)
    ensures ObserveLive(specs, bars[..i+1]) == ObserveBatch(IndicatorSet(bars, specs), i)
       <==> AllSilent(FlatCols(specs), i + 1)
  {
    hide FlatCols, IndicatorSet, BatchWindows, ObserveLive, OthersSilent, LastCol;
    SameEntries(specs, bars, i);
    var cols, d := FlatCols(specs), IndicatorSet(bars, specs);
    if AllSilent(cols, i + 1) {
      ObservationsAgree(specs, bars, i);
    } else {
      var name :| !OthersSilent(cols, name, i + 1);
      var k := HeardEntry(specs, bars, i, name);
      EntryAgrees(specs, bars, i, k);
    }
  }

  lemma HeardEntry(specs: Specs, bars: seq<Bar>, i: nat, name: string) returns (k: nat)
    requires AllStreamable(specs) && AllComputable(specs) && i < |bars| && !OthersSilent(FlatCols(specs), name, i + 1)
    ensures k < |IndicatorSet(bars, specs)| && IndicatorSet(bars, specs)[k].0 == name
  {
    hide FlatCols, IndicatorSet, UniqueKeys, TablesAfter, ValidFrom, Column;
    NameAgrees(specs, bars, i, name);
    KnownKey(IndicatorSet(bars, specs), name);
    k := IndexOf(IndicatorSet(bars, specs), name);
  }

  lemma WindowsVisible(s: Series, i: nat)
    requires i < |s|
    ensures BatchWindows(s[..i+1], i) == BatchWindows(s, i)
  {
    hide DropNone;
    var a, b := BatchWindows(s[..i+1], i), BatchWindows(s, i);
    forall n | 0 <= n < WINDOW_MAXLEN ensures a[n] == b[n] {
      var lo := if i - n < 0 then 0 else i - n;
      assert s[..i+1][lo..i+1] == s[lo..i+1];
    }
  }

  /** What can be seen at bar i does not change when the series are cut there. */
  lemma ObserveVisible(d: Dict<Series>, n: nat, i: nat)
    requires AllLength(d, n) && i < n
    ensures ObserveBatch(Visible(d, i), i) == ObserveBatch(d, i)
  {
    hide BatchWindows;
    var v := Visible(d, i);
    var a, b := ObserveBatch(v, i), ObserveBatch(d, i);
    forall k | 0 <= k < |d| ensures a[k] == b[k] {
      WindowsVisible(d[k].1, i);
    }
  }

  // ---- When it is asked ----

  /**
   * Gate parity: after bar i the live runner consults the strategy exactly when i has reached both
   * warmup - 1 and the first all-valid bar; the backtest waits for warmup and the first all-valid bar.
   */
  lemma GateParity<S>(st: Strategy<S, Observations>, candles: seq<Candle>, i: nat)
    requires AllStreamable(st.required) && i < |candles|
    ensures AllComputable(st.required)
    ensures var d := IndicatorSet(BarsOf(candles), st.required);
      && AllLength(d, |candles|)
      && (GateOpen(st, candles[..i+1]) <==> (i >= st.warmupBars - 1 && i >= FirstAllValid(d)))
      && (i >= EffectiveStart(ForBacktest(st), d) <==> (i >= st.warmupBars && i >= FirstAllValid(d)))
  {
    hide IndicatorSet, FirstAllValid, IsFirstAllValid, FlatCols, TablesAfter;
    var bars := BarsOf(candles);
    assert BarsOf(candles[..i+1]) == bars[..i+1];
    IndicatorSetIsSet(bars, st.required);
    SetLength(bars, st.required);
    WarmIff(st.required, bars, i, FirstAllValid(IndicatorSet(bars, st.required)));
  }

  /** The two gates disagree at exactly one bar, if the indicators are valid by then: the last bar of the warm-up. */
  lemma GatesDifferIff<S>(st: Strategy<S, Observations>, candles: seq<Candle>, i: nat)
    requires AllStreamable(st.required) && i < |candles|
    ensures AllComputable(st.required)
    ensures var d := IndicatorSet(BarsOf(candles), st.required);
      && AllLength(d, |candles|)
      && (i >= EffectiveStart(ForBacktest(st), d) ==> GateOpen(st, candles[..i+1]))
      && (GateOpen(st, candles[..i+1]) != (i >= EffectiveStart(ForBacktest(st), d))
          <==> i == st.warmupBars - 1 && i >= FirstAllValid(d))
  {
    hide IndicatorSet, FirstAllValid, IsFirstAllValid, EffectiveStart, ForBacktest, GateOpen;
    GateParity(st, candles, i);
  }

  /** With a warm-up of one bar and no indicators, the first bar reaches the live strategy but not the backtest's. */
  lemma FirstBarIsLiveOnly<S>(st: Strategy<S, Observations>, candles: seq<Candle>)
    requires candles != [] && st.warmupBars == 1 && st.required == []
    ensures GateOpen(st, candles[..1])
    ensures 0 < EffectiveStart(ForBacktest(st), IndicatorSet(BarsOf(candles), st.required))
  {
    GateParity(st, candles, 0);
  }

  /**
   * Context parity: once the backtest's gate is open, the live step and the backtest loop put the same
   * question to the strategy, so from equal strategy state and equal position they get the same answer. The
   * candles keep the frame contract, as the backtest demands of its caller.
   */
  lemma SameQuestion<S>(st: Strategy<S, Observations>, candles: seq<Candle>, i: nat, position: PositionView, strat: S)
    requires AllStreamable(st.required) && i < |candles| && Ascending(candles)
    requires AllSilent(FlatCols(st.required), i + 1)
    ensures AllComputable(st.required)
    ensures var bt, d := ForBacktest(st), IndicatorSet(BarsOf(candles), st.required);
      && AllLength(d, |candles|)
      && (i >= EffectiveStart(bt, d) ==>
            LiveAnswer(st, candles[..i+1], position, strat)
              == bt.onCandle(strat, Context(i, candles[i].ts, candles[..i+1], Visible(d, i), position)))
  {
    hide IndicatorSet, FirstAllValid, IsFirstAllValid, FlatCols, TablesAfter, ObserveBatch, ObserveLive, AllSilent,
         GateOpen, EffectiveStart, Normalized;
    var bars := BarsOf(candles);
    FrameIsKept(candles[..i+1]);
    assert BarsOf(candles[..i+1]) == bars[..i+1];
    ObservationsAgree(st.required, bars, i);
    SetLength(bars, st.required);
    ObserveVisible(IndicatorSet(bars, st.required), |candles|, i);
    GatesDifferIff(st, candles, i);
  }

  // ---- Whole runs ----

  /** The strategy's state and its answers after `m` candles, given the position fetched at each. */
  ghost function LiveRun<S>(st: Strategy<S, Observations>, candles: seq<Candle>, positions: seq<PositionView>,
                            m: nat): (r: (S, seq<Option<Signal>>))
    requires AllStreamable(st.required) && m <= |candles| && m <= |positions|
    ensures |r.1| == m
  {
    if m == 0 then (st.initial, [])
    else
      var (strat, answers) := LiveRun(st, candles, positions, m - 1);
      var (next, answer) := LiveAnswer(st, candles[..m], positions[m-1], strat);
      (next, answers + [answer])
  }

  /** The bar at which only the live gate is open does not exist or lies beyond the first `m` bars. */
  ghost predicate NoGap(warmupBars: int, first: nat, m: nat) {
    warmupBars <= first || warmupBars <= 0 || m < warmupBars
  }

  /** The engine after bar j kept exactly this answer: to be filled next, or as unfilled on the last bar. */
  predicate KeptAnswer<S>(candles: seq<Candle>, j: nat, e: Engine<S>, answer: Option<Signal>)
    requires j < |candles|
  {
    match answer
    case None => e.pending == None && e.unfilled == []
    case Some(s) =>
      if j == |candles| - 1 then e.pending == None && e.unfilled == [UnfilledSignal(j, candles[j].ts, s.direction)]
      else e.pending == Some((s, j)) && e.unfilled == []
  }

  /** Before bar j the live runner was handed the position the backtest held when it asked. */
  ghost predicate SamePositions<S>(bt: Strategy<S, Dict<Series>>, cfg: BacktestConfig, candles: seq<Candle>,
                                   d: Dict<Series>, start: int, capital: real, m: nat, positions: seq<PositionView>)
    requires m <= |candles| && m <= |positions| && AllLength(d, |candles|)
  {
    forall j: nat :: j < m ==> HeldAt(bt, cfg, candles, d, start, capital, j, positions[j])
  }

  /** The position the backtest held when it asked at bar j. */
  ghost predicate HeldAt<S>(bt: Strategy<S, Dict<Series>>, cfg: BacktestConfig, candles: seq<Candle>, d: Dict<Series>,
                            start: int, capital: real, j: nat, position: PositionView)
    requires j < |candles| && AllLength(d, |candles|)
  {
    var run := BarsRun(bt, cfg, candles, d, start, capital, j + 1);
    run.Ok? && position == ViewOf(run.value.book)
  }

  /** One more bar: from equal states both loops end in equal states, with the same answer. */
  lemma NextBarSame<S>(st: Strategy<S, Observations>, cfg: BacktestConfig, candles: seq<Candle>, d: Dict<Series>,
                       start: int, i: nat, e: Engine<S>)
    requires AllStreamable(st.required) && AllComputable(st.required) && i < |candles| && Ascending(candles)
    requires AllSilent(FlatCols(st.required), i + 1)
    requires d == IndicatorSet(BarsOf(candles), st.required) && AllLength(d, |candles|)
    requires start == EffectiveStart(ForBacktest(st), d)
    requires i != st.warmupBars - 1 || i < FirstAllValid(d)
    requires e.unfilled == [] && BarStep(ForBacktest(st), cfg, candles, d, start, i, e).Ok?
    ensures var e' := BarStep(ForBacktest(st), cfg, candles, d, start, i, e).value;
      var (strat, answer) := LiveAnswer(st, candles[..i+1], ViewOf(e'.book), e.strat);
      strat == e'.strat && KeptAnswer(candles, i, e', answer)
  {
    hide IndicatorSet, FirstAllValid, FlatCols, AllSilent, EffectiveStart, Visible, FillLeftover, EquityOf, ForBacktest,
         GateOpen;
    var e' := BarStep(ForBacktest(st), cfg, candles, d, start, i, e).value;
    SameQuestion(st, candles, i, ViewOf(e'.book), e.strat);
    GatesDifferIff(st, candles, i);
  }

  lemma SilentBefore(cols: seq<Col>, m: nat, n: nat)
    requires AllSilent(cols, n) && m <= n
    ensures AllSilent(cols, m)
  {
    hide ValidFrom, LastCol;
    forall name ensures OthersSilent(cols, name, m) { assert OthersSilent(cols, name, n); }
  }

  /** Every answer so far was kept by the engine after its bar. */
  ghost predicate AllKept<S>(bt: Strategy<S, Dict<Series>>, cfg: BacktestConfig, candles: seq<Candle>, d: Dict<Series>,
                             start: int, capital: real, answers: seq<Option<Signal>>)
    requires |answers| <= |candles| && AllLength(d, |candles|)
  {
    forall j: nat :: j < |answers| ==> KeptAt(bt, cfg, candles, d, start, capital, j, answers[j])
  }

  ghost predicate KeptAt<S>(bt: Strategy<S, Dict<Series>>, cfg: BacktestConfig, candles: seq<Candle>, d: Dict<Series>,
                            start: int, capital: real, j: nat, answer: Option<Signal>)
    requires j < |candles| && AllLength(d, |candles|)
  {
    var run := BarsRun(bt, cfg, candles, d, start, capital, j + 1);
    run.Ok? && KeptAnswer(candles, j, run.value, answer)
  }

  lemma AllKeptAppend<S>(bt: Strategy<S, Dict<Series>>, cfg: BacktestConfig, candles: seq<Candle>, d: Dict<Series>,
                         start: int, capital: real, answers: seq<Option<Signal>>, answer: Option<Signal>)
    requires |answers| < |candles| && AllLength(d, |candles|)
    requires AllKept(bt, cfg, candles, d, start, capital, answers)
    requires KeptAt(bt, cfg, candles, d, start, capital, |answers|, answer)
    ensures AllKept(bt, cfg, candles, d, start, capital, answers + [answer])
  {
    hide KeptAt;
  }

  /** Nothing was left unfilled before the last bar. */
  lemma NothingUnfilled<S>(bt: Strategy<S, Dict<Series>>, cfg: BacktestConfig, candles: seq<Candle>, d: Dict<Series>,
                           start: int, capital: real, answers: seq<Option<Signal>>)
    requires |answers| < |candles| && AllLength(d, |candles|)
    requires AllKept(bt, cfg, candles, d, start, capital, answers)
    requires BarsRun(bt, cfg, candles, d, start, capital, |answers|).Ok?
    ensures BarsRun(bt, cfg, candles, d, start, capital, |answers|).value.unfilled == []
  {
    hide BarStep;
    var m := |answers|;
    if m > 0 {
      var run := BarsRun(bt, cfg, candles, d, start, capital, m);
      assert KeptAt(bt, cfg, candles, d, start, capital, m - 1, answers[m-1]);
    }
  }

  lemma PositionsBefore<S>(bt: Strategy<S, Dict<Series>>, cfg: BacktestConfig, candles: seq<Candle>, d: Dict<Series>,
                           start: int, capital: real, m: nat, positions: seq<PositionView>)
    requires 0 < m <= |candles| && m <= |positions| && AllLength(d, |candles|)
    requires SamePositions(bt, cfg, candles, d, start, capital, m, positions)
    ensures SamePositions(bt, cfg, candles, d, start, capital, m - 1, positions)
    ensures HeldAt(bt, cfg, candles, d, start, capital, m - 1, positions[m-1])
  {
    hide HeldAt;
  }

  lemma InitialState<S>(st: Strategy<S, Observations>, cfg: BacktestConfig, candles: seq<Candle>, d: Dict<Series>,
                        start: int, capital: real)
    requires AllLength(d, |candles|)
    ensures BarsRun(ForBacktest(st), cfg, candles, d, start, capital, 0) == Ok(StartEngine(ForBacktest(st), capital))
    ensures StartEngine(ForBacktest(st), capital).strat == st.initial
  {
  }

  /**
   * Run parity: fed the same candles and told the positions the backtest held, the live runner goes through the
   * backtest's strategy states and gives its signals bar by bar, unless the run contains the one bar at which
   * only the live gate is open.
   */
  lemma {:induction false} LiveRunsBacktest<S>(st: Strategy<S, Observations>, cfg: BacktestConfig, candles: seq<Candle>,
                                               d: Dict<Series>, start: int, capital: real, m: nat,
                                               positions: seq<PositionView>)
    requires AllStreamable(st.required) && AllComputable(st.required) && Ascending(candles)
    requires m <= |candles| && m <= |positions| && AllSilent(FlatCols(st.required), m)
    requires d == IndicatorSet(BarsOf(candles), st.required) && AllLength(d, |candles|)
    requires start == EffectiveStart(ForBacktest(st), d) && NoGap(st.warmupBars, FirstAllValid(d), m)
    requires BarsRun(ForBacktest(st), cfg, candles, d, start, capital, m).Ok?
    requires SamePositions(ForBacktest(st), cfg, candles, d, start, capital, m, positions)
    ensures var (strat, answers) := LiveRun(st, candles, positions, m);
      && strat == BarsRun(ForBacktest(st), cfg, candles, d, start, capital, m).value.strat
      && AllKept(ForBacktest(st), cfg, candles, d, start, capital, answers)
  {
    hide IndicatorSet, FirstAllValid, FlatCols, EffectiveStart, ForBacktest, LiveAnswer, BarStep, AllSilent, AllKept,
         SamePositions, KeptAnswer;
    var bt := ForBacktest(st);
    if m == 0 {
      InitialState(st, cfg, candles, d, start, capital);
      NothingKept(bt, cfg, candles, d, start, capital);
    } else {
      SilentBefore(FlatCols(st.required), m - 1, m);
      PositionsBefore(bt, cfg, candles, d, start, capital, m, positions);
      LiveRunsBacktest(st, cfg, candles, d, start, capital, m - 1, positions);
      var e := BarsRun(bt, cfg, candles, d, start, capital, m - 1).value;
      var (strat, answers) := LiveRun(st, candles, positions, m - 1);
      NothingUnfilled(bt, cfg, candles, d, start, capital, answers);
      NextBarSame(st, cfg, candles, d, start, m - 1, e);
      var (next, answer) := LiveAnswer(st, candles[..m], positions[m-1], strat);
      AllKeptAppend(bt, cfg, candles, d, start, capital, answers, answer);
    }
  }

  lemma NothingKept<S>(bt: Strategy<S, Dict<Series>>, cfg: BacktestConfig, candles: seq<Candle>, d: Dict<Series>,
                       start: int, capital: real)
    requires AllLength(d, |candles|)
    ensures AllKept(bt, cfg, candles, d, start, capital, [])
  {
  }

  // ---- The gap is real ----

  /** A strategy that counts how often it is asked and never signals. */
  function CallCounter(warmupBars: int, required: Specs): Strategy<int, Observations> {
    Strategy(0, warmupBars, required, (calls: int, ctx: Context<Observations>) => (calls + 1, None))
  }

  /** How many of the first `m` bars lie at or after `from`. */
  function BarsFrom(from: int, m: nat): nat {
    if m <= from then 0 else if from <= 0 then m else m - from
  }

  lemma {:induction false} LiveCalls(warmupBars: int, required: Specs, candles: seq<Candle>,
                                     positions: seq<PositionView>, m: nat)
    requires AllStreamable(required) && AllComputable(required) && m <= |candles| && m <= |positions|
    ensures AllLength(IndicatorSet(BarsOf(candles), required), |candles|)
    ensures var first := FirstAllValid(IndicatorSet(BarsOf(candles), required));
      LiveRun(CallCounter(warmupBars, required), candles, positions, m).0
        == BarsFrom(if warmupBars - 1 > first then warmupBars - 1 else first, m)
  {
    hide IndicatorSet, FirstAllValid, EffectiveStart, ForBacktest, GateOpen, ObserveLive, Normalized;
    SetLength(BarsOf(candles), required);
    if m > 0 {
      LiveCalls(warmupBars, required, candles, positions, m - 1);
      GateParity(CallCounter(warmupBars, required), candles, m - 1);
    }
  }

  lemma {:induction false} BacktestCalls(warmupBars: int, required: Specs, cfg: BacktestConfig, candles: seq<Candle>,
                                         d: Dict<Series>, start: int, capital: real, m: nat)
    requires m <= |candles| && AllLength(d, |candles|)
    ensures var run := BarsRun(ForBacktest(CallCounter(warmupBars, required)), cfg, candles, d, start, capital, m);
      run.Ok? && run.value.pending == None && run.value.strat == BarsFrom(start, m)
  {
    hide ObserveBatch, EquityOf, Visible;
    if m > 0 { BacktestCalls(warmupBars, required, cfg, candles, d, start, capital, m - 1); }
  }

  /** Run parity needs its condition: a strategy that counts its calls sees the gap exactly when there is one. */
  lemma CallsAgreeIff(warmupBars: int, required: Specs, cfg: BacktestConfig, candles: seq<Candle>, capital: real,
                      m: nat, positions: seq<PositionView>)
    requires AllStreamable(required) && m <= |candles| && m <= |positions|
    ensures AllComputable(required)
    ensures var st, d := CallCounter(warmupBars, required), IndicatorSet(BarsOf(candles), required);
      && AllLength(d, |candles|)
      && var run := BarsRun(ForBacktest(st), cfg, candles, d, EffectiveStart(ForBacktest(st), d), capital, m);
         && run.Ok?
         && (LiveRun(st, candles, positions, m).0 == run.value.strat <==> NoGap(warmupBars, FirstAllValid(d), m))
  {
    hide IndicatorSet, FirstAllValid, LiveRun, BarsRun;
    IndicatorSetIsSet(BarsOf(candles), required);
    SetLength(BarsOf(candles), required);
    var st, d := CallCounter(warmupBars, required), IndicatorSet(BarsOf(candles), required);
    LiveCalls(warmupBars, required, candles, positions, m);
    BacktestCalls(warmupBars, required, cfg, candles, d, EffectiveStart(ForBacktest(st), d), capital, m);
  }
}
