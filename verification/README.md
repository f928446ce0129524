# Verified model of the trading core

This project models the part of the repository that decides, fills, books and replays trades, and proves
what that code promises: the paper broker and its order state machine, the cost model, the analytics that
replay its trades, the backtest engine, the batch and streaming indicators and the two views built on them,
the live broker's polling and startup reconciliation, the risk engine, the kill switch and the orchestrator
around them, and the tick aggregation.

Money, prices and indicator values are exact `real` numbers. Database tables are maps and sequences held in
fields; `session_scope` is an all-or-nothing step, so an exception restores the tables. An exception is a
`Result` error. Candles, strategy answers, broker reports and clock readings are inputs; quotes, equity and the day's
realized P&L follow from them.

Code that updates state in place is a class or a loop here, and each method is proved equal to a function of
the old state (`PaperLedger`, `Backtest`, `KillSwitches`, `RiskGate`, `Orchestration`, `UpstoxOrders`); the
whole-run theorems are about those functions. Run it with `dafny verify dfyconfig.toml`.

## How the files fit together

| file | what it holds |
|---|---|
| `wrappers`, `costs`, `order_states`, `position_book`, `trade_log` | results and errors; slippage, charges and the cash clamp; the order lifecycle; the booking of one fill and what it realizes; the trade log as an independent record |
| `paper_ledger`, `paper_broker` | what each paper operation does to the tables, and the broker object proved to do it |
| `paper_lifecycle`, `paper_accounting`, `fill_outcomes`, `paper_updates` | every operation refines three guarded actions; invariants of all runs; what one attempt books, what becomes of a market order, what a limit order pays; what the updates and the equity tell |
| `journal`, `pnl` | round trips and equity curve rebuilt from the trade log, and their agreement with the broker |
| `indicators_batch`, `indicators_streaming`, `indicator_states`, `indicator_objects` | indicators by bar, incrementally, as stateful objects, and those objects behind one interface |
| `indicator_laws`, `rsi_laws`, `range_laws` | what each indicator says about the prices, without its formula: lags, bounds, symmetries, extremes |
| `indicator_views`, `view_columns`, `view_tables`, `live_view`, `view_parity` | the two indicator views, column by column and as dictionaries, and their equality |
| `candle_frame`, `live_runner` | the frame contract of candles, the live per-bar step, and whole live runs next to the backtest |
| `strategies`, `backtest_engine`, `backtest_lookahead`, `backtest_ledger`, `backtest_vs_paper` | the bar loop, no look-ahead, the backtest's books, and its signals placed with the paper broker |
| `aggregator`, `live_feed` | ticks to bars at two resolutions |
| `upstox_orders`, `upstox_broker`, `polling_sweeps`, `reconcile` | live order reports, polling one order and many, startup reconciliation |
| `kill_switch`, `risk_engine`, `orchestrator`, `exposure`, `unsafe_retries` | the risk gate, what it guarantees over whole sessions, and two sessions that get round it |

## Where the code does not do what one would expect

Each of these is stated exactly, with the condition under which the expectation does hold.

- A limit order can fill worse than its limit, because slippage is added to the bounded price: a fill does exactly when the slipped quote passes the limit (`FillOutcomes.FillBreaksLimitIff`), no trade of any run passes it by more than the slippage (`FillOutcomes.RunKeepsLimits`), and none ever does exactly when slippage is zero (`FillOutcomes.LimitRespectedIff`).
- A BUY clamped to part of its quantity leaves a remainder that a later sweep fills without asking the risk engine. A fill flips a position exactly when it exceeds an opposite one, and adds an open position exactly when there was none (`Exposure.FillEffectIff`). With the repository's own sizer at its largest fraction, one session flips a position and one exceeds the cap (`UnsafeRetries.RetryFlipsPosition`, `UnsafeRetries.RetryExceedsCap`). A session stays within the cap and free of flips if and only if, before each retry, the quantity its remainder, quote and cash allow is safe to fill; candles need no condition (`Exposure.ExposureBoundedIff`). No order is ever left partly filled if and only if no candle's BUY finds cash for one share but not for all (`Exposure.UnclampedSessionIsSettled`).
- A backtest short cover clamped by cash still zeroes the position. A cover is clamped exactly when the cash pays for one share but not for all (`BacktestLedger.CoverOutcomeIff`). The books balance, and the paper broker given the same signals stays equal bar by bar, exactly when that never happened (`BacktestLedger.ConservationIff`, `BacktestVsPaper.PaperReplaysBacktest`); a three-bar run shows one where it did (`BacktestLedger.ClampedCoverVanishes`).
- A journal entry's entry and exit quantities differ exactly when one of its legs closed more than was held (`Journal.EntryQtyMatchesIff`); three paper orders lead to one entered with 1 share and exited with 3 (`Pnl.JournalEntryCanOverClose`).
- The live warm-up gate opens at bar `warmup - 1`, the backtest's at `warmup`: they disagree at exactly that one bar (`LiveRunner.GatesDifferIff`), which is the very first for a one-bar warm-up (`LiveRunner.FirstBarIsLiveOnly`). A run without that bar gives the same strategy states and signals live and in the backtest (`LiveRunner.LiveRunsBacktest`); a strategy that counts its calls tells the two apart exactly on a run with it (`LiveRunner.CallsAgreeIff`).
- The two views' windows of a name differ for more than 500 bars once values were dropped, and for zero or fewer unless the whole history is covered (`ViewParity.ViewWindowsAgreeIff`, with an instance in `ViewParity.LongWindowsDiffer`). When two declared indicators expand to one name, the live history keeps the values of both: a window reaching back before the first valid value differs exactly once the overwritten column has warmed up (`ViewParity.SharedWindowsAgreeIff`, with an instance in `ViewParity.CollidingWindowsDiffer`). Values never differ (`ViewParity.ValuesAgree`).
- The live broker prices each fill increment at the cumulative average, which is right exactly for a first fill or an unchanged average (`UpstoxOrders.IncrementValuedRightIff`). Over a whole order the trades add up to what the broker charged exactly when the average's movements under already filled shares cancel (`UpstoxOrders.BookedValueRightIff`); two reports book 21 for shares that cost 22 (`UpstoxOrders.TwoFillsBookedShort`).
- A report without an average price books nothing: its fill is booked exactly when it shows nothing new or gives a price (`UpstoxOrders.ReportBookedIff`), and over whole polling all shares are booked exactly when some report before the order was finished priced all of them (`UpstoxOrders.PollingBooksAllIff`). One unpriced completion leaves an order FILLED with nothing filled, whatever is reported later (`UpstoxOrders.UnpricedCompletionLosesFill`).
- Cash can go negative exactly when the sell-side rates exceed one (`PaperAccounting.SolventIff`).

## Model

| member | source | states |
|---|---|---|
| Costs.ClampToCash | src/personaltrade/backtest/engine.py:223-231 | the clamp raises exactly for a non-positive price; its result is affordable and every larger quantity up to the request is not |
| Costs.ClampIsGreatestAffordable | src/personaltrade/execution/paper/broker.py:228-238 | a quantity up to the request is affordable if and only if it does not exceed the clamp |
| Costs.ClampMonotone | src/personaltrade/backtest/engine.py:223-231 | the clamp is monotone in cash and antitone in price |
| Costs.ClampExhaustsCash | src/personaltrade/execution/paper/broker.py:228-238 | after a partial clamp the rest of the cash is less than one share's all-in cost, so a second clamp yields nothing |
| Costs.BuyNetStrictlyMonotone | src/personaltrade/backtest/costs.py:44-81 | a larger or dearer BUY always costs strictly more, through the brokerage cap |
| Costs.BuyNetSubadditive | src/personaltrade/backtest/costs.py:52-70 | the capped brokerage makes one lot never dearer than two |
| Costs.SellNetNonNegativeIff | src/personaltrade/backtest/costs.py:66-81 | a SELL never pays out a negative amount if and only if the sell-side rates sum to at most one |
| Costs.ChargesFallOn | src/personaltrade/backtest/costs.py:44-81 | which side and segment pays which charge: tax on both sides of a delivery and on intraday sales only, stamp duty on buyers only, goods and services tax on brokerage and exchange charges only |
| Costs.DefaultCosts | src/personaltrade/backtest/costs.py:44-81 | every charge of a 10,000 order at the default rates, for both sides and segments, and an order that meets the brokerage cap |
| Costs.SlippageIsAdverse | src/personaltrade/backtest/costs.py:35-41 | slippage moves a price against the trader, by the same fraction of it on both sides |
| OrderStates.TransitionKeepsPath | src/personaltrade/data/store/repos.py:112-130 | a transition that is allowed extends the event log along the transition table |
| OrderStates.LifeOnlyMovesOn | src/personaltrade/core/enums.py:43-79 | every transition leads to a later stage, only a partial fill repeats, and exactly the last stage has no way on |
| PositionBook.FillConserves | src/personaltrade/execution/paper/broker.py:291-332 | booking a fill changes cash plus book value by exactly what the leg realizes, over-closing legs included |
| PositionBook.OpeningLeg | src/personaltrade/execution/paper/broker.py:291-332 | a leg from flat realizes nothing and its shares cost its net amount |
| PositionBook.AddingLeg | src/personaltrade/execution/paper/broker.py:291-332 | an adding leg realizes nothing, puts its net amount on top of the cost, and leaves an average between the old one and its own |
| PositionBook.ClosingLeg | src/personaltrade/execution/paper/broker.py:291-332 | a closing leg, partial or not, realizes its cash flow against the average cost of the shares it closes; what is left keeps that average |
| PositionBook.ClosingSplits | src/personaltrade/execution/paper/broker.py:291-332 | closing in two legs realizes, and leaves, what closing in one leg for both amounts does |
| PositionBook.OpeningSplits | src/personaltrade/execution/paper/broker.py:291-332 | building in two legs leaves what building in one leg for both amounts does |
| PositionBook.HalfCloseRealizesHalf | src/personaltrade/execution/paper/broker.py:321-331 | ten shares at 100, five sold for 550 net: 50 is realized, five at 100 are left |
| PositionBook.SignFlipsIffOverClosing | src/personaltrade/execution/paper/broker.py:291-332 | a position changes sign in one fill if and only if the fill closes more than is held |
| TradeLog.BookedConservation | src/personaltrade/execution/paper/broker.py:291-332 | for one instrument's trades, cash flow plus book value equals realized P&L, and the trades' realized P&L adds up to the row's |
| PaperBrokers.PaperBroker.Place | src/personaltrade/execution/paper/broker.py:79-109 | placing rewrites every table as `PaperLedger.PlaceOrder` says and keeps the reachable-state invariant |
| PaperBrokers.PaperBroker.CancelById | src/personaltrade/execution/paper/broker.py:111-127 | cancelling acts only on a live order, and raises only for an unknown one |
| PaperBrokers.PaperBroker.CheckResting | src/personaltrade/execution/paper/broker.py:164-177 | the sweep retries the listed orders oldest first, stops at the first exception, and returns exactly the updates it queued |
| PaperBrokers.PaperBroker.AttemptFill | src/personaltrade/execution/paper/broker.py:179-226 | one fill attempt equals `PaperLedger.TryFill`: no quote, limit not marketable, clamped to nothing, partial and full fill |
| PaperBrokers.PaperBroker.DoExecuteFill | src/personaltrade/execution/paper/broker.py:240-289 | a fill writes account, position, order, trade and event together |
| PaperBrokers.PaperBroker.ApplyFillToPosition | src/personaltrade/execution/paper/broker.py:291-332 | the branching update of the position row and the cash equals `PositionBook.ApplyFill` |
| PaperBrokers.PaperBroker.Clamp | src/personaltrade/execution/paper/broker.py:228-238 | the decrementing loop finds the greatest affordable quantity |
| PaperBrokers.PaperBroker.TransitionOrder | src/personaltrade/data/store/repos.py:112-130 | an illegal transition raises and leaves the row alone; a legal one sets the state and appends one event |
| PaperBrokers.PaperBroker.StreamOrderUpdates | src/personaltrade/execution/paper/broker.py:157-162 | draining returns the queued updates in order and empties the queue |
| PaperBrokers.PaperBroker.GetFunds | src/personaltrade/execution/paper/broker.py:148-155 | equity is cash plus every position at its quote, a missing or zero quote counting as the average price |
| PaperLifecycle.TryFillRefines | src/personaltrade/execution/paper/broker.py:179-226 | a fill attempt does nothing, cancels the order, or books one fill that is allowed and affordable; no other order changes |
| PaperLifecycle.TryFillIsPlanned | src/personaltrade/execution/paper/broker.py:179-226 | what an attempt does follows from remainder, quote and cash before it: nothing, a cancellation, or a fill of a known quantity at a known price |
| PaperLifecycle.StepRefines | src/personaltrade/execution/paper/broker.py:79-177 | every operation, exceptions included, is a sequence of guarded actions and raises no illegal transition |
| PaperLifecycle.OrderLifecycle | src/personaltrade/core/enums.py:43-79 | after any operations each log is a path of the table of at most qty + 4 rows, trades add up to filled quantity, and the state says exactly how full the order is |
| PaperLifecycle.CancelIsFinal | src/personaltrade/execution/paper/broker.py:111-127 | cancelling an unknown order raises and changes nothing; a known one is finished for good, whatever is placed, cancelled or retried later |
| PaperAccounting.TotalUpdate | src/personaltrade/execution/paper/broker.py:291-332 | writing one position row changes a column's total by the change in that row |
| PaperAccounting.StepKeepsBooks | src/personaltrade/execution/paper/broker.py:79-177 | every operation keeps cash, positions and trade log in agreement |
| PaperAccounting.LedgerConservation | src/personaltrade/execution/paper/broker.py:240-332 | after any operations cash plus the signed cost of all positions equals initial cash plus all realized P&L |
| PaperAccounting.SolventIff | src/personaltrade/execution/paper/broker.py:208-226 | no run from a non-negative account goes below zero if and only if the sell-side rates sum to at most one |
| PaperAccounting.ClampedRemainderIsCancelled | src/personaltrade/execution/paper/broker.py:210-238 | after a partial BUY, the next attempt at the same quote with no cash added cancels the remainder and books nothing |
| FillOutcomes.TryFillBooks | src/personaltrade/execution/paper/broker.py:179-226 | a fill attempt books exactly the shares it was going to fill, none or in one trade, at the slipped reference price |
| FillOutcomes.PlaceBooks | src/personaltrade/execution/paper/broker.py:79-109 | an accepted order has a positive quantity and books nothing or one trade of at most that |
| FillOutcomes.MarketOrderOutcome | src/personaltrade/execution/paper/broker.py:179-226 | a market order ends FILLED if and only if all of it is affordable, CANCELLED if and only if not one share is, and otherwise rests; it books exactly what the cash pays for, in one trade |
| FillOutcomes.FillBreaksLimitIff | src/personaltrade/execution/paper/broker.py:194-212 | a fill of a limit order is worse than its limit if and only if the slipped quote is |
| FillOutcomes.RunKeepsLimits | src/personaltrade/execution/paper/broker.py:194-212 | in every run each trade of a limit order is within its limit, give or take the slippage, however large |
| FillOutcomes.LimitRespectedIff | src/personaltrade/execution/paper/broker.py:194-212 | all trades of all runs respect their limits if and only if slippage is zero |
| PaperUpdates.RunTells | src/personaltrade/execution/paper/broker.py:157-162 | in every run the latest update about an order shows its state and filled quantity, and the updates report every trade in order |
| PaperUpdates.AttemptedIff | src/personaltrade/execution/paper/broker.py:179-206 | an attempt is made exactly with a remainder, a quote and a limit the quote meets, and always at the slipped quote |
| PaperUpdates.EquityIs | src/personaltrade/execution/paper/broker.py:148-155 | in every run equity is initial cash plus all realized P&L plus what open positions have gained at the quotes |
| Journal.TracksAll | src/personaltrade/analytics/journal.py:96-123 | replaying the log follows the booked position, and the closed episodes are consecutive stretches that account for all their money and shares |
| Journal.EntryConservation | src/personaltrade/analytics/journal.py:68-93 | an entry's realized P&L is what its legs sold for less what they cost, less all charges, whatever happened in between |
| Journal.EntryQtyMatchesIff | src/personaltrade/analytics/journal.py:68-93 | entry and exit quantities are equal if and only if no leg over-closed |
| Journal.EntryIdentity | src/personaltrade/analytics/journal.py:68-93 | with no over-closing leg, realized P&L is the signed difference of average prices times quantity less costs |
| Journal.EntryAverages | src/personaltrade/analytics/journal.py:68-93 | an entry's quantity adds up its entry legs, each price times its legs' quantity is what those legs were worth, and each lies between its cheapest and dearest leg |
| Journal.SingleLegEntry | src/personaltrade/analytics/journal.py:68-93 | a round trip of one leg in and one out has their own quantity, prices and costs |
| Journal.EpisodesForInstrument | src/personaltrade/analytics/journal.py:96-123 | the loop yields one entry per closed round trip, in order |
| Pnl.EquityCurveFromTrades | src/personaltrade/analytics/pnl.py:50-67 | the curve has a point before the first and after every trade, each the initial cash plus the net flow so far |
| Pnl.SumRealizedPnl | src/personaltrade/data/store/repos.py:202-207 | summing the realized P&L of the trades given skips legs that realized nothing and equals the total realized |
| Pnl.SumRealizedPnlSince | src/personaltrade/data/store/repos.py:190-207 | the loop over trades since a date sums what they realized, legs that realized nothing left out |
| Pnl.SinceIsTail | src/personaltrade/data/store/repos.py:190-207 | on a log in time order, the sum since a date is the total of a tail of the log |
| Pnl.LedgerAgreesWithAnalytics | src/personaltrade/analytics/pnl.py:50-67 | after any operations the account ends where the curve ends, realized P&L adds up per instrument and in total, and the journal's open tail is the position |
| Pnl.RunJournal | src/personaltrade/analytics/journal.py:68-123 | every journal entry of every paper run satisfies conservation, and the identity unless a leg over-closed |
| Pnl.RunEntryAverages | src/personaltrade/analytics/journal.py:68-93 | the same quantity and price averages for every journal entry of every paper run |
| Pnl.RunTradesRealize | src/personaltrade/execution/paper/broker.py:291-332 | in every run an adding trade realizes nothing, and a closing one realizes its cash flow against the average cost before it, which the rest of the position keeps |
| Pnl.JournalEntryCanOverClose | src/personaltrade/analytics/journal.py:68-93 | a concrete paper run whose one journal entry has entry quantity 1 and exit quantity 3 |
| IndicatorsBatch.Ema | src/personaltrade/indicators/batch.py:28-38 | the loop fills each bar with the EMA seeded by the first mean, NaN before |
| IndicatorsBatch.Rsi | src/personaltrade/indicators/batch.py:41-64 | the loop fills each bar with the RSI of Wilder's averages |
| IndicatorsBatch.Atr | src/personaltrade/indicators/batch.py:91-111 | the loop fills each bar with Wilder's average of the true ranges |
| IndicatorsBatch.Supertrend | src/personaltrade/indicators/batch.py:132-175 | the loop that carries two bands fills each bar with the Supertrend and its direction |
| IndicatorLaws.SmaRolls | src/personaltrade/indicators/batch.py:23-25 | from bar to bar the average drops the oldest value and takes in the newest with equal weight |
| IndicatorLaws.SmaOfLine | src/personaltrade/indicators/batch.py:23-25 | on a steady move the average is (period - 1) / 2 bars behind |
| IndicatorLaws.EmaOfLine | src/personaltrade/indicators/batch.py:28-38 | the EMA is behind a steady move by just as much at every bar, which fixes its weight and its seed |
| IndicatorLaws.EmaAffine | src/personaltrade/indicators/batch.py:28-38 | scaling and shifting the prices scales and shifts the EMA |
| IndicatorLaws.EmaWithin | src/personaltrade/indicators/batch.py:28-38 | the EMA never leaves the range of the values seen |
| IndicatorLaws.WilderIsSlowEma | src/personaltrade/indicators/batch.py:41-58 | one step of Wilder's smoothing over p bars is one EMA step over 2p - 1 |
| RsiLaws.RsiIsShare | src/personaltrade/indicators/batch.py:41-64 | the RSI is the gains' percentage of the average movement, and 50 when nothing moved |
| RsiLaws.FirstRsi | src/personaltrade/indicators/batch.py:41-58 | the first RSI is the sum of rises among all moves of the first period, and rises less falls are the net move |
| RsiLaws.RsiExtremes | src/personaltrade/indicators/batch.py:41-64 | the RSI is within 0 and 100; 100 exactly if some close rose and none fell, 0 exactly if some fell and none rose, 50 if none moved |
| RsiLaws.RsiReflects | src/personaltrade/indicators/batch.py:41-64 | turning the closes upside down turns the RSI into its complement to 100 |
| RsiLaws.RsiScales | src/personaltrade/indicators/batch.py:41-64 | scaling and shifting the prices leaves the RSI alone |
| RsiLaws.RsiExamples | src/personaltrade/indicators/batch.py:41-64 | closes 1, 2, 3 with period 2 give 100, and a rise of one after a fall of three gives 25 |
| RangeLaws.TrueRangeIsSpan | src/personaltrade/indicators/batch.py:91-98 | the true range is the length of the shortest interval with the bar and the last close |
| RangeLaws.TrueRangesSpan | src/personaltrade/indicators/batch.py:91-98 | the same for every bar of a series, whose first range is its own |
| RangeLaws.AtrMoves | src/personaltrade/indicators/batch.py:101-111 | the first ATR is the mean of the first ranges; each later range moves it a period-th of the way |
| RangeLaws.AtrWithin | src/personaltrade/indicators/batch.py:101-111 | the ATR stays between the smallest and the largest range seen |
| RangeLaws.MacdOfLine | src/personaltrade/indicators/batch.py:67-78 | on a steady move the MACD line is the move times the difference of the two lags |
| RangeLaws.MacdSettles | src/personaltrade/indicators/batch.py:67-78 | there the signal equals the line and the histogram is zero, from the signal's first valid bar on |
| RangeLaws.MacdAffine | src/personaltrade/indicators/batch.py:67-78 | shifting prices leaves the line alone, scaling them scales it |
| RangeLaws.VarianceIs | src/personaltrade/indicators/batch.py:81-88 | the variance is the mean square less the squared mean over the whole window, and zero exactly if all values are equal |
| RangeLaws.BandsAre | src/personaltrade/indicators/batch.py:81-88 | the middle band is the moving average; the others lie symmetrically, their squared distance the squared factor times the variance |
| RangeLaws.FirstVwapOfDay | src/personaltrade/indicators/batch.py:114-122 | the first traded bar of a day has its own typical price, whatever came on other days |
| RangeLaws.VwapMoves | src/personaltrade/indicators/batch.py:114-122 | each further bar of the day moves the price by its share of the day's volume |
| RangeLaws.ObvMoves | src/personaltrade/indicators/batch.py:125-129 | on-balance volume starts at zero, gains a rising bar's volume, loses a falling one's, and stands still otherwise |
| RangeLaws.ObvReflects | src/personaltrade/indicators/batch.py:125-129 | turning the closes upside down negates it |
| RangeLaws.BasicBandsAre | src/personaltrade/indicators/batch.py:132-175 | the basic bands are centred on the bar's middle, the multiplier times the ATR away |
| RangeLaws.TrendStarts | src/personaltrade/indicators/batch.py:132-175 | the trend starts with the first ATR, up exactly if that bar closes above its middle; before, there is no line and direction 0 |
| RangeLaws.StopOnlyTightens | src/personaltrade/indicators/batch.py:132-175 | while the trend holds its line never moves away from the price, and the close stays on its side |
| RangeLaws.TurnsIff | src/personaltrade/indicators/batch.py:132-175 | the trend turns exactly when a close crosses the line it rested on or the new basic band |
| RangeLaws.CandlesAreRead | src/personaltrade/backtest/indicator_bridge.py:26-65 | which of a candle's prices reach the averages, the ranges and the volume-weighted price |
| IndicatorsStreaming.SmaRefines | src/personaltrade/indicators/streaming.py:18-28 | the streaming SMA returns None exactly where the batch one is NaN, and otherwise its value |
| IndicatorsStreaming.EmaRefines | src/personaltrade/indicators/streaming.py:31-49 | the same for the EMA |
| IndicatorsStreaming.RsiRefines | src/personaltrade/indicators/streaming.py:52-83 | the same for the RSI |
| IndicatorsStreaming.AtrRefines | src/personaltrade/indicators/streaming.py:86-110 | the same for the ATR |
| IndicatorsStreaming.MacdRefines | src/personaltrade/indicators/streaming.py:120-138 | the same for the MACD, whose signal is an EMA over the valid part of the line only |
| IndicatorsStreaming.BollingerRefines | src/personaltrade/indicators/streaming.py:141-156 | the same for the bands, for any square root |
| IndicatorStates.SMAState.Update | src/personaltrade/indicators/streaming.py:24-28 | the object's update is the batch value of everything fed so far |
| IndicatorStates.EMAState.Update | src/personaltrade/indicators/streaming.py:41-49 | the same for the EMA object |
| IndicatorStates.RSIState.Update | src/personaltrade/indicators/streaming.py:64-83 | the same for the RSI object |
| IndicatorStates.ATRState.Update | src/personaltrade/indicators/streaming.py:96-110 | the same for the ATR object |
| IndicatorStates.MACDState.Update | src/personaltrade/indicators/streaming.py:130-138 | the same for the MACD object |
| IndicatorStates.BollingerState.Update | src/personaltrade/indicators/streaming.py:150-156 | the same for the Bollinger object |
| IndicatorViews.ColumnsAreCausal | src/personaltrade/indicators/batch.py:23-175 | no indicator's value at a bar depends on later bars |
| IndicatorViews.ColumnValidIff | src/personaltrade/indicators/batch.py:23-175 | each column is valid exactly from its warm-up bar on, the volume-weighted price exactly once its day has volume |
| IndicatorViews.ComputeIndicatorSet | src/personaltrade/backtest/indicator_bridge.py:82-106 | the loop computes every declared column, or the first declaration error |
| IndicatorViews.IndicatorSetIsCausal | src/personaltrade/backtest/indicator_bridge.py:82-106 | precomputing over a truncated series gives the truncated set |
| IndicatorViews.FirstAllValidIndex | src/personaltrade/backtest/indicator_bridge.py:109-122 | the scan finds the first bar at which every series is valid, or the length |
| IndicatorViews.FirstAllValidOnPrefix | src/personaltrade/backtest/indicator_bridge.py:109-122 | on a truncated series the first valid bar is the same, or lies past the end |
| ViewColumns.IndRefines | src/personaltrade/orchestrator/indicator_bridge.py:57-64 | one update of any declared indicator yields the batch columns of the bars so far |
| ViewColumns.StreamingRefinesBatch | src/personaltrade/indicators/streaming.py:18-156 | for every bar sequence and legal parameters, the streamed outputs equal the batch ones bar by bar |
| IndicatorObjects.FeedObject | src/personaltrade/orchestrator/indicator_bridge.py:57-87 | feeding one bar to any declared indicator's object answers the batch columns at that bar |
| ViewTables.TablesLookup | src/personaltrade/orchestrator/indicator_bridge.py:72-88 | whatever names collide, a name's latest value is that of the last column declared with it |
| ViewTables.TablesHistory | src/personaltrade/orchestrator/indicator_bridge.py:84-88 | whatever names collide, a name's history is the last 500 of all valid values its columns ever gave |
| ViewTables.HistoryIsOwnIff | src/personaltrade/orchestrator/indicator_bridge.py:72-88 | that history is the last declared column's own while the others have not warmed up, and longer afterwards |
| ViewTables.TablesKeys | src/personaltrade/orchestrator/indicator_bridge.py:72-88 | both dictionaries list the keys of the batch set, in its order |
| LiveViews.LiveIndicatorView.Create | src/personaltrade/orchestrator/indicator_bridge.py:72-82 | a view is built exactly for known kinds and legal parameters, whatever names they expand to |
| LiveViews.LiveIndicatorView.Update | src/personaltrade/orchestrator/indicator_bridge.py:84-88 | an update leaves the two dictionaries as `ViewTables.TablesAfter` says for all bars fed |
| ViewParity.WindowParityIff | src/personaltrade/orchestrator/indicator_bridge.py:104-112 | a live window equals the batch one if and only if it asks for at most 500 bars or nothing was dropped yet |
| ViewParity.NonPositiveWindowIff | src/personaltrade/backtest/indicator_bridge.py:141-145 | for n of zero or less the two agree if and only if the live history has at most -n values |
| ViewParity.ViewsAgree | src/personaltrade/orchestrator/indicator_bridge.py:84-112 | at every bar both views give every name the same value, and the same windows of 1 to 500 bars while no overwritten column of that name has warmed up |
| ViewParity.ValuesAgree | src/personaltrade/orchestrator/indicator_bridge.py:90-102 | at every bar both views answer every name's value alike, also when names collide |
| ViewParity.ViewWindowsAgreeIff | src/personaltrade/orchestrator/indicator_bridge.py:104-112 | for such a name and any number of bars, the windows agree if and only if nothing was dropped that is asked for, or a non-positive number covers the whole history |
| ViewParity.SharedWindowsAgreeIff | src/personaltrade/orchestrator/indicator_bridge.py:72-112 | a window longer than the valid values so far agrees if and only if no overwritten column of the name has warmed up |
| ViewParity.LongWindowsDiffer | src/personaltrade/orchestrator/indicator_bridge.py:104-112 | 501 bars asked for at bar 500: one view answers 501 values, the other 500 |
| ViewParity.CollidingWindowsDiffer | src/personaltrade/orchestrator/indicator_bridge.py:72-88 | two indicators that share a column name: after one bar the live window has a value and the batch window none |
| ViewParity.WarmIff | src/personaltrade/orchestrator/indicator_bridge.py:90-94 | the live view is warm if and only if the bar has reached the batch set's first all-valid index |
| ViewParity.PlainNames | src/personaltrade/backtest/indicator_bridge.py:26-65 | each single-column indicator answers under its plain name, from the prices or bars it is made for |
| ViewParity.MacdNames | src/personaltrade/backtest/indicator_bridge.py:42-43 | the three names of a MACD show its line, its signal and their difference |
| ViewParity.BollingerNames | src/personaltrade/backtest/indicator_bridge.py:46-47 | the three names of a Bollinger indicator show its middle, upper and lower band |
| ViewParity.SupertrendNames | src/personaltrade/backtest/indicator_bridge.py:60-61 | the two names of a Supertrend show its line and its direction |
| Backtest.Portfolio.OpenOrAdd | src/personaltrade/backtest/engine.py:234-246 | opening or adding folds the costs into the average price |
| Backtest.Portfolio.Close | src/personaltrade/backtest/engine.py:249-259 | closing realizes the leg and zeroes the whole position, whatever quantity was traded |
| Backtest.Clamp | src/personaltrade/backtest/engine.py:223-231 | the loop is the same clamp as the paper broker's |
| Backtest.ExecuteSignal | src/personaltrade/backtest/engine.py:262-316 | one pending signal resolves, sizes, slips, clamps and books as `Backtest.Execute` says |
| Backtest.RunBacktest | src/personaltrade/backtest/engine.py:106-198 | the bar loop computes `Backtest.BacktestOf` for every strategy and series |
| BacktestLookAhead.NoLookAhead | src/personaltrade/backtest/engine.py:127-191 | a run on the first k candles gives exactly the first k equity points and the trades before bar k of the full run |
| BacktestLookAhead.SharedPastSameResults | src/personaltrade/backtest/engine.py:127-191 | two series sharing k candles lead to the same first k equity points and early trades |
| BacktestLedger.RunShape | src/personaltrade/backtest/engine.py:139-191 | opens and closes alternate, each trade fills one bar after its signal, the book holds exactly the last open, one equity point per bar |
| BacktestLedger.RefusedUpFront | src/personaltrade/backtest/engine.py:113-126 | what is refused before the first bar: no candles, no capital, an indicator that cannot be computed |
| BacktestLedger.EquityCurve | src/personaltrade/backtest/engine.py:162-172 | point j of every finished run holds the cash and quantity of the book after j + 1 bars, that quantity at the bar's close, and their sum |
| BacktestLedger.TradesAtOpens | src/personaltrade/backtest/engine.py:262-316 | every trade of a run fills at the slipped open of its bar and carries that bar's time |
| BacktestLedger.QuestionAsked | src/personaltrade/backtest/engine.py:174-184 | once its gate is open the strategy is asked once a bar, with the candles up to it and the position of its equity point; before, never |
| BacktestLedger.CoverOutcomeIff | src/personaltrade/backtest/engine.py:287-305 | a cover trades fewer shares than held, all of them, or none exactly as the cash pays for one share only, for all, or not for one |
| BacktestLedger.ClosesInFullIff | src/personaltrade/backtest/engine.py:287-305 | every close of a run was a full one if and only if no cover was about to be clamped when it was filled |
| BacktestLedger.ConservationIff | src/personaltrade/backtest/engine.py:249-316 | at every bar the books balance if and only if no cover so far found cash for one share but not for all |
| BacktestLedger.UnclampedRunConserves | src/personaltrade/backtest/engine.py:234-316 | whatever the rates, a run without a clamped cover balances at every bar |
| BacktestLedger.MarkToMarket | src/personaltrade/backtest/engine.py:162-172 | whatever the rates, without a clamped cover equity is capital plus realized P&L plus quantity times close less average price, at every bar |
| BacktestLedger.MarkToMarketIff | src/personaltrade/backtest/engine.py:162-172 | at every bar that holds if and only if no cover was clamped so far |
| BacktestLedger.LongOnlyClosesInFull | src/personaltrade/backtest/engine.py:287-305 | a run that opens no short closes every position in full |
| BacktestLedger.RoundTripPnlIff | src/personaltrade/backtest/engine.py:249-259 | a close realizes SELL net less BUY net of its pair if and only if it closed in full |
| BacktestLedger.ClampedCoverVanishes | src/personaltrade/backtest/engine.py:249-305 | a concrete run in which a clamped cover leaves one share unpaid and the books out of balance |
| BacktestLedger.RunIsSolvent | src/personaltrade/backtest/engine.py:287-305 | cash is never negative at any bar |
| BacktestLedger.LedgersInLockstep | src/personaltrade/backtest/engine.py:234-259 | fed the same fills with full closes, the backtest and the paper ledger have equal cash, quantity, average price and realized P&L throughout |
| BacktestVsPaper.PaperReplaysBacktest | src/personaltrade/backtest/engine.py:106-198 | place every quantity the signals ask for as a market order at the open it fills on and cancel the rest: account and trades equal the backtest's at every bar if and only if no cover was clamped |
| BacktestVsPaper.ExecuteIs | src/personaltrade/backtest/engine.py:262-316 | one pending signal fills what the paper broker would fill of the quantity it asks for |
| LiveRunner.LiveStrategyRunner.OnCandle | src/personaltrade/orchestrator/runner.py:24-47 | the step appends, updates, and answers as `LiveRunner.LiveAnswer` says: the strategy is consulted, with the sorted and deduplicated frame, exactly when both gates are open |
| LiveRunner.ObservationsAgree | src/personaltrade/orchestrator/indicator_bridge.py:84-135 | everything a strategy can observe through the live view it observes through the batch view, unless an overwritten column has warmed up |
| LiveRunner.ObservationsAgreeIff | src/personaltrade/orchestrator/indicator_bridge.py:84-135 | before bar 499 the observations agree if and only if no overwritten column has warmed up |
| LiveRunner.GateParity | src/personaltrade/orchestrator/runner.py:33-38 | the live gate is open exactly from max(warmup - 1, first valid), the backtest's from max(warmup, first valid) |
| LiveRunner.GatesDifferIff | src/personaltrade/orchestrator/runner.py:35-38 | the gates disagree if and only if the bar is the last of the warm-up and the indicators are valid |
| LiveRunner.FirstBarIsLiveOnly | src/personaltrade/orchestrator/runner.py:35-38 | a one-bar warm-up without indicators: the first bar reaches the live strategy only |
| LiveRunner.SameQuestion | src/personaltrade/backtest/engine.py:174-184 | once the backtest's gate is open both loops put the same question to the strategy |
| LiveRunner.LiveRunsBacktest | src/personaltrade/orchestrator/runner.py:24-47 | fed the same candles and told the backtest's positions, the live runner goes through the same strategy states and gives the same signals bar by bar, unless the run contains the last warm-up bar with valid indicators |
| LiveRunner.CallsAgreeIff | src/personaltrade/backtest/engine.py:127-191 | a strategy that counts its calls counts the same in both loops if and only if the run does not contain that bar |
| CandleFrames.NormalizedIsFrame | src/personaltrade/data/providers/base.py:90-101 | the normalized frame ascends strictly and holds exactly the last row of each time |
| CandleFrames.FrameIsKept | src/personaltrade/data/providers/base.py:90-101 | a frame that already ascends is left alone |
| Aggregation.RunsAreMaximal | src/personaltrade/data/live/aggregator.py:56-79 | the ticks of the bars are a split into maximal runs of equal bucket |
| Aggregation.MaximalRunsAreUnique | src/personaltrade/data/live/aggregator.py:56-79 | there is no other such split |
| Aggregation.BarsSummarizeRuns | src/personaltrade/data/live/aggregator.py:56-106 | each bar is first, maximum, minimum, last and total of its run |
| Aggregation.VolumeConserved | src/personaltrade/data/live/aggregator.py:56-106 | the bars' volume is the ticks' volume |
| Aggregation.BarStartsIncrease | src/personaltrade/data/live/aggregator.py:90-93 | bar starts strictly increase when tick times never decrease |
| Aggregation.StartsOnTheClock | src/personaltrade/data/live/aggregator.py:22-25 | minute bars start on whole minutes, quarter-hour bars on whole quarters, and hold only what is less than their length later; a day is not aggregated |
| Aggregation.BucketHolds | src/personaltrade/data/live/aggregator.py:90-93 | a bucket starts on a multiple of its length and contains its ticks |
| Aggregation.EpochHolds | src/personaltrade/data/live/aggregator.py:90-93 | a tick since 1970 falls in the second it has begun |
| Aggregation.BarsNest | src/personaltrade/data/live/aggregator.py:90-93 | the 15-minute bars of any ticks are the 15-minute regrouping of their 1-minute bars |
| Aggregation.CandleAggregator.Create | src/personaltrade/data/live/aggregator.py:44-54 | construction raises exactly for intervals it does not aggregate |
| Aggregation.CandleAggregator.AddTick | src/personaltrade/data/live/aggregator.py:56-79 | emitted bars plus the one in progress are always the bars of the ticks fed |
| Aggregation.CandleAggregator.Flush | src/personaltrade/data/live/aggregator.py:81-88 | emitted bars plus the flushed one are exactly the bars of the session |
| LiveFeeds.LiveFeed.OnTick | src/personaltrade/data/live/feed.py:71-77 | fanning out keeps every subscription's completed bars those of its own instrument and resolution, an interval listed twice receiving each twice |
| LiveFeeds.LiveFeed.Flush | src/personaltrade/data/live/feed.py:96-103 | after the flush each subscription has received exactly its bars, as often as it is listed, and 15-minute bars regroup the 1-minute bars |
| LiveFeeds.FeedNests | src/personaltrade/data/live/feed.py:71-103 | two resolutions of the same ticks nest |
| LiveFeeds.FeedsApart | src/personaltrade/data/live/feed.py:71-77 | a tick of another instrument changes none of an instrument's bars |
| UpstoxOrders.ReportRaisesIff | src/personaltrade/execution/upstox/broker.py:355-404 | the exact reports that make a poll raise |
| UpstoxOrders.ReportEffect | src/personaltrade/execution/upstox/broker.py:355-404 | a successful report books at most one trade, for exactly the newly filled shares at the reported price, realizing what booking it realizes, and sets the reported state |
| UpstoxOrders.ReportedState | src/personaltrade/execution/upstox/broker.py:88-107 | in any letter case an accepted report leaves the order FILLED exactly for "complete", REJECTED_BROKER exactly for "rejected", CANCELLED exactly for the two cancelled texts, and otherwise PARTIALLY_FILLED or OPEN as it shows shares |
| UpstoxOrders.PolledState | src/personaltrade/execution/upstox/broker.py:332-404 | over plausible reports the order ends in the state those texts give the last report |
| UpstoxOrders.ReportLogs | src/personaltrade/execution/upstox/broker.py:376-394 | the log gains nothing for the same state, one row for a direct step, and OPEN first for a skipped one |
| UpstoxOrders.CancelledReport | src/personaltrade/execution/upstox/broker.py:88-107 | an open order reported "Cancelled" with nothing filled ends CANCELLED with nothing booked |
| UpstoxOrders.ReportRealizes | src/personaltrade/execution/upstox/broker.py:406-462 | newly filled shares against the position realize their cash flow against its average cost, which the rest keeps; others put their net amount on top of the cost |
| UpstoxOrders.PollingConverges | src/personaltrade/execution/upstox/broker.py:332-404 | from any live order, plausible reports never raise; the state is the last report's, and filled, traded and held quantity are those of the last report that gave a price, whichever came before |
| UpstoxOrders.ReapplyIsNoOp | src/personaltrade/execution/upstox/broker.py:362-363 | applying the same report again changes nothing, and is reported as a change exactly when its fill had no price |
| UpstoxOrders.IncrementValuedRightIff | src/personaltrade/execution/upstox/broker.py:366-372 | the trade a report books is worth what the broker charged for its shares if and only if it is the first or the average stood still |
| UpstoxOrders.BookedValueRightIff | src/personaltrade/execution/upstox/broker.py:366-372 | over plausible reports the booked trades are worth the last average times the last fill if and only if the average's movements under filled shares add up to zero |
| UpstoxOrders.TwoFillsBookedShort | src/personaltrade/execution/upstox/broker.py:366-372 | two reports for which the trades are worth 21 where the broker charged 22 |
| UpstoxOrders.ReportBookedIff | src/personaltrade/execution/upstox/broker.py:366-373 | a report's filled quantity is the order's afterwards if and only if it shows nothing new or gives a price |
| UpstoxOrders.PollingBooksAllIff | src/personaltrade/execution/upstox/broker.py:332-404 | filled, held and traded quantity end at the last report's if and only if nothing was new or a report still polled priced all of it |
| UpstoxOrders.UnpricedCompletionLosesFill | src/personaltrade/execution/upstox/broker.py:366-394 | a concrete completion without a price leaves the order FILLED with nothing booked, whatever is reported later |
| UpstoxOrders.PlausibleRest | src/personaltrade/execution/upstox/broker.py:332-404 | the reports still to come are plausible for the order as the polled ones left it, or it is finished |
| UpstoxBrokers.PollKeepsTables | src/personaltrade/execution/upstox/broker.py:332-404 | whatever is reported, every order's trades add up to its filled quantity after the sweep |
| UpstoxBrokers.PollTouches | src/personaltrade/execution/upstox/broker.py:332-353 | a sweep only adds trades, and touches only the position rows of instruments it adds trades for |
| UpstoxBrokers.UpstoxBroker.Place | src/personaltrade/execution/upstox/broker.py:175-247 | the intent is persisted first; the row ends SUBMITTED with an id or FAILED without |
| UpstoxBrokers.UpstoxBroker.BookFill | src/personaltrade/execution/upstox/broker.py:406-462 | booking appends one costed trade and rewrites one position row |
| UpstoxBrokers.UpstoxBroker.Promote | src/personaltrade/execution/upstox/broker.py:376-394 | a jump from SUBMITTED passes through OPEN first |
| UpstoxBrokers.UpstoxBroker.ApplyOrderUpdate | src/personaltrade/execution/upstox/broker.py:355-404 | the step-by-step update equals `UpstoxOrders.ApplyReport` |
| UpstoxBrokers.UpstoxBroker.PollAndApplyFills | src/personaltrade/execution/upstox/broker.py:332-353 | the sweep applies the reports of acknowledged open orders, and an exception undoes all of it |
| PollingSweeps.SweepsConverge | src/personaltrade/execution/upstox/broker.py:332-404 | repeated sweeps over many orders, wherever each stands at the start and failed requests included, never raise on plausible reports, leave every order as its reports say, and move each instrument by what its orders filled |
| PollingSweeps.SweepActsByOrder | src/personaltrade/execution/upstox/broker.py:332-353 | a sweep does to each order what that order's own report does, though orders share position rows |
| PollingSweeps.ReadyAgain | src/personaltrade/execution/upstox/broker.py:332-353 | after some sweeps the tables are ready for the rest, so convergence applies from there again |
| PollingSweeps.PlacingKeepsReady | src/personaltrade/execution/upstox/broker.py:175-247 | placing an order between sweeps keeps the tables ready |
| Reconciliation.ReconciliationConverges | src/personaltrade/orchestrator/reconcile.py:102-150 | afterwards quantities agree everywhere, corrected rows have the broker's average price and keep their realized P&L, all others are untouched, one event per mismatch was added, and the switch is tripped if and only if it was or the sides were further apart than the threshold |
| Reconciliation.SecondRunIsNoOp | src/personaltrade/orchestrator/reconcile.py:102-150 | a second run against the same broker state changes nothing |
| Reconciliation.OrderOfInstrumentsIsIrrelevant | src/personaltrade/orchestrator/reconcile.py:109-113 | the set's iteration order decides only the order of the events |
| Reconciliation.PaperNeverStuck | src/personaltrade/orchestrator/reconcile.py:59-99 | in paper mode no reachable state has an order to reconcile |
| Reconciliation.PollLeavesUnacked | src/personaltrade/execution/upstox/broker.py:332-353 | a poll leaves orders without a broker id alone |
| Reconciliation.StuckOrdersFail | src/personaltrade/orchestrator/reconcile.py:65-94 | an order fails exactly if it was SUBMITTING or SUBMITTED without a broker id, with one log row and no other field changed |
| Reconciliation.BookOf | src/personaltrade/execution/upstox/broker.py:285-305 | flat rows and unknown instruments are dropped; of several rows about one instrument the last wins |
| Reconciliation.Reconciler.ReconcileInstrument | src/personaltrade/orchestrator/reconcile.py:110-150 | one mismatch corrects one row, logs one event, and trips the switch on a breach |
| Reconciliation.Reconciler.ReconcilePositions | src/personaltrade/orchestrator/reconcile.py:102-150 | the loop over either side's instruments establishes the whole relation in any order |
| Reconciliation.Reconciler.FailStuckOrders | src/personaltrade/orchestrator/reconcile.py:65-94 | exactly the orders stuck without a broker id end FAILED, with one event and one finding each |
| Reconciliation.Reconciler.ReconcileOnStartup | src/personaltrade/orchestrator/reconcile.py:59-99 | stuck orders, poll and positions in turn; no unacknowledged order stays mid-submission; an exception undoes everything |
| KillSwitches.TripKeeps | src/personaltrade/risk/kill_switch.py:44-57 | tripping keeps trips and resets alternating in the log |
| KillSwitches.ResetKeeps | src/personaltrade/risk/kill_switch.py:59-69 | a reset succeeds if and only if the switch is tripped, leaves it clear with no errors, and keeps the alternation |
| KillSwitches.RecordErrorKeeps | src/personaltrade/risk/kill_switch.py:71-83 | an error extends the streak by one and trips exactly when the limit is reached |
| KillSwitches.KillSwitch.DoTrip | src/personaltrade/risk/kill_switch.py:44-57 | the row and log after a trip; tripping again logs nothing |
| KillSwitches.KillSwitch.DoReset | src/personaltrade/risk/kill_switch.py:59-69 | the row and log after a reset, or the exception |
| KillSwitches.KillSwitch.DoRecordError | src/personaltrade/risk/kill_switch.py:71-83 | the row and log after an error |
| KillSwitches.KillSwitch.DoRecordSuccess | src/personaltrade/risk/kill_switch.py:85-91 | a success clears the streak and nothing else |
| RiskGate.SizeIsGreatestAffordable | src/personaltrade/risk/sizing.py:24-36 | the size is the greatest whole number of shares the allocation pays for, and none without a price or equity |
| RiskGate.ToTickIsNearest | src/personaltrade/risk/engine.py:66-74 | the quantized price is a whole number of ticks at most half a tick away, an even one on a tie; without a tick size it is the price |
| RiskGate.ApprovalIsSafe | src/personaltrade/risk/engine.py:86-187 | an approval means a clear switch, a day's loss below its limit, and either an exact close or an open from flat under the cap; a rejection logs exactly one event |
| RiskGate.ApprovedIff | src/personaltrade/risk/engine.py:86-182 | a signal is approved if and only if the switch is clear, live orders have both keys, the loss is below its limit, and it closes something held or opens from flat with room and a positive size at the tick-rounded price; with which side and quantity |
| RiskGate.RejectedIff | src/personaltrade/risk/engine.py:86-187 | exactly when each of the seven reasons is given, and which kind of event it logs |
| RiskGate.LossLimitIff | src/personaltrade/risk/limits.py:16-29 | the loss limit is not exceeded if and only if the day's loss is below its share of equity, or there is no loss or no equity |
| RiskGate.RiskEngine.EvaluateSignal | src/personaltrade/risk/engine.py:86-172 | the checks run in the source's order and log through the switch's event table |
| RiskGate.RiskEngine.RejectSignal | src/personaltrade/risk/engine.py:184-187 | a rejection appends its event and returns its reason |
| Orchestration.Orchestrator.Process | src/personaltrade/orchestrator/service.py:229-300 | signal row, equity read from the account, the day's P&L from the trades executed since midnight, risk decision, order and error streak for one candle |
| Orchestration.Orchestrator.OnCandleReceived | src/personaltrade/orchestrator/service.py:206-224 | a candle is one all-or-nothing step; after an exception only the error streak changes |
| Orchestration.Orchestrator.RunHousekeeping | src/personaltrade/orchestrator/service.py:159-175 | the sweep of resting orders, undone if it raises |
| Orchestration.MidnightStartsDay | src/personaltrade/core/calendar.py:85-89 | the day's midnight is at most a day before, and the same for all moments of the day |
| Orchestration.RealizedTodayIs | src/personaltrade/orchestrator/service.py:229-300 | the day's P&L put to the risk engine is that of the trades executed on the trading day of the candle |
| Orchestration.CandleLeaves | src/personaltrade/orchestrator/service.py:206-300 | what a candle leaves: its close as the quote, a REJECTED row and one event, or an APPROVED row, one market order for the approved side and quantity, and a clear streak |
| Orchestration.SweepLeaves | src/personaltrade/orchestrator/service.py:159-175 | a sweep changes only the ledger and stamps what it fills with its time |
| Orchestration.OperatorLeaves | src/personaltrade/risk/kill_switch.py:44-69 | a manual trip or reset changes the switch and nothing else |
| Orchestration.SessionKeepsStore | src/personaltrade/orchestrator/service.py:206-300 | over whole sessions the streak stays below its limit while the switch is clear, trips and resets alternate, and the ledger keeps its books |
| Orchestration.FailingCandlesOnlyCount | src/personaltrade/orchestrator/service.py:206-224 | however many candles fail in a row, no order, position, cash, trade or signal changes, and the switch trips exactly when their number reaches the limit |
| Orchestration.NoOrdersWhileTripped | src/personaltrade/risk/engine.py:106-111 | between a trip and its reset no order is placed, whatever candles, failures and sweeps happen |
| Orchestration.OrdersRespectLossLimit | src/personaltrade/risk/engine.py:86-172 | an order is only ever placed while the switch is clear and the day's loss is below its limit |
| Exposure.FillEffectIff | src/personaltrade/execution/paper/broker.py:291-332 | a fill flips the position if and only if it exceeds an opposite one, and adds an open position if and only if there was none |
| Exposure.CandleStaysBounded | src/personaltrade/risk/engine.py:86-172 | a candle never exceeds the position cap and never flips a position, whatever orders are resting |
| Exposure.SweepBoundedIff | src/personaltrade/execution/paper/broker.py:164-177 | a sweep stays within the cap and free of flips if and only if, before each retry, the quantity it would fill is safe |
| Exposure.ExposureBoundedIff | src/personaltrade/risk/engine.py:86-172 | a session passes only through states within the cap and without flips if and only if, before each retry of a resting order, what remainder, quote and cash let it fill is safe |
| Exposure.SafeSessionIsClean | src/personaltrade/risk/engine.py:86-172 | a safe session ends within the cap, no position ever flipped, and every journal entry obeys the P&L identity |
| Exposure.QuietSweepsAreSafe | src/personaltrade/orchestrator/service.py:159-175 | a session whose sweeps find no resting order that could fill anything is safe, whatever rests |
| Exposure.UnclampedSessionIsSettled | src/personaltrade/execution/paper/broker.py:179-226 | no order is ever left partly filled if and only if no candle's BUY finds cash for one share but not for all; then every order is finished by its own candle and every sweep is idle |
| UnsafeRetries.RetryFlipsPosition | src/personaltrade/execution/paper/broker.py:164-177 | a concrete session, sized by the repository's own sizer, in which a clamped remainder turns a short of ten shares into a long of 909 |
| UnsafeRetries.RetryExceedsCap | src/personaltrade/execution/paper/broker.py:164-177 | a concrete session, sized the same way, in which a clamped remainder opens a third position where two are allowed |

## Left out

- HTTP, websockets, retries, tokens and the broker's cancel, status and funds requests: the model starts at the reports the broker returns.
- SQLAlchemy sessions: tables are fields, and a rollback is a copy put back. Row identifiers are positions in the table, standing for unique client order ids.
- Event payloads, log calls, times other than those of candles and trades, and the kill switch's reason texts.
- Float rounding, NaN arithmetic and the 28-digit Decimal context: values are exact reals, a NaN of a warm-up or of a day without volume is `None`, and the square root of the Bollinger bands is a parameter.
- The performance ratios, which need roots and powers.
- Concrete strategies: a strategy is any deterministic function from its state and a context to its next state and at most one signal. The backtest hands it each series up to the current bar, which is all that the batch view's two methods can reach.
- The grouping of trades by instrument and their sort by time before the journal is built: trades are taken in table order.
- The feed's dictionary of aggregator lists is one sequence of aggregators, and its staleness timer is not modelled.
- The orchestrator is modelled for paper sessions; for live ones the risk engine, polling and reconciliation are modelled on their own. A tripped switch stops new orders, not the retries of resting ones.
- All that happens in one candle or one sweep reads one clock value; trades are stamped with it plus the configured latency.
- A strategy runner's buffer and indicators are not part of the orchestrator's transaction, as in the source; the orchestrator takes the runner's answer as an input.
- A failure inside the error handler of a candle, and unsubscribed instruments' missing strategy run, are not modelled.
- The paper broker's queue of updates belongs to one broker object in the source and is rebuilt for each candle; here it lasts as long as the ledger.
- ViewParity.SharedWindowsAgreeIff: says nothing of shorter windows of a name whose overwritten column has warmed up; those agree or not by the values that happen to stand in them.
- FillOutcomes.RunKeepsLimits: with slippage above the whole price it says nothing of a sale at a negative limit.
- LiveRunner.LiveRunsBacktest: takes the positions the backtest held as given; `BacktestVsPaper.PaperReplaysBacktest` says when a paper account holds them.
- BacktestLedger.ConservationIff: needs sell-side rates below one for the unbalanced direction; `BacktestLedger.UnclampedRunConserves` needs nothing.
- UpstoxOrders.PollingConverges: is stated for reports as a broker produces them (fills never decrease, terminal reports final, no negative price); `UpstoxOrders.ReportRaisesIff` covers all reports.
- Parquet and DuckDB candle storage, multi-symbol aggregation, recommendations, news, configuration and the command line.
