/** The paper orchestrator: each candle is one all-or-nothing step, each failure feeds the kill switch. */
module Orchestration {
  import opened Wrappers
  import opened Costs
  import opened OrderStates
  import opened PositionBook
  import opened TradeLog
  import opened PaperLedger
  import opened PaperLifecycle
  import opened PaperAccounting
  import opened PaperBrokers
  import opened KillSwitches
  import opened RiskGate
  import opened Strategies
  import opened Pnl

  datatype SignalStatus = NEW | APPROVED | REJECTED

  /** Everything the state store holds for one paper session; `executedAt` is a column of the trades table. */
  datatype RawStore = Store(ledger: Ledger, kill: KillState, signals: seq<SignalStatus>, executedAt: seq<int>)

  type Store = st: RawStore | |st.executedAt| == |st.ledger.trades| witness Store(NewLedger(0.0), CLEAR, [], [])

  /** `latency` is the simulated delay between an attempt and its fill; every instrument has its own tick size. */
  datatype OrchConfig = OrchConfig(paper: PaperLedger.Config, risk: RiskConfig, tickSize: int -> real, latency: int)

  /** What the strategy runner did with the candle. */
  datatype Answer = Unsubscribed | Silent | Says(signal: Signal) | Raises

  /** A candle for one instrument, what its strategy runner made of it, and the time it is handled at. */
  datatype CandleStep = CandleStep(instrumentId: int, close: real, answer: Answer, now: int)

  /** The start of the trading day that `now` falls into. */
  function MidnightOf(now: int): int { TradingDay(now) * DAY - IST_OFFSET }

  /** The day started at most a day ago, and every moment since belongs to it. */
  lemma MidnightStartsDay(now: int, later: int)
    ensures MidnightOf(now) <= now < MidnightOf(now) + DAY
    ensures MidnightOf(now) <= later < MidnightOf(now) + DAY <==> MidnightOf(later) == MidnightOf(now)
  {
  }

  /** Trades booked since are stamped with the time of their fill. */
  function Stamped(executedAt: seq<int>, trades: seq<Trade>, at: int): (r: seq<int>)
    ensures |r| == |trades|
  {
    if |trades| <= |executedAt| then executedAt[..|trades|]
    else executedAt + seq(|trades| - |executedAt|, _ => at)
  }

  /** The store after the broker went from its ledger to `l` in an attempt made at `now`. */
  function WithLedger(cfg: OrchConfig, st: Store, l: Ledger, now: int): (r: Store)
    ensures r.ledger == l && r.kill == st.kill && r.signals == st.signals
    ensures l.trades == st.ledger.trades ==> r.executedAt == st.executedAt
  {
    st.(ledger := l, executedAt := Stamped(st.executedAt, l.trades, now + cfg.latency))
  }

  /** What was realized since midnight. */
  function RealizedToday(st: Store, now: int): real {
    RealizedSince(st.ledger.trades, st.executedAt, MidnightOf(now))
  }

  /** What the trades of one trading day, or of a later one, realized. */
  function RealizedFromDay(trades: seq<Trade>, executedAt: seq<int>, day: int): real
    requires |trades| == |executedAt|
  {
    if trades == [] then 0.0
    else
      var n := |trades| - 1;
      RealizedFromDay(trades[..n], executedAt[..n], day)
      + (if TradingDay(executedAt[n]) >= day then RealizedOf(trades[n].realizedPnl) else 0.0)
  }

  lemma {:induction false} SinceMidnight(trades: seq<Trade>, executedAt: seq<int>, now: int)
    requires |trades| == |executedAt|
    ensures RealizedSince(trades, executedAt, MidnightOf(now)) == RealizedFromDay(trades, executedAt, TradingDay(now))
  {
    hide RealizedOf;
    if trades != [] {
      var n := |trades| - 1;
      SinceMidnight(trades[..n], executedAt[..n], now);
      assert executedAt[n] >= MidnightOf(now) <==> TradingDay(executedAt[n]) >= TradingDay(now);
    }
  }

  /** The day's realized P&L is that of the trades executed on the trading day of `now`, to which midnight belongs. */
  lemma RealizedTodayIs(st: Store, now: int)
    ensures RealizedToday(st, now) == RealizedFromDay(st.ledger.trades, st.executedAt, TradingDay(now))
  {
    SinceMidnight(st.ledger.trades, st.executedAt, now);
  }

  /** The risk engine is asked with the account's equity and the day's realized P&L as they stand. */
  ghost function Ask(cfg: OrchConfig, st: Store, quotes: Quotes, now: int, instrumentId: int,
                     s: Signal): (Decision, KillState) {
    Evaluate(cfg.risk, st.kill, st.ledger.positions, PAPER, s, instrumentId, cfg.tickSize(instrumentId),
             Equity(st.ledger, quotes), RealizedToday(st, now), false)
  }

  function MarketOrder(instrumentId: int, side: Side, qty: int): OrderRequest {
    OrderRequest(instrumentId, side, MARKET, qty, None)
  }

  /** One candle inside its transaction; Err is the exception that rolls it back. */
  ghost function ProcessCandle(cfg: OrchConfig, st: Store, quotes: Quotes, c: CandleStep): Result<Store> {
    match c.answer
    case Unsubscribed => Ok(st)
    case Silent => Ok(st)
    case Raises => Err(StrategyError)
    case Says(s) =>
      var (d, k) := Ask(cfg, st, quotes, c.now, c.instrumentId, s);
      match d
      case Rejected(_) => Ok(st.(kill := k, signals := st.signals + [REJECTED]))
      case Approved(side, qty) =>
        var out := PlaceOrder(cfg.paper, st.ledger, MarketOrder(c.instrumentId, side, qty), quotes);
        if out.error.Some? then Err(out.error.value)
        else
          Ok(WithLedger(cfg, st, out.ledger, c.now).(kill := RecordSuccess(k), signals := st.signals + [APPROVED]))
  }

  /** A session: the store, and the quotes in memory, which no rollback undoes. */
  datatype Session = Session(store: Store, quotes: Quotes)

  datatype Event =
    | OnCandle(candle: CandleStep)
    | Housekeeping(now: int)
    | ManualTrip
    | ManualReset

  ghost function Handle(cfg: OrchConfig, s: Session, e: Event): Session {
    match e
    case OnCandle(c) =>
      var quotes := s.quotes[c.instrumentId := c.close];
      (match ProcessCandle(cfg, s.store, quotes, c)
       case Ok(st) => Session(st, quotes)
       case Err(_) => Session(s.store.(kill := RecordError(s.store.kill, cfg.risk.maxConsecutiveErrors)), quotes))
    case Housekeeping(now) =>
      var out := CheckRestingOrders(cfg.paper, s.store.ledger, s.quotes);
      if out.error.Some? then s else s.(store := WithLedger(cfg, s.store, out.ledger, now))
    case ManualTrip => s.(store := s.store.(kill := Trip(s.store.kill)))
    case ManualReset =>
      match Reset(s.store.kill)
      case Err(_) => s
      case Ok(k) => s.(store := s.store.(kill := k))
  }

  ghost function HandleAll(cfg: OrchConfig, s: Session, events: seq<Event>): Session {
    if events == [] then s else Handle(cfg, HandleAll(cfg, s, events[..|events|-1]), events[|events|-1])
  }

  function NewSession(initialCash: real): Session { Session(Store(NewLedger(initialCash), CLEAR, [], []), map[]) }

  // ---- What every session keeps ----

  ghost predicate StoreOk(cfg: OrchConfig, initialCash: real, st: Store) {
    && SwitchOk(st.kill, cfg.risk.maxConsecutiveErrors)
    && Lifecycle(st.ledger) && Books(cfg.paper, initialCash, st.ledger)
  }

  lemma ProcessKeepsStore(cfg: OrchConfig, initialCash: real, st: Store, quotes: Quotes, c: CandleStep)
    requires cfg.risk.maxConsecutiveErrors >= 1 && StoreOk(cfg, initialCash, st)
    requires ProcessCandle(cfg, st, quotes, c).Ok?
    ensures StoreOk(cfg, initialCash, ProcessCandle(cfg, st, quotes, c).value)
  {
    hide Lifecycle, Books, Evaluate, PlaceOrder;
    if c.answer.Says? {
      AskIsSafe(cfg, st, quotes, c.now, c.instrumentId, c.answer.signal);
      var (d, k) := Ask(cfg, st, quotes, c.now, c.instrumentId, c.answer.signal);
      match d {
        case Rejected(_) =>
          var e :| !IsSwitchEvent(e) && k == Log(st.kill, e);
          OtherEventKeeps(st.kill, e, cfg.risk.maxConsecutiveErrors);
        case Approved(side, qty) =>
          StepKeepsBooks(cfg.paper, initialCash, st.ledger, Place(MarketOrder(c.instrumentId, side, qty), quotes));
      }
    }
  }

  /** What an approval guarantees, in terms of the account as it stands. */
  lemma AskIsSafe(cfg: OrchConfig, st: Store, quotes: Quotes, now: int, instrumentId: int, s: Signal)
    ensures var (d, k) := Ask(cfg, st, quotes, now, instrumentId, s);
      var held := QtyOf(st.ledger.positions, instrumentId);
      && (d.Approved? ==>
            && k == st.kill && !k.tripped && d.qty > 0
            && WithinDailyLoss(RealizedToday(st, now), Equity(st.ledger, quotes), cfg.risk.maxDailyLossPct)
            && (held != 0 ==> SignedQty(d.side, d.qty) == -held)
            && (held == 0 ==> CountOpen(st.ledger.positions) < cfg.risk.maxOpenPositions))
      && (d.Rejected? ==> exists e :: !IsSwitchEvent(e) && k == Log(st.kill, e))
  {
    hide Evaluate;
    ApprovalIsSafe(cfg.risk, st.kill, st.ledger.positions, PAPER, s, instrumentId, cfg.tickSize(instrumentId),
                   Equity(st.ledger, quotes), RealizedToday(st, now), false);
  }

  lemma HandleKeepsStore(cfg: OrchConfig, initialCash: real, s: Session, e: Event)
    requires cfg.risk.maxConsecutiveErrors >= 1 && StoreOk(cfg, initialCash, s.store)
    ensures StoreOk(cfg, initialCash, Handle(cfg, s, e).store)
  {
    hide Lifecycle, Books, ProcessCandle, CheckRestingOrders, SwitchOk, RecordError, Trip, Reset;
    match e {
      case OnCandle(c) =>
        var quotes := s.quotes[c.instrumentId := c.close];
        if ProcessCandle(cfg, s.store, quotes, c).Ok? {
          ProcessKeepsStore(cfg, initialCash, s.store, quotes, c);
        } else {
          RecordErrorKeeps(s.store.kill, cfg.risk.maxConsecutiveErrors);
        }
      case Housekeeping(_) => StepKeepsBooks(cfg.paper, initialCash, s.store.ledger, Recheck(s.quotes));
      case ManualTrip => TripKeepsOk(s.store.kill, cfg.risk.maxConsecutiveErrors);
      case ManualReset => ResetKeeps(s.store.kill, cfg.risk.maxConsecutiveErrors);
    }
  }

  lemma TripKeepsOk(k: KillState, limit: nat)
    requires limit >= 1 && SwitchOk(k, limit)
    ensures SwitchOk(Trip(k), limit)
  {
    TripKeeps(k, limit);
  }

  /**
   * Whole sessions: while the switch is clear the error streak is below its limit, trips and resets
   * alternate in the risk log, and the ledger keeps its lifecycle and its books.
   */
  lemma {:induction false} SessionKeepsStore(cfg: OrchConfig, initialCash: real, events: seq<Event>)
    requires cfg.risk.maxConsecutiveErrors >= 1
    ensures StoreOk(cfg, initialCash, HandleAll(cfg, NewSession(initialCash), events).store)
  {
    hide Handle, StoreOk;
    if events == [] {
      NewSessionOk(cfg, initialCash);
    } else {
      SessionKeepsStore(cfg, initialCash, events[..|events|-1]);
      HandleKeepsStore(cfg, initialCash, HandleAll(cfg, NewSession(initialCash), events[..|events|-1]),
                       events[|events|-1]);
    }
  }

  lemma NewSessionOk(cfg: OrchConfig, initialCash: real)
    requires cfg.risk.maxConsecutiveErrors >= 1
    ensures StoreOk(cfg, initialCash, NewSession(initialCash).store)
  {
  }

  /** The candle's transaction raises in the state the events before it led to. */
  ghost predicate Fails(cfg: OrchConfig, s: Session, c: CandleStep) {
    ProcessCandle(cfg, s.store, s.quotes[c.instrumentId := c.close], c).Err?
  }

  ghost predicate AllFail(cfg: OrchConfig, s: Session, candles: seq<CandleStep>) {
    forall n :: 0 <= n < |candles| ==> Fails(cfg, HandleAll(cfg, s, Candles(candles[..n])), candles[n])
  }

  function Candles(candles: seq<CandleStep>): (events: seq<Event>)
    ensures |events| == |candles|
  {
    seq(|candles|, n requires 0 <= n < |candles| => OnCandle(candles[n]))
  }

  /**
   * However many candles fail in a row, no order, position, cash, trade or signal changes; the error streak
   * grows by their number, and the switch is tripped exactly if it was or the streak reached its limit.
   */
  lemma {:induction false} FailingCandlesOnlyCount(cfg: OrchConfig, initialCash: real, s: Session,
                                                   candles: seq<CandleStep>)
    requires cfg.risk.maxConsecutiveErrors >= 1 && StoreOk(cfg, initialCash, s.store) && AllFail(cfg, s, candles)
    ensures var s' := HandleAll(cfg, s, Candles(candles));
      && s'.store.ledger == s.store.ledger && s'.store.signals == s.store.signals
      && s'.store.executedAt == s.store.executedAt
      && StoreOk(cfg, initialCash, s'.store)
      && s'.store.kill.consecutiveErrors == s.store.kill.consecutiveErrors + |candles|
      && (s'.store.kill.tripped
          <==> || s.store.kill.tripped
               || (candles != [] && s'.store.kill.consecutiveErrors >= cfg.risk.maxConsecutiveErrors))
    decreases |candles|
  {
    hide Lifecycle, Books, ProcessCandle, SwitchOk, RecordError;
    if candles != [] {
      var n := |candles| - 1;
      var before, events := candles[..n], Candles(candles);
      assert events[..n] == Candles(before) && events[n] == OnCandle(candles[n]);
      assert AllFail(cfg, s, before) by {
        forall m | 0 <= m < n ensures Fails(cfg, HandleAll(cfg, s, Candles(before[..m])), before[m]) {
          assert before[..m] == candles[..m];
        }
      }
      FailingCandlesOnlyCount(cfg, initialCash, s, before);
      var m := HandleAll(cfg, s, Candles(before));
      RecordErrorKeeps(m.store.kill, cfg.risk.maxConsecutiveErrors);
      assert Fails(cfg, m, candles[n]);
    }
  }

  /** An order is only ever placed while the switch is clear and the day's loss is below its limit. */
  lemma OrdersRespectLossLimit(cfg: OrchConfig, s: Session, c: CandleStep)
    requires |Handle(cfg, s, OnCandle(c)).store.ledger.orders| != |s.store.ledger.orders|
    ensures var quotes, l := s.quotes[c.instrumentId := c.close], s.store.ledger;
      && !s.store.kill.tripped
      && WithinDailyLoss(RealizedToday(s.store, c.now), Equity(l, quotes), cfg.risk.maxDailyLossPct)
  {
    hide Evaluate, PlaceOrder, Equity, RealizedToday;
    var quotes := s.quotes[c.instrumentId := c.close];
    if c.answer.Says? { AskIsSafe(cfg, s.store, quotes, c.now, c.instrumentId, c.answer.signal); }
  }

  /** Between a trip and its reset no order is placed, whatever candles, failures and housekeeping happen. */
  lemma {:induction false} NoOrdersWhileTripped(cfg: OrchConfig, initialCash: real, s: Session, events: seq<Event>)
    requires cfg.risk.maxConsecutiveErrors >= 1 && StoreOk(cfg, initialCash, s.store) && s.store.kill.tripped
    requires ManualReset !in events
    ensures var s' := HandleAll(cfg, s, events);
      && StoreOk(cfg, initialCash, s'.store)
      && s'.store.kill.tripped && |s'.store.ledger.orders| == |s.store.ledger.orders|
  {
    hide StoreOk, CheckRestingOrders, PlaceOrder;
    if events != [] {
      var before := events[..|events|-1];
      NoOrdersWhileTripped(cfg, initialCash, s, before);
      var m := HandleAll(cfg, s, before);
      var last := events[|events|-1];
      assert last in events;
      HandleKeepsStore(cfg, initialCash, m, last);
      if last.Housekeeping? { RecheckPlacesNothing(cfg, initialCash, m); }
    }
  }

  lemma RecheckPlacesNothing(cfg: OrchConfig, initialCash: real, s: Session)
    requires StoreOk(cfg, initialCash, s.store)
    ensures |CheckRestingOrders(cfg.paper, s.store.ledger, s.quotes).ledger.orders| == |s.store.ledger.orders|
  {
    hide Books, TryFill, OrderOk, FilledBy;
    RecheckKeepsCount(cfg.paper, s.store.ledger, OpenIds(s.store.ledger.orders, |s.store.ledger.orders|), s.quotes);
  }

  lemma {:induction false} RecheckKeepsCount(cfg: PaperLedger.Config, l: Ledger, ids: seq<nat>, quotes: Quotes)
    requires forall k :: 0 <= k < |ids| ==> ids[k] < |l.orders|
    ensures |RecheckAll(cfg, l, ids, quotes).ledger.orders| == |l.orders|
    decreases |ids|
  {
    if ids != [] {
      var r := TryFill(cfg, l, ids[0], quotes);
      if r.Ok? { RecheckKeepsCount(cfg, r.value, ids[1..], quotes); }
    }
  }

  // ---- What one event leaves behind ----

  /** Old trades keep their time, new ones carry this one. */
  predicate StampedAt(before: seq<int>, after: seq<int>, at: int) {
    && |before| <= |after| && after[..|before|] == before
    && forall k :: |before| <= k < |after| ==> after[k] == at
  }

  lemma AcceptedIsPositive(cfg: PaperLedger.Config, l: Ledger, r: OrderRequest, quotes: Quotes)
    requires PlaceOrder(cfg, l, r, quotes).error == None
    ensures r.qty > 0 && r.instrumentId in cfg.instruments
  {
    hide TryFill;
  }

  lemma PlacedRow(cfg: PaperLedger.Config, l: Ledger, r: OrderRequest, quotes: Quotes)
    requires Lifecycle(l) && PlaceOrder(cfg, l, r, quotes).error == None
    ensures var l' := PlaceOrder(cfg, l, r, quotes).ledger;
      && |l'.orders| == |l.orders| + 1 && l'.orders[..|l.orders|] == l.orders
      && var o := l'.orders[|l.orders|];
         && o.instrumentId == r.instrumentId && o.side == r.side && o.orderType == r.orderType && o.qty == r.qty
         && o.limitPrice == r.limitPrice
    ensures |l.trades| <= |PlaceOrder(cfg, l, r, quotes).ledger.trades|
  {
    hide TryFill, Planned, OrderOk, FilledBy, ApplyFill, CalculateCosts, OpenedOrder;
    AcceptedIsPositive(cfg, l, r, quotes);
    OpenedOrderIsOk(r);
    var placed := Act(cfg, l, OpenOrder(r));
    OpenKeepsLifecycle(cfg, l, r);
    TryFillIsPlanned(cfg, placed, |l.orders|, quotes);
    match Planned(cfg, placed, |l.orders|, quotes) {
      case None =>
      case Some(a) => ActKeepsTerms(cfg, placed, a);
    }
  }

  lemma ActKeepsTerms(cfg: PaperLedger.Config, l: Ledger, a: Action)
    requires Lifecycle(l) && Enabled(cfg, l, a) && !a.OpenOrder?
    ensures var l' := Act(cfg, l, a);
      && |l'.orders| == |l.orders| && |l.trades| <= |l'.trades|
      && (forall k :: 0 <= k < |l.orders| && k != a.id ==> l'.orders[k] == l.orders[k])
      && var o, o' := l.orders[a.id], l'.orders[a.id];
         && o'.instrumentId == o.instrumentId && o'.side == o.side && o'.orderType == o.orderType
         && o'.qty == o.qty && o'.limitPrice == o.limitPrice
  {
    hide CostsOnTurnover, ApplyFill, LogIsPath, FilledBy;
    match a {
      case DropOrder(id) => DropKeepsOrderOk(l.orders[id]);
      case BookFill(id, qty, _) => FillKeepsOrderOk(l.orders[id], qty);
    }
  }

  /**
   * What a candle leaves behind. Its close is the quote, come what may. If its strategy signals and nothing fails,
   * one signal row is added: REJECTED with the ledger untouched and one risk event, or APPROVED with one new market
   * order for the approved side and quantity of that very instrument, and the error streak cleared.
   */
  lemma CandleLeaves(cfg: OrchConfig, s: Session, c: CandleStep)
    requires Lifecycle(s.store.ledger)
    ensures var s' := Handle(cfg, s, OnCandle(c));
      var quotes := s.quotes[c.instrumentId := c.close];
      && s'.quotes == quotes
      && (c.answer == Silent || c.answer == Unsubscribed ==> s'.store == s.store)
      && (c.answer == Raises ==> Fails(cfg, s, c))
      && (!Fails(cfg, s, c) && c.answer.Says? ==>
            var d := Ask(cfg, s.store, quotes, c.now, c.instrumentId, c.answer.signal).0;
            var (l, l') := (s.store.ledger, s'.store.ledger);
            && s'.store.signals == s.store.signals + [if d.Approved? then APPROVED else REJECTED]
            && StampedAt(s.store.executedAt, s'.store.executedAt, c.now + cfg.latency)
            && (d.Rejected? ==>
                  && l' == l && |s'.store.kill.events| == |s.store.kill.events| + 1
                  && s'.store.kill.consecutiveErrors == s.store.kill.consecutiveErrors)
            && (d.Approved? ==>
                  && s'.store.kill == s.store.kill.(consecutiveErrors := 0)
                  && |l'.orders| == |l.orders| + 1 && l'.orders[..|l.orders|] == l.orders
                  && var o := l'.orders[|l.orders|];
                     && o.instrumentId == c.instrumentId && o.side == d.side && o.qty == d.qty
                     && o.orderType == MARKET))
  {
    hide Ask, PlaceOrder, Lifecycle, RecordError;
    var quotes := s.quotes[c.instrumentId := c.close];
    if !Fails(cfg, s, c) && c.answer.Says? {
      AskIsSafe(cfg, s.store, quotes, c.now, c.instrumentId, c.answer.signal);
      var (d, k) := Ask(cfg, s.store, quotes, c.now, c.instrumentId, c.answer.signal);
      if d.Approved? { PlacedRow(cfg.paper, s.store.ledger, MarketOrder(c.instrumentId, d.side, d.qty), quotes); }
    }
  }

  /** A sweep changes nothing but the ledger, which it retries at the quotes, and stamps what it fills with its time. */
  lemma SweepLeaves(cfg: OrchConfig, initialCash: real, s: Session, now: int)
    requires StoreOk(cfg, initialCash, s.store)
    ensures var s', out := Handle(cfg, s, Housekeeping(now)), CheckRestingOrders(cfg.paper, s.store.ledger, s.quotes);
      && s'.quotes == s.quotes && s'.store.kill == s.store.kill && s'.store.signals == s.store.signals
      && s'.store.ledger == (if out.error == None then out.ledger else s.store.ledger)
      && StampedAt(s.store.executedAt, s'.store.executedAt, now + cfg.latency)
  {
    hide CheckRestingOrders, Lifecycle, Books, SwitchOk;
    SweepAppends(cfg.paper, s.store.ledger, s.quotes);
  }

  lemma SweepAppends(cfg: PaperLedger.Config, l: Ledger, quotes: Quotes)
    requires Lifecycle(l)
    ensures |l.trades| <= |CheckRestingOrders(cfg, l, quotes).ledger.trades|
  {
    hide Lifecycle, RecheckAll;
    var actions := StepRefines(cfg, l, Recheck(quotes));
    ReachableAppends(cfg, l, actions, CheckRestingOrders(cfg, l, quotes).ledger);
  }

  lemma {:induction false} ReachableAppends(cfg: PaperLedger.Config, l: Ledger, actions: seq<Action>, l': Ledger)
    requires Lifecycle(l) && Reaches(cfg, l, actions, l')
    ensures |l.trades| <= |l'.trades|
    decreases |actions|
  {
    hide Lifecycle, Act, Enabled;
    if actions != [] {
      ActKeepsLifecycle(cfg, l, actions[0]);
      ActAppends(cfg, l, actions[0]);
      ReachableAppends(cfg, Act(cfg, l, actions[0]), actions[1..], l');
    }
  }

  lemma ActAppends(cfg: PaperLedger.Config, l: Ledger, a: Action)
    requires Lifecycle(l) && Enabled(cfg, l, a)
    ensures |l.trades| <= |Act(cfg, l, a).trades|
  {
    hide Lifecycle, CostsOnTurnover, ApplyFill, LogIsPath, FilledBy;
    if !a.OpenOrder? { ActKeepsTerms(cfg, l, a); }
  }

  /** The operator's two events: a trip leaves the switch tripped, a reset clear and without errors, and no more. */
  lemma OperatorLeaves(cfg: OrchConfig, s: Session)
    ensures var s' := Handle(cfg, s, ManualTrip);
      s'.store.kill.tripped && s' == s.(store := s.store.(kill := s'.store.kill))
    ensures var s' := Handle(cfg, s, ManualReset);
      && !s'.store.kill.tripped && s' == s.(store := s.store.(kill := s'.store.kill))
      && (s.store.kill.tripped ==> s'.store.kill.consecutiveErrors == 0)
      && (!s.store.kill.tripped ==> s' == s)
  {
  }

  // ---- The orchestrator itself ----

  class Orchestrator {
    const cfg: OrchConfig
    const broker: PaperBroker
    const killSwitch: KillSwitch
    const risk: RiskEngine
    var signals: seq<SignalStatus>
    var executedAt: seq<int> // of the broker's trades
    var quotes: Quotes

    ghost predicate Valid()
      reads this, broker, killSwitch
    {
      && broker.cfg == cfg.paper && broker.Valid() && |executedAt| == |broker.trades|
      && risk.cfg == cfg.risk && risk.killSwitch == killSwitch
    }

    function Stored(): Store
      requires |executedAt| == |broker.trades|
      reads this, broker, killSwitch
    {
      Store(broker.State(), killSwitch.State(), signals, executedAt)
    }

    function State(): Session
      requires |executedAt| == |broker.trades|
      reads this, broker, killSwitch
    {
      Session(Stored(), quotes)
    }

    constructor (cfg: OrchConfig, initialCash: real)
      ensures Valid() && fresh(broker) && fresh(killSwitch)
      ensures this.cfg == cfg && State() == NewSession(initialCash)
    {
      this.cfg := cfg;
      broker := new PaperBroker(cfg.paper, initialCash);
      var switch := new KillSwitch();
      killSwitch := switch;
      risk := new RiskEngine(cfg.risk, switch);
      signals, executedAt, quotes := [], [], map[];
    }

    /** Persist the signal, ask the risk engine, place the order. After an exception the tables are half written. */
    method Process(c: CandleStep) returns (error: Option<Error>)
      requires Valid()
      modifies this`signals, this`executedAt, broker, killSwitch
      ensures Valid()
      ensures match ProcessCandle(cfg, old(Stored()), quotes, c)
              case Ok(st) => error == None && Stored() == st
              case Err(e) => error == Some(e)
    {
      hide Evaluate, PlaceOrder, Lifecycle, Books, Equity, MidnightOf;
      match c.answer {
        case Unsubscribed => return None;
        case Silent => return None;
        case Raises => return Some(StrategyError);
        case Says(s) =>
          var row := |signals|;
          signals := signals + [NEW];
          var _, equity := broker.GetFunds(quotes);
          var dailyRealizedPnl := SumRealizedPnlSince(broker.trades, executedAt, MidnightOf(c.now));
          var d := risk.EvaluateSignal(broker.positions, PAPER, s, c.instrumentId, cfg.tickSize(c.instrumentId),
                                       equity, dailyRealizedPnl, false);
          if d.Rejected? {
            signals := signals[row := REJECTED];
            return None;
          }
          signals := signals[row := APPROVED];
          error := broker.Place(MarketOrder(c.instrumentId, d.side, d.qty), quotes);
          executedAt := Stamped(executedAt, broker.trades, c.now + cfg.latency);
          if error.None? { killSwitch.DoRecordSuccess(); }
      }
    }

    /** One candle: refresh the quote, process it in a transaction, count the failure if it raises. */
    method OnCandleReceived(c: CandleStep)
      requires Valid()
      modifies this, broker, killSwitch
      ensures Valid() && State() == Handle(cfg, old(State()), OnCandle(c))
    {
      hide ProcessCandle, Lifecycle, Books, RecordError;
      quotes := quotes[c.instrumentId := c.close];
      var saved := Stored();
      var error := Process(c);
      if error.Some? {
        broker.Rollback(saved.ledger);
        killSwitch.Rollback(saved.kill);
        signals, executedAt := saved.signals, saved.executedAt;
        killSwitch.DoRecordError(cfg.risk.maxConsecutiveErrors);
      }
    }

    /** The periodic tick: retry resting orders; an exception rolls the sweep back and is only logged. */
    method RunHousekeeping(now: int)
      requires Valid()
      modifies this, broker
      ensures Valid() && State() == Handle(cfg, old(State()), Housekeeping(now))
    {
      hide CheckRestingOrders, Lifecycle, Books;
      var saved := broker.State();
      var collected, error := broker.CheckResting(quotes);
      if error.Some? {
        broker.Rollback(saved);
      } else {
        executedAt := Stamped(executedAt, broker.trades, now + cfg.latency);
      }
    }
  }
}
