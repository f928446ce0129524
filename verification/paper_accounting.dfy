/** The paper account's money: conservation, agreement with the trade log, and solvency. */
module PaperAccounting {
  import opened Wrappers
  import opened Costs
  import opened OrderStates
  import opened PositionBook
  import opened TradeLog
  import opened PaperLedger
  import opened PaperLifecycle

  /** What one row contributes to a sum over the positions table. */
  type Column = (int, Position) -> real

  ghost function Total(column: Column, positions: map<int, Position>): real
    decreases positions.Keys
  {
    if !exists i :: i in positions then 0.0
    else
      var i :| i in positions;
      column(i, positions[i]) + Total(column, positions - {i})
  }

  lemma {:induction false} TotalRemove(column: Column, positions: map<int, Position>, i: int)
    requires i in positions
    ensures Total(column, positions) == column(i, positions[i]) + Total(column, positions - {i})
    decreases positions.Keys
  {
    var j :| j in positions && Total(column, positions) == column(j, positions[j]) + Total(column, positions - {j});
    if i != j {
      TotalRemove(column, positions - {j}, i);
      TotalRemove(column, positions - {i}, j);
      assert positions - {j} - {i} == positions - {i} - {j};
    }
  }

  /** Writing one row changes a column's total by the change in that row; a missing row counts as flat. */
  lemma TotalUpdate(column: Column, positions: map<int, Position>, i: int, p: Position)
    requires column(i, FLAT) == 0.0
    ensures Total(column, positions[i := p])
         == Total(column, positions) - column(i, PositionOf(positions, i)) + column(i, p)
  {
    var updated := positions[i := p];
    TotalRemove(column, updated, i);
    assert updated - {i} == positions - {i};
    if i in positions {
      TotalRemove(column, positions, i);
    } else {
      assert positions - {i} == positions;
    }
  }

  ghost const BOOK_VALUE: Column := (i: int, p: Position) => BookValue(p)
  ghost const REALIZED: Column := (i: int, p: Position) => p.realizedPnl

  /** A position is marked at its quote; a missing or zero quote falls back to its average price. */
  function MarkPrice(quotes: Quotes, i: int, p: Position): real {
    if i in quotes && quotes[i] != 0.0 then quotes[i] else p.avgPrice
  }

  ghost function Marked(quotes: Quotes): Column {
    (i: int, p: Position) => Worth(MarkPrice(quotes, i, p), p.qty)
  }

  /** Cash plus every open position at its mark. */
  ghost function Equity(l: Ledger, quotes: Quotes): real {
    l.cash + Total(Marked(quotes), l.positions)
  }

  /** What the account and the trade log say about each other. */
  ghost predicate Books(cfg: Config, initialCash: real, l: Ledger) {
    && (forall k :: 0 <= k < |l.trades| ==> Costed(cfg.segment, cfg.rates, l.trades[k]))
    && l.cash == initialCash + NetFlow(l.trades)
    && Balanced(initialCash, l.cash, l.positions)
    && Total(REALIZED, l.positions) == RealizedSum(l.trades)
    && forall i :: RowMatchesTrades(l.positions, l.trades, i)
  }

  ghost predicate Balanced(initialCash: real, cash: real, positions: map<int, Position>) {
    cash + Total(BOOK_VALUE, positions) == initialCash + Total(REALIZED, positions)
  }

  /** An instrument's row is what its own trades lead to, and those trades realized what they say. */
  ghost predicate RowMatchesTrades(positions: map<int, Position>, trades: seq<Trade>, i: int) {
    var own := TradesOf(trades, i);
    PositiveLegs(own) && Booked(own) && PositionOf(positions, i) == Replay(own)
  }

  /** `l'` is `l` after booking trade `t`. */
  ghost predicate Appends(l: Ledger, t: Trade, l': Ledger) {
    && t.qty > 0
    && l'.trades == l.trades + [t]
    && l'.cash == l.cash + CashFlow(t.side, t.costs.netAmount)
    && l'.positions == l.positions[t.instrumentId :=
         ApplyFill(PositionOf(l.positions, t.instrumentId), t.side, t.qty, t.costs.netAmount).0]
    && t.realizedPnl == ApplyFill(PositionOf(l.positions, t.instrumentId), t.side, t.qty, t.costs.netAmount).1
  }

  /** The trade an enabled fill appends. */
  ghost function FillTrade(cfg: Config, l: Ledger, id: nat, qty: int, price: real): Trade
    requires Enabled(cfg, l, BookFill(id, qty, price))
  {
    var o := l.orders[id];
    var costs := CalculateCosts(o.side, price, qty, cfg.segment, cfg.rates).value;
    var p := PositionOf(l.positions, o.instrumentId);
    Trade(id, o.instrumentId, o.side, price, qty, costs, ApplyFill(p, o.side, qty, costs.netAmount).1)
  }

  lemma FillEffect(cfg: Config, l: Ledger, id: nat, qty: int, price: real)
    requires Lifecycle(l) && Enabled(cfg, l, BookFill(id, qty, price))
    ensures var t := FillTrade(cfg, l, id, qty, price);
      Costed(cfg.segment, cfg.rates, t) && Appends(l, t, Act(cfg, l, BookFill(id, qty, price)))
  {
    hide CostsOnTurnover, ApplyFill, LogIsPath;
    FillKeepsOrderOk(l.orders[id], qty);
  }

  lemma AppendKeepsBalance(initialCash: real, l: Ledger, t: Trade, l': Ledger)
    requires Balanced(initialCash, l.cash, l.positions) && Appends(l, t, l')
    ensures Balanced(initialCash, l'.cash, l'.positions)
  {
    hide ApplyFill, BookValue, CashFlow;
    var p := PositionOf(l.positions, t.instrumentId);
    var p' := l'.positions[t.instrumentId];
    FillConserves(p, t.side, t.qty, t.costs.netAmount);
    BookValueOfFlat();
    TotalUpdate(BOOK_VALUE, l.positions, t.instrumentId, p');
    TotalUpdate(REALIZED, l.positions, t.instrumentId, p');
  }

  lemma AppendKeepsRealizedTotal(l: Ledger, t: Trade, l': Ledger)
    requires Total(REALIZED, l.positions) == RealizedSum(l.trades) && Appends(l, t, l')
    ensures Total(REALIZED, l'.positions) == RealizedSum(l'.trades)
  {
    hide ApplyFill, BookValue, CashFlow;
    assert l'.trades[..|l.trades|] == l.trades;
    FillConserves(PositionOf(l.positions, t.instrumentId), t.side, t.qty, t.costs.netAmount);
    TotalUpdate(REALIZED, l.positions, t.instrumentId, l'.positions[t.instrumentId]);
  }

  lemma BookValueOfFlat()
    ensures BookValue(FLAT) == 0.0
  {
  }

  lemma AppendKeepsRow(l: Ledger, t: Trade, l': Ledger, i: int)
    requires RowMatchesTrades(l.positions, l.trades, i) && Appends(l, t, l')
    ensures RowMatchesTrades(l'.positions, l'.trades, i)
  {
    hide ApplyFill, TradesOf, Replay, Booked;
    TradesOfAppend(l.trades, t, i);
    var own := TradesOf(l.trades, i);
    if i == t.instrumentId {
      assert PositionOf(l.positions, i) == Replay(own);
      BookedAppend(own, t);
      assert TradesOf(l'.trades, i) == own + [t];
    } else {
      assert own + [] == own;
    }
  }

  lemma FillKeepsBooks(cfg: Config, initialCash: real, l: Ledger, id: nat, qty: int, price: real)
    requires Books(cfg, initialCash, l) && Lifecycle(l) && Enabled(cfg, l, BookFill(id, qty, price))
    ensures Books(cfg, initialCash, Act(cfg, l, BookFill(id, qty, price)))
  {
    hide CostsOnTurnover, ApplyFill, Act, Lifecycle, Enabled, Balanced, RowMatchesTrades, RealizedSum, Total;
    FillEffect(cfg, l, id, qty, price);
    var l', t := Act(cfg, l, BookFill(id, qty, price)), FillTrade(cfg, l, id, qty, price);
    assert l'.trades[..|l.trades|] == l.trades;
    AppendKeepsBalance(initialCash, l, t, l');
    AppendKeepsRealizedTotal(l, t, l');
    forall i ensures RowMatchesTrades(l'.positions, l'.trades, i) {
      AppendKeepsRow(l, t, l', i);
    }
  }

  lemma ActKeepsBooks(cfg: Config, initialCash: real, l: Ledger, a: Action)
    requires Books(cfg, initialCash, l) && Lifecycle(l) && Enabled(cfg, l, a)
    ensures Books(cfg, initialCash, Act(cfg, l, a))
  {
    hide CostsOnTurnover, LogIsPath, Booked, Replay, TradesOf, Total;
    match a {
      case OpenOrder(r) =>
      case DropOrder(id) => DropKeepsOrderOk(l.orders[id]);
      case BookFill(id, qty, price) => FillKeepsBooks(cfg, initialCash, l, id, qty, price);
    }
  }

  lemma {:induction false} ReachableBooks(cfg: Config, initialCash: real, l: Ledger, actions: seq<Action>, l': Ledger)
    requires Lifecycle(l) && Books(cfg, initialCash, l) && Reaches(cfg, l, actions, l')
    ensures Books(cfg, initialCash, l')
    decreases |actions|
  {
    if actions != [] {
      ActKeepsLifecycle(cfg, l, actions[0]);
      ActKeepsBooks(cfg, initialCash, l, actions[0]);
      ReachableBooks(cfg, initialCash, Act(cfg, l, actions[0]), actions[1..], l');
    }
  }

  lemma StepKeepsBooks(cfg: Config, initialCash: real, l: Ledger, op: Op)
    requires Lifecycle(l) && Books(cfg, initialCash, l)
    ensures Lifecycle(Step(cfg, l, op).ledger) && Books(cfg, initialCash, Step(cfg, l, op).ledger)
  {
    hide *;
    var actions := StepRefines(cfg, l, op);
    ReachableLifecycle(cfg, l, actions, Step(cfg, l, op).ledger);
    ReachableBooks(cfg, initialCash, l, actions, Step(cfg, l, op).ledger);
  }

  lemma RunBooks(cfg: Config, initialCash: real, ops: seq<Op>)
    ensures Books(cfg, initialCash, Run(cfg, NewLedger(initialCash), ops))
  {
    var start := NewLedger(initialCash);
    var actions := RunRefines(cfg, start, ops);
    ReachableBooks(cfg, initialCash, start, actions, Run(cfg, start, ops));
  }

  /**
   * Ledger conservation: whatever is placed, rechecked or cancelled, cash plus the signed cost of
   * every position equals the initial cash plus all realized P&L. Over-closing legs are included.
   */
  lemma LedgerConservation(cfg: Config, initialCash: real, ops: seq<Op>)
    ensures var l := Run(cfg, NewLedger(initialCash), ops);
      l.cash + Total(BOOK_VALUE, l.positions) == initialCash + Total(REALIZED, l.positions)
  {
    RunBooks(cfg, initialCash, ops);
  }

  // ---- Solvency ----

  lemma ActKeepsCash(cfg: Config, l: Ledger, a: Action)
    requires Lifecycle(l) && Enabled(cfg, l, a) && l.cash >= 0.0
    requires SellRate(cfg.segment, cfg.rates) <= 1.0
    ensures Act(cfg, l, a).cash >= 0.0
  {
    hide CostsOnTurnover, SellRate;
    match a {
      case OpenOrder(r) =>
      case DropOrder(id) => DropKeepsOrderOk(l.orders[id]);
      case BookFill(id, qty, price) =>
        FillKeepsOrderOk(l.orders[id], qty);
        SellNetNonNegative(price, qty, cfg.segment, cfg.rates);
    }
  }

  lemma {:induction false} ReachableCash(cfg: Config, l: Ledger, actions: seq<Action>, l': Ledger)
    requires Lifecycle(l) && Reaches(cfg, l, actions, l') && l.cash >= 0.0
    requires SellRate(cfg.segment, cfg.rates) <= 1.0
    ensures l'.cash >= 0.0
    decreases |actions|
  {
    if actions != [] {
      ActKeepsLifecycle(cfg, l, actions[0]);
      ActKeepsCash(cfg, l, actions[0]);
      ReachableCash(cfg, Act(cfg, l, actions[0]), actions[1..], l');
    }
  }

  lemma QuoteFor(slippageBps: real, price: real) returns (ltp: real)
    requires slippageBps < 10000.0
    ensures ApplySlippage(ltp, SELL, slippageBps) == price
  {
    var factor := 1.0 - slippageBps / 10000.0;
    ltp := price / factor;
    assert ltp * factor == price;
  }

  /** The sale of one share at fill price `price`, started from an empty account. */
  lemma OneSale(cfg: Config, i: int, price: real) returns (ops: seq<Op>)
    requires i in cfg.instruments && cfg.slippageBps < 10000.0 && price > 0.0
    ensures Run(cfg, NewLedger(0.0), ops).cash == NetAmount(SELL, price, 1, cfg.segment, cfg.rates)
  {
    hide CostsOnTurnover, ApplySlippage, ApplyFill, LogIsPath, OpenedOrder, FilledBy;
    var ltp := QuoteFor(cfg.slippageBps, price);
    var r := OrderRequest(i, SELL, MARKET, 1, None);
    ops := [Place(r, map[i := ltp])];
    OpenedOrderIsOk(r);
    assert ops[..|ops|-1] == [];
    assert Run(cfg, NewLedger(0.0), []) == NewLedger(0.0);
    FillKeepsOrderOk(OpenedOrder(r).value, 1);
  }

  /**
   * Solvency: no sequence of operations, shorts and covers included, can drive a non-negative
   * account below zero, exactly when the sell-side rates do not exceed one.
   */
  lemma SolventIff(cfg: Config)
    requires (exists i :: i in cfg.instruments) && cfg.slippageBps < 10000.0
    ensures SellRate(cfg.segment, cfg.rates) <= 1.0
       <==> forall initialCash: real, ops: seq<Op> :: initialCash >= 0.0 ==>
              Run(cfg, NewLedger(initialCash), ops).cash >= 0.0
  {
    hide SellRate, CostsOnTurnover, Run;
    if SellRate(cfg.segment, cfg.rates) <= 1.0 {
      forall initialCash: real, ops: seq<Op> | initialCash >= 0.0
        ensures Run(cfg, NewLedger(initialCash), ops).cash >= 0.0
      {
        RunIsSolvent(cfg, initialCash, ops);
      }
    } else {
      var price := SellNetCanBeNegative(cfg.segment, cfg.rates);
      var i :| i in cfg.instruments;
      var ops := OneSale(cfg, i, price);
    }
  }

  lemma RunIsSolvent(cfg: Config, initialCash: real, ops: seq<Op>)
    requires initialCash >= 0.0 && SellRate(cfg.segment, cfg.rates) <= 1.0
    ensures Run(cfg, NewLedger(initialCash), ops).cash >= 0.0
  {
    var start := NewLedger(initialCash);
    var actions := RunRefines(cfg, start, ops);
    ReachableCash(cfg, start, actions, Run(cfg, start, ops));
  }

  // ---- A clamped BUY leaves nothing to fill ----

  /** A partial fill of a live BUY was a clamped one: it booked all the account could pay for, at one price. */
  lemma ClampedFill(cfg: Config, l: Ledger, id: nat, quotes: Quotes) returns (price: real, qty: int)
    requires Lifecycle(l) && id < |l.orders| && Live(l.orders[id]) && l.orders[id].side == BUY
    requires TryFill(cfg, l, id, quotes).Ok?
    requires l.orders[id].filledQty < TryFill(cfg, l, id, quotes).value.orders[id].filledQty < l.orders[id].qty
    ensures var o, l' := l.orders[id], TryFill(cfg, l, id, quotes).value;
      && o.instrumentId in quotes
      && ReferencePrice(o, quotes[o.instrumentId]).Ok? && ReferencePrice(o, quotes[o.instrumentId]).value.Some?
      && price == ApplySlippage(ReferencePrice(o, quotes[o.instrumentId]).value.value, BUY, cfg.slippageBps)
      && price > 0.0
      && Ok(qty) == ClampToCash(o.qty - o.filledQty, price, cfg.segment, cfg.rates, l.cash)
      && 0 < qty < o.qty - o.filledQty
      && l'.cash == l.cash - NetAmount(BUY, price, qty, cfg.segment, cfg.rates)
      && l'.orders[id] == o.(filledQty := o.filledQty + qty, state := PARTIALLY_FILLED, log := l'.orders[id].log)
  {
    hide CostsOnTurnover, LogIsPath, ApplyFill, ReferencePrice, ApplySlippage, FilledBy;
    var o := l.orders[id];
    price := ApplySlippage(ReferencePrice(o, quotes[o.instrumentId]).value.value, BUY, cfg.slippageBps);
    qty := ClampToCash(o.qty - o.filledQty, price, cfg.segment, cfg.rates, l.cash).value;
    if qty > 0 { FillKeepsOrderOk(o, qty); }
  }

  /**
   * Exhaustion after a clamped fill: if a BUY was only partially filled, then at the same quotes and
   * with no cash added in between, the next attempt cancels the remainder and books nothing.
   */
  lemma ClampedRemainderIsCancelled(cfg: Config, l: Ledger, id: nat, quotes: Quotes, later: Ledger)
    requires Lifecycle(l) && id < |l.orders| && Live(l.orders[id]) && l.orders[id].side == BUY
    requires TryFill(cfg, l, id, quotes).Ok?
    requires var l' := TryFill(cfg, l, id, quotes).value;
      && l.orders[id].filledQty < l'.orders[id].filledQty < l'.orders[id].qty
      && id < |later.orders| && later.orders[id] == l'.orders[id] && later.cash <= l'.cash
    ensures var r := TryFill(cfg, later, id, quotes);
      && r.Ok? && r.value.orders[id].state == CANCELLED
      && r.value.(orders := later.orders, updates := later.updates) == later
  {
    hide NetAmount, Lifecycle, ApplySlippage, ExecuteFill;
    TryFillKeepsQty(cfg, l, id, quotes);
    var price, qty := ClampedFill(cfg, l, id, quotes);
    var remaining := l.orders[id].qty - l.orders[id].filledQty;
    ClampExhaustsCash(remaining, price, cfg.segment, cfg.rates, l.cash, later.cash, remaining - qty);
    var o, o' := l.orders[id], later.orders[id];
    assert ReferencePrice(o', quotes[o'.instrumentId]) == ReferencePrice(o, quotes[o.instrumentId]);
  }

  lemma TryFillKeepsQty(cfg: Config, l: Ledger, id: nat, quotes: Quotes)
    requires Lifecycle(l) && id < |l.orders| && TryFill(cfg, l, id, quotes).Ok?
    ensures TryFill(cfg, l, id, quotes).value.orders[id].qty == l.orders[id].qty
  {
    hide CostsOnTurnover, LogIsPath, ApplyFill, ReferencePrice, ApplySlippage, FilledBy;
  }
}
