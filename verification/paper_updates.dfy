/** What a listener to the paper broker's updates learns, and what an account is worth. */
module PaperUpdates {
  import opened Wrappers
  import opened Costs
  import opened OrderStates
  import opened PositionBook
  import opened TradeLog
  import opened PaperLedger
  import opened PaperLifecycle
  import opened PaperAccounting

  // ---- The update stream tells the tables ----

  /** The latest update about an order. */
  function LastUpdate(updates: seq<OrderUpdate>, id: nat): Option<OrderUpdate> {
    if updates == [] then None
    else
      var last := updates[|updates|-1];
      if last.orderId == id then Some(last) else LastUpdate(updates[..|updates|-1], id)
  }

  /** Orders and prices of the updates that report a fill, in order. */
  function FillReports(updates: seq<OrderUpdate>): seq<(nat, real)> {
    if updates == [] then []
    else
      var last := updates[|updates|-1];
      FillReports(updates[..|updates|-1])
      + (if last.fillPrice.Some? then [(last.orderId, last.fillPrice.value)] else [])
  }

  function TradeReports(trades: seq<Trade>): seq<(nat, real)> {
    if trades == [] then []
    else TradeReports(trades[..|trades|-1]) + [(trades[|trades|-1].orderId, trades[|trades|-1].price)]
  }

  ghost predicate Told(l: Ledger, id: nat)
    requires id < |l.orders|
  {
    var u := LastUpdate(l.updates, id);
    u.Some? && u.value.toState == l.orders[id].state && u.value.filledQty == l.orders[id].filledQty
  }

  /** The latest update about each order shows its state and filled quantity, and fills are reported as booked. */
  ghost predicate UpdatesTell(l: Ledger) {
    (forall id: nat :: id < |l.orders| ==> Told(l, id)) && FillReports(l.updates) == TradeReports(l.trades)
  }

  lemma UpdateAppended(updates: seq<OrderUpdate>, u: OrderUpdate, id: nat)
    ensures LastUpdate(updates + [u], id) == if u.orderId == id then Some(u) else LastUpdate(updates, id)
    ensures FillReports(updates + [u])
         == FillReports(updates) + (if u.fillPrice.Some? then [(u.orderId, u.fillPrice.value)] else [])
  {
    assert (updates + [u])[..|updates|] == updates;
  }

  lemma TradeReported(trades: seq<Trade>, t: Trade)
    ensures TradeReports(trades + [t]) == TradeReports(trades) + [(t.orderId, t.price)]
  {
    assert (trades + [t])[..|trades|] == trades;
  }

  /** One order row was written, or appended, and one update queued that shows it. */
  lemma OneUpdate(l: Ledger, l': Ledger, u: OrderUpdate)
    requires UpdatesTell(l) && u.orderId < |l'.orders| && |l.orders| <= |l'.orders| <= |l.orders| + 1
    requires |l'.orders| > |l.orders| ==> u.orderId == |l.orders|
    requires l'.updates == l.updates + [u]
    requires u.toState == l'.orders[u.orderId].state && u.filledQty == l'.orders[u.orderId].filledQty
    requires forall k :: 0 <= k < |l.orders| && k != u.orderId ==> l'.orders[k] == l.orders[k]
    requires TradeReports(l'.trades)
          == TradeReports(l.trades) + (if u.fillPrice.Some? then [(u.orderId, u.fillPrice.value)] else [])
    ensures UpdatesTell(l')
  {
    hide LastUpdate, FillReports, TradeReports;
    UpdateAppended(l.updates, u, 0);
    forall id: nat | id < |l'.orders| ensures Told(l', id) {
      UpdateAppended(l.updates, u, id);
      if id < |l.orders| { assert Told(l, id); }
    }
  }

  lemma ActTells(cfg: Config, l: Ledger, a: Action)
    requires Lifecycle(l) && Enabled(cfg, l, a) && UpdatesTell(l)
    ensures UpdatesTell(Act(cfg, l, a))
  {
    hide CostsOnTurnover, ApplyFill, LogIsPath, FilledBy, UpdatesTell, TradeReports, OpenedOrder;
    var l' := Act(cfg, l, a);
    match a {
      case OpenOrder(r) =>
        OpenedOrderIsOk(r);
        assert TradeReports(l.trades) + [] == TradeReports(l.trades);
        OneUpdate(l, l', OrderUpdate(|l.orders|, OPEN, 0, None));
      case DropOrder(id) =>
        DropKeepsOrderOk(l.orders[id]);
        assert TradeReports(l.trades) + [] == TradeReports(l.trades);
        OneUpdate(l, l', l'.updates[|l.updates|]);
      case BookFill(id, qty, price) =>
        FillKeepsOrderOk(l.orders[id], qty);
        TradeReported(l.trades, l'.trades[|l.trades|]);
        OneUpdate(l, l', l'.updates[|l.updates|]);
    }
  }

  lemma {:induction false} ReachableTells(cfg: Config, l: Ledger, actions: seq<Action>, l': Ledger)
    requires Lifecycle(l) && UpdatesTell(l) && Reaches(cfg, l, actions, l')
    ensures UpdatesTell(l')
    decreases |actions|
  {
    hide Lifecycle, UpdatesTell, Act, Enabled;
    if actions != [] {
      ActKeepsLifecycle(cfg, l, actions[0]);
      ActTells(cfg, l, actions[0]);
      ReachableTells(cfg, Act(cfg, l, actions[0]), actions[1..], l');
    }
  }

  /**
   * In every run, whoever has read all updates knows each order's state and filled quantity from the latest one
   * about it, and has seen every trade's price reported, in the order the trades were booked.
   */
  lemma RunTells(cfg: Config, initialCash: real, ops: seq<Op>)
    ensures UpdatesTell(Run(cfg, NewLedger(initialCash), ops))
  {
    hide Run, Lifecycle;
    var start := NewLedger(initialCash);
    assert Lifecycle(start) by { RunHasLifecycleAtStart(initialCash); }
    var actions := RunRefines(cfg, start, ops);
    ReachableTells(cfg, start, actions, Run(cfg, start, ops));
  }

  lemma RunHasLifecycleAtStart(initialCash: real)
    ensures Lifecycle(NewLedger(initialCash))
  {
  }

  // ---- When a resting order is attempted ----

  /**
   * An order with a remainder and a quote is attempted at once, unless it is a LIMIT order whose limit the quote does
   * not meet, and always at the quote itself.
   */
  lemma AttemptedIff(cfg: Config, l: Ledger, id: nat, quotes: Quotes)
    requires id < |l.orders| && (l.orders[id].orderType == LIMIT ==> l.orders[id].limitPrice.Some?)
    ensures var o, plan := l.orders[id], Planned(cfg, l, id, quotes);
      && (plan.Some? <==>
            && o.filledQty < o.qty && o.instrumentId in quotes
            && (o.orderType == LIMIT ==>
                  if o.side == BUY then quotes[o.instrumentId] <= o.limitPrice.value
                  else quotes[o.instrumentId] >= o.limitPrice.value))
      && (plan.Some? && plan.value.BookFill? ==>
            plan.value.price == ApplySlippage(quotes[o.instrumentId], o.side, cfg.slippageBps))
  {
    hide ClampToCash, ApplySlippage;
  }

  // ---- What the account is worth ----

  /** What an open position has gained since it was bought or sold; nothing while it has no quote, or a zero one. */
  ghost function Unrealized(quotes: Quotes): Column {
    (i: int, p: Position) =>
      if i in quotes && quotes[i] != 0.0 then p.qty as real * (quotes[i] - p.avgPrice) else 0.0
  }

  lemma MarkIsCostAndGain(quotes: Quotes, i: int, p: Position)
    ensures Marked(quotes)(i, p) == BOOK_VALUE(i, p) + Unrealized(quotes)(i, p)
  {
  }

  lemma {:induction false} TotalOfSum(a: Column, b: Column, c: Column, positions: map<int, Position>)
    requires forall i: int, p: Position :: c(i, p) == a(i, p) + b(i, p)
    ensures Total(c, positions) == Total(a, positions) + Total(b, positions)
    decreases positions.Keys
  {
    if i :| i in positions {
      TotalRemove(a, positions, i);
      TotalRemove(b, positions, i);
      TotalRemove(c, positions, i);
      TotalOfSum(a, b, c, positions - {i});
    }
  }

  /**
   * In every run the account's equity is the cash it started with, plus all that was realized, plus what the open
   * positions have gained at the quotes.
   */
  lemma EquityIs(cfg: Config, initialCash: real, ops: seq<Op>, quotes: Quotes)
    ensures var l := Run(cfg, NewLedger(initialCash), ops);
      Equity(l, quotes) == initialCash + RealizedSum(l.trades) + Total(Unrealized(quotes), l.positions)
  {
    hide Run, Total, NetFlow, RealizedSum;
    var l := Run(cfg, NewLedger(initialCash), ops);
    RunBooks(cfg, initialCash, ops);
    forall i: int, p: Position ensures Marked(quotes)(i, p) == BOOK_VALUE(i, p) + Unrealized(quotes)(i, p) {
      MarkIsCostAndGain(quotes, i, p);
    }
    TotalOfSum(BOOK_VALUE, Unrealized(quotes), Marked(quotes), l.positions);
  }
}
