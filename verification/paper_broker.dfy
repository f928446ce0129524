/** The paper broker itself: its tables are fields that each operation updates step by step. */
module PaperBrokers {
  import opened Wrappers
  import opened Costs
  import opened OrderStates
  import opened PositionBook
  import opened TradeLog
  import opened PaperLedger
  import opened PaperLifecycle
  import opened PaperAccounting

  lemma ListedAreLive(l: Ledger, ids: seq<nat>)
    requires Lifecycle(l) && ids == OpenIds(l.orders, |l.orders|)
    ensures forall k :: 0 <= k < |ids| ==> Live(l.orders[ids[k]])
  {
    hide LogIsPath, FilledBy;
  }

  lemma FillIsLegal(l: Ledger, id: nat, qty: int)
    requires Lifecycle(l) && id < |l.orders| && Live(l.orders[id])
    requires 0 < qty <= l.orders[id].qty - l.orders[id].filledQty
    ensures var o, filled := l.orders[id], l.orders[id].filledQty + qty;
      Transition(o.(filledQty := filled), if filled >= o.qty then FILLED else PARTIALLY_FILLED).Ok?
  {
    hide LogIsPath, FilledBy;
    FillKeepsOrderOk(l.orders[id], qty);
  }

  lemma RecheckUnrolls(cfg: Config, l: Ledger, ids: seq<nat>, k: nat, quotes: Quotes)
    requires k < |ids| && forall j :: 0 <= j < |ids| ==> ids[j] < |l.orders|
    ensures RecheckAll(cfg, l, ids[k..], quotes)
         == match TryFill(cfg, l, ids[k], quotes)
            case Err(e) => Outcome(l, Some(e))
            case Ok(l') => RecheckAll(cfg, l', ids[k+1..], quotes)
  {
    hide TryFill;
    assert ids[k..][0] == ids[k] && ids[k..][1..] == ids[k+1..];
  }

  lemma RecheckEnds(cfg: Config, l: Ledger, ids: seq<nat>, quotes: Quotes)
    ensures RecheckAll(cfg, l, ids[|ids|..], quotes) == Outcome(l, None)
  {
  }

  /** A flat row is not listed, and would add nothing. */
  function MarkedRow(quotes: Quotes, i: int, p: Position): (r: real)
    ensures r == Worth(MarkPrice(quotes, i, p), p.qty)
  {
    if p.qty == 0 then 0.0 else Worth(MarkPrice(quotes, i, p), p.qty)
  }

  class PaperBroker {
    const cfg: Config
    const initialCash: real
    var cash: real
    var positions: map<int, Position>
    var orders: seq<Order>
    var trades: seq<Trade>
    var updates: seq<OrderUpdate>

    function State(): Ledger
      reads this
    {
      Ledger(cash, positions, orders, trades, updates)
    }

    /** The tables are in a state some sequence of operations can reach. */
    ghost predicate Valid()
      reads this
    {
      Lifecycle(State()) && Books(cfg, initialCash, State())
    }

    constructor (cfg: Config, initialCash: real)
      ensures this.cfg == cfg && this.initialCash == initialCash
      ensures State() == NewLedger(initialCash) && Valid()
    {
      this.cfg, this.initialCash := cfg, initialCash;
      cash, positions, orders, trades, updates := initialCash, map[], [], [], [];
    }

    /** Undo everything since the tables were `l`, as rolling back a transaction does. */
    method Rollback(l: Ledger)
      requires Lifecycle(l) && Books(cfg, initialCash, l)
      modifies this
      ensures State() == l && Valid()
    {
      cash, positions, orders, trades, updates := l.cash, l.positions, l.orders, l.trades, l.updates;
    }

    method TransitionOrder(id: nat, to: OrderState) returns (error: Option<Error>)
      requires id < |orders|
      modifies this`orders
      ensures match Transition(old(orders[id]), to)
              case Ok(o) => error == None && orders == old(orders)[id := o]
              case Err(e) => error == Some(e) && orders == old(orders)
    {
      var o := orders[id];
      if to !in AllowedTransitions(o.state) {
        return Some(InvalidOrderTransition);
      }
      orders := orders[id := o.(state := to, log := o.log + [OrderEvent(Some(o.state), to)])];
      error := None;
    }

    method Clamp(qty: int, price: real) returns (r: Result<int>)
      ensures r == ClampToCash(qty, price, cfg.segment, cfg.rates, cash)
    {
      var q := qty;
      while q > 0
        invariant ClampToCash(qty, price, cfg.segment, cfg.rates, cash)
               == ClampToCash(q, price, cfg.segment, cfg.rates, cash)
      {
        var costs := CalculateCosts(BUY, price, q, cfg.segment, cfg.rates);
        if costs.Err? { return Err(costs.error); }
        if costs.value.netAmount <= cash { return Ok(q); }
        q := q - 1;
      }
      r := Ok(0);
    }

    /** Book one leg into the position row and the cash account; a missing row is created flat. */
    method ApplyFillToPosition(instrumentId: int, side: Side, qty: int, net: real) returns (realized: Option<real>)
      requires qty > 0
      modifies this`positions, this`cash
      ensures cash == old(cash) + CashFlow(side, net)
      ensures var (p, r) := ApplyFill(PositionOf(old(positions), instrumentId), side, qty, net);
        positions == old(positions)[instrumentId := p] && realized == r
    {
      hide Worth, PerShare;
      var p := PositionOf(positions, instrumentId);
      var costBasisPerShare := PerShare(net, qty);
      if p.qty == 0 || ((p.qty > 0) == (side == BUY)) {
        if p.qty == 0 {
          p := p.(avgPrice := costBasisPerShare);
        } else {
          var totalCost := Worth(p.avgPrice, Abs(p.qty)) + Worth(costBasisPerShare, qty);
          p := p.(avgPrice := PerShare(totalCost, Abs(p.qty) + qty));
        }
        p := p.(qty := p.qty + if side == BUY then qty else -qty);
        cash := cash + if side == BUY then -net else net;
        realized := None;
      } else {
        var gain;
        if side == SELL {
          gain := net - Worth(p.avgPrice, qty);
          cash := cash + net;
          p := p.(qty := p.qty - qty);
        } else {
          gain := Worth(p.avgPrice, qty) - net;
          cash := cash - net;
          p := p.(qty := p.qty + qty);
        }
        if p.qty == 0 {
          p := p.(avgPrice := 0.0);
        }
        p := p.(realizedPnl := p.realizedPnl + gain);
        realized := Some(gain);
      }
      positions := positions[instrumentId := p];
    }

    method DoExecuteFill(id: nat, qty: int, price: real) returns (r: Result<OrderUpdate>)
      requires Lifecycle(State()) && id < |orders| && Live(orders[id])
      requires 0 < qty <= orders[id].qty - orders[id].filledQty
      modifies this`cash, this`positions, this`orders, this`trades
      ensures match ExecuteFill(cfg, old(State()), id, qty, price)
              case Err(e) => r == Err(e) && State() == old(State())
              case Ok(l) => r.Ok? && State().(updates := old(updates) + [r.value]) == l
    {
      hide CalculateCosts, ApplyFill, Lifecycle;
      FillIsLegal(State(), id, qty);
      var o := orders[id];
      var costs := CalculateCosts(o.side, price, qty, cfg.segment, cfg.rates);
      if costs.Err? { return Err(costs.error); }
      var realized := ApplyFillToPosition(o.instrumentId, o.side, qty, costs.value.netAmount);
      trades := trades + [Trade(id, o.instrumentId, o.side, price, qty, costs.value, realized)];
      orders := orders[id := o.(filledQty := o.filledQty + qty)];
      var newState := if orders[id].filledQty >= orders[id].qty then FILLED else PARTIALLY_FILLED;
      var error := TransitionOrder(id, newState);
      r := Ok(OrderUpdate(id, newState, orders[id].filledQty, Some(price)));
    }

    method AttemptFill(id: nat, quotes: Quotes) returns (r: Result<Option<OrderUpdate>>)
      requires Lifecycle(State()) && id < |orders| && Live(orders[id])
      modifies this`cash, this`positions, this`orders, this`trades
      ensures match TryFill(cfg, old(State()), id, quotes)
              case Err(e) => r == Err(e) && State() == old(State())
              case Ok(l) =>
                && r.Ok?
                && State().(updates := old(updates) + (if r.value.Some? then [r.value.value] else [])) == l
    {
      hide ClampToCash, ExecuteFill, LogIsPath, FilledBy, Min, Max, ApplySlippage;
      var o := orders[id];
      var remaining := o.qty - o.filledQty;
      if remaining <= 0 || o.instrumentId !in quotes { return Ok(None); }
      var ltp := quotes[o.instrumentId];
      var reference := ltp;
      if o.orderType == LIMIT {
        if o.limitPrice.None? { return Err(AssertionError); }
        var limit := o.limitPrice.value;
        var marketable := if o.side == BUY then ltp <= limit else ltp >= limit;
        if !marketable { return Ok(None); }
        reference := if o.side == BUY then Min(ltp, limit) else Max(ltp, limit);
      }
      var price := ApplySlippage(reference, o.side, cfg.slippageBps);
      var qty := remaining;
      if o.side == BUY {
        var clamped := Clamp(qty, price);
        if clamped.Err? { return Err(clamped.error); }
        qty := clamped.value;
      }
      if qty <= 0 {
        DropKeepsOrderOk(o);
        var error := TransitionOrder(id, CANCELLED);
        return Ok(Some(OrderUpdate(id, CANCELLED, o.filledQty, None)));
      }
      var filled := DoExecuteFill(id, qty, price);
      r := if filled.Ok? then Ok(Some(filled.value)) else Err(filled.error);
    }

    method Place(request: OrderRequest, quotes: Quotes) returns (error: Option<Error>)
      requires Valid()
      modifies this
      ensures Outcome(State(), error) == PlaceOrder(cfg, old(State()), request, quotes)
      ensures Valid()
    {
      StepKeepsBooks(cfg, initialCash, State(), PaperLedger.Place(request, quotes));
      if request.instrumentId !in cfg.instruments { return Some(UnknownInstrument); }
      var created := RecordCreated(
        Order(request.instrumentId, request.side, request.orderType, request.qty, request.limitPrice, PENDING_RISK, 0,
              []));
      if created.Err? { return Some(created.error); }
      var id := |orders|;
      ghost var before := State();
      orders := orders + [created.value];
      var e := TransitionOrder(id, SUBMITTING);
      e := TransitionOrder(id, SUBMITTED);
      e := TransitionOrder(id, OPEN);
      updates := updates + [OrderUpdate(id, OPEN, 0, None)];
      OpenedOrderIsOk(request);
      ActKeepsLifecycle(cfg, before, OpenOrder(request));
      assert State() == Act(cfg, before, OpenOrder(request));
      var update := AttemptFill(id, quotes);
      if update.Err? { return Some(update.error); }
      if update.value.Some? {
        updates := updates + [update.value.value];
      }
      error := None;
    }

    method CancelById(id: nat) returns (error: Option<Error>)
      requires Valid()
      modifies this
      ensures Outcome(State(), error) == CancelOrder(old(State()), id)
      ensures Valid()
    {
      StepKeepsBooks(cfg, initialCash, State(), PaperLedger.Cancel(id));
      if id >= |orders| { return Some(UnknownOrder); }
      if orders[id].state != OPEN && orders[id].state != PARTIALLY_FILLED { return None; }
      error := TransitionOrder(id, CANCELLED);
      updates := updates + [OrderUpdate(id, CANCELLED, orders[id].filledQty, None)];
    }

    /** Retry one live order and queue what happened to it. */
    method RetryOrder(id: nat, quotes: Quotes) returns (r: Result<Option<OrderUpdate>>)
      requires Lifecycle(State()) && id < |orders| && Live(orders[id])
      modifies this
      ensures match TryFill(cfg, old(State()), id, quotes)
              case Err(e) => r == Err(e) && State() == old(State())
              case Ok(l) => r.Ok? && State() == l
      ensures r.Ok? ==> updates == old(updates) + (if r.value.Some? then [r.value.value] else [])
      ensures Lifecycle(State()) && |orders| == |old(orders)|
      ensures forall k :: 0 <= k < |orders| && k != id ==> orders[k] == old(orders)[k]
    {
      hide TryFill, OrderOk, FilledBy;
      ghost var actions := TryFillRefines(cfg, State(), id, quotes);
      ghost var before := State();
      r := AttemptFill(id, quotes);
      if r.Ok? && r.value.Some? {
        updates := updates + [r.value.value];
      }
      ReachableLifecycle(cfg, before, if r.Ok? then actions else [], State());
    }

    /** Retry every listed order, collecting the updates of this sweep. */
    method CheckResting(quotes: Quotes) returns (collected: seq<OrderUpdate>, error: Option<Error>)
      requires Valid()
      modifies this
      ensures Outcome(State(), error) == CheckRestingOrders(cfg, old(State()), quotes)
      ensures updates == old(updates) + collected
      ensures Valid()
    {
      hide TryFill, Lifecycle, Books, Live, RecheckAll, OpenIds;
      var ids := OpenIds(orders, |orders|);
      ghost var before := State();
      ghost var goal := RecheckAll(cfg, before, ids, quotes);
      ListedAreLive(before, ids);
      StepKeepsBooks(cfg, initialCash, before, PaperLedger.Recheck(quotes));
      collected, error := [], None;
      var k := 0;
      while k < |ids|
        invariant 0 <= k <= |ids| && |orders| == |before.orders| && Lifecycle(State())
        invariant forall j :: k <= j < |ids| ==> Live(orders[ids[j]])
        invariant updates == old(updates) + collected
        invariant RecheckAll(cfg, State(), ids[k..], quotes) == goal
      {
        RecheckUnrolls(cfg, State(), ids, k, quotes);
        var update := RetryOrder(ids[k], quotes);
        if update.Err? {
          error := Some(update.error);
          return;
        }
        if update.value.Some? {
          collected := collected + [update.value.value];
        }
        k := k + 1;
      }
      RecheckEnds(cfg, State(), ids, quotes);
    }

    /** Cash and equity; positions are visited in no particular order. */
    method GetFunds(quotes: Quotes) returns (funds: real, equity: real)
      ensures funds == cash && equity == Equity(State(), quotes)
    {
      funds, equity := cash, cash;
      var todo := positions;
      while exists i :: i in todo
        invariant equity + Total(Marked(quotes), todo) == Equity(State(), quotes)
        decreases |todo.Keys|
      {
        var i :| i in todo;
        TotalRemove(Marked(quotes), todo, i);
        equity := equity + MarkedRow(quotes, i, todo[i]);
        todo := todo - {i};
      }
    }

    /** Drain the queued updates. */
    method StreamOrderUpdates() returns (drained: seq<OrderUpdate>)
      requires Valid()
      modifies this`updates
      ensures drained == old(updates) && State() == old(State()).(updates := []) && Valid()
    {
      drained := [];
      while updates != []
        invariant drained + updates == old(updates)
        decreases |updates|
      {
        drained := drained + [updates[0]];
        updates := updates[1..];
      }
    }
  }
}
