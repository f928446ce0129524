/**
 * What the paper broker's tables hold and what each broker operation does to them, as a
 * function from state to state. PaperBroker's methods are proved equal to these functions.
 */
module PaperLedger {
  import opened Wrappers
  import opened Costs
  import opened OrderStates
  import opened PositionBook
  import opened TradeLog

  datatype OrderUpdate = OrderUpdate(orderId: nat, toState: OrderState, filledQty: int, fillPrice: Option<real>)

  /** Orders are identified by their row index, which stands for the unique client_order_id. */
  datatype Ledger = Ledger(
    cash: real,
    positions: map<int, Position>,
    orders: seq<Order>,
    trades: seq<Trade>,
    updates: seq<OrderUpdate>)

  datatype Config = Config(instruments: set<int>, segment: Segment, slippageBps: real, rates: Rates)

  type Quotes = map<int, real>

  /** The tables after an operation, and the exception it raised, if any. */
  datatype Outcome = Outcome(ledger: Ledger, error: Option<Error>)

  function NewLedger(initialCash: real): Ledger { Ledger(initialCash, map[], [], [], []) }

  /** The price slippage is applied to, or None when a LIMIT order is not marketable. */
  function ReferencePrice(o: Order, ltp: real): Result<Option<real>> {
    if o.orderType != LIMIT then Ok(Some(ltp))
    else if o.limitPrice.None? then Err(AssertionError)
    else
      var limit := o.limitPrice.value;
      var marketable := if o.side == BUY then ltp <= limit else ltp >= limit;
      if !marketable then Ok(None)
      else Ok(Some(if o.side == BUY then Min(ltp, limit) else Max(ltp, limit)))
  }

  /** Move one order row to a terminal state and queue the update. */
  function CancelRow(l: Ledger, id: nat): Result<Ledger>
    requires id < |l.orders|
  {
    match Transition(l.orders[id], CANCELLED)
    case Err(e) => Err(e)
    case Ok(o) => Ok(l.(orders := l.orders[id := o],
                        updates := l.updates + [OrderUpdate(id, CANCELLED, o.filledQty, None)]))
  }

  /** Book a fill of `qty` shares at `price`. */
  function ExecuteFill(cfg: Config, l: Ledger, id: nat, qty: int, price: real): Result<Ledger>
    requires id < |l.orders|
  {
    var o := l.orders[id];
    match CalculateCosts(o.side, price, qty, cfg.segment, cfg.rates)
    case Err(e) => Err(e)
    case Ok(costs) =>
      var (p, realized) := ApplyFill(PositionOf(l.positions, o.instrumentId), o.side, qty, costs.netAmount);
      var filled := o.filledQty + qty;
      var newState := if filled >= o.qty then FILLED else PARTIALLY_FILLED;
      match Transition(o.(filledQty := filled), newState)
      case Err(e) => Err(e)
      case Ok(o') =>
        Ok(Ledger(
          l.cash + CashFlow(o.side, costs.netAmount),
          l.positions[o.instrumentId := p],
          l.orders[id := o'],
          l.trades + [Trade(id, o.instrumentId, o.side, price, qty, costs, realized)],
          l.updates + [OrderUpdate(id, newState, filled, Some(price))]))
  }

  function TryFill(cfg: Config, l: Ledger, id: nat, quotes: Quotes): Result<Ledger>
    requires id < |l.orders|
  {
    var o := l.orders[id];
    var remaining := o.qty - o.filledQty;
    if remaining <= 0 then Ok(l)
    else if o.instrumentId !in quotes then Ok(l)
    else
      match ReferencePrice(o, quotes[o.instrumentId])
      case Err(e) => Err(e)
      case Ok(None) => Ok(l)
      case Ok(Some(reference)) =>
        var price := ApplySlippage(reference, o.side, cfg.slippageBps);
        match (if o.side == BUY then ClampToCash(remaining, price, cfg.segment, cfg.rates, l.cash) else Ok(remaining))
        case Err(e) => Err(e)
        case Ok(qty) => if qty <= 0 then CancelRow(l, id) else ExecuteFill(cfg, l, id, qty, price)
  }

  /** The order row as it stands when the first fill is attempted: created, submitted, acknowledged, open. */
  function OpenedOrder(r: OrderRequest): Result<Order> {
    match RecordCreated(Order(r.instrumentId, r.side, r.orderType, r.qty, r.limitPrice, PENDING_RISK, 0, []))
    case Err(e) => Err(e)
    case Ok(created) =>
      match Transition(created, SUBMITTING)
      case Err(e) => Err(e)
      case Ok(submitting) =>
        match Transition(submitting, SUBMITTED)
        case Err(e) => Err(e)
        case Ok(submitted) => Transition(submitted, OPEN)
  }

  function PlaceOrder(cfg: Config, l: Ledger, r: OrderRequest, quotes: Quotes): Outcome {
    if r.instrumentId !in cfg.instruments then Outcome(l, Some(UnknownInstrument))
    else
      match OpenedOrder(r)
      case Err(e) => Outcome(l, Some(e))
      case Ok(o) =>
        var id := |l.orders|;
        var placed := l.(orders := l.orders + [o], updates := l.updates + [OrderUpdate(id, OPEN, 0, None)]);
        match TryFill(cfg, placed, id, quotes)
        case Err(e) => Outcome(placed, Some(e))
        case Ok(l') => Outcome(l', None)
  }

  function CancelOrder(l: Ledger, id: nat): Outcome {
    if id >= |l.orders| then Outcome(l, Some(UnknownOrder))
    else if l.orders[id].state != OPEN && l.orders[id].state != PARTIALLY_FILLED then Outcome(l, None)
    else
      match CancelRow(l, id)
      case Err(e) => Outcome(l, Some(e))
      case Ok(l') => Outcome(l', None)
  }

  /** Retry the listed orders in turn; the first exception stops the sweep. */
  function RecheckAll(cfg: Config, l: Ledger, ids: seq<nat>, quotes: Quotes): Outcome
    requires forall k :: 0 <= k < |ids| ==> ids[k] < |l.orders|
    decreases |ids|
  {
    if ids == [] then Outcome(l, None)
    else
      match TryFill(cfg, l, ids[0], quotes)
      case Err(e) => Outcome(l, Some(e))
      case Ok(l') => RecheckAll(cfg, l', ids[1..], quotes)
  }

  function CheckRestingOrders(cfg: Config, l: Ledger, quotes: Quotes): Outcome {
    RecheckAll(cfg, l, OpenIds(l.orders, |l.orders|), quotes)
  }

  // ---- Whole runs ----

  datatype Op =
    | Place(request: OrderRequest, quotes: Quotes)
    | Cancel(id: nat)
    | Recheck(quotes: Quotes)

  function Step(cfg: Config, l: Ledger, op: Op): Outcome {
    match op
    case Place(r, quotes) => PlaceOrder(cfg, l, r, quotes)
    case Cancel(id) => CancelOrder(l, id)
    case Recheck(quotes) => CheckRestingOrders(cfg, l, quotes)
  }

  /** The tables after a sequence of operations; a raised exception is caught and the run goes on. */
  function Run(cfg: Config, l: Ledger, ops: seq<Op>): Ledger
    decreases |ops|
  {
    if ops == [] then l else Step(cfg, Run(cfg, l, ops[..|ops|-1]), ops[|ops|-1]).ledger
  }
}
