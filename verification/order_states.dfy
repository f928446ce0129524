/** Order rows, their lifecycle table and the append-only event log. */
module OrderStates {
  import opened Wrappers
  import opened Costs

  datatype OrderState =
    | PENDING_RISK | REJECTED_RISK | SUBMITTING | SUBMITTED | FAILED | REJECTED_BROKER
    | OPEN | PARTIALLY_FILLED | FILLED | CANCELLED | EXPIRED

  datatype OrderType = MARKET | LIMIT | SL

  datatype OrderRequest = OrderRequest(instrumentId: int, side: Side, orderType: OrderType, qty: int,
                                       limitPrice: Option<real>)

  function AllowedTransitions(s: OrderState): set<OrderState> {
    match s
    case PENDING_RISK => {REJECTED_RISK, SUBMITTING}
    case SUBMITTING => {SUBMITTED, FAILED}
    case SUBMITTED => {OPEN, REJECTED_BROKER, FAILED}
    case OPEN => {PARTIALLY_FILLED, FILLED, CANCELLED, EXPIRED}
    case PARTIALLY_FILLED => {PARTIALLY_FILLED, FILLED, CANCELLED, EXPIRED}
    case _ => {}
  }

  predicate Terminal(s: OrderState) { AllowedTransitions(s) == {} }

  /** The states an order can have been in just before. */
  function ReachedFrom(s: OrderState): set<OrderState> {
    match s
    case PENDING_RISK => {}
    case REJECTED_RISK => {PENDING_RISK}
    case SUBMITTING => {PENDING_RISK}
    case SUBMITTED => {SUBMITTING}
    case FAILED => {SUBMITTING, SUBMITTED}
    case REJECTED_BROKER => {SUBMITTED}
    case OPEN => {SUBMITTED}
    case _ => {OPEN, PARTIALLY_FILLED}
  }

  /** How far along its life an order is. */
  function Stage(s: OrderState): nat {
    match s
    case PENDING_RISK => 0
    case SUBMITTING => 1
    case SUBMITTED => 2
    case OPEN => 3
    case PARTIALLY_FILLED => 4
    case _ => 5
  }

  /**
   * The table read backwards, and what it makes of an order's life: every step leads onwards, only a partial fill
   * can repeat, and exactly the last stage is final.
   */
  lemma LifeOnlyMovesOn(s: OrderState, to: OrderState)
    ensures to in AllowedTransitions(s) <==> s in ReachedFrom(to)
    ensures to in AllowedTransitions(s) ==> Stage(s) < Stage(to) || (s == PARTIALLY_FILLED && to == PARTIALLY_FILLED)
    ensures Terminal(s) <==> Stage(s) == 5
    ensures ListedOpen(s) <==> 0 < Stage(s) < 5
  {
    if Terminal(s) { assert SUBMITTING !in AllowedTransitions(s) && FAILED !in AllowedTransitions(s)
                            && FILLED !in AllowedTransitions(s) && CANCELLED !in AllowedTransitions(s); }
  }

  /** The states `list_open` selects. */
  predicate ListedOpen(s: OrderState) {
    s == SUBMITTING || s == SUBMITTED || s == OPEN || s == PARTIALLY_FILLED
  }

  /** An order_events row; `from` is None for the birth event. */
  datatype OrderEvent = OrderEvent(from: Option<OrderState>, to: OrderState)

  /** An orders row together with the order_events rows that reference it, oldest first. */
  datatype Order = Order(
    instrumentId: int,
    side: Side,
    orderType: OrderType,
    qty: int,
    limitPrice: Option<real>,
    state: OrderState,
    filledQty: int,
    log: seq<OrderEvent>)

  /** Insert a new row and its birth event; the orders table requires a positive quantity. */
  function RecordCreated(o: Order): Result<Order> {
    if o.qty <= 0 then Err(IntegrityError)
    else Ok(o.(log := [OrderEvent(None, o.state)]))
  }

  function Transition(o: Order, to: OrderState): Result<Order> {
    if to !in AllowedTransitions(o.state) then Err(InvalidOrderTransition)
    else Ok(o.(state := to, log := o.log + [OrderEvent(Some(o.state), to)]))
  }

  /** The log is a path through the transition table from the birth event to the current state. */
  ghost predicate LogIsPath(o: Order) {
    && |o.log| > 0
    && o.log[0] == OrderEvent(None, PENDING_RISK)
    && (forall k :: 0 < k < |o.log| ==>
          && o.log[k].from == Some(o.log[k-1].to)
          && o.log[k].to in AllowedTransitions(o.log[k-1].to))
    && o.log[|o.log|-1].to == o.state
  }

  /** A transition that does not raise keeps the log a path. */
  lemma TransitionKeepsPath(o: Order, to: OrderState)
    requires LogIsPath(o) && Transition(o, to).Ok?
    ensures LogIsPath(Transition(o, to).value)
  {
    var n := Transition(o, to).value;
    forall k | 0 < k < |n.log|
      ensures n.log[k].from == Some(n.log[k-1].to) && n.log[k].to in AllowedTransitions(n.log[k-1].to)
    {
      assert n.log[k-1] == o.log[k-1];
    }
  }

  /** Orders `list_open` would return among the first `n` rows, oldest first. */
  function OpenIds(orders: seq<Order>, n: nat): (ids: seq<nat>)
    requires n <= |orders|
    ensures forall k :: 0 <= k < |ids| ==> ids[k] < n && ListedOpen(orders[ids[k]].state)
    ensures forall j, k :: 0 <= j < k < |ids| ==> ids[j] < ids[k]
    ensures forall id: nat :: id < n && ListedOpen(orders[id].state) ==> id in ids
  {
    if n == 0 then []
    else OpenIds(orders, n - 1) + (if ListedOpen(orders[n-1].state) then [n - 1] else [])
  }
}
