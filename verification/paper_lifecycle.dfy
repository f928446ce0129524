/**
 * Every paper broker operation refines a machine with three guarded actions: open an order,
 * drop one, book a fill. Whole-run invariants are proved on the actions.
 */
module PaperLifecycle {
  import opened Wrappers
  import opened Costs
  import opened OrderStates
  import opened PositionBook
  import opened TradeLog
  import opened PaperLedger

  datatype Action =
    | OpenOrder(request: OrderRequest)
    | DropOrder(id: nat)
    | BookFill(id: nat, qty: int, price: real)

  predicate Live(o: Order) { o.state == OPEN || o.state == PARTIALLY_FILLED }

  predicate Enabled(cfg: Config, l: Ledger, a: Action) {
    match a
    case OpenOrder(r) => r.instrumentId in cfg.instruments && r.qty > 0
    case DropOrder(id) => id < |l.orders| && Live(l.orders[id])
    case BookFill(id, qty, price) =>
      && id < |l.orders| && Live(l.orders[id])
      && 0 < qty <= l.orders[id].qty - l.orders[id].filledQty
      && price > 0.0
      && (l.orders[id].side == BUY ==> NetAmount(BUY, price, qty, cfg.segment, cfg.rates) <= l.cash)
  }

  function Act(cfg: Config, l: Ledger, a: Action): Ledger
    requires Enabled(cfg, l, a)
  {
    match a
    case OpenOrder(r) =>
      l.(orders := l.orders + [OpenedOrder(r).value],
         updates := l.updates + [OrderUpdate(|l.orders|, OPEN, 0, None)])
    case DropOrder(id) => CancelRow(l, id).value
    case BookFill(id, qty, price) => ExecuteFill(cfg, l, id, qty, price).value
  }

  /** The ledger after a sequence of enabled actions. */
  ghost predicate Reaches(cfg: Config, l: Ledger, actions: seq<Action>, l': Ledger)
    decreases |actions|
  {
    if actions == [] then l == l'
    else Enabled(cfg, l, actions[0]) && Reaches(cfg, Act(cfg, l, actions[0]), actions[1..], l')
  }

  lemma {:induction false} ReachesTrans(cfg: Config, l: Ledger, a: seq<Action>, m: Ledger, b: seq<Action>, r: Ledger)
    requires Reaches(cfg, l, a, m) && Reaches(cfg, m, b, r)
    ensures Reaches(cfg, l, a + b, r)
    decreases |a|
  {
    hide Enabled, Act;
    if a == [] {
      assert a + b == b;
    } else {
      assert (a + b)[0] == a[0] && (a + b)[1..] == a[1..] + b;
      ReachesTrans(cfg, Act(cfg, l, a[0]), a[1..], m, b, r);
    }
  }

  // ---- Order lifecycle ----

  ghost predicate OrderOk(o: Order) {
    && LogIsPath(o)
    && o.state in {OPEN, PARTIALLY_FILLED, FILLED, CANCELLED}
    && 0 <= o.filledQty <= o.qty && o.qty > 0
    && (o.state == FILLED <==> o.filledQty == o.qty)
    && (o.state == PARTIALLY_FILLED ==> 0 < o.filledQty)
    && (o.state == OPEN ==> o.filledQty == 0)
    && |o.log| <= 4 + o.filledQty + (if o.state == CANCELLED then 1 else 0)
  }

  ghost predicate Lifecycle(l: Ledger) {
    && (forall id: nat :: id < |l.orders| ==> OrderOk(l.orders[id]) && FilledBy(l.trades, id) == l.orders[id].filledQty)
    && (forall k :: 0 <= k < |l.trades| ==> l.trades[k].orderId < |l.orders| && l.trades[k].qty > 0)
  }

  /** An order that only ever went through legal states has used at most qty + 4 log rows. */
  lemma LogIsShort(o: Order)
    requires OrderOk(o)
    ensures |o.log| <= o.qty + 4
  {
  }

  lemma OpenedOrderIsOk(r: OrderRequest)
    requires r.qty > 0
    ensures OpenedOrder(r).Ok? && OrderOk(OpenedOrder(r).value) && OpenedOrder(r).value.state == OPEN
    ensures var o := OpenedOrder(r).value;
      o.instrumentId == r.instrumentId && o.side == r.side && o.orderType == r.orderType
      && o.qty == r.qty && o.limitPrice == r.limitPrice && o.filledQty == 0
  {
    var created := RecordCreated(Order(r.instrumentId, r.side, r.orderType, r.qty, r.limitPrice, PENDING_RISK, 0,
                                       [])).value;
    var submitting := Transition(created, SUBMITTING).value;
    TransitionKeepsPath(created, SUBMITTING);
    var submitted := Transition(submitting, SUBMITTED).value;
    TransitionKeepsPath(submitting, SUBMITTED);
    TransitionKeepsPath(submitted, OPEN);
  }

  lemma DropKeepsOrderOk(o: Order)
    requires OrderOk(o) && Live(o)
    ensures Transition(o, CANCELLED).Ok? && OrderOk(Transition(o, CANCELLED).value)
  {
    TransitionKeepsPath(o, CANCELLED);
  }

  lemma FillKeepsOrderOk(o: Order, qty: int)
    requires OrderOk(o) && Live(o) && 0 < qty <= o.qty - o.filledQty
    ensures var filled := o.filledQty + qty;
      var t := Transition(o.(filledQty := filled), if filled >= o.qty then FILLED else PARTIALLY_FILLED);
      t.Ok? && OrderOk(t.value)
  {
    var filled := o.filledQty + qty;
    var o1 := o.(filledQty := filled);
    assert LogIsPath(o1);
    TransitionKeepsPath(o1, if filled >= o.qty then FILLED else PARTIALLY_FILLED);
  }

  /** `l'` differs from `l` in one order row and in the trades booked against it. */
  lemma OneOrderChanged(l: Ledger, l': Ledger, id: nat)
    requires Lifecycle(l) && id < |l'.orders| && |l'.orders| == |l.orders|
    requires forall k: nat :: k < |l.orders| && k != id ==> l'.orders[k] == l.orders[k]
    requires OrderOk(l'.orders[id]) && FilledBy(l'.trades, id) == l'.orders[id].filledQty
    requires forall k: nat :: k < |l.orders| && k != id ==> FilledBy(l'.trades, k) == FilledBy(l.trades, k)
    requires forall k :: 0 <= k < |l'.trades| ==> l'.trades[k].orderId < |l'.orders| && l'.trades[k].qty > 0
    ensures Lifecycle(l')
  {
    hide OrderOk, FilledBy;
  }

  lemma FilledByAppend(trades: seq<Trade>, t: Trade, id: nat)
    ensures FilledBy(trades + [t], id) == FilledBy(trades, id) + (if t.orderId == id then t.qty else 0)
  {
    assert (trades + [t])[..|trades|] == trades;
  }

  lemma OpenKeepsLifecycle(cfg: Config, l: Ledger, r: OrderRequest)
    requires Lifecycle(l) && Enabled(cfg, l, OpenOrder(r))
    ensures Lifecycle(Act(cfg, l, OpenOrder(r)))
  {
    hide FilledBy, OrderOk, OpenedOrder;
    OpenedOrderIsOk(r);
    NothingFilledYet(l.trades, |l.orders|);
  }

  lemma DropKeepsLifecycle(cfg: Config, l: Ledger, id: nat)
    requires Lifecycle(l) && Enabled(cfg, l, DropOrder(id))
    ensures Lifecycle(Act(cfg, l, DropOrder(id)))
  {
    hide FilledBy, LogIsPath;
    DropKeepsOrderOk(l.orders[id]);
    OneOrderChanged(l, Act(cfg, l, DropOrder(id)), id);
  }

  /** A fill changes the order row as the state machine allows and appends one trade for it. */
  lemma FillChanges(cfg: Config, l: Ledger, id: nat, qty: int, price: real) returns (t: Trade)
    requires Lifecycle(l) && Enabled(cfg, l, BookFill(id, qty, price))
    ensures var l' := Act(cfg, l, BookFill(id, qty, price));
      && l'.trades == l.trades + [t] && t.orderId == id && t.qty == qty
      && |l'.orders| == |l.orders| && OrderOk(l'.orders[id]) && l'.orders[id].filledQty == l.orders[id].filledQty + qty
      && l'.orders == l.orders[id := l'.orders[id]]
  {
    hide LogIsPath, CostsOnTurnover, ApplyFill, FilledBy;
    FillKeepsOrderOk(l.orders[id], qty);
    t := Act(cfg, l, BookFill(id, qty, price)).trades[|l.trades|];
  }

  lemma FillKeepsLifecycle(cfg: Config, l: Ledger, id: nat, qty: int, price: real)
    requires Lifecycle(l) && Enabled(cfg, l, BookFill(id, qty, price))
    ensures Lifecycle(Act(cfg, l, BookFill(id, qty, price)))
  {
    hide Act, OrderOk, FilledBy;
    var t := FillChanges(cfg, l, id, qty, price);
    forall k: nat | k < |l.orders|
      ensures FilledBy(l.trades + [t], k) == FilledBy(l.trades, k) + (if id == k then qty else 0)
    {
      FilledByAppend(l.trades, t, k);
    }
    OneOrderChanged(l, Act(cfg, l, BookFill(id, qty, price)), id);
  }

  lemma ActKeepsLifecycle(cfg: Config, l: Ledger, a: Action)
    requires Lifecycle(l) && Enabled(cfg, l, a)
    ensures Lifecycle(Act(cfg, l, a))
  {
    hide Lifecycle, Act;
    match a {
      case OpenOrder(r) => OpenKeepsLifecycle(cfg, l, r);
      case DropOrder(id) => DropKeepsLifecycle(cfg, l, id);
      case BookFill(id, qty, price) => FillKeepsLifecycle(cfg, l, id, qty, price);
    }
  }

  lemma {:induction false} ReachableLifecycle(cfg: Config, l: Ledger, actions: seq<Action>, l': Ledger)
    requires Lifecycle(l) && Reaches(cfg, l, actions, l')
    ensures Lifecycle(l')
    decreases |actions|
  {
    if actions != [] {
      ActKeepsLifecycle(cfg, l, actions[0]);
      ReachableLifecycle(cfg, Act(cfg, l, actions[0]), actions[1..], l');
    }
  }

  // ---- The operations refine the actions ----

  /** What a fill attempt sets out to do, given remainder, quote and cash. */
  function Planned(cfg: Config, l: Ledger, id: nat, quotes: Quotes): Option<Action>
    requires id < |l.orders|
  {
    var o := l.orders[id];
    var remaining := o.qty - o.filledQty;
    if remaining <= 0 || o.instrumentId !in quotes then None
    else
      match ReferencePrice(o, quotes[o.instrumentId])
      case Err(_) => None
      case Ok(None) => None
      case Ok(Some(reference)) =>
        var price := ApplySlippage(reference, o.side, cfg.slippageBps);
        var clamped := ClampToCash(remaining, price, cfg.segment, cfg.rates, l.cash);
        var qty := if o.side == SELL then remaining else if clamped.Ok? then clamped.value else 0;
        Some(if qty <= 0 then DropOrder(id) else BookFill(id, qty, price))
  }

  /** The shares a retry of the order would fill: those the plan says, none if it plans no fill. */
  function RetryQty(cfg: Config, l: Ledger, id: nat, quotes: Quotes): (q: nat)
    requires id < |l.orders|
  {
    match Planned(cfg, l, id, quotes)
    case Some(BookFill(_, qty, _)) => if qty > 0 then qty else 0
    case _ => 0
  }

  /** An attempt that does not raise does what was planned. */
  lemma TryFillIsPlanned(cfg: Config, l: Ledger, id: nat, quotes: Quotes)
    requires Lifecycle(l) && id < |l.orders| && Live(l.orders[id]) && TryFill(cfg, l, id, quotes).Ok?
    ensures match Planned(cfg, l, id, quotes)
            case None => TryFill(cfg, l, id, quotes).value == l
            case Some(a) => !a.OpenOrder? && a.id == id && Enabled(cfg, l, a)
                            && TryFill(cfg, l, id, quotes).value == Act(cfg, l, a)
  {
    hide CostsOnTurnover, ApplyFill, LogIsPath, FilledBy, ApplySlippage, ReferencePrice;
    DropKeepsOrderOk(l.orders[id]);
    match Planned(cfg, l, id, quotes) {
      case Some(BookFill(_, qty, price)) => FillKeepsOrderOk(l.orders[id], qty);
      case _ =>
    }
  }

  /** What an attempt raises, if it raises. */
  lemma TryFillErrors(cfg: Config, l: Ledger, id: nat, quotes: Quotes)
    requires Lifecycle(l) && id < |l.orders| && Live(l.orders[id]) && TryFill(cfg, l, id, quotes).Err?
    ensures TryFill(cfg, l, id, quotes).error in {ValueError, AssertionError}
  {
    hide CostsOnTurnover, ApplyFill, LogIsPath, FilledBy, ApplySlippage;
    var o := l.orders[id];
    DropKeepsOrderOk(o);
    match Planned(cfg, l, id, quotes) {
      case Some(BookFill(_, qty, price)) => FillKeepsOrderOk(o, qty);
      case _ =>
    }
  }

  /** A fill attempt on a live order does nothing, drops it or books one enabled fill. */
  lemma TryFillRefines(cfg: Config, l: Ledger, id: nat, quotes: Quotes) returns (actions: seq<Action>)
    requires Lifecycle(l) && id < |l.orders| && Live(l.orders[id])
    ensures var r := TryFill(cfg, l, id, quotes);
      && (r.Err? ==> r.error in {ValueError, AssertionError})
      && (r.Ok? ==> Reaches(cfg, l, actions, r.value) && |actions| <= 1
                    && (actions != [] ==> !actions[0].OpenOrder? && actions[0].id == id)
                    && |r.value.orders| == |l.orders|
                    && forall k :: 0 <= k < |l.orders| && k != id ==> r.value.orders[k] == l.orders[k])
  {
    hide TryFill, Planned, Lifecycle, Enabled, Live;
    actions := [];
    var r, planned := TryFill(cfg, l, id, quotes), Planned(cfg, l, id, quotes);
    if r.Err? {
      TryFillErrors(cfg, l, id, quotes);
    } else {
      TryFillIsPlanned(cfg, l, id, quotes);
      if planned.Some? {
        actions := [planned.value];
        assert Reaches(cfg, r.value, [], r.value);
        assert actions[1..] == [];
        ActLeavesOthers(cfg, l, planned.value);
      }
    }
  }

  lemma ActLeavesOthers(cfg: Config, l: Ledger, a: Action)
    requires Lifecycle(l) && Enabled(cfg, l, a) && !a.OpenOrder?
    ensures var l' := Act(cfg, l, a);
      && |l'.orders| == |l.orders|
      && forall k :: 0 <= k < |l.orders| && k != a.id ==> l'.orders[k] == l.orders[k]
  {
    hide CostsOnTurnover, ApplyFill, LogIsPath, FilledBy;
    match a {
      case DropOrder(id) => DropKeepsOrderOk(l.orders[id]);
      case BookFill(id, qty, _) => FillKeepsOrderOk(l.orders[id], qty);
    }
  }

  /** Errors a paper operation may raise; an illegal order transition is not among them. */
  ghost predicate ExpectedError(e: Option<Error>) {
    e.Some? ==> e.value in {UnknownInstrument, UnknownOrder, IntegrityError, ValueError, AssertionError}
  }

  lemma {:induction false} RecheckRefines(cfg: Config, l: Ledger, ids: seq<nat>,
                                          quotes: Quotes) returns (actions: seq<Action>)
    requires Lifecycle(l)
    requires forall k :: 0 <= k < |ids| ==> ids[k] < |l.orders| && Live(l.orders[ids[k]])
    requires forall j, k :: 0 <= j < k < |ids| ==> ids[j] < ids[k]
    ensures Reaches(cfg, l, actions, RecheckAll(cfg, l, ids, quotes).ledger)
    ensures ExpectedError(RecheckAll(cfg, l, ids, quotes).error)
    decreases |ids|
  {
    actions := [];
    if ids != [] {
      var first := TryFillRefines(cfg, l, ids[0], quotes);
      var r := TryFill(cfg, l, ids[0], quotes);
      if r.Ok? {
        ReachableLifecycle(cfg, l, first, r.value);
        var rest := RecheckRefines(cfg, r.value, ids[1..], quotes);
        ReachesTrans(cfg, l, first, r.value, rest, RecheckAll(cfg, r.value, ids[1..], quotes).ledger);
        actions := first + rest;
      }
    }
  }

  /** Each broker operation, raised exceptions included, is a sequence of enabled actions. */
  lemma StepRefines(cfg: Config, l: Ledger, op: Op) returns (actions: seq<Action>)
    requires Lifecycle(l)
    ensures Reaches(cfg, l, actions, Step(cfg, l, op).ledger)
    ensures ExpectedError(Step(cfg, l, op).error)
  {
    actions := [];
    match op {
      case Place(r, quotes) =>
        if r.instrumentId in cfg.instruments && r.qty > 0 {
          OpenedOrderIsOk(r);
          var open := OpenOrder(r);
          var placed := Act(cfg, l, open);
          ActKeepsLifecycle(cfg, l, open);
          var fill := TryFillRefines(cfg, placed, |l.orders|, quotes);
          var end := Step(cfg, l, op).ledger;
          assert Reaches(cfg, placed, [], placed);
          assert [open][1..] == [];
          assert Reaches(cfg, l, [open], placed);
          if TryFill(cfg, placed, |l.orders|, quotes).Ok? {
            ReachesTrans(cfg, l, [open], placed, fill, end);
            actions := [open] + fill;
          } else {
            actions := [open];
          }
        }
      case Cancel(id) =>
        if id < |l.orders| && Live(l.orders[id]) {
          DropKeepsOrderOk(l.orders[id]);
          actions := [DropOrder(id)];
          assert actions[1..] == [];
          assert Reaches(cfg, Act(cfg, l, actions[0]), [], Act(cfg, l, actions[0]));
        }
      case Recheck(quotes) =>
        actions := RecheckRefines(cfg, l, OpenIds(l.orders, |l.orders|), quotes);
    }
  }

  lemma {:induction false} RunRefines(cfg: Config, l: Ledger, ops: seq<Op>) returns (actions: seq<Action>)
    requires Lifecycle(l)
    ensures Reaches(cfg, l, actions, Run(cfg, l, ops))
    decreases |ops|
  {
    actions := [];
    if ops != [] {
      var before := ops[..|ops|-1];
      var most := RunRefines(cfg, l, before);
      var m := Run(cfg, l, before);
      ReachableLifecycle(cfg, l, most, m);
      var last := StepRefines(cfg, m, ops[|ops|-1]);
      ReachesTrans(cfg, l, most, m, last, Run(cfg, l, ops));
      actions := most + last;
    }
  }

  /**
   * Order lifecycle, paper mode: after any operations every order's log is a path of the
   * transition table, its trades add up to its filled quantity, its state says exactly how
   * full it is, its log is at most qty + 4 rows, and the next operation cannot raise
   * InvalidOrderTransition.
   */
  lemma OrderLifecycle(cfg: Config, initialCash: real, ops: seq<Op>, next: Op)
    ensures var l := Run(cfg, NewLedger(initialCash), ops);
      && Lifecycle(l)
      && (forall id: nat :: id < |l.orders| ==> |l.orders[id].log| <= l.orders[id].qty + 4)
      && Step(cfg, l, next).error != Some(InvalidOrderTransition)
  {
    var l := Run(cfg, NewLedger(initialCash), ops);
    var actions := RunRefines(cfg, NewLedger(initialCash), ops);
    ReachableLifecycle(cfg, NewLedger(initialCash), actions, l);
    var _ := StepRefines(cfg, l, next);
    forall id: nat | id < |l.orders|
      ensures |l.orders[id].log| <= l.orders[id].qty + 4
    {
      LogIsShort(l.orders[id]);
    }
  }

  // ---- Finished orders ----

  lemma LiveRowDrops(l: Ledger, id: nat)
    requires Lifecycle(l) && id < |l.orders| && Live(l.orders[id])
    ensures CancelRow(l, id).Ok?
    ensures CancelRow(l, id).value.orders == l.orders[id := CancelRow(l, id).value.orders[id]]
  {
    hide LogIsPath, FilledBy;
    DropKeepsOrderOk(l.orders[id]);
  }

  lemma ActLeavesFinished(cfg: Config, l: Ledger, a: Action, id: nat)
    requires Lifecycle(l) && Enabled(cfg, l, a) && id < |l.orders| && !Live(l.orders[id])
    ensures var l' := Act(cfg, l, a);
      Lifecycle(l') && id < |l'.orders| && l'.orders[id] == l.orders[id]
  {
    hide Lifecycle, ApplyFill, OpenedOrder;
    ActKeepsLifecycle(cfg, l, a);
    match a {
      case OpenOrder(r) =>
      case DropOrder(k) => LiveRowDrops(l, k);
      case BookFill(k, qty, price) => var t := FillChanges(cfg, l, k, qty, price);
    }
  }

  lemma {:induction false} FinishedForGood(cfg: Config, l: Ledger, actions: seq<Action>, l': Ledger, id: nat)
    requires Lifecycle(l) && Reaches(cfg, l, actions, l') && id < |l.orders| && !Live(l.orders[id])
    ensures id < |l'.orders| && l'.orders[id] == l.orders[id]
    decreases |actions|
  {
    hide Lifecycle, Act, Enabled;
    if actions != [] {
      ActLeavesFinished(cfg, l, actions[0], id);
      FinishedForGood(cfg, Act(cfg, l, actions[0]), actions[1..], l', id);
    }
  }

  /**
   * Cancelling an unknown order raises and changes nothing. Any other order is afterwards finished for good: nothing
   * that is placed, cancelled or rechecked later changes its row or adds a trade to it. Only a live order is written,
   * and only its row and the updates.
   */
  lemma CancelIsFinal(cfg: Config, l: Ledger, id: nat, ops: seq<Op>)
    requires Lifecycle(l)
    ensures var out := CancelOrder(l, id);
      var later := Run(cfg, out.ledger, ops);
      && (id >= |l.orders| ==> out == Outcome(l, Some(UnknownOrder)))
      && (id < |l.orders| ==>
            && out.error == None && |out.ledger.orders| == |l.orders|
            && (out.ledger.orders[id].state == if Live(l.orders[id]) then CANCELLED else l.orders[id].state)
            && (!Live(l.orders[id]) ==> out.ledger == l)
            && out.ledger == l.(orders := l.orders[id := out.ledger.orders[id]], updates := out.ledger.updates)
            && id < |later.orders| && later.orders[id] == out.ledger.orders[id]
            && FilledBy(later.trades, id) == FilledBy(l.trades, id))
  {
    hide Lifecycle, OrderOk, LogIsPath;
    if id < |l.orders| {
      CancelKeeps(cfg, l, id);
      var m := CancelOrder(l, id).ledger;
      var actions := RunRefines(cfg, m, ops);
      FinishedForGood(cfg, m, actions, Run(cfg, m, ops), id);
      ReachableLifecycle(cfg, m, actions, Run(cfg, m, ops));
      FilledAsTraded(l, id);
      FilledAsTraded(Run(cfg, m, ops), id);
    }
  }

  lemma FilledAsTraded(l: Ledger, id: nat)
    requires Lifecycle(l) && id < |l.orders|
    ensures FilledBy(l.trades, id) == l.orders[id].filledQty
  {
  }

  lemma CancelKeeps(cfg: Config, l: Ledger, id: nat)
    requires Lifecycle(l) && id < |l.orders|
    ensures var out := CancelOrder(l, id);
      && out.error == None && Lifecycle(out.ledger) && |out.ledger.orders| == |l.orders|
      && !Live(out.ledger.orders[id]) && out.ledger.orders[id].filledQty == l.orders[id].filledQty
  {
    hide FilledBy, LogIsPath;
    if Live(l.orders[id]) {
      DropKeepsOrderOk(l.orders[id]);
      ActKeepsLifecycle(cfg, l, DropOrder(id));
    }
  }
}
