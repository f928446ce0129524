/** What one fill attempt books, what becomes of a market order, and what a limit order pays. */
module FillOutcomes {
  import opened Wrappers
  import opened Costs
  import opened OrderStates
  import opened PositionBook
  import opened TradeLog
  import opened PaperLedger
  import opened PaperLifecycle
  import opened PaperAccounting

  /** Cash, positions and trades are as before. */
  predicate BooksNothing(l: Ledger, l': Ledger) {
    l'.cash == l.cash && l'.positions == l.positions && l'.trades == l.trades
  }

  /** `l'` books one trade for order `o`, no larger than what was left of it, at its slipped reference price. */
  ghost predicate BooksFill(cfg: Config, l: Ledger, o: Order, quotes: Quotes, l': Ledger, t: Trade) {
    && Appends(l, t, l')
    && t.instrumentId == o.instrumentId && t.side == o.side && t.qty <= o.qty - o.filledQty && t.price > 0.0
    && Costed(cfg.segment, cfg.rates, t)
    && o.instrumentId in quotes
    && var reference := ReferencePrice(o, quotes[o.instrumentId]);
       && reference.Ok? && reference.value.Some?
       && t.price == ApplySlippage(reference.value.value, o.side, cfg.slippageBps)
  }

  /** A fill attempt books exactly the shares it was going to fill, none or in one trade. */
  lemma TryFillBooks(cfg: Config, l: Ledger, id: nat, quotes: Quotes) returns (t: Trade)
    requires Lifecycle(l) && id < |l.orders| && Live(l.orders[id]) && TryFill(cfg, l, id, quotes).Ok?
    ensures var l', q := TryFill(cfg, l, id, quotes).value, RetryQty(cfg, l, id, quotes);
      if q == 0 then BooksNothing(l, l')
      else BooksFill(cfg, l, l.orders[id], quotes, l', t) && t.orderId == id && t.qty == q
  {
    hide TryFill, CostsOnTurnover, ApplyFill, LogIsPath, FilledBy, ApplySlippage, ReferencePrice;
    t := *;
    TryFillIsPlanned(cfg, l, id, quotes);
    match Planned(cfg, l, id, quotes) {
      case Some(BookFill(_, qty, price)) =>
        FillEffect(cfg, l, id, qty, price);
        t := FillTrade(cfg, l, id, qty, price);
      case Some(DropOrder(_)) => DropKeepsOrderOk(l.orders[id]);
      case None =>
    }
  }

  /** Placing an order adds its row and books nothing or exactly one fill of it. */
  lemma PlaceBooks(cfg: Config, l: Ledger, r: OrderRequest, quotes: Quotes) returns (t: Trade)
    requires Lifecycle(l) && PlaceOrder(cfg, l, r, quotes).error == None
    ensures var l' := PlaceOrder(cfg, l, r, quotes).ledger;
      && r.qty > 0
      && (BooksNothing(l, l')
          || (BooksFill(cfg, l, OpenedOrder(r).value, quotes, l', t) && t.orderId == |l.orders| && t.qty <= r.qty))
  {
    hide TryFill, OrderOk, FilledBy, ApplyFill, CalculateCosts, ReferencePrice, ApplySlippage;
    OpenedOrderIsOk(r);
    var placed := Act(cfg, l, OpenOrder(r));
    OpenKeepsLifecycle(cfg, l, r);
    t := TryFillBooks(cfg, placed, |l.orders|, quotes);
  }

  // ---- Market orders ----

  predicate AffordsAll(cfg: Config, cash: real, r: OrderRequest, price: real)
    requires price > 0.0 && r.qty > 0
  {
    r.side == SELL || NetAmount(BUY, price, r.qty, cfg.segment, cfg.rates) <= cash
  }

  predicate AffordsOne(cfg: Config, cash: real, r: OrderRequest, price: real)
    requires price > 0.0
  {
    r.side == SELL || NetAmount(BUY, price, 1, cfg.segment, cfg.rates) <= cash
  }

  /** The shares a market order fills at once: all of a SELL, of a BUY what the cash pays for. */
  function MarketQty(cfg: Config, cash: real, r: OrderRequest, price: real): int
    requires price > 0.0 && r.qty > 0
  {
    if r.side == SELL then r.qty
    else
      ClampIsGreatestAffordable(r.qty, price, cfg.segment, cfg.rates, cash);
      ClampToCash(r.qty, price, cfg.segment, cfg.rates, cash).value
  }

  /** All of it exactly when all of it is affordable, none exactly when not one share is. */
  lemma MarketQtyIff(cfg: Config, cash: real, r: OrderRequest, price: real)
    requires price > 0.0 && r.qty > 0
    ensures var q := MarketQty(cfg, cash, r, price);
      && 0 <= q <= r.qty
      && (q == r.qty <==> AffordsAll(cfg, cash, r, price))
      && (q == 0 <==> !AffordsOne(cfg, cash, r, price))
  {
    hide CalculateCosts;
    if r.side == BUY { ClampIsGreatestAffordable(r.qty, price, cfg.segment, cfg.rates, cash); }
  }

  /** `l'` is `l` after booking `q` shares of the order in one trade `t`. */
  ghost predicate BooksOrder(cfg: Config, l: Ledger, r: OrderRequest, q: int, price: real, l': Ledger, t: Trade) {
    && t.instrumentId == r.instrumentId && t.side == r.side && t.qty == q && t.price == price
    && Costed(cfg.segment, cfg.rates, t) && Appends(l, t, l')
  }

  /** The row of an order that has filled `q` shares. */
  predicate RowOf(o: Order, r: OrderRequest, q: int) {
    && o.instrumentId == r.instrumentId && o.side == r.side && o.orderType == r.orderType && o.qty == r.qty
    && o.limitPrice == r.limitPrice && o.filledQty == q
    && o.state == (if q == r.qty then FILLED else if q == 0 then CANCELLED else PARTIALLY_FILLED)
  }

  /** The first attempt on a quoted market order: it raises exactly for a non-positive price, else fills or drops. */
  lemma MarketAttempt(cfg: Config, l: Ledger, id: nat, quotes: Quotes)
    requires Lifecycle(l) && id < |l.orders| && l.orders[id].state == OPEN && l.orders[id].filledQty == 0
    requires l.orders[id].orderType == MARKET && l.orders[id].instrumentId in quotes
    ensures var o := l.orders[id];
      var r := OrderRequest(o.instrumentId, o.side, MARKET, o.qty, o.limitPrice);
      var price := ApplySlippage(quotes[o.instrumentId], o.side, cfg.slippageBps);
      && r.qty > 0
      && (TryFill(cfg, l, id, quotes).Ok? <==> price > 0.0)
      && (price > 0.0 ==>
            var q := MarketQty(cfg, l.cash, r, price);
            Planned(cfg, l, id, quotes) == Some(if q <= 0 then DropOrder(id) else BookFill(id, q, price)))
  {
    hide CostsOnTurnover, ApplyFill, LogIsPath, FilledBy, ApplySlippage;
    var o := l.orders[id];
    DropKeepsOrderOk(o);
    var price := ApplySlippage(quotes[o.instrumentId], o.side, cfg.slippageBps);
    if price > 0.0 {
      var q := MarketQty(cfg, l.cash, OrderRequest(o.instrumentId, o.side, MARKET, o.qty, o.limitPrice), price);
      if o.side == BUY { ClampIsGreatestAffordable(o.qty, price, cfg.segment, cfg.rates, l.cash); }
      if q > 0 { FillKeepsOrderOk(o, q); }
    }
  }

  /**
   * A quoted market order is accepted exactly when its price after slippage is positive. It ends FILLED exactly
   * when the account can pay for all of it, CANCELLED exactly when it cannot pay for one share, and
   * otherwise stays live for the shares it could not pay for.
   */
  lemma MarketOrderOutcome(cfg: Config, l: Ledger, r: OrderRequest, quotes: Quotes) returns (t: Trade)
    requires Lifecycle(l) && r.orderType == MARKET && r.qty > 0
    requires r.instrumentId in cfg.instruments && r.instrumentId in quotes
    ensures var out := PlaceOrder(cfg, l, r, quotes);
      var price := ApplySlippage(quotes[r.instrumentId], r.side, cfg.slippageBps);
      && (out.error == None <==> price > 0.0)
      && (out.error == None ==>
            var q := MarketQty(cfg, l.cash, r, price);
            && |out.ledger.orders| == |l.orders| + 1 && out.ledger.orders[..|l.orders|] == l.orders
            && RowOf(out.ledger.orders[|l.orders|], r, q)
            && (q == r.qty <==> AffordsAll(cfg, l.cash, r, price))
            && (q == 0 <==> !AffordsOne(cfg, l.cash, r, price))
            && (q > 0 ==> BooksOrder(cfg, l, r, q, price, out.ledger, t) && t.orderId == |l.orders|)
            && (q == 0 ==> BooksNothing(l, out.ledger)))
  {
    hide TryFill, Planned, OrderOk, FilledBy, ApplyFill, ApplySlippage, AffordsAll, AffordsOne, MarketQty, Appends,
         OpenedOrder;
    t := *;
    OpenedOrderIsOk(r);
    var placed, id := Act(cfg, l, OpenOrder(r)), |l.orders|;
    OpenKeepsLifecycle(cfg, l, r);
    var price := ApplySlippage(quotes[r.instrumentId], r.side, cfg.slippageBps);
    MarketAttempt(cfg, placed, id, quotes);
    if price > 0.0 {
      MarketQtyIff(cfg, l.cash, r, price);
      TryFillIsPlanned(cfg, placed, id, quotes);
      t := PlannedOutcome(cfg, l, r, MarketQty(cfg, l.cash, r, price), price);
    }
  }

  /** Filling or dropping the order that was just opened. */
  lemma PlannedOutcome(cfg: Config, l: Ledger, r: OrderRequest, q: int, price: real) returns (t: Trade)
    requires Lifecycle(l) && r.qty > 0 && r.instrumentId in cfg.instruments && 0 <= q <= r.qty
    requires var a := if q == 0 then DropOrder(|l.orders|) else BookFill(|l.orders|, q, price);
      Lifecycle(Act(cfg, l, OpenOrder(r))) && Enabled(cfg, Act(cfg, l, OpenOrder(r)), a)
    ensures var a := if q == 0 then DropOrder(|l.orders|) else BookFill(|l.orders|, q, price);
      var l' := Act(cfg, Act(cfg, l, OpenOrder(r)), a);
      && |l'.orders| == |l.orders| + 1 && l'.orders[..|l.orders|] == l.orders && RowOf(l'.orders[|l.orders|], r, q)
      && (q > 0 ==> BooksOrder(cfg, l, r, q, price, l', t) && t.orderId == |l.orders|)
      && (q == 0 ==> BooksNothing(l, l'))
  {
    hide CostsOnTurnover, ApplyFill, LogIsPath, FilledBy, OpenedOrder;
    t := *;
    OpenedOrderIsOk(r);
    var placed, id := Act(cfg, l, OpenOrder(r)), |l.orders|;
    if q == 0 {
      DropKeepsOrderOk(placed.orders[id]);
    } else {
      FillKeepsOrderOk(placed.orders[id], q);
      FillEffect(cfg, placed, id, q, price);
      t := FillTrade(cfg, placed, id, q, price);
    }
  }

  // ---- Limit orders ----

  /** Slippage as a fraction of the price. */
  function Slip(cfg: Config): real { cfg.slippageBps / 10000.0 }

  /** No worse for the trader than the limit; the slack is how far slippage may push it. */
  predicate WithinLimit(o: Order, price: real, slack: real) {
    o.orderType == LIMIT ==>
      && o.limitPrice.Some?
      && if o.side == BUY then price <= o.limitPrice.value * (1.0 + slack)
         else price >= o.limitPrice.value * (1.0 - slack)
  }

  /** A limit order fills at the slipped quote, which was marketable. */
  lemma LimitFillPrice(cfg: Config, l: Ledger, o: Order, quotes: Quotes, l': Ledger, t: Trade)
    requires BooksFill(cfg, l, o, quotes, l', t) && o.orderType == LIMIT
    ensures o.limitPrice.Some? && o.instrumentId in quotes
    ensures var ltp, limit := quotes[o.instrumentId], o.limitPrice.value;
      && (if o.side == BUY then ltp <= limit else ltp >= limit)
      && t.price == (if o.side == BUY then ltp * (1.0 + Slip(cfg)) else ltp * (1.0 - Slip(cfg))) && t.price > 0.0
  {
    hide ApplyFill, Appends, Costed;
  }

  /**
   * The reference price respects the limit, but slippage is added afterwards: a fill of a limit order is worse
   * than its limit exactly when the slipped quote is.
   */
  lemma FillBreaksLimitIff(cfg: Config, l: Ledger, o: Order, quotes: Quotes, l': Ledger, t: Trade)
    requires BooksFill(cfg, l, o, quotes, l', t) && o.orderType == LIMIT
    ensures o.limitPrice.Some?
    ensures var ltp, limit := quotes[o.instrumentId], o.limitPrice.value;
      && (if o.side == BUY then ltp <= limit else ltp >= limit)
      && (!WithinLimit(o, t.price, 0.0)
          <==> if o.side == BUY then ltp * (1.0 + Slip(cfg)) > limit else ltp * (1.0 - Slip(cfg)) < limit)
  {
    hide BooksFill, Slip;
    LimitFillPrice(cfg, l, o, quotes, l', t);
    assert o.limitPrice.value * (1.0 + 0.0) == o.limitPrice.value * (1.0 - 0.0) == o.limitPrice.value;
  }

  /** Within its limit but for the slippage; a sale at a negative limit only if slippage is at most the whole price. */
  predicate WithinSlippage(cfg: Config, o: Order, price: real) {
    (o.side == BUY || Slip(cfg) <= 1.0 || (o.limitPrice.Some? && o.limitPrice.value >= 0.0))
    ==> WithinLimit(o, price, Slip(cfg))
  }

  /** A sale of something worth a non-negative price pays only if slippage is less than the whole price. */
  lemma SaleStaysPositive(ltp: real, slack: real, price: real)
    requires ltp >= 0.0 && price == ltp * (1.0 - slack) && price > 0.0
    ensures slack <= 1.0
  {
    if slack > 1.0 { MulNonNegative(ltp, slack - 1.0); }
  }

  /** Slippage is all that can push a fill past its limit. */
  lemma FillWithinSlippage(cfg: Config, l: Ledger, o: Order, quotes: Quotes, l': Ledger, t: Trade)
    requires BooksFill(cfg, l, o, quotes, l', t) && 0.0 <= cfg.slippageBps
    ensures WithinSlippage(cfg, o, t.price)
  {
    hide BooksFill, Slip;
    assert Slip(cfg) >= 0.0 by { SlipNonNegative(cfg); }
    if o.orderType == LIMIT {
      LimitFillPrice(cfg, l, o, quotes, l', t);
      var ltp, limit, slack := quotes[o.instrumentId], o.limitPrice.value, Slip(cfg);
      if o.side == BUY {
        SlippedBuy(ltp, limit, slack, t.price);
      } else {
        if limit >= 0.0 { SaleStaysPositive(ltp, slack, t.price); }
        if slack <= 1.0 { SlippedSell(ltp, limit, slack, t.price); }
      }
    }
  }

  lemma SlipNonNegative(cfg: Config)
    requires cfg.slippageBps >= 0.0
    ensures Slip(cfg) >= 0.0
  {
  }

  lemma SlippedBuy(ltp: real, limit: real, slack: real, price: real)
    requires ltp <= limit && slack >= 0.0 && price == ltp * (1.0 + slack)
    ensures price <= limit * (1.0 + slack)
  {
    MulMono(ltp, limit, 1.0 + slack);
  }

  lemma SlippedSell(ltp: real, limit: real, slack: real, price: real)
    requires ltp >= limit && slack <= 1.0 && price == ltp * (1.0 - slack)
    ensures price >= limit * (1.0 - slack)
  {
    MulMono(limit, ltp, 1.0 - slack);
  }

  /** Every trade booked so far stays within its order's limit, give or take the slippage. */
  ghost predicate LimitsKept(cfg: Config, l: Ledger) {
    forall k :: 0 <= k < |l.trades| ==>
      l.trades[k].orderId < |l.orders| && WithinSlippage(cfg, l.orders[l.trades[k].orderId], l.trades[k].price)
  }

  predicate SameTerms(o: Order, o': Order) {
    o'.side == o.side && o'.orderType == o.orderType && o'.limitPrice == o.limitPrice
  }

  ghost predicate TermsKept(l: Ledger, l': Ledger) {
    |l.orders| <= |l'.orders| && forall k :: 0 <= k < |l.orders| ==> SameTerms(l.orders[k], l'.orders[k])
  }

  lemma NoTradeKeepsLimits(cfg: Config, l: Ledger, l': Ledger)
    requires LimitsKept(cfg, l) && TermsKept(l, l') && l'.trades == l.trades
    ensures LimitsKept(cfg, l')
  {
    hide Slip;
    forall k | 0 <= k < |l'.trades|
      ensures l'.trades[k].orderId < |l'.orders|
      ensures WithinSlippage(cfg, l'.orders[l'.trades[k].orderId], l'.trades[k].price)
    {
      assert l.trades[k].orderId < |l.orders|;
    }
  }

  lemma TradeKeepsLimits(cfg: Config, l: Ledger, l': Ledger, t: Trade)
    requires LimitsKept(cfg, l) && TermsKept(l, l') && l'.trades == l.trades + [t]
    requires t.orderId < |l'.orders| && WithinSlippage(cfg, l'.orders[t.orderId], t.price)
    ensures LimitsKept(cfg, l')
  {
    hide Slip;
    forall k | 0 <= k < |l'.trades|
      ensures l'.trades[k].orderId < |l'.orders|
      ensures WithinSlippage(cfg, l'.orders[l'.trades[k].orderId], l'.trades[k].price)
    {
      if k < |l.trades| { assert l'.trades[k] == l.trades[k]; }
    }
  }

  lemma TryFillKeepsTerms(cfg: Config, l: Ledger, id: nat, quotes: Quotes)
    requires Lifecycle(l) && id < |l.orders| && Live(l.orders[id]) && TryFill(cfg, l, id, quotes).Ok?
    ensures TermsKept(l, TryFill(cfg, l, id, quotes).value)
    ensures |TryFill(cfg, l, id, quotes).value.orders| == |l.orders|
  {
    hide CostsOnTurnover, ApplyFill, LogIsPath, FilledBy, ApplySlippage, ReferencePrice, ClampToCash;
  }

  lemma TryFillKeepsLimits(cfg: Config, l: Ledger, id: nat, quotes: Quotes)
    requires Lifecycle(l) && id < |l.orders| && Live(l.orders[id]) && TryFill(cfg, l, id, quotes).Ok?
    requires 0.0 <= cfg.slippageBps && LimitsKept(cfg, l)
    ensures LimitsKept(cfg, TryFill(cfg, l, id, quotes).value)
  {
    hide Lifecycle, TryFill, LimitsKept, Slip, ReferencePrice, ApplySlippage, Costed, ApplyFill;
    var t := TryFillBooks(cfg, l, id, quotes);
    var l', o := TryFill(cfg, l, id, quotes).value, l.orders[id];
    TryFillKeepsTerms(cfg, l, id, quotes);
    if BooksNothing(l, l') {
      NoTradeKeepsLimits(cfg, l, l');
    } else {
      FillWithinSlippage(cfg, l, o, quotes, l', t);
      TradeKeepsLimits(cfg, l, l', t);
    }
  }

  lemma {:induction false} RecheckKeepsLimits(cfg: Config, l: Ledger, ids: seq<nat>, quotes: Quotes)
    requires Lifecycle(l) && 0.0 <= cfg.slippageBps && LimitsKept(cfg, l)
    requires forall k :: 0 <= k < |ids| ==> ids[k] < |l.orders| && Live(l.orders[ids[k]])
    requires forall j, k :: 0 <= j < k < |ids| ==> ids[j] < ids[k]
    ensures LimitsKept(cfg, RecheckAll(cfg, l, ids, quotes).ledger)
    decreases |ids|
  {
    hide Lifecycle, TryFill, LimitsKept;
    if ids != [] {
      var first := TryFillRefines(cfg, l, ids[0], quotes);
      var r := TryFill(cfg, l, ids[0], quotes);
      if r.Ok? {
        TryFillKeepsLimits(cfg, l, ids[0], quotes);
        ReachableLifecycle(cfg, l, first, r.value);
        RecheckKeepsLimits(cfg, r.value, ids[1..], quotes);
      }
    }
  }

  lemma PlaceKeepsLimits(cfg: Config, l: Ledger, r: OrderRequest, quotes: Quotes)
    requires Lifecycle(l) && 0.0 <= cfg.slippageBps && LimitsKept(cfg, l)
    ensures LimitsKept(cfg, PlaceOrder(cfg, l, r, quotes).ledger)
  {
    hide TryFill, LimitsKept, OrderOk, FilledBy;
    if r.instrumentId in cfg.instruments && r.qty > 0 {
      OpenedOrderIsOk(r);
      var placed := Act(cfg, l, OpenOrder(r));
      OpenKeepsLifecycle(cfg, l, r);
      NoTradeKeepsLimits(cfg, l, placed);
      if TryFill(cfg, placed, |l.orders|, quotes).Ok? { TryFillKeepsLimits(cfg, placed, |l.orders|, quotes); }
    }
  }

  lemma StepKeepsLimits(cfg: Config, l: Ledger, op: Op)
    requires Lifecycle(l) && 0.0 <= cfg.slippageBps && LimitsKept(cfg, l)
    ensures LimitsKept(cfg, Step(cfg, l, op).ledger)
  {
    hide PlaceOrder, LimitsKept, FilledBy, LogIsPath;
    match op {
      case Place(r, quotes) => PlaceKeepsLimits(cfg, l, r, quotes);
      case Cancel(id) =>
        if id < |l.orders| && Live(l.orders[id]) {
          DropKeepsOrderOk(l.orders[id]);
          NoTradeKeepsLimits(cfg, l, Step(cfg, l, op).ledger);
        }
      case Recheck(quotes) =>
        RecheckKeepsLimits(cfg, l, OpenIds(l.orders, |l.orders|), quotes);
    }
  }

  /** In every run each trade of a limit order is within its limit, give or take the slippage. */
  lemma {:induction false} RunKeepsLimits(cfg: Config, initialCash: real, ops: seq<Op>)
    requires 0.0 <= cfg.slippageBps
    ensures LimitsKept(cfg, Run(cfg, NewLedger(initialCash), ops))
    decreases |ops|
  {
    hide Step, Lifecycle;
    if ops != [] {
      var before := ops[..|ops|-1];
      RunKeepsLimits(cfg, initialCash, before);
      RunHasLifecycle(cfg, initialCash, before);
      StepKeepsLimits(cfg, Run(cfg, NewLedger(initialCash), before), ops[|ops|-1]);
    }
  }

  lemma RunHasLifecycle(cfg: Config, initialCash: real, ops: seq<Op>)
    ensures Lifecycle(Run(cfg, NewLedger(initialCash), ops))
  {
    hide Run;
    OrderLifecycle(cfg, initialCash, ops, Cancel(0));
  }

  ghost predicate LimitsRespected(l: Ledger) {
    forall k :: 0 <= k < |l.trades| && l.trades[k].orderId < |l.orders| ==>
      WithinLimit(l.orders[l.trades[k].orderId], l.trades[k].price, 0.0)
  }

  /** One share bought at a limit that is also the quote, with just the cash it takes. */
  lemma OneLimitBuy(cfg: Config, i: int) returns (cash: real, ops: seq<Op>)
    requires i in cfg.instruments && cfg.slippageBps > 0.0
    ensures !LimitsRespected(Run(cfg, NewLedger(cash), ops))
  {
    hide CostsOnTurnover, ApplyFill, LogIsPath, OpenedOrder, FilledBy;
    var r, quotes := OrderRequest(i, BUY, LIMIT, 1, Some(1.0)), map[i := 1.0];
    var price := ApplySlippage(1.0, BUY, cfg.slippageBps);
    assert price > 1.0;
    cash := NetAmount(BUY, price, 1, cfg.segment, cfg.rates);
    ops := [Place(r, quotes)];
    OpenedOrderIsOk(r);
    FillKeepsOrderOk(OpenedOrder(r).value, 1);
    assert ops[..|ops|-1] == [];
    assert Run(cfg, NewLedger(cash), []) == NewLedger(cash);
    assert ReferencePrice(OpenedOrder(r).value, 1.0) == Ok(Some(1.0));
    var l := Run(cfg, NewLedger(cash), ops);
    assert l.trades[0].price == price;
  }

  /** All trades of all runs respect their limits exactly when there is no slippage. */
  lemma LimitRespectedIff(cfg: Config)
    requires (exists i :: i in cfg.instruments) && cfg.slippageBps >= 0.0
    ensures cfg.slippageBps == 0.0
       <==> forall initialCash: real, ops: seq<Op> :: LimitsRespected(Run(cfg, NewLedger(initialCash), ops))
  {
    hide Run, Lifecycle;
    if cfg.slippageBps == 0.0 {
      forall initialCash: real, ops: seq<Op> ensures LimitsRespected(Run(cfg, NewLedger(initialCash), ops)) {
        RunKeepsLimits(cfg, initialCash, ops);
      }
    } else {
      var i :| i in cfg.instruments;
      var cash, ops := OneLimitBuy(cfg, i);
    }
  }
}
