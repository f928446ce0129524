/**
 * Unsafe retries do happen: with the repository's own sizer, at its largest permitted fraction and without
 * charges, a clamped remainder fills later without asking the risk engine.
 */
module UnsafeRetries {
  import opened Wrappers
  import opened Costs
  import opened OrderStates
  import opened PositionBook
  import opened TradeLog
  import opened PaperLedger
  import opened PaperLifecycle
  import opened PaperAccounting
  import opened FillOutcomes
  import opened KillSwitches
  import opened RiskGate
  import opened Strategies
  import opened Pnl
  import opened Orchestration
  import opened Exposure

  const FREE: Rates := CostRates(0.0, 0.0, 0.0, 0.0, 0.0, 0.0, 0.0, 0.0, 0.0)

  /** Ten per cent of equity per trade, at most two open positions. */
  const TENTH := OrchConfig(
    PaperLedger.Config({0, 1, 2}, DELIVERY, 0.0, FREE),
    RiskConfig(2, 100.0, 1, (equity: real, price: real) => FixedFractionalSize(10.0, equity, price)),
    (i: int) => 0.0, 0)

  function Asks(i: int, direction: Direction, price: real): Event {
    OnCandle(CandleStep(i, price, Says(Signal(direction, price)), 0))
  }

  function Quoted(i: int, price: real): Event { OnCandle(CandleStep(i, price, Silent, 0)) }

  /**
   * Buy ten shares of 0, whose price then rises a thousandfold. A tenth of the equity is now far more than the
   * cash: of 1009 shares of 1 asked for, 90 are bought, and sold again at once. The order for the rest is live.
   */
  function ClampAndExit(): seq<Event> {
    [Asks(0, LONG, 1.0), Quoted(0, 1000.0), Asks(1, LONG, 1.0), Asks(1, EXIT, 1.0)]
  }

  /** Go short on 1 at a high price; its quote comes back before the sweep. */
  function FlipSession(): seq<Event> { ClampAndExit() + [Asks(1, SHORT, 100.0), Quoted(1, 1.0), Housekeeping(0)] }

  /** Go short on 2, which leaves no room under the cap. */
  function CapSession(): seq<Event> { ClampAndExit() + [Asks(2, SHORT, 1.0), Housekeeping(0)] }

  // ---- Where the account stands ----

  predicate NothingRealized(trades: seq<Trade>) {
    forall k :: 0 <= k < |trades| ==> RealizedOf(trades[k].realizedPnl) == 0.0
  }

  lemma {:induction false} NothingLost(trades: seq<Trade>, executedAt: seq<int>, since: int)
    requires |trades| == |executedAt| && NothingRealized(trades)
    ensures RealizedSince(trades, executedAt, since) == 0.0
  {
    if trades != [] { NothingLost(trades[..|trades|-1], executedAt[..|trades|-1], since); }
  }

  ghost predicate Stands(s: Session, cash: real, positions: map<int, Position>, quotes: Quotes) {
    && StoreOk(TENTH, 100.0, s.store) && s.store.kill == CLEAR && NothingRealized(s.store.ledger.trades)
    && s.store.ledger.cash == cash && s.store.ledger.positions == positions && s.quotes == quotes
  }

  /** The second order rests with 90 of its 1009 shares filled; every other order is filled. */
  predicate Rests(l: Ledger) {
    && |l.orders| >= 2 && RowOf(l.orders[1], MarketOrder(1, BUY, 1009), 90)
    && (forall id: nat :: id < |l.orders| && id != 1 ==> l.orders[id].state == FILLED)
  }

  lemma Starts()
    ensures Stands(NewSession(100.0), 100.0, map[], map[])
  {
    hide StoreOk;
    NewSessionOk(TENTH, 100.0);
  }

  // ---- What is asked, and what is booked ----

  lemma FreeOfCharge(side: Side, qty: int, price: real)
    requires qty > 0 && price > 0.0
    ensures CalculateCosts(side, price, qty, DELIVERY, FREE)
         == Ok(TradeCosts(0.0, 0.0, 0.0, 0.0, 0.0, 0.0, 0.0, Worth(price, qty)))
  {
  }

  /** A flat account with room under the cap opens a tenth of its equity. */
  lemma Opens(s: Session, cash: real, positions: map<int, Position>, quotes: Quotes, i: int, direction: Direction,
              price: real)
    requires Stands(s, cash, positions, quotes) && direction != EXIT && QtyOf(positions, i) == 0
    requires CountOpen(positions) < 2
    requires FixedFractionalSize(10.0, Equity(s.store.ledger, quotes[i := price]), price) > 0
    ensures Ask(TENTH, s.store, quotes[i := price], 0, i, Signal(direction, price))
         == (Approved(if direction == LONG then BUY else SELL,
                      FixedFractionalSize(10.0, Equity(s.store.ledger, quotes[i := price]), price)), CLEAR)
  {
    hide CountOpen, Equity, RealizedSince, MidnightOf, FixedFractionalSize, StoreOk;
    NothingLost(s.store.ledger.trades, s.store.executedAt, MidnightOf(0));
  }

  lemma Exits(s: Session, cash: real, positions: map<int, Position>, quotes: Quotes, i: int, price: real)
    requires Stands(s, cash, positions, quotes) && QtyOf(positions, i) > 0
    ensures Ask(TENTH, s.store, quotes[i := price], 0, i, Signal(EXIT, price))
         == (Approved(SELL, QtyOf(positions, i)), CLEAR)
  {
    hide CountOpen, Equity, RealizedSince, MidnightOf, FixedFractionalSize, StoreOk;
    NothingLost(s.store.ledger.trades, s.store.executedAt, MidnightOf(0));
  }

  /** An approved signal at a positive price books what the cash pays for. */
  lemma Trades(s: Session, cash: real, positions: map<int, Position>, quotes: Quotes, i: int, direction: Direction,
               price: real, side: Side, want: int) returns (s': Session)
    requires Stands(s, cash, positions, quotes) && i in {0, 1, 2} && price > 0.0 && want > 0
    requires Ask(TENTH, s.store, quotes[i := price], 0, i, Signal(direction, price)) == (Approved(side, want), CLEAR)
    requires MarketQty(TENTH.paper, cash, MarketOrder(i, side, want), price) > 0
    requires var q := MarketQty(TENTH.paper, cash, MarketOrder(i, side, want), price);
      RealizedOf(ApplyFill(PositionOf(positions, i), side, q, Worth(price, q)).1) == 0.0
    ensures s' == Handle(TENTH, s, Asks(i, direction, price))
    ensures var q := MarketQty(TENTH.paper, cash, MarketOrder(i, side, want), price);
      && Stands(s', cash + CashFlow(side, Worth(price, q)),
                positions[i := ApplyFill(PositionOf(positions, i), side, q, Worth(price, q)).0], quotes[i := price])
      && |s'.store.ledger.orders| == |s.store.ledger.orders| + 1
      && s'.store.ledger.orders[..|s.store.ledger.orders|] == s.store.ledger.orders
      && RowOf(s'.store.ledger.orders[|s.store.ledger.orders|], MarketOrder(i, side, want), q)
  {
    hide Ask, PlaceOrder, ApplyFill, CalculateCosts, Worth, MarketQty, Lifecycle, Books, SwitchOk;
    var l, r, now := s.store.ledger, MarketOrder(i, side, want), quotes[i := price];
    assert ApplySlippage(price, side, 0.0) == price;
    var t := MarketOrderOutcome(TENTH.paper, l, r, now);
    FreeOfCharge(side, t.qty, price);
    s' := Handle(TENTH, s, Asks(i, direction, price));
    HandleKeepsStore(TENTH, 100.0, s, Asks(i, direction, price));
  }

  lemma QuoteArrives(s: Session, cash: real, positions: map<int, Position>, quotes: Quotes, i: int, price: real)
    requires Stands(s, cash, positions, quotes)
    ensures Stands(Handle(TENTH, s, Quoted(i, price)), cash, positions, quotes[i := price])
    ensures Handle(TENTH, s, Quoted(i, price)).store == s.store
  {
    hide StoreOk;
  }

  // ---- The sessions, step by step ----

  const TEN_OF_0 := map[0 := Position(10, 1.0, 0.0)]

  /** Ten shares of 0 at a thousand each; a flat row adds nothing. */
  lemma EquityNow(l: Ledger, quotes: Quotes)
    requires 0 in quotes && quotes[0] == 1000.0
    requires l.positions == TEN_OF_0 || l.positions == TEN_OF_0[1 := FLAT]
    ensures Equity(l, quotes) == l.cash + 10000.0
    ensures CountOpen(l.positions) == 1
  {
    hide CountOpen;
    var none: map<int, Position> := map[];
    assert TEN_OF_0 == none[0 := Position(10, 1.0, 0.0)];
    TotalUpdate(Marked(quotes), none, 0, Position(10, 1.0, 0.0));
    TotalUpdate(Marked(quotes), TEN_OF_0, 1, FLAT);
    NothingOpen();
    CountAfterWrite(none, 0, Position(10, 1.0, 0.0));
    CountAfterWrite(TEN_OF_0, 1, FLAT);
  }

  lemma NothingOpen()
    ensures CountOpen(map[]) == 0
  {
    assert OpenSet(map[]) == {};
  }

  lemma EmptyEquity(l: Ledger, quotes: Quotes)
    requires l.positions == map[]
    ensures Equity(l, quotes) == l.cash && CountOpen(l.positions) == 0
  {
    NothingOpen();
  }

  lemma Sizes()
    ensures FixedFractionalSize(10.0, 100.0, 1.0) == 10
    ensures FixedFractionalSize(10.0, 10090.0, 1.0) == 1009
    ensures FixedFractionalSize(10.0, 10090.0, 100.0) == 10
  {
  }

  /** What the cash pays for of a BUY at a price of one. */
  lemma BuysAtOne(cash: int, i: int, want: int)
    requires cash > 0 && want > 0
    ensures MarketQty(TENTH.paper, cash as real, MarketOrder(i, BUY, want), 1.0) == if cash < want then cash else want
  {
    hide CalculateCosts;
    var r, q := MarketOrder(i, BUY, want), if cash < want then cash else want;
    ClampIsGreatestAffordable(want, 1.0, DELIVERY, FREE, cash as real);
    FreeOfCharge(BUY, q, 1.0);
    assert NetAmount(BUY, 1.0, q, DELIVERY, FREE) == q as real;
    if cash < want {
      FreeOfCharge(BUY, cash + 1, 1.0);
      assert NetAmount(BUY, 1.0, cash + 1, DELIVERY, FREE) == (cash + 1) as real;
    }
  }

  lemma FirstOpen(positions: map<int, Position>, i: int, side: Side, q: int, price: real)
    requires PositionOf(positions, i) == FLAT && q > 0
    ensures ApplyFill(FLAT, side, q, Worth(price, q)) == (Position(SignedQty(side, q), price, 0.0), None)
  {
    hide Worth, PerShare;
    assert PerShare(Worth(price, q), q) == price by { PerShareOf(price, q); }
  }

  lemma PerShareOf(price: real, q: int)
    requires q > 0
    ensures PerShare(Worth(price, q), q) == price
  {
  }

  lemma ClosesEven(q: int, price: real)
    requires q > 0
    ensures ApplyFill(Position(q, price, 0.0), SELL, q, Worth(price, q)) == (FLAT, Some(0.0))
  {
    hide Worth, PerShare;
  }

  /** After the rise: ten shares of 0 are worth ten thousand, and 90 in cash are left. */
  lemma AfterRise() returns (s: Session)
    ensures s == HandleAll(TENTH, NewSession(100.0), ClampAndExit()[..2])
    ensures Stands(s, 90.0, TEN_OF_0, map[0 := 1000.0])
    ensures |s.store.ledger.orders| == 1 && s.store.ledger.orders[0].state == FILLED
  {
    hide Ask, MarketQty, Stands, Handle, Equity, ApplyFill, FixedFractionalSize, CountOpen;
    var start, events := NewSession(100.0), ClampAndExit();
    Starts();
    Sizes();
    EmptyEquity(start.store.ledger, map[0 := 1.0]);
    assert map[][0 := 1.0] == map[0 := 1.0] && map[0 := 1.0][0 := 1000.0] == map[0 := 1000.0];
    Opens(start, 100.0, map[], map[], 0, LONG, 1.0);
    BuysAtOne(100, 0, 10);
    FirstOpen(map[], 0, BUY, 10, 1.0);
    var bought := Trades(start, 100.0, map[], map[], 0, LONG, 1.0, BUY, 10);
    assert map[][0 := Position(10, 1.0, 0.0)] == TEN_OF_0;
    s := Handle(TENTH, bought, events[1]);
    QuoteArrives(bought, 90.0, TEN_OF_0, map[0 := 1.0], 0, 1000.0);
    assert events[..2][..1][..0] == [] && events[..2][..1] == [events[0]];
  }

  /** The clamped order rests, and what it bought is sold again at the same price. */
  lemma AfterExit() returns (s: Session)
    ensures s == HandleAll(TENTH, NewSession(100.0), ClampAndExit())
    ensures Stands(s, 90.0, TEN_OF_0[1 := FLAT], map[0 := 1000.0][1 := 1.0]) && Rests(s.store.ledger)
  {
    hide Ask, MarketQty, Stands, Handle, Equity, ApplyFill, FixedFractionalSize, CountOpen, RowOf;
    var events, quotes, held := ClampAndExit(), map[0 := 1000.0], TEN_OF_0[1 := Position(90, 1.0, 0.0)];
    var risen := AfterRise();
    AfterRiseEquity(risen);
    Sizes();
    Opens(risen, 90.0, TEN_OF_0, quotes, 1, LONG, 1.0);
    BuysAtOne(90, 1, 1009);
    FirstOpen(TEN_OF_0, 1, BUY, 90, 1.0);
    var clamped := Trades(risen, 90.0, TEN_OF_0, quotes, 1, LONG, 1.0, BUY, 1009);
    Exits(clamped, 0.0, held, quotes[1 := 1.0], 1, 1.0);
    ClosesEven(90, 1.0);
    SellsAll(0.0, 1, 90, 1.0);
    s := Trades(clamped, 0.0, held, quotes[1 := 1.0], 1, EXIT, 1.0, SELL, 90);
    assert quotes[1 := 1.0][1 := 1.0] == quotes[1 := 1.0] && held[1 := FLAT] == TEN_OF_0[1 := FLAT];
    assert events[..3][..2] == events[..2] && events[..3][2] == events[2] && events[..|events|-1] == events[..3];
    assert HandleAll(TENTH, NewSession(100.0), events[..3]) == clamped;
    RestsAfter(risen.store.ledger, clamped.store.ledger, s.store.ledger);
  }

  lemma AfterRiseEquity(s: Session)
    requires Stands(s, 90.0, TEN_OF_0, map[0 := 1000.0])
    ensures Equity(s.store.ledger, map[0 := 1000.0][1 := 1.0]) == 10090.0 && CountOpen(TEN_OF_0) == 1
  {
    hide StoreOk, Equity, CountOpen;
    EquityNow(s.store.ledger, map[0 := 1000.0][1 := 1.0]);
  }

  lemma SellsAll(cash: real, i: int, want: int, price: real)
    requires want > 0 && price > 0.0
    ensures MarketQty(TENTH.paper, cash, MarketOrder(i, SELL, want), price) == want
  {
  }

  lemma RestsAfter(a: Ledger, b: Ledger, c: Ledger)
    requires |a.orders| == 1 && a.orders[0].state == FILLED && |b.orders| == 2 && |c.orders| == 3
    requires b.orders[..1] == a.orders && RowOf(b.orders[1], MarketOrder(1, BUY, 1009), 90)
    requires c.orders[..2] == b.orders && RowOf(c.orders[2], MarketOrder(1, SELL, 90), 90)
    ensures Rests(c)
  {
    assert c.orders[..2][1] == c.orders[1] && b.orders[..1][0] == b.orders[0] && c.orders[..2][0] == c.orders[0];
  }

  lemma RestsStill(l: Ledger, l': Ledger, r: OrderRequest)
    requires Rests(l) && |l'.orders| == |l.orders| + 1 && l'.orders[..|l.orders|] == l.orders
    requires RowOf(l'.orders[|l.orders|], r, r.qty)
    ensures Rests(l')
  {
    hide RowOf;
    forall id: nat | id < |l.orders| ensures l'.orders[id] == l.orders[id] {
      assert l'.orders[..|l.orders|][id] == l'.orders[id];
    }
    assert l'.orders[|l.orders|].state == FILLED by { FullRow(l'.orders[|l.orders|], r); }
  }

  lemma FullRow(o: Order, r: OrderRequest)
    requires RowOf(o, r, r.qty)
    ensures o.state == FILLED
  {
  }

  /** Going short on `i`, which is flat, for a tenth of the equity. */
  lemma AfterShort(i: int, price: real, qty: int) returns (s: Session)
    requires (i == 1 && price == 100.0 && qty == 10) || (i == 2 && price == 1.0 && qty == 1009)
    ensures s == HandleAll(TENTH, NewSession(100.0), ClampAndExit() + [Asks(i, SHORT, price)])
    ensures Stands(s, 90.0 + Worth(price, qty), TEN_OF_0[1 := FLAT][i := Position(-qty, price, 0.0)],
                   map[0 := 1000.0][1 := 1.0][i := price])
    ensures Rests(s.store.ledger)
  {
    hide Ask, MarketQty, Stands, Handle, Equity, ApplyFill, FixedFractionalSize, CountOpen, RowOf, Rests, Worth;
    var quotes, held := map[0 := 1000.0][1 := 1.0], TEN_OF_0[1 := FLAT];
    var before := AfterExit();
    AfterExitEquity(before, i, price);
    Sizes();
    Opens(before, 90.0, held, quotes, i, SHORT, price);
    SellsAll(90.0, i, qty, price);
    FirstOpen(held, i, SELL, qty, price);
    s := Trades(before, 90.0, held, quotes, i, SHORT, price, SELL, qty);
    var events := ClampAndExit() + [Asks(i, SHORT, price)];
    assert events[..|events|-1] == ClampAndExit();
    RestsStill(before.store.ledger, s.store.ledger, MarketOrder(i, SELL, qty));
  }

  lemma AfterExitEquity(s: Session, i: int, price: real)
    requires Stands(s, 90.0, TEN_OF_0[1 := FLAT], map[0 := 1000.0][1 := 1.0]) && i in {1, 2}
    ensures Equity(s.store.ledger, map[0 := 1000.0][1 := 1.0][i := price]) == 10090.0
    ensures CountOpen(TEN_OF_0[1 := FLAT]) == 1
  {
    hide StoreOk, Equity, CountOpen;
    EquityNow(s.store.ledger, map[0 := 1000.0][1 := 1.0][i := price]);
  }

  // ---- The sweep ----

  lemma {:induction false} OnlySecondRests(orders: seq<Order>, n: nat)
    requires 2 <= n <= |orders| && ListedOpen(orders[1].state)
    requires forall id: nat :: id < n && id != 1 ==> orders[id].state == FILLED
    ensures OpenIds(orders, n) == [1]
  {
    if n == 2 {
      assert OpenIds(orders, 0) == [] && OpenIds(orders, 1) == [];
    } else {
      OnlySecondRests(orders, n - 1);
    }
  }

  /** The remainder is affordable, so its retry fills it. */
  lemma RestIsPlanned(l: Ledger, quotes: Quotes)
    requires Lifecycle(l) && Rests(l) && l.cash >= 919.0 && 1 in quotes && quotes[1] == 1.0
    ensures TryFill(TENTH.paper, l, 1, quotes).Ok? && Planned(TENTH.paper, l, 1, quotes) == Some(BookFill(1, 919, 1.0))
  {
    hide CalculateCosts, Worth, ApplyFill, LogIsPath, FilledBy;
    FreeOfCharge(BUY, 919, 1.0);
    assert Worth(1.0, 919) == 919.0 by { WorthOfRest(); }
    assert ClampToCash(919, 1.0, DELIVERY, FREE, l.cash) == Ok(919);
    FillKeepsOrderOk(l.orders[1], 919);
  }

  lemma SweepOfOne(cfg: PaperLedger.Config, l: Ledger, id: nat, quotes: Quotes)
    requires id < |l.orders| && TryFill(cfg, l, id, quotes).Ok?
    ensures RecheckAll(cfg, l, [id], quotes) == Outcome(TryFill(cfg, l, id, quotes).value, None)
  {
    hide TryFill;
    var ids := [id];
    assert ids[1..] == [];
  }

  lemma OneRetry(l: Ledger, quotes: Quotes)
    requires Rests(l) && TryFill(TENTH.paper, l, 1, quotes).Ok?
    ensures CheckRestingOrders(TENTH.paper, l, quotes) == Outcome(TryFill(TENTH.paper, l, 1, quotes).value, None)
  {
    hide TryFill, RecheckAll;
    OnlySecondRests(l.orders, |l.orders|);
    SweepOfOne(TENTH.paper, l, 1, quotes);
  }

  /** The sweep pays for the 919 shares that were left over. */
  lemma RemainderFills(s: Session, cash: real, positions: map<int, Position>, quotes: Quotes)
    requires Stands(s, cash, positions, quotes) && Rests(s.store.ledger)
    requires cash >= 919.0 && 1 in quotes && quotes[1] == 1.0
    ensures var after := Handle(TENTH, s, Housekeeping(0)).store.ledger.positions;
      && 1 in after && after == positions[1 := after[1]] && after[1].qty == QtyOf(positions, 1) + 919
  {
    hide TryFill, Planned, Lifecycle, Books, SwitchOk, Act, Enabled, CheckRestingOrders, CalculateCosts, Rests;
    var l := s.store.ledger;
    RestIsPlanned(l, quotes);
    OneRetry(l, quotes);
    RestIsLive(l);
    TryFillIsPlanned(TENTH.paper, l, 1, quotes);
    FillEffect(TENTH.paper, l, 1, 919, 1.0);
    var t := FillTrade(TENTH.paper, l, 1, 919, 1.0);
    FillConserves(PositionOf(positions, 1), BUY, 919, t.costs.netAmount);
  }

  lemma RestIsLive(l: Ledger)
    requires Rests(l)
    ensures |l.orders| >= 2 && Live(l.orders[1]) && l.orders[1].instrumentId == 1 && l.orders[1].side == BUY
  {
  }

  lemma WorthOfRest()
    ensures Worth(1.0, 919) == 919.0
  {
  }

  /** The sweep turns a short of ten shares into a long of 909. */
  lemma RetryFlipsPosition()
    ensures var events := FlipSession();
      var before := HandleAll(TENTH, NewSession(100.0), events[..|events|-1]);
      var after := HandleAll(TENTH, NewSession(100.0), events);
      && events[|events|-1] == Housekeeping(0)
      && QtyOf(before.store.ledger.positions, 1) == -10 && QtyOf(after.store.ledger.positions, 1) == 909
  {
    hide Stands, Rests, Handle;
    var events := FlipSession();
    var short := AfterShort(1, 100.0, 10);
    var quoted := Handle(TENTH, short, Quoted(1, 1.0));
    var positions, quotes := TEN_OF_0[1 := FLAT][1 := Position(-10, 100.0, 0.0)],
        map[0 := 1000.0][1 := 1.0][1 := 100.0];
    QuoteArrives(short, 1090.0, positions, quotes, 1, 1.0);
    assert events[..6][..5] == ClampAndExit() + [Asks(1, SHORT, 100.0)] && events[..6] == events[..|events|-1];
    assert HandleAll(TENTH, NewSession(100.0), events[..6]) == quoted;
    RemainderFills(quoted, 1090.0, positions, quotes[1 := 1.0]);
    assert quoted.store.ledger.positions == positions by { PositionsOf(quoted, 1090.0, positions, quotes[1 := 1.0]); }
  }

  lemma PositionsOf(s: Session, cash: real, positions: map<int, Position>, quotes: Quotes)
    requires Stands(s, cash, positions, quotes)
    ensures s.store.ledger.positions == positions
  {
    hide StoreOk;
  }

  /** The sweep opens a third position where two are allowed. */
  lemma RetryExceedsCap()
    ensures CountOpen(HandleAll(TENTH, NewSession(100.0), CapSession()).store.ledger.positions) == 3
    ensures TENTH.risk.maxOpenPositions == 2
  {
    hide Stands, Rests, Handle;
    var events := CapSession();
    var short := AfterShort(2, 1.0, 1009);
    assert events[..|events|-1] == ClampAndExit() + [Asks(2, SHORT, 1.0)];
    RemainderFills(short, 1099.0, TEN_OF_0[1 := FLAT][2 := Position(-1009, 1.0, 0.0)],
                   map[0 := 1000.0][1 := 1.0][2 := 1.0]);
    var positions := HandleAll(TENTH, NewSession(100.0), events).store.ledger.positions;
    assert OpenSet(positions) == {0, 1, 2};
  }
}
