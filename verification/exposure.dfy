/** How much of a paper session the risk engine really governs: retries of resting orders are the one way round it. */
module Exposure {
  import opened Wrappers
  import opened Costs
  import opened OrderStates
  import opened PositionBook
  import opened TradeLog
  import opened PaperLedger
  import opened PaperLifecycle
  import opened PaperAccounting
  import opened FillOutcomes
  import opened Journal
  import opened KillSwitches
  import opened RiskGate
  import opened Pnl
  import opened Orchestration

  // ---- One fill ----

  /** No leg of instrument `i` ever closed more than was held. */
  ghost predicate NeverOverClosed(l: Ledger, i: int) {
    var own := TradesOf(l.trades, i);
    PositiveLegs(own) && NoneOverCloses(own, 0, |own|)
  }

  predicate UnderCap(cfg: OrchConfig, positions: map<int, Position>) {
    CountOpen(positions) == 0 || CountOpen(positions) <= cfg.risk.maxOpenPositions
  }

  /** Open positions are within the cap, and no position ever changed sign without being flat. */
  ghost predicate Bounded(cfg: OrchConfig, l: Ledger) {
    UnderCap(cfg, l.positions) && forall i :: NeverOverClosed(l, i)
  }

  /** Trading `qty` of `i` does not exceed an opposite position, and opens one only with room under the cap. */
  predicate SafeLeg(cfg: OrchConfig, l: Ledger, i: int, side: Side, qty: int) {
    var held := QtyOf(l.positions, i);
    if held == 0 then CountOpen(l.positions) < cfg.risk.maxOpenPositions
    else (held > 0) == (side == BUY) || qty <= Abs(held)
  }

  /** Writing one row opens or closes at most that instrument. */
  lemma CountAfterWrite(positions: map<int, Position>, i: int, p: Position)
    ensures CountOpen(positions[i := p])
         == CountOpen(positions) + (if p.qty != 0 then 1 else 0) - (if QtyOf(positions, i) != 0 then 1 else 0)
  {
    var before, after := OpenSet(positions), OpenSet(positions[i := p]);
    assert before - {i} == after - {i};
    OneMore(before, i);
    OneMore(after, i);
  }

  lemma OneMore(a: set<int>, i: int)
    ensures |a| == |a - {i}| + (if i in a then 1 else 0)
  {
    if i in a { assert a == (a - {i}) + {i}; } else { assert a == a - {i}; }
  }

  /**
   * What a fill on an instrument holding h does: it changes the sign without being flat exactly when it goes
   * against h and exceeds it, and it raises the number of open positions exactly when h is zero.
   */
  lemma FillEffectIff(l: Ledger, t: Trade, l': Ledger)
    requires Appends(l, t, l')
    ensures var h, h' := QtyOf(l.positions, t.instrumentId), QtyOf(l'.positions, t.instrumentId);
      && (((h > 0 && h' < 0) || (h < 0 && h' > 0)) <==> h != 0 && (h > 0) == (t.side == SELL) && t.qty > Abs(h))
      && (CountOpen(l'.positions) > CountOpen(l.positions) <==> h == 0)
  {
    hide Worth, PerShare, CountOpen, CashFlow;
    CountAfterWrite(l.positions, t.instrumentId, l'.positions[t.instrumentId]);
  }

  lemma CountAfterFill(l: Ledger, t: Trade, l': Ledger)
    requires Appends(l, t, l')
    ensures CountOpen(l'.positions)
         <= CountOpen(l.positions) + (if QtyOf(l.positions, t.instrumentId) == 0 then 1 else 0)
    ensures QtyOf(l.positions, t.instrumentId) == 0 ==> CountOpen(l'.positions) == CountOpen(l.positions) + 1
  {
    hide Worth, PerShare, CountOpen, CashFlow;
    CountAfterWrite(l.positions, t.instrumentId, l'.positions[t.instrumentId]);
  }

  lemma HistoryAfterFill(l: Ledger, t: Trade, l': Ledger, i: int)
    requires RowMatchesTrades(l.positions, l.trades, i) && NeverOverClosed(l, i) && Appends(l, t, l')
    ensures NeverOverClosed(l', i)
       <==> i != t.instrumentId || NotOverClosing(PositionOf(l.positions, i), t.side, t.qty)
  {
    hide ApplyFill, TradesOf, Replay, Booked, NotOverClosing;
    TradesOfAppend(l.trades, t, i);
    var own, own' := TradesOf(l.trades, i), TradesOf(l'.trades, i);
    if i == t.instrumentId {
      assert own' == own + [t] && PositiveLegs(own');
      assert own'[..|own|] == own;
      forall k | 0 <= k < |own| ensures !OverCloses(own', k) {
        assert own'[..k] == own[..k];
        assert !OverCloses(own, k);
      }
      assert OverCloses(own', |own|) <==> !NotOverClosing(PositionOf(l.positions, i), t.side, t.qty);
    } else {
      assert own' == own;
    }
  }

  /** A bounded ledger stays bounded through a fill exactly when the fill is safe. */
  lemma FillBoundedIff(cfg: OrchConfig, initialCash: real, l: Ledger, t: Trade, l': Ledger)
    requires Books(cfg.paper, initialCash, l) && Bounded(cfg, l) && Appends(l, t, l')
    ensures Bounded(cfg, l') <==> SafeLeg(cfg, l, t.instrumentId, t.side, t.qty)
  {
    hide CountOpen, NeverOverClosed, Total, NetFlow, RealizedSum, RowMatchesTrades, Balanced, Costed, Appends,
         NotOverClosing, SafeLeg;
    CountAfterFill(l, t, l');
    forall i
      ensures NeverOverClosed(l', i)
         <==> i != t.instrumentId || NotOverClosing(PositionOf(l.positions, i), t.side, t.qty)
    {
      assert RowMatchesTrades(l.positions, l.trades, i) && NeverOverClosed(l, i);
      HistoryAfterFill(l, t, l', i);
    }
    assert NeverOverClosed(l', t.instrumentId)
      <==> NotOverClosing(PositionOf(l.positions, t.instrumentId), t.side, t.qty);
    SafeLegIs(cfg, l, t.instrumentId, t.side, t.qty);
  }

  lemma SafeLegIs(cfg: OrchConfig, l: Ledger, i: int, side: Side, qty: int)
    ensures SafeLeg(cfg, l, i, side, qty)
       <==> && NotOverClosing(PositionOf(l.positions, i), side, qty)
            && (QtyOf(l.positions, i) == 0 ==> CountOpen(l.positions) < cfg.risk.maxOpenPositions)
  {
    hide CountOpen;
  }

  lemma SameBooksSameBound(cfg: OrchConfig, l: Ledger, l': Ledger)
    requires Bounded(cfg, l) && l'.positions == l.positions && l'.trades == l.trades
    ensures Bounded(cfg, l')
  {
    forall i ensures NeverOverClosed(l', i) {
      assert NeverOverClosed(l, i);
    }
  }

  // ---- Candles never break the bounds ----

  /** Whatever rests, what the risk engine approves either reduces the position or opens one under the cap. */
  lemma CandleStaysBounded(cfg: OrchConfig, initialCash: real, s: Session, c: CandleStep)
    requires StoreOk(cfg, initialCash, s.store) && Bounded(cfg, s.store.ledger)
    ensures Bounded(cfg, Handle(cfg, s, OnCandle(c)).store.ledger)
  {
    hide Ask, PlaceOrder, Lifecycle, Books, SwitchOk, Bounded, RecordError;
    var quotes, l := s.quotes[c.instrumentId := c.close], s.store.ledger;
    if ProcessCandle(cfg, s.store, quotes, c).Ok? && c.answer.Says? {
      AskIsSafe(cfg, s.store, quotes, c.now, c.instrumentId, c.answer.signal);
      var (d, k) := Ask(cfg, s.store, quotes, c.now, c.instrumentId, c.answer.signal);
      if d.Approved? {
        ApprovedOrderStaysBounded(cfg, initialCash, l, MarketOrder(c.instrumentId, d.side, d.qty), quotes);
      }
    }
  }

  lemma ApprovedOrderStaysBounded(cfg: OrchConfig, initialCash: real, l: Ledger, r: OrderRequest, quotes: Quotes)
    requires Lifecycle(l) && Books(cfg.paper, initialCash, l) && Bounded(cfg, l)
    requires PlaceOrder(cfg.paper, l, r, quotes).error == None
    requires var held := QtyOf(l.positions, r.instrumentId);
      && (held != 0 ==> SignedQty(r.side, r.qty) == -held)
      && (held == 0 ==> CountOpen(l.positions) < cfg.risk.maxOpenPositions)
    ensures Bounded(cfg, PlaceOrder(cfg.paper, l, r, quotes).ledger)
  {
    hide PlaceOrder, Lifecycle, Books, Bounded, CountOpen, Appends, Costed, OrderOk, OpenedOrder, ReferencePrice;
    var l' := PlaceOrder(cfg.paper, l, r, quotes).ledger;
    var t := PlaceBooks(cfg.paper, l, r, quotes);
    OpenedOrderIsOk(r);
    if BooksNothing(l, l') {
      SameBooksSameBound(cfg, l, l');
    } else {
      FillBoundedIff(cfg, initialCash, l, t, l');
      assert t.qty > 0 by { TradeIsPositive(l, t, l'); }
    }
  }

  lemma TradeIsPositive(l: Ledger, t: Trade, l': Ledger)
    requires Appends(l, t, l')
    ensures t.qty > 0 && l'.trades == l.trades + [t]
  {
  }

  // ---- Sweeps are where they can break ----

  /** The ids a sweep retries are live orders, each listed once. */
  ghost predicate Sweepable(l: Ledger, ids: seq<nat>) {
    && (forall k :: 0 <= k < |ids| ==> ids[k] < |l.orders| && Live(l.orders[ids[k]]))
    && (forall j, k :: 0 <= j < k < |ids| ==> ids[j] < ids[k])
  }

  /** The shares the retry would fill, given remainder, quote and cash, are safe to fill. */
  predicate SafeRetry(cfg: OrchConfig, l: Ledger, id: nat, quotes: Quotes)
    requires id < |l.orders|
  {
    var q := RetryQty(cfg.paper, l, id, quotes);
    q == 0 || SafeLeg(cfg, l, l.orders[id].instrumentId, l.orders[id].side, q)
  }

  /** Before each retry of the sweep, what it would fill is safe. */
  ghost predicate SweepSafe(cfg: OrchConfig, l: Ledger, ids: seq<nat>, quotes: Quotes)
    requires forall k :: 0 <= k < |ids| ==> ids[k] < |l.orders|
    decreases |ids|
  {
    ids != [] && TryFill(cfg.paper, l, ids[0], quotes).Ok? ==>
      && SafeRetry(cfg, l, ids[0], quotes)
      && SweepSafe(cfg, TryFill(cfg.paper, l, ids[0], quotes).value, ids[1..], quotes)
  }

  /** Every state the sweep passes through is bounded. */
  ghost predicate SweepBounded(cfg: OrchConfig, l: Ledger, ids: seq<nat>, quotes: Quotes)
    requires forall k :: 0 <= k < |ids| ==> ids[k] < |l.orders|
    decreases |ids|
  {
    && Bounded(cfg, l)
    && (ids != [] && TryFill(cfg.paper, l, ids[0], quotes).Ok? ==>
          SweepBounded(cfg, TryFill(cfg.paper, l, ids[0], quotes).value, ids[1..], quotes))
  }

  /** One retry keeps the ledger's invariants, and stays bounded exactly when it is safe. */
  lemma RetryBoundedIff(cfg: OrchConfig, initialCash: real, l: Ledger, ids: seq<nat>, quotes: Quotes)
    requires Lifecycle(l) && Books(cfg.paper, initialCash, l) && Bounded(cfg, l)
    requires ids != [] && Sweepable(l, ids) && TryFill(cfg.paper, l, ids[0], quotes).Ok?
    ensures var l' := TryFill(cfg.paper, l, ids[0], quotes).value;
      && Lifecycle(l') && Books(cfg.paper, initialCash, l') && Sweepable(l', ids[1..])
      && (Bounded(cfg, l') <==> SafeRetry(cfg, l, ids[0], quotes))
  {
    hide Lifecycle, Books, Bounded, TryFill, Appends, SafeLeg, Live, Costed, ReferencePrice, RetryQty;
    var l' := TryFill(cfg.paper, l, ids[0], quotes).value;
    var actions := TryFillRefines(cfg.paper, l, ids[0], quotes);
    ReachableLifecycle(cfg.paper, l, actions, l');
    ReachableBooks(cfg.paper, initialCash, l, actions, l');
    var t := TryFillBooks(cfg.paper, l, ids[0], quotes);
    if RetryQty(cfg.paper, l, ids[0], quotes) == 0 {
      SameBooksSameBound(cfg, l, l');
    } else {
      TradeIsPositive(l, t, l');
      FillBoundedIff(cfg, initialCash, l, t, l');
    }
  }

  /** A sweep passes through bounded states only exactly when every retry in it is safe. */
  lemma {:induction false} SweepBoundedIff(cfg: OrchConfig, initialCash: real, l: Ledger, ids: seq<nat>, quotes: Quotes)
    requires Lifecycle(l) && Books(cfg.paper, initialCash, l) && Bounded(cfg, l) && Sweepable(l, ids)
    ensures SweepBounded(cfg, l, ids, quotes) <==> SweepSafe(cfg, l, ids, quotes)
    ensures SweepSafe(cfg, l, ids, quotes) ==> Bounded(cfg, RecheckAll(cfg.paper, l, ids, quotes).ledger)
    decreases |ids|
  {
    hide Lifecycle, Books, Bounded, TryFill, SafeRetry, Live;
    if ids != [] && TryFill(cfg.paper, l, ids[0], quotes).Ok? {
      RetryBoundedIff(cfg, initialCash, l, ids, quotes);
      var l' := TryFill(cfg.paper, l, ids[0], quotes).value;
      if Bounded(cfg, l') { SweepBoundedIff(cfg, initialCash, l', ids[1..], quotes); }
    }
  }

  // ---- Whole sessions ----

  function Resting(l: Ledger): seq<nat> { OpenIds(l.orders, |l.orders|) }

  ghost predicate Sweeps(cfg: OrchConfig, s: Session, e: Event) {
    e.Housekeeping? && CheckRestingOrders(cfg.paper, s.store.ledger, s.quotes).error == None
  }

  /** If the event is a sweep that is kept, every retry in it is safe. */
  ghost predicate EventSafe(cfg: OrchConfig, s: Session, e: Event) {
    Sweeps(cfg, s, e) ==> SweepSafe(cfg, s.store.ledger, Resting(s.store.ledger), s.quotes)
  }

  /** The event ends in a bounded state and, if it is a sweep that is kept, passes only through such states. */
  ghost predicate EventBounded(cfg: OrchConfig, s: Session, e: Event) {
    && Bounded(cfg, Handle(cfg, s, e).store.ledger)
    && (Sweeps(cfg, s, e) ==> SweepBounded(cfg, s.store.ledger, Resting(s.store.ledger), s.quotes))
  }

  ghost predicate SessionSafe(cfg: OrchConfig, s: Session, events: seq<Event>) {
    forall n :: 0 <= n < |events| ==> EventSafe(cfg, HandleAll(cfg, s, events[..n]), events[n])
  }

  ghost predicate SessionBounded(cfg: OrchConfig, s: Session, events: seq<Event>) {
    forall n :: 0 <= n < |events| ==> EventBounded(cfg, HandleAll(cfg, s, events[..n]), events[n])
  }

  lemma RestingIsSweepable(l: Ledger)
    requires Lifecycle(l)
    ensures Sweepable(l, Resting(l))
  {
    hide LogIsPath, FilledBy;
  }

  lemma EventBoundedIff(cfg: OrchConfig, initialCash: real, s: Session, e: Event)
    requires StoreOk(cfg, initialCash, s.store) && Bounded(cfg, s.store.ledger)
    ensures EventBounded(cfg, s, e) <==> EventSafe(cfg, s, e)
  {
    hide Lifecycle, Books, SwitchOk, Bounded, ProcessCandle, RecordError, Trip, Reset, SweepSafe, SweepBounded,
         RecheckAll, Resting;
    match e {
      case OnCandle(c) => CandleStaysBounded(cfg, initialCash, s, c);
      case Housekeeping(_) =>
        var l := s.store.ledger;
        RestingIsSweepable(l);
        SweepBoundedIff(cfg, initialCash, l, Resting(l), s.quotes);
        SweepOf(cfg, l, s.quotes);
      case ManualTrip =>
      case ManualReset =>
    }
  }

  lemma SweepOf(cfg: OrchConfig, l: Ledger, quotes: Quotes)
    ensures CheckRestingOrders(cfg.paper, l, quotes) == RecheckAll(cfg.paper, l, Resting(l), quotes)
  {
  }

  lemma NewSessionBounded(cfg: OrchConfig, initialCash: real)
    ensures Bounded(cfg, NewSession(initialCash).store.ledger)
  {
    assert CountOpen(map[]) == 0;
  }

  lemma PrefixOf(cfg: OrchConfig, s: Session, events: seq<Event>)
    requires events != []
    ensures var n := |events| - 1;
      && (SessionSafe(cfg, s, events)
          <==> SessionSafe(cfg, s, events[..n]) && EventSafe(cfg, HandleAll(cfg, s, events[..n]), events[n]))
      && (SessionBounded(cfg, s, events)
          <==> SessionBounded(cfg, s, events[..n]) && EventBounded(cfg, HandleAll(cfg, s, events[..n]), events[n]))
  {
    hide EventSafe, EventBounded, HandleAll;
    var n := |events| - 1;
    var before := events[..n];
    assert forall m :: 0 <= m < n ==> before[..m] == events[..m] && before[m] == events[m];
  }

  /**
   * Exposure, exactly: a session passes only through states within the cap and without sign flips if and
   * only if every retry of a resting order was safe where it landed. Candles need no condition.
   */
  lemma {:induction false} ExposureBoundedIff(cfg: OrchConfig, initialCash: real, events: seq<Event>)
    requires cfg.risk.maxConsecutiveErrors >= 1
    ensures SessionBounded(cfg, NewSession(initialCash), events) <==> SessionSafe(cfg, NewSession(initialCash), events)
    ensures SessionSafe(cfg, NewSession(initialCash), events)
        ==> Bounded(cfg, HandleAll(cfg, NewSession(initialCash), events).store.ledger)
    decreases |events|
  {
    hide Handle, StoreOk, Bounded, EventSafe, SessionSafe, SessionBounded;
    var s := NewSession(initialCash);
    if events == [] {
      NewSessionBounded(cfg, initialCash);
      NothingHappened(cfg, s);
    } else {
      var n := |events| - 1;
      var m := HandleAll(cfg, s, events[..n]);
      PrefixOf(cfg, s, events);
      ExposureBoundedIff(cfg, initialCash, events[..n]);
      SessionKeepsStore(cfg, initialCash, events[..n]);
      if Bounded(cfg, m.store.ledger) { EventBoundedIff(cfg, initialCash, m, events[n]); }
    }
  }

  lemma NothingHappened(cfg: OrchConfig, s: Session)
    ensures SessionSafe(cfg, s, []) && SessionBounded(cfg, s, [])
  {
  }

  /** Trade `k` takes the position from long to short or from short to long. */
  ghost predicate FlipsSign(own: seq<Trade>, k: nat)
    requires PositiveLegs(own) && k < |own|
  {
    var before, after := Replay(own[..k]).qty, Replay(own[..k+1]).qty;
    (before > 0 && after < 0) || (before < 0 && after > 0)
  }

  /** Realized P&L is the signed price difference times the quantity, less costs, and as much left as entered. */
  ghost predicate ObeysIdentity(e: Episode) {
    && e.entry != [] && e.exit != [] && PositiveLegs(e.entry) && PositiveLegs(e.exit)
    && TotalQty(e.entry) == TotalQty(e.exit)
    && var entry := BuildEntry(e.entry, e.exit);
       entry.realizedPnl
         == (if entry.side == BUY then entry.exitPrice - entry.entryPrice else entry.entryPrice - entry.exitPrice)
              * entry.qty as real - entry.totalCosts
  }

  /**
   * What a session without unsafe retries promises: positions within the cap, no position ever changing sign
   * without being flat, and every journal entry of every instrument obeying the P&L identity.
   */
  lemma SafeSessionIsClean(cfg: OrchConfig, initialCash: real, events: seq<Event>, i: int)
    requires cfg.risk.maxConsecutiveErrors >= 1 && SessionSafe(cfg, NewSession(initialCash), events)
    ensures var l := HandleAll(cfg, NewSession(initialCash), events).store.ledger;
      var own := TradesOf(l.trades, i);
      && UnderCap(cfg, l.positions) && PositiveLegs(own)
      && (forall k :: 0 <= k < |own| ==> !FlipsSign(own, k))
      && (forall k :: 0 <= k < |TrackAll(own).done| ==> ObeysIdentity(TrackAll(own).done[k]))
  {
    hide *;
    var l := BoundedAndBooked(cfg, initialCash, events, i);
    var own := TradesOf(l.trades, i);
    forall k | 0 <= k < |own| ensures !FlipsSign(own, k) {
      SafeHistoryNeverFlips(own, k);
    }
    forall k | 0 <= k < |TrackAll(own).done| ensures ObeysIdentity(TrackAll(own).done[k]) {
      SafeEpisodeObeys(cfg.paper.segment, cfg.paper.rates, own, k);
    }
  }

  lemma BoundedAndBooked(cfg: OrchConfig, initialCash: real, events: seq<Event>, i: int) returns (l: Ledger)
    requires cfg.risk.maxConsecutiveErrors >= 1 && SessionSafe(cfg, NewSession(initialCash), events)
    ensures l == HandleAll(cfg, NewSession(initialCash), events).store.ledger && UnderCap(cfg, l.positions)
    ensures var own := TradesOf(l.trades, i);
      && PositiveLegs(own) && Booked(own)
      && AllCosted(cfg.paper.segment, cfg.paper.rates, own) && NoneOverCloses(own, 0, |own|)
  {
    hide HandleAll, Lifecycle, SwitchOk, Booked, Costed, Replay, UnderCap, SessionSafe, SessionBounded, NoneOverCloses;
    ExposureBoundedIff(cfg, initialCash, events);
    SessionKeepsStore(cfg, initialCash, events);
    l := HandleAll(cfg, NewSession(initialCash), events).store.ledger;
    assert RowMatchesTrades(l.positions, l.trades, i) && NeverOverClosed(l, i);
    var own := TradesOf(l.trades, i);
    assert forall k :: 0 <= k < |own| ==> own[k] in l.trades;
  }

  lemma SafeHistoryNeverFlips(own: seq<Trade>, k: nat)
    requires PositiveLegs(own) && NoneOverCloses(own, 0, |own|) && k < |own|
    ensures !FlipsSign(own, k)
  {
    hide ApplyFill, NotOverClosing;
    assert !OverCloses(own, k);
    assert own[..k+1][..k] == own[..k];
    SignFlipsIffOverClosing(Replay(own[..k]), own[k].side, own[k].qty, own[k].costs.netAmount);
  }

  lemma SafeEpisodeObeys(segment: Segment, rates: Rates, own: seq<Trade>, k: nat)
    requires PositiveLegs(own) && Booked(own) && AllCosted(segment, rates, own) && NoneOverCloses(own, 0, |own|)
    requires k < |TrackAll(own).done|
    ensures ObeysIdentity(TrackAll(own).done[k])
  {
    hide Booked, Replay, Overshoot, TrackAll, AllCosted, OverCloses, TotalQty, BuildEntry, Accounts;
    var done := DoneAreClosed(own);
    var e := done[k];
    assert NoneOverCloses(own, e.from, e.to);
    EntryQtyMatchesIff(own, e);
    EntryIdentity(segment, rates, own, e);
  }

  // ---- Sessions whose sweeps have nothing to fill ----

  /** No resting order could fill anything now. */
  ghost predicate NothingFillable(cfg: OrchConfig, l: Ledger, ids: seq<nat>, quotes: Quotes)
    requires forall k :: 0 <= k < |ids| ==> ids[k] < |l.orders|
  {
    forall k :: 0 <= k < |ids| ==> RetryQty(cfg.paper, l, ids[k], quotes) == 0
  }

  /** A retry that fills nothing leaves the others as they were. */
  lemma IdleRetryKeepsPlans(cfg: OrchConfig, l: Ledger, ids: seq<nat>, quotes: Quotes)
    requires Lifecycle(l) && ids != [] && Sweepable(l, ids) && NothingFillable(cfg, l, ids, quotes)
    requires TryFill(cfg.paper, l, ids[0], quotes).Ok?
    ensures var l' := TryFill(cfg.paper, l, ids[0], quotes).value;
      && Lifecycle(l') && Sweepable(l', ids[1..]) && BooksNothing(l, l') && NothingFillable(cfg, l', ids[1..], quotes)
  {
    hide Lifecycle, TryFill, Live, ReferencePrice, ClampToCash, BooksFill;
    var l', rest := TryFill(cfg.paper, l, ids[0], quotes).value, ids[1..];
    var actions := TryFillRefines(cfg.paper, l, ids[0], quotes);
    ReachableLifecycle(cfg.paper, l, actions, l');
    var _ := TryFillBooks(cfg.paper, l, ids[0], quotes);
    forall k | 0 <= k < |rest| ensures RetryQty(cfg.paper, l', rest[k], quotes) == 0 {
      assert rest[k] == ids[k+1] && RetryQty(cfg.paper, l, ids[k+1], quotes) == 0;
    }
  }

  lemma {:induction false} IdleSweepIsSafe(cfg: OrchConfig, l: Ledger, ids: seq<nat>, quotes: Quotes)
    requires Lifecycle(l) && Sweepable(l, ids) && NothingFillable(cfg, l, ids, quotes)
    ensures SweepSafe(cfg, l, ids, quotes) && BooksNothing(l, RecheckAll(cfg.paper, l, ids, quotes).ledger)
    decreases |ids|
  {
    hide Lifecycle, TryFill, SafeLeg, Live, RetryQty;
    if ids != [] && TryFill(cfg.paper, l, ids[0], quotes).Ok? {
      IdleRetryKeepsPlans(cfg, l, ids, quotes);
      IdleSweepIsSafe(cfg, TryFill(cfg.paper, l, ids[0], quotes).value, ids[1..], quotes);
    }
  }

  /** Whenever a sweep comes, no resting order could fill anything. */
  ghost predicate QuietSweeps(cfg: OrchConfig, s: Session, events: seq<Event>) {
    forall n :: 0 <= n < |events| && events[n].Housekeeping? ==> QuietNow(cfg, HandleAll(cfg, s, events[..n]))
  }

  ghost predicate QuietNow(cfg: OrchConfig, s: Session) {
    NothingFillable(cfg, s.store.ledger, Resting(s.store.ledger), s.quotes)
  }

  /** A session whose sweeps find nothing to fill is safe, whatever rests and whatever its candles do. */
  lemma QuietSweepsAreSafe(cfg: OrchConfig, initialCash: real, events: seq<Event>)
    requires cfg.risk.maxConsecutiveErrors >= 1 && QuietSweeps(cfg, NewSession(initialCash), events)
    ensures SessionSafe(cfg, NewSession(initialCash), events)
  {
    hide HandleAll, Lifecycle, Books, SwitchOk, RecheckAll, Resting, SweepSafe, CheckRestingOrders, NothingFillable;
    var s := NewSession(initialCash);
    forall n | 0 <= n < |events| ensures EventSafe(cfg, HandleAll(cfg, s, events[..n]), events[n]) {
      var m := HandleAll(cfg, s, events[..n]);
      SessionKeepsStore(cfg, initialCash, events[..n]);
      var l := m.store.ledger;
      RestingIsSweepable(l);
      if events[n].Housekeeping? {
        assert QuietNow(cfg, m);
        IdleSweepIsSafe(cfg, l, Resting(l), m.quotes);
      }
    }
  }

  // ---- Sessions in which no BUY is clamped ----

  ghost predicate NonePartlyFilled(l: Ledger) {
    forall id: nat :: id < |l.orders| ==> l.orders[id].state != PARTIALLY_FILLED
  }

  ghost predicate AllFinished(l: Ledger) {
    forall id: nat :: id < |l.orders| ==> l.orders[id].state in {FILLED, CANCELLED}
  }

  /** At no point of the session is an order left partly filled. */
  ghost predicate NeverPartlyFilled(cfg: OrchConfig, s: Session, events: seq<Event>) {
    forall n: nat :: n <= |events| ==> NonePartlyFilledAfter(cfg, s, events, n)
  }

  ghost predicate NonePartlyFilledAfter(cfg: OrchConfig, s: Session, events: seq<Event>, n: nat)
    requires n <= |events|
  {
    NonePartlyFilled(HandleAll(cfg, s, events[..n]).store.ledger)
  }

  /** The candle's signal is approved as a BUY for which the cash pays one share but not all. */
  ghost predicate CandleClamps(cfg: OrchConfig, s: Session, c: CandleStep) {
    var quotes := s.quotes[c.instrumentId := c.close];
    var price := ApplySlippage(c.close, BUY, cfg.paper.slippageBps);
    && c.answer.Says? && c.instrumentId in cfg.paper.instruments && price > 0.0
    && var (d, _) := Ask(cfg, s.store, quotes, c.now, c.instrumentId, c.answer.signal);
       && d.Approved? && d.side == BUY && d.qty > 0
       && NetAmount(BUY, price, 1, cfg.paper.segment, cfg.paper.rates) <= s.store.ledger.cash
       && s.store.ledger.cash < NetAmount(BUY, price, d.qty, cfg.paper.segment, cfg.paper.rates)
  }

  /** No candle of the session clamps a BUY. */
  ghost predicate NeverClamps(cfg: OrchConfig, s: Session, events: seq<Event>) {
    forall n :: 0 <= n < |events| ==> !EventClamps(cfg, HandleAll(cfg, s, events[..n]), events[n])
  }

  ghost predicate EventClamps(cfg: OrchConfig, s: Session, e: Event) { e.OnCandle? && CandleClamps(cfg, s, e.candle) }

  /** From finished orders, a candle leaves its own order finished exactly when it does not clamp a BUY. */
  lemma CandleFinishesIff(cfg: OrchConfig, initialCash: real, s: Session, c: CandleStep)
    requires StoreOk(cfg, initialCash, s.store) && AllFinished(s.store.ledger)
    ensures NonePartlyFilled(Handle(cfg, s, OnCandle(c)).store.ledger) <==> !CandleClamps(cfg, s, c)
    ensures !CandleClamps(cfg, s, c) ==> AllFinished(Handle(cfg, s, OnCandle(c)).store.ledger)
  {
    hide Ask, PlaceOrder, Lifecycle, Books, SwitchOk, RecordError, ApplySlippage;
    var quotes := s.quotes[c.instrumentId := c.close];
    if c.answer.Says? {
      AskIsSafe(cfg, s.store, quotes, c.now, c.instrumentId, c.answer.signal);
      var (d, k) := Ask(cfg, s.store, quotes, c.now, c.instrumentId, c.answer.signal);
      if d.Approved? {
        ApprovedFinishesIff(cfg, s.store.ledger, MarketOrder(c.instrumentId, d.side, d.qty), quotes);
      }
    }
  }

  lemma ApprovedFinishesIff(cfg: OrchConfig, l: Ledger, r: OrderRequest, quotes: Quotes)
    requires Lifecycle(l) && AllFinished(l) && r.orderType == MARKET && r.qty > 0 && r.instrumentId in quotes
    ensures var out := PlaceOrder(cfg.paper, l, r, quotes);
      var price := ApplySlippage(quotes[r.instrumentId], BUY, cfg.paper.slippageBps);
      var clamps := r.side == BUY && r.instrumentId in cfg.paper.instruments && price > 0.0
        && NetAmount(BUY, price, 1, cfg.paper.segment, cfg.paper.rates) <= l.cash
        && l.cash < NetAmount(BUY, price, r.qty, cfg.paper.segment, cfg.paper.rates);
      && (clamps ==> out.error == None)
      && (out.error == None ==> (NonePartlyFilled(out.ledger) <==> !clamps))
      && (out.error == None && !clamps ==> AllFinished(out.ledger))
  {
    hide PlaceOrder, Lifecycle, ApplySlippage, MarketQty, NetAmount, BooksOrder, BooksNothing;
    var out := PlaceOrder(cfg.paper, l, r, quotes);
    if r.instrumentId in cfg.paper.instruments {
      var _ := MarketOrderOutcome(cfg.paper, l, r, quotes);
      if out.error == None {
        var last := out.ledger.orders[|l.orders|];
        forall id: nat | id < |l.orders| ensures out.ledger.orders[id] == l.orders[id] {
          assert out.ledger.orders[id] == out.ledger.orders[..|l.orders|][id];
        }
        assert AllFinished(out.ledger) <==> last.state in {FILLED, CANCELLED};
      }
    } else {
      UnknownIsRefused(cfg.paper, l, r, quotes);
    }
  }

  lemma UnknownIsRefused(cfg: PaperLedger.Config, l: Ledger, r: OrderRequest, quotes: Quotes)
    requires r.instrumentId !in cfg.instruments
    ensures PlaceOrder(cfg, l, r, quotes).error.Some?
  {
  }

  lemma {:induction false} NothingToRecheck(orders: seq<Order>, n: nat)
    requires n <= |orders| && forall id: nat :: id < n ==> !ListedOpen(orders[id].state)
    ensures OpenIds(orders, n) == []
  {
    if n > 0 { NothingToRecheck(orders, n - 1); }
  }

  lemma SweepIsIdle(cfg: PaperLedger.Config, l: Ledger, quotes: Quotes)
    requires AllFinished(l)
    ensures Resting(l) == [] && CheckRestingOrders(cfg, l, quotes) == Outcome(l, None)
  {
    hide TryFill;
    NothingToRecheck(l.orders, |l.orders|);
  }

  lemma EventFinishesIff(cfg: OrchConfig, initialCash: real, s: Session, e: Event)
    requires StoreOk(cfg, initialCash, s.store) && AllFinished(s.store.ledger)
    ensures NonePartlyFilled(Handle(cfg, s, e).store.ledger) <==> !EventClamps(cfg, s, e)
    ensures !EventClamps(cfg, s, e) ==> AllFinished(Handle(cfg, s, e).store.ledger)
    ensures e.Housekeeping? ==> QuietNow(cfg, s) && Handle(cfg, s, e).store == s.store
  {
    hide ProcessCandle, StoreOk, Trip, Reset, CheckRestingOrders, CandleClamps, Resting;
    match e {
      case OnCandle(c) => CandleFinishesIff(cfg, initialCash, s, c);
      case Housekeeping(_) => SweepIsIdle(cfg.paper, s.store.ledger, s.quotes);
      case ManualTrip =>
      case ManualReset =>
    }
  }

  lemma ClampsPrefix(cfg: OrchConfig, s: Session, events: seq<Event>)
    requires events != []
    ensures NeverClamps(cfg, s, events)
       <==> && NeverClamps(cfg, s, events[..|events|-1])
            && !EventClamps(cfg, HandleAll(cfg, s, events[..|events|-1]), events[|events|-1])
  {
    hide EventClamps, HandleAll;
    var n := |events| - 1;
    var before := events[..n];
    assert forall m :: 0 <= m < n ==> before[..m] == events[..m] && before[m] == events[m];
  }

  lemma PartlyFilledPrefix(cfg: OrchConfig, s: Session, events: seq<Event>)
    requires events != []
    ensures NeverPartlyFilled(cfg, s, events)
       <==> NeverPartlyFilled(cfg, s, events[..|events|-1]) && NonePartlyFilled(HandleAll(cfg, s, events).store.ledger)
  {
    hide HandleAll, NonePartlyFilled, NonePartlyFilledAfter;
    var n := |events| - 1;
    var before := events[..n];
    forall m: nat | m <= n
      ensures NonePartlyFilledAfter(cfg, s, before, m) <==> NonePartlyFilledAfter(cfg, s, events, m)
    {
      SamePrefix(cfg, s, events, m);
    }
    LastOfAll(cfg, s, events);
  }

  lemma SamePrefix(cfg: OrchConfig, s: Session, events: seq<Event>, m: nat)
    requires m < |events|
    ensures NonePartlyFilledAfter(cfg, s, events[..|events|-1], m) <==> NonePartlyFilledAfter(cfg, s, events, m)
  {
    hide HandleAll, NonePartlyFilled;
    assert events[..|events|-1][..m] == events[..m];
  }

  lemma LastOfAll(cfg: OrchConfig, s: Session, events: seq<Event>)
    ensures NonePartlyFilledAfter(cfg, s, events, |events|)
       <==> NonePartlyFilled(HandleAll(cfg, s, events).store.ledger)
  {
    hide HandleAll, NonePartlyFilled;
    assert events[..|events|] == events;
  }

  lemma QuietPrefix(cfg: OrchConfig, s: Session, events: seq<Event>)
    requires events != []
    ensures QuietSweeps(cfg, s, events)
       <==> && QuietSweeps(cfg, s, events[..|events|-1])
            && (events[|events|-1].Housekeeping? ==> QuietNow(cfg, HandleAll(cfg, s, events[..|events|-1])))
  {
    hide HandleAll, QuietNow;
    var n := |events| - 1;
    var before := events[..n];
    assert forall m :: 0 <= m < n ==> before[..m] == events[..m] && before[m] == events[m];
  }

  /**
   * A session leaves no order partly filled exactly when no candle's BUY finds the cash for one share but not for
   * all. Then every order is finished by the candle that placed it and every sweep is idle, so it is safe.
   */
  lemma {:induction false} UnclampedSessionIsSettled(cfg: OrchConfig, initialCash: real, events: seq<Event>)
    requires cfg.risk.maxConsecutiveErrors >= 1
    ensures NeverPartlyFilled(cfg, NewSession(initialCash), events)
       <==> NeverClamps(cfg, NewSession(initialCash), events)
    ensures NeverClamps(cfg, NewSession(initialCash), events) ==>
      && AllFinished(HandleAll(cfg, NewSession(initialCash), events).store.ledger)
      && QuietSweeps(cfg, NewSession(initialCash), events)
    decreases |events|
  {
    hide Handle, StoreOk, NonePartlyFilled, AllFinished, EventClamps, QuietNow, NeverClamps, NeverPartlyFilled,
         QuietSweeps;
    var s := NewSession(initialCash);
    if events == [] {
      NothingToFinish(cfg, initialCash);
    } else {
      var n := |events| - 1;
      var before := events[..n];
      UnclampedSessionIsSettled(cfg, initialCash, before);
      SessionKeepsStore(cfg, initialCash, before);
      ClampsPrefix(cfg, s, events);
      PartlyFilledPrefix(cfg, s, events);
      QuietPrefix(cfg, s, events);
      var m := HandleAll(cfg, s, before);
      if AllFinished(m.store.ledger) { EventFinishesIff(cfg, initialCash, m, events[n]); }
    }
  }

  lemma NothingToFinish(cfg: OrchConfig, initialCash: real)
    ensures AllFinished(NewSession(initialCash).store.ledger)
    ensures var s := NewSession(initialCash);
      NeverClamps(cfg, s, []) && NeverPartlyFilled(cfg, s, []) && QuietSweeps(cfg, s, [])
  {
  }
}
