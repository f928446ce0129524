/** Applying broker order reports to local order, trade and position rows. */
module UpstoxOrders {
  import opened Wrappers
  import opened Costs
  import opened OrderStates
  import opened PositionBook
  import opened TradeLog

  datatype LiveConfig = LiveConfig(segment: Segment, rates: Rates)

  /** The fields of an order-details response the code reads; an absent key is None. */
  datatype Report = Report(quantity: Option<int>, filledQuantity: Option<int>, status: string,
                           averagePrice: Option<real>)

  function LowerChar(c: char): char { if 'A' <= c <= 'Z' then (c as int + 32) as char else c }

  function Lower(s: string): string { seq(|s|, i requires 0 <= i < |s| => LowerChar(s[i])) }

  function TerminalStatus(status: string): Option<OrderState> {
    var s := Lower(status);
    if s == "complete" then Some(FILLED)
    else if s == "rejected" then Some(REJECTED_BROKER)
    else if s == "cancelled" || s == "cancelled after market order" then Some(CANCELLED)
    else None
  }

  function MapStatus(status: string, filledQty: int): OrderState {
    match TerminalStatus(status)
    case Some(s) => s
    case None => if filledQty > 0 then PARTIALLY_FILLED else OPEN
  }

  function FilledOf(r: Report): int { if r.filledQuantity.Some? then r.filledQuantity.value else 0 }

  function StateOf(r: Report): OrderState { MapStatus(r.status, FilledOf(r)) }

  /** A zero average price counts as absent. */
  function PriceOf(r: Report): Option<real> { if r.averagePrice == Some(0.0) then None else r.averagePrice }

  /** The local rows one order's updates touch: the order, its instrument's position, the trades table. */
  datatype Rows = Rows(order: Order, position: Position, trades: seq<Trade>)

  function RecordFill(cfg: LiveConfig, id: nat, rows: Rows, qty: int, price: real): Result<Rows> {
    match CalculateCosts(rows.order.side, price, qty, cfg.segment, cfg.rates)
    case Err(e) => Err(e)
    case Ok(costs) =>
      var (p, realized) := ApplyFill(rows.position, rows.order.side, qty, costs.netAmount);
      var o := rows.order;
      Ok(Rows(o, p, rows.trades + [Trade(id, o.instrumentId, o.side, price, qty, costs, realized)]))
  }

  /** A jump from SUBMITTED to a later state passes through OPEN first. */
  function Advance(o: Order, to: OrderState): Result<Order> {
    if to == o.state then Ok(o)
    else if o.state == SUBMITTED && to !in {OPEN, REJECTED_BROKER, FAILED} then
      match Transition(o, OPEN)
      case Err(e) => Err(e)
      case Ok(accepted) => Transition(accepted, to)
    else Transition(o, to)
  }

  /** Apply one report; the flag says whether an update was produced. An error rolls the poll back. */
  function ApplyReport(cfg: LiveConfig, id: nat, rows: Rows, r: Report): Result<(Rows, bool)> {
    var newState, newlyFilled := StateOf(r), FilledOf(r) - rows.order.filledQty;
    if newState == rows.order.state && newlyFilled <= 0 then Ok((rows, false))
    else
      match (if newlyFilled > 0 && PriceOf(r).Some? then RecordFill(cfg, id, rows, newlyFilled, PriceOf(r).value)
             else Ok(rows))
      case Err(e) => Err(e)
      case Ok(booked) =>
        var filled := if newlyFilled > 0 && PriceOf(r).Some? then FilledOf(r) else rows.order.filledQty;
        match Advance(booked.order.(filledQty := filled), newState)
        case Err(e) => Err(e)
        case Ok(o) => if 0 <= filled <= o.qty then Ok((booked.(order := o), true)) else Err(IntegrityError)
  }

  // ---- When a report is refused ----

  predicate Polled(o: Order) { o.state == SUBMITTED || o.state == OPEN || o.state == PARTIALLY_FILLED }

  /**
   * A poll of an acknowledged order raises exactly when a new fill carries a negative price or exceeds the
   * order, when a rejection arrives after the order was seen open, or when a partly filled order is
   * reported open and unfilled again.
   */
  lemma ReportRaisesIff(cfg: LiveConfig, id: nat, rows: Rows, r: Report)
    requires Polled(rows.order) && 0 <= rows.order.filledQty <= rows.order.qty
    ensures var newFill := FilledOf(r) > rows.order.filledQty && PriceOf(r).Some?;
      ApplyReport(cfg, id, rows, r).Err? <==>
        || (newFill && (PriceOf(r).value < 0.0 || FilledOf(r) > rows.order.qty))
        || (StateOf(r) == REJECTED_BROKER && rows.order.state != SUBMITTED)
        || (StateOf(r) == OPEN && rows.order.state == PARTIALLY_FILLED)
  {
    hide CostsOnTurnover, ApplyFill;
  }

  // ---- Bookkeeping every successful poll keeps ----

  lemma AdvanceKeepsPath(o: Order, to: OrderState)
    requires LogIsPath(o) && Advance(o, to).Ok?
    ensures LogIsPath(Advance(o, to).value) && Advance(o, to).value.state == to
    ensures Advance(o, to).value == o.(state := to, log := Advance(o, to).value.log)
  {
    hide LogIsPath;
    if to != o.state {
      if o.state == SUBMITTED && to !in {OPEN, REJECTED_BROKER, FAILED} {
        TransitionKeepsPath(o, OPEN);
        TransitionKeepsPath(Transition(o, OPEN).value, to);
      } else {
        TransitionKeepsPath(o, to);
      }
    }
  }

  /** The trade for newly filled shares: costed at `price`, realizing what booking it into the position realizes. */
  ghost predicate BookedAt(cfg: LiveConfig, id: nat, rows: Rows, qty: int, price: real, t: Trade, position: Position)
    requires qty > 0
  {
    var o := rows.order;
    && t.orderId == id && t.instrumentId == o.instrumentId && t.side == o.side && t.qty == qty && t.price == price
    && Costed(cfg.segment, cfg.rates, t)
    && (position, t.realizedPnl) == ApplyFill(rows.position, o.side, qty, t.costs.netAmount)
  }

  /** What one successful poll does: at most one trade for exactly the newly filled shares, and the reported state. */
  lemma ReportEffect(cfg: LiveConfig, id: nat, rows: Rows, r: Report)
    requires LogIsPath(rows.order) && ApplyReport(cfg, id, rows, r).Ok?
    ensures var (after, changed) := ApplyReport(cfg, id, rows, r).value;
      var gained := after.order.filledQty - rows.order.filledQty;
      && LogIsPath(after.order)
      && after.order == rows.order.(state := StateOf(r), filledQty := after.order.filledQty, log := after.order.log)
      && (changed ==> 0 <= after.order.filledQty <= after.order.qty)
      && (!changed ==> after == rows)
      && gained >= 0
      && (gained == 0 ==> after.trades == rows.trades && after.position == rows.position)
      && (gained > 0 ==>
            && after.trades[..|after.trades|-1] == rows.trades && |after.trades| == |rows.trades| + 1
            && PriceOf(r).Some? && PriceOf(r).value > 0.0
            && BookedAt(cfg, id, rows, gained, PriceOf(r).value, after.trades[|rows.trades|], after.position))
      && after.position.qty == rows.position.qty + SignedQty(rows.order.side, gained)
      && after.order.filledQty
           == (if FilledOf(r) > rows.order.filledQty && PriceOf(r).Some? then FilledOf(r) else rows.order.filledQty)
  {
    hide CostsOnTurnover, LogIsPath, ApplyFill, StateOf, FilledOf, PriceOf, Advance;
    var newlyFilled := FilledOf(r) - rows.order.filledQty;
    if !(StateOf(r) == rows.order.state && newlyFilled <= 0) {
      var filled := if newlyFilled > 0 && PriceOf(r).Some? then FilledOf(r) else rows.order.filledQty;
      LogIgnoresFilled(rows.order, filled);
      AdvanceKeepsPath(rows.order.(filledQty := filled), StateOf(r));
      if newlyFilled > 0 && PriceOf(r).Some? {
        var costs := CalculateCosts(rows.order.side, PriceOf(r).value, newlyFilled, cfg.segment, cfg.rates);
        FillConserves(rows.position, rows.order.side, newlyFilled, costs.value.netAmount);
      }
    }
  }

  /**
   * What newly filled shares do to the position row: on the side held, or from flat, their net amount is put on
   * top of the cost; against it, they realize their cash flow against the average cost, which the rest keeps.
   */
  lemma ReportRealizes(cfg: LiveConfig, id: nat, rows: Rows, r: Report)
    requires LogIsPath(rows.order) && ApplyReport(cfg, id, rows, r).Ok?
    requires FilledOf(r) > rows.order.filledQty && PriceOf(r).Some?
    ensures var (before, side) := (rows.position, rows.order.side);
      var rows' := ApplyReport(cfg, id, rows, r).value.0;
      && |rows'.trades| == |rows.trades| + 1
      && var (after, t) := (rows'.position, rows'.trades[|rows.trades|]);
      && t.qty == FilledOf(r) - rows.order.filledQty && t.price == PriceOf(r).value
      && after.qty == before.qty + SignedQty(side, t.qty)
      && (if Adding(before, side) then
            && t.realizedPnl == None
            && Worth(after.avgPrice, Abs(after.qty)) == Worth(before.avgPrice, Abs(before.qty)) + t.costs.netAmount
          else
            && t.realizedPnl
                 == Some(CashFlow(side, t.costs.netAmount) + LegCost(side, t.qty, before.avgPrice))
            && after.avgPrice == (if after.qty == 0 then 0.0 else before.avgPrice))
  {
    hide ApplyReport, LogIsPath, StateOf, FilledOf, PriceOf, Costed, ApplyFill, Worth, LegCost;
    ReportEffect(cfg, id, rows, r);
    var rows' := ApplyReport(cfg, id, rows, r).value.0;
    var t, before := rows'.trades[|rows.trades|], rows.position;
    if before.qty == 0 {
      OpeningLeg(before, t.side, t.qty, t.costs.netAmount);
      NoShares(before.avgPrice);
    } else if Adding(before, t.side) {
      AddingLeg(before, t.side, t.qty, t.costs.netAmount);
    } else {
      ClosingLeg(before, t.side, t.qty, t.costs.netAmount);
    }
  }

  lemma LogIgnoresFilled(o: Order, filled: int)
    requires LogIsPath(o)
    ensures LogIsPath(o.(filledQty := filled))
  {
  }

  // ---- Convergence ----

  /**
   * Reports that follow an order standing at `o`, in the order they were true at the broker. A price may be
   * missing; none that accompanies a fill is negative.
   */
  ghost predicate Plausible(o: Order, rs: seq<Report>) {
    && (forall k :: 0 <= k < |rs| ==> o.filledQty <= FilledOf(rs[k]) <= o.qty)
    && (forall k :: 0 <= k < |rs| && FilledOf(rs[k]) > 0 && PriceOf(rs[k]).Some? ==> PriceOf(rs[k]).value > 0.0)
    && (forall j, k :: 0 <= j < k < |rs| ==> FilledOf(rs[j]) <= FilledOf(rs[k]))
    // a terminal report is final, and a rejection is only ever reported straight from SUBMITTED
    && (forall j, k :: 0 <= j < k < |rs| && Terminal(StateOf(rs[j])) ==>
          StateOf(rs[k]) == StateOf(rs[j]) && FilledOf(rs[k]) == FilledOf(rs[j]))
    && (forall k :: 0 <= k < |rs| && StateOf(rs[k]) == REJECTED_BROKER ==> o.state == SUBMITTED)
    && (forall j, k :: 0 <= j < k < |rs| && StateOf(rs[k]) == REJECTED_BROKER ==> StateOf(rs[j]) == REJECTED_BROKER)
    // what was partly filled does not become unfilled again
    && (forall k :: 0 <= k < |rs| && StateOf(rs[k]) == OPEN ==> o.state != PARTIALLY_FILLED)
  }

  /** Every report that shows shares gives a price for them. */
  ghost predicate Priced(rs: seq<Report>) {
    forall k :: 0 <= k < |rs| && FilledOf(rs[k]) > 0 ==> PriceOf(rs[k]).Some?
  }

  /** Poll the reports in turn; a terminal order is no longer polled. */
  function PollAll(cfg: LiveConfig, id: nat, rows: Rows, rs: seq<Report>): Result<Rows> {
    if rs == [] then Ok(rows)
    else
      match PollAll(cfg, id, rows, rs[..|rs|-1])
      case Err(e) => Err(e)
      case Ok(before) =>
        if !ListedOpen(before.order.state) then Ok(before)
        else
          match ApplyReport(cfg, id, before, rs[|rs|-1])
          case Err(e) => Err(e)
          case Ok((after, _)) => Ok(after)
  }

  /** Shares traded for order `id` in the rows appended since `from`. */
  function TradedSince(trades: seq<Trade>, from: nat): int
    requires from <= |trades|
    decreases |trades|
  {
    if |trades| == from then 0 else TradedSince(trades[..|trades|-1], from) + trades[|trades|-1].qty
  }

  /**
   * The most shares that a report polled gave a price for, starting from what was booked before. After a terminal
   * report the order is polled no more.
   */
  function BookedFill(booked: int, rs: seq<Report>): int {
    if rs == [] then booked
    else
      var n := |rs| - 1;
      var before := BookedFill(booked, rs[..n]);
      if (n > 0 && Terminal(StateOf(rs[n-1]))) || PriceOf(rs[n]).None? || FilledOf(rs[n]) <= before then before
      else FilledOf(rs[n])
  }

  /** Local rows show this state and this many filled shares; trades and position moved by what was added. */
  ghost predicate CaughtUp(start: Rows, after: Rows, state: OrderState, filled: int) {
    && LogIsPath(after.order)
    && after.order == start.order.(state := state, filledQty := filled, log := after.order.log)
    && after.position.qty == start.position.qty + SignedQty(start.order.side, filled - start.order.filledQty)
    && |start.trades| <= |after.trades| && after.trades[..|start.trades|] == start.trades
    && TradedSince(after.trades, |start.trades|) == filled - start.order.filledQty
  }

  lemma TerminalIff(s: OrderState)
    ensures Terminal(s) <==> s in {REJECTED_RISK, FAILED, REJECTED_BROKER, FILLED, CANCELLED, EXPIRED}
  {
    if s == OPEN || s == PARTIALLY_FILLED { assert FILLED in AllowedTransitions(s); }
    if s == SUBMITTED || s == SUBMITTING { assert FAILED in AllowedTransitions(s); }
    if s == PENDING_RISK { assert SUBMITTING in AllowedTransitions(s); }
  }

  lemma PlausiblePrefix(o: Order, rs: seq<Report>)
    requires rs != [] && Plausible(o, rs)
    ensures Plausible(o, rs[..|rs|-1])
  {
    hide StateOf, FilledOf, PriceOf, Terminal;
  }

  lemma {:induction false} BookedFillBounds(o: Order, rs: seq<Report>)
    requires Plausible(o, rs)
    ensures o.filledQty <= BookedFill(o.filledQty, rs) <= (if rs == [] then o.filledQty else FilledOf(rs[|rs|-1]))
    decreases |rs|
  {
    hide StateOf, FilledOf, PriceOf, Terminal;
    if rs != [] {
      PlausiblePrefix(o, rs);
      BookedFillBounds(o, rs[..|rs|-1]);
    }
  }

  lemma ReportCatchesUp(cfg: LiveConfig, id: nat, start: Rows, before: Rows, r: Report)
    requires CaughtUp(start, before, before.order.state, before.order.filledQty)
    requires ApplyReport(cfg, id, before, r).Ok?
    ensures var filled := before.order.filledQty;
      CaughtUp(start, ApplyReport(cfg, id, before, r).value.0, StateOf(r),
               if FilledOf(r) > filled && PriceOf(r).Some? then FilledOf(r) else filled)
  {
    hide ApplyReport, LogIsPath, StateOf, FilledOf, PriceOf, Costed, ApplyFill;
    ReportEffect(cfg, id, before, r);
    var after := ApplyReport(cfg, id, before, r).value.0;
    if |after.trades| == |before.trades| + 1 {
      assert after.trades[..|start.trades|] == after.trades[..|after.trades|-1][..|start.trades|];
    }
  }

  /**
   * Polling converges: from any live order, polling plausible reports never raises. The order's state is that of
   * the last report, whichever reports were polled before it, and its filled quantity, its trades and the
   * position's quantity are those of the last report that gave a price for its shares.
   */
  lemma {:induction false} PollingConverges(cfg: LiveConfig, id: nat, start: Rows, rs: seq<Report>)
    requires LogIsPath(start.order) && Polled(start.order) && 0 <= start.order.filledQty <= start.order.qty
    requires Plausible(start.order, rs)
    ensures PollAll(cfg, id, start, rs).Ok?
    ensures var state := if rs == [] then start.order.state else StateOf(rs[|rs|-1]);
      CaughtUp(start, PollAll(cfg, id, start, rs).value, state, BookedFill(start.order.filledQty, rs))
    decreases |rs|
  {
    hide ApplyReport, LogIsPath, StateOf, FilledOf, PriceOf, Terminal, BookedFill, Plausible;
    if rs == [] {
      assert BookedFill(start.order.filledQty, rs) == start.order.filledQty by { NothingBooked(start.order.filledQty); }
    } else {
      var n := |rs| - 1;
      PlausiblePrefix(start.order, rs);
      PollingConverges(cfg, id, start, rs[..n]);
      NextPoll(cfg, id, start, PollAll(cfg, id, start, rs[..n]).value, rs);
    }
  }

  lemma NothingBooked(booked: int)
    ensures BookedFill(booked, []) == booked
  {
  }

  /** One more report after those that led to `before`. */
  lemma NextPoll(cfg: LiveConfig, id: nat, start: Rows, before: Rows, rs: seq<Report>)
    requires rs != [] && Polled(start.order) && 0 <= start.order.filledQty <= start.order.qty
    requires Plausible(start.order, rs)
    requires var n := |rs| - 1;
      var state := if n == 0 then start.order.state else StateOf(rs[n-1]);
      CaughtUp(start, before, state, BookedFill(start.order.filledQty, rs[..n]))
    ensures var n := |rs| - 1;
      var filled := BookedFill(start.order.filledQty, rs);
      if ListedOpen(before.order.state) then
        && ApplyReport(cfg, id, before, rs[n]).Ok?
        && CaughtUp(start, ApplyReport(cfg, id, before, rs[n]).value.0, StateOf(rs[n]), filled)
      else CaughtUp(start, before, StateOf(rs[n]), filled)
  {
    hide ApplyReport, CaughtUp, StateOf, FilledOf, PriceOf, Terminal, Plausible;
    var n := |rs| - 1;
    BookedWithinReports(start.order, rs);
    CaughtUpFields(start, before, if n == 0 then start.order.state else StateOf(rs[n-1]),
                   BookedFill(start.order.filledQty, rs[..n]));
    if ListedOpen(before.order.state) {
      NextIsAccepted(cfg, id, start.order, before, rs);
      ReportCatchesUp(cfg, id, start, before, rs[n]);
    } else {
      FinishedStays(start.order, rs);
    }
  }

  lemma CaughtUpFields(start: Rows, after: Rows, state: OrderState, filled: int)
    requires CaughtUp(start, after, state, filled)
    ensures after.order.state == state && after.order.filledQty == filled && after.order.qty == start.order.qty
  {
    hide LogIsPath, TradedSince;
  }

  lemma BookedWithinReports(o: Order, rs: seq<Report>)
    requires rs != [] && Plausible(o, rs) && o.filledQty <= o.qty
    ensures o.filledQty <= BookedFill(o.filledQty, rs[..|rs|-1]) <= o.qty
  {
    hide StateOf, FilledOf, PriceOf, Terminal, BookedFill;
    PlausiblePrefix(o, rs);
    BookedFillBounds(o, rs[..|rs|-1]);
  }

  lemma NextIsAccepted(cfg: LiveConfig, id: nat, o: Order, before: Rows, rs: seq<Report>)
    requires rs != [] && Plausible(o, rs) && Polled(o) && 0 <= before.order.filledQty <= o.qty == before.order.qty
    requires before.order.state == (if |rs| == 1 then o.state else StateOf(rs[|rs|-2]))
    requires ListedOpen(before.order.state)
    ensures ApplyReport(cfg, id, before, rs[|rs|-1]).Ok? && !(|rs| > 1 && Terminal(StateOf(rs[|rs|-2])))
  {
    hide ApplyReport, LogIsPath, StateOf, FilledOf, PriceOf, Terminal;
    var n := |rs| - 1;
    ReportedStates(rs[n]);
    if n > 0 {
      TerminalIff(StateOf(rs[n-1]));
      ReportedStates(rs[n-1]);
    }
    ReportRaisesIff(cfg, id, before, rs[n]);
  }

  lemma FinishedStays(o: Order, rs: seq<Report>)
    requires rs != [] && Plausible(o, rs) && Polled(o)
    requires !ListedOpen(if |rs| == 1 then o.state else StateOf(rs[|rs|-2]))
    ensures |rs| > 1 && Terminal(StateOf(rs[|rs|-2])) && StateOf(rs[|rs|-1]) == StateOf(rs[|rs|-2])
  {
    hide StateOf, FilledOf, PriceOf, Terminal;
    TerminalIff(StateOf(rs[|rs|-2]));
    ReportedStates(rs[|rs|-2]);
  }

  /** No report before the k-th was terminal, so the k-th was still polled. */
  ghost predicate StillPolled(rs: seq<Report>, k: nat)
    requires k < |rs|
  {
    forall j :: 0 <= j < k ==> !Terminal(StateOf(rs[j]))
  }

  /** The k-th report was polled, gave a price, and showed as many shares as the last. */
  ghost predicate PricesAll(rs: seq<Report>, k: nat)
    requires k < |rs|
  {
    PriceOf(rs[k]).Some? && FilledOf(rs[k]) == FilledOf(rs[|rs|-1]) && StillPolled(rs, k)
  }

  /**
   * All the shares the broker filled end up booked exactly when there was nothing new to book or some report that
   * was still polled gave a price for all of them.
   */
  lemma {:induction false} AllBookedIff(o: Order, rs: seq<Report>)
    requires Plausible(o, rs) && rs != []
    ensures BookedFill(o.filledQty, rs) == FilledOf(rs[|rs|-1])
       <==> FilledOf(rs[|rs|-1]) == o.filledQty || exists k: nat :: k < |rs| && PricesAll(rs, k)
    decreases |rs|
  {
    hide StateOf, FilledOf, PriceOf, Terminal, Plausible, PricesAll;
    var n := |rs| - 1;
    var rest := rs[..n];
    PlausiblePrefix(o, rs);
    BookedFillBounds(o, rs);
    BookedFillBounds(o, rest);
    if n == 0 {
      OnlyPricesAll(rs);
    } else {
      assert rest[n-1] == rs[n-1];
      AllBookedIff(o, rest);
      LastPricesAll(o, rs);
      NeverShrinks(o, rs);
      forall k: nat | k < n && FilledOf(rs[n]) == FilledOf(rs[n-1]) ensures PricesAll(rs, k) <==> PricesAll(rest, k) {
        PricesAllBefore(rs, k);
      }
    }
  }

  lemma OnlyPricesAll(rs: seq<Report>)
    requires |rs| == 1
    ensures PricesAll(rs, 0) <==> PriceOf(rs[0]).Some?
  {
    hide StateOf, FilledOf, PriceOf, Terminal;
  }

  lemma NeverShrinks(o: Order, rs: seq<Report>)
    requires Plausible(o, rs) && |rs| >= 2
    ensures o.filledQty <= FilledOf(rs[|rs|-2]) <= FilledOf(rs[|rs|-1])
    ensures Terminal(StateOf(rs[|rs|-2])) ==> FilledOf(rs[|rs|-1]) == FilledOf(rs[|rs|-2])
  {
    hide StateOf, FilledOf, PriceOf, Terminal;
  }

  /** A last report that shows nothing new does not change whether an earlier one priced all of them. */
  lemma PricesAllBefore(rs: seq<Report>, k: nat)
    requires |rs| >= 2 && k < |rs| - 1 && FilledOf(rs[|rs|-1]) == FilledOf(rs[|rs|-2])
    ensures PricesAll(rs, k) <==> PricesAll(rs[..|rs|-1], k)
  {
    hide StateOf, FilledOf, PriceOf, Terminal;
    var rest := rs[..|rs|-1];
    assert forall j :: 0 <= j < |rest| ==> rs[j] == rest[j];
    assert StillPolled(rs, k) <==> StillPolled(rest, k);
  }

  lemma LastPricesAll(o: Order, rs: seq<Report>)
    requires Plausible(o, rs) && |rs| >= 2
    ensures var n := |rs| - 1;
      && (PricesAll(rs, n) <==> PriceOf(rs[n]).Some? && !Terminal(StateOf(rs[n-1])))
      && (FilledOf(rs[n]) != FilledOf(rs[n-1]) ==> forall k: nat :: k < n ==> !PricesAll(rs, k))
  {
    hide StateOf, FilledOf, PriceOf;
    var n := |rs| - 1;
    if !Terminal(StateOf(rs[n-1])) {
      forall j | 0 <= j < n ensures !Terminal(StateOf(rs[j])) {
        FinalStays(o, rs, j, n - 1);
      }
    } else {
      assert !StillPolled(rs, n);
    }
  }

  lemma FinalStays(o: Order, rs: seq<Report>, j: nat, k: nat)
    requires Plausible(o, rs) && j <= k < |rs|
    ensures Terminal(StateOf(rs[j])) ==> Terminal(StateOf(rs[k]))
  {
    hide StateOf, FilledOf, PriceOf, Terminal;
  }

  /** Reports that always give a price are booked in full. */
  lemma {:induction false} PricedIsBooked(o: Order, rs: seq<Report>)
    requires Plausible(o, rs) && Priced(rs) && rs != [] && o.filledQty >= 0
    ensures BookedFill(o.filledQty, rs) == FilledOf(rs[|rs|-1])
    decreases |rs|
  {
    hide StateOf, FilledOf, PriceOf, Terminal;
    var n := |rs| - 1;
    PlausiblePrefix(o, rs);
    BookedFillBounds(o, rs[..n]);
    if n > 0 {
      assert rs[..n][n-1] == rs[n-1];
      PricedIsBooked(o, rs[..n]);
    }
  }

  /** What is left of plausible reports is plausible for the order as the polled ones left it. */
  lemma PlausibleRest(o: Order, rs: seq<Report>, n: nat)
    requires Plausible(o, rs) && 0 < n <= |rs|
    ensures Plausible(o.(state := StateOf(rs[n-1]), filledQty := BookedFill(o.filledQty, rs[..n])), rs[n..])
         || Terminal(StateOf(rs[n-1]))
  {
    hide StateOf, FilledOf, PriceOf, Terminal;
    PrefixOfPlausible(o, rs, n);
    BookedFillBounds(o, rs[..n]);
    ReportedStates(rs[n-1]);
    TerminalIff(StateOf(rs[n-1]));
    if !Terminal(StateOf(rs[n-1])) {
      var rest := rs[n..];
      assert forall k :: 0 <= k < |rest| ==> rest[k] == rs[n+k];
      forall k | 0 <= k < |rest| && StateOf(rest[k]) == OPEN ensures StateOf(rs[n-1]) != PARTIALLY_FILLED {
        ReportedStates(rs[n+k]);
        assert FilledOf(rs[n-1]) <= FilledOf(rs[n+k]);
      }
      var prev := StateOf(rs[n-1]);
      forall k | 0 <= k < |rest| ensures StateOf(rest[k]) != REJECTED_BROKER {
        assert StateOf(rs[n+k]) == REJECTED_BROKER ==> prev == REJECTED_BROKER;
      }
      RestIsPlausible(o, rs, n, o.(state := StateOf(rs[n-1]), filledQty := BookedFill(o.filledQty, rs[..n])));
    }
  }

  lemma RestIsPlausible(o: Order, rs: seq<Report>, n: nat, o': Order)
    requires Plausible(o, rs) && 0 < n <= |rs| && o'.qty == o.qty && o'.filledQty <= FilledOf(rs[n-1])
    requires forall k :: 0 <= k < |rs[n..]| ==> StateOf(rs[n..][k]) != REJECTED_BROKER
    requires forall k :: 0 <= k < |rs[n..]| && StateOf(rs[n..][k]) == OPEN ==> o'.state != PARTIALLY_FILLED
    ensures Plausible(o', rs[n..])
  {
    hide StateOf, FilledOf, PriceOf, Terminal;
    var rest := rs[n..];
    assert forall k :: 0 <= k < |rest| ==> rest[k] == rs[n+k];
  }

  lemma PrefixOfPlausible(o: Order, rs: seq<Report>, n: nat)
    requires Plausible(o, rs) && n <= |rs|
    ensures Plausible(o, rs[..n])
  {
    hide StateOf, FilledOf, PriceOf, Terminal;
  }

  /** The states a report can map to, and when an open one means unfilled. */
  lemma ReportedStates(r: Report)
    ensures StateOf(r) in {OPEN, PARTIALLY_FILLED, FILLED, CANCELLED, REJECTED_BROKER}
    ensures StateOf(r) == OPEN ==> FilledOf(r) <= 0
    ensures StateOf(r) == PARTIALLY_FILLED ==> FilledOf(r) > 0
  {
    hide TerminalStatus;
    TerminalStates(r.status);
  }

  lemma TerminalStates(status: string)
    ensures TerminalStatus(status).Some? ==> TerminalStatus(status).value in {FILLED, REJECTED_BROKER, CANCELLED}
  {
  }

  /** Re-applying the last report changes nothing, and produces no update exactly when all it shows is booked. */
  lemma ReapplyIsNoOp(cfg: LiveConfig, id: nat, rows: Rows, r: Report)
    requires ApplyReport(cfg, id, rows, r).Ok? && LogIsPath(rows.order) && 0 <= rows.order.filledQty <= rows.order.qty
    ensures var after := ApplyReport(cfg, id, rows, r).value.0;
      ApplyReport(cfg, id, after, r) == Ok((after, FilledOf(r) > rows.order.filledQty && PriceOf(r).None?))
  {
    hide LogIsPath, StateOf, PriceOf, CostsOnTurnover, ApplyFill;
    ReportEffect(cfg, id, rows, r);
  }

  // ---- What the status texts mean ----

  /** The same text, whatever the case of its ASCII letters; `text` is in lower case. */
  predicate Spells(status: string, text: string) {
    && |status| == |text|
    && forall k :: 0 <= k < |text| ==>
         status[k] == text[k] || ('a' <= text[k] <= 'z' && status[k] as int == text[k] as int - 32)
  }

  predicate IsLower(text: string) { forall k :: 0 <= k < |text| ==> !('A' <= text[k] <= 'Z') }

  lemma LowerSpells(status: string, text: string)
    requires IsLower(text)
    ensures Lower(status) == text <==> Spells(status, text)
  {
    var low := Lower(status);
    if |status| == |text| {
      forall k | 0 <= k < |text|
        ensures low[k] == text[k]
           <==> status[k] == text[k] || ('a' <= text[k] <= 'z' && status[k] as int == text[k] as int - 32)
      {
        LetterCase(status[k], text[k]);
      }
      if Spells(status, text) { assert low == text; }
    }
  }

  lemma LetterCase(c: char, t: char)
    requires !('A' <= t <= 'Z')
    ensures LowerChar(c) == t <==> c == t || ('a' <= t <= 'z' && c as int == t as int - 32)
  {
  }

  /** The state a status text and a filled quantity stand for. */
  predicate Means(r: Report, s: OrderState) {
    var shares := r.filledQuantity.Some? && r.filledQuantity.value > 0;
    && (s == FILLED <==> Spells(r.status, "complete"))
    && (s == REJECTED_BROKER <==> Spells(r.status, "rejected"))
    && (s == CANCELLED <==> Spells(r.status, "cancelled") || Spells(r.status, "cancelled after market order"))
    && (s !in {FILLED, REJECTED_BROKER, CANCELLED} ==> s == (if shares then PARTIALLY_FILLED else OPEN))
  }

  /** Every report means one state, and no other. */
  lemma ReportMeans(r: Report, s: OrderState)
    ensures Means(r, s) <==> s == StateOf(r)
  {
    hide Lower, Spells;
    LowerSpells(r.status, "complete");
    LowerSpells(r.status, "rejected");
    LowerSpells(r.status, "cancelled");
    LowerSpells(r.status, "cancelled after market order");
    TextsDiffer(r.status);
  }

  lemma TextsDiffer(status: string)
    ensures !(Spells(status, "complete") && Spells(status, "rejected"))
    ensures Spells(status, "cancelled") || Spells(status, "cancelled after market order") ==>
      !Spells(status, "complete") && !Spells(status, "rejected")
  {
    var a, b := "complete", "rejected";
    assert a[0] == 'c' && b[0] == 'r';
  }

  /**
   * In any letter case: a report that is accepted leaves the order FILLED exactly for "complete", REJECTED_BROKER
   * exactly for "rejected", CANCELLED exactly for the two cancelled texts, and otherwise PARTIALLY_FILLED or OPEN
   * as it shows shares or not.
   */
  lemma ReportedState(cfg: LiveConfig, id: nat, rows: Rows, r: Report)
    requires LogIsPath(rows.order) && ApplyReport(cfg, id, rows, r).Ok?
    ensures Means(r, ApplyReport(cfg, id, rows, r).value.0.order.state)
  {
    hide ApplyReport, LogIsPath, StateOf, FilledOf, PriceOf, BookedAt, Means;
    ReportEffect(cfg, id, rows, r);
    ReportMeans(r, StateOf(r));
  }

  /** Over plausible reports the order ends in the state that the last one means. */
  lemma PolledState(cfg: LiveConfig, id: nat, start: Rows, rs: seq<Report>)
    requires LogIsPath(start.order) && Polled(start.order) && 0 <= start.order.filledQty <= start.order.qty
    requires Plausible(start.order, rs) && rs != []
    ensures PollAll(cfg, id, start, rs).Ok? && Means(rs[|rs|-1], PollAll(cfg, id, start, rs).value.order.state)
  {
    hide PollAll, LogIsPath, Plausible, BookedFill, StateOf, FilledOf, Means;
    PollingConverges(cfg, id, start, rs);
    ReportMeans(rs[|rs|-1], StateOf(rs[|rs|-1]));
  }

  /** The log gains nothing for the same state, one row for a direct step, and OPEN first when it skips a step. */
  lemma ReportLogs(cfg: LiveConfig, id: nat, rows: Rows, r: Report)
    requires LogIsPath(rows.order) && ApplyReport(cfg, id, rows, r).Ok?
    ensures var (before, after) := (rows.order, ApplyReport(cfg, id, rows, r).value.0.order);
      after.log == before.log
        + (if after.state == before.state then []
           else if before.state == SUBMITTED && after.state !in {OPEN, REJECTED_BROKER} then
             [OrderEvent(Some(SUBMITTED), OPEN), OrderEvent(Some(OPEN), after.state)]
           else [OrderEvent(Some(before.state), after.state)])
  {
    hide LogIsPath, StateOf, FilledOf, PriceOf, CostsOnTurnover, ApplyFill;
    ReportedStates(r);
    if StateOf(r) == rows.order.state { assert rows.order.log + [] == rows.order.log; }
  }

  /** An open order for ten shares, reported cancelled with nothing filled, is cancelled and books nothing. */
  lemma CancelledReport(cfg: LiveConfig, id: nat, rows: Rows)
    requires LogIsPath(rows.order) && rows.order.state == OPEN && rows.order.qty == 10 && rows.order.filledQty == 0
    ensures var after := ApplyReport(cfg, id, rows, Report(Some(10), Some(0), "Cancelled", None));
      && after.Ok? && after.value.0.order.state == CANCELLED && after.value.0.order.filledQty == 0
      && after.value.0.trades == rows.trades && after.value.0.position == rows.position
  {
    hide LogIsPath, CostsOnTurnover, ApplyFill;
    var r := Report(Some(10), Some(0), "Cancelled", None);
    assert Lower("Cancelled") == "cancelled";
    ReportRaisesIff(cfg, id, rows, r);
  }

  // ---- What polling does not promise ----

  /**
   * A newly filled increment is booked at the cumulative average price of its report. Its trade is worth what
   * the broker charged for those shares exactly when nothing was filled before or the average stood still.
   */
  lemma IncrementValuedRightIff(cfg: LiveConfig, id: nat, rows: Rows, r: Report, avgBefore: real)
    requires LogIsPath(rows.order) && rows.order.filledQty >= 0 && ApplyReport(cfg, id, rows, r).Ok?
    requires FilledOf(r) > rows.order.filledQty && PriceOf(r).Some?
    ensures var (after, before, avg) := (ApplyReport(cfg, id, rows, r).value.0, rows.order.filledQty, PriceOf(r).value);
      && |after.trades| == |rows.trades| + 1
      && var t := after.trades[|rows.trades|];
         (Worth(t.price, t.qty) == Worth(avg, FilledOf(r)) - Worth(avgBefore, before)
          <==> before == 0 || avg == avgBefore)
  {
    hide LogIsPath, Worth, ApplyReport, Advance, ApplyFill, Costed;
    ReportEffect(cfg, id, rows, r);
    var before, avg := rows.order.filledQty, PriceOf(r).value;
    WorthDifference(avg, FilledOf(r), before);
    WorthSame(avg, avgBefore, before);
  }

  lemma WorthSame(a: real, b: real, qty: int)
    requires qty >= 0
    ensures Worth(a, qty) == Worth(b, qty) <==> qty == 0 || a == b
  {
    if qty > 0 && a != b {
      MulStrict(Min(a, b), Max(a, b), qty as real);
    }
  }

  lemma WorthDifference(price: real, a: int, b: int)
    ensures Worth(price, a - b) == Worth(price, a) - Worth(price, b)
  {
  }

  lemma WorthOfDifference(a: real, b: real, qty: int)
    ensures Worth(a - b, qty) == Worth(a, qty) - Worth(b, qty)
  {
  }

  /** The value booked in the rows appended since `from`. */
  function BookedWorth(trades: seq<Trade>, from: nat): real
    requires from <= |trades|
    decreases |trades|
  {
    if |trades| == from then 0.0
    else BookedWorth(trades[..|trades|-1], from) + Worth(trades[|trades|-1].price, trades[|trades|-1].qty)
  }

  function AverageOf(r: Report): real { if PriceOf(r).Some? then PriceOf(r).value else 0.0 }

  /** What the broker charged for all that a report says is filled. */
  function Charged(r: Report): real { Worth(AverageOf(r), FilledOf(r)) }

  /** How far the average moved under shares already filled, added up over the reports. */
  ghost function Drift(rs: seq<Report>): real {
    if |rs| <= 1 then 0.0
    else
      var n := |rs| - 1;
      Drift(rs[..n]) + Worth(AverageOf(rs[n]) - AverageOf(rs[n-1]), FilledOf(rs[n-1]))
  }

  /** One poll books the newly filled shares at the new average. */
  lemma ReportBooksIncrement(cfg: LiveConfig, id: nat, start: nat, before: Rows, r: Report)
    requires LogIsPath(before.order) && start <= |before.trades| && ApplyReport(cfg, id, before, r).Ok?
    requires before.order.filledQty <= FilledOf(r) && (FilledOf(r) > before.order.filledQty ==> PriceOf(r).Some?)
    ensures var after := ApplyReport(cfg, id, before, r).value.0;
      && start <= |after.trades|
      && BookedWorth(after.trades, start)
           == BookedWorth(before.trades, start) + Worth(AverageOf(r), FilledOf(r) - before.order.filledQty)
  {
    hide ApplyReport, LogIsPath, StateOf, FilledOf, PriceOf, Worth, Costed, ApplyFill;
    ReportEffect(cfg, id, before, r);
    assert Worth(AverageOf(r), 0) == 0.0 by { NoShares(AverageOf(r)); }
  }

  lemma NoShares(price: real)
    ensures Worth(price, 0) == 0.0
  {
  }

  /** What is charged beyond what was booked is the drift. */
  lemma IncrementDrifts(prev: Report, r: Report, booked: real, booked': real, drift: real)
    requires Charged(prev) - booked == drift
    requires booked' == booked + Worth(AverageOf(r), FilledOf(r) - FilledOf(prev))
    ensures Charged(r) - booked' == drift + Worth(AverageOf(r) - AverageOf(prev), FilledOf(prev))
  {
    hide Worth;
    WorthDifference(AverageOf(r), FilledOf(r), FilledOf(prev));
    WorthOfDifference(AverageOf(r), AverageOf(prev), FilledOf(prev));
  }

  /** Shares the reports before the last one showed. */
  function FilledBefore(rs: seq<Report>): int { if |rs| <= 1 then 0 else FilledOf(rs[|rs|-2]) }

  /** The last of priced reports books its increment, also when the order was finished before: then there is none. */
  lemma LastBooksIncrement(cfg: LiveConfig, id: nat, start: Rows, rs: seq<Report>)
    requires LogIsPath(start.order) && Polled(start.order) && start.order.filledQty == 0 <= start.order.qty
    requires Plausible(start.order, rs) && Priced(rs) && rs != []
    ensures PollAll(cfg, id, start, rs[..|rs|-1]).Ok? && PollAll(cfg, id, start, rs).Ok?
    ensures var before, after := PollAll(cfg, id, start, rs[..|rs|-1]).value, PollAll(cfg, id, start, rs).value;
      && |start.trades| <= |before.trades| && |start.trades| <= |after.trades|
      && BookedWorth(after.trades, |start.trades|)
           == BookedWorth(before.trades, |start.trades|)
              + Worth(AverageOf(rs[|rs|-1]), FilledOf(rs[|rs|-1]) - FilledBefore(rs))
  {
    hide ApplyReport, LogIsPath, StateOf, FilledOf, PriceOf, Terminal, Worth, BookedWorth, AverageOf, Plausible,
         TradedSince, BookedFill;
    var n := |rs| - 1;
    PlausiblePrefix(start.order, rs);
    PollingConverges(cfg, id, start, rs[..n]);
    PollingConverges(cfg, id, start, rs);
    var before := PollAll(cfg, id, start, rs[..n]).value;
    BookedBefore(start.order, rs);
    if ListedOpen(before.order.state) {
      ReportBooksIncrement(cfg, id, |start.trades|, before, rs[n]);
    } else {
      FinishedStays(start.order, rs);
      FinishedShowsNothingNew(start.order, rs);
      NoShares(AverageOf(rs[n]));
    }
  }

  lemma FinishedShowsNothingNew(o: Order, rs: seq<Report>)
    requires Plausible(o, rs) && |rs| > 1 && Terminal(StateOf(rs[|rs|-2]))
    ensures FilledOf(rs[|rs|-1]) == FilledOf(rs[|rs|-2])
  {
    hide StateOf, FilledOf, PriceOf, Terminal;
  }

  lemma BookedBefore(o: Order, rs: seq<Report>)
    requires Plausible(o, rs) && Priced(rs) && rs != [] && o.filledQty == 0
    ensures BookedFill(0, rs[..|rs|-1]) == FilledBefore(rs) <= FilledOf(rs[|rs|-1])
    ensures FilledOf(rs[|rs|-1]) > FilledBefore(rs) ==> PriceOf(rs[|rs|-1]).Some?
  {
    hide StateOf, FilledOf, PriceOf, Terminal;
    var n := |rs| - 1;
    PlausiblePrefix(o, rs);
    if n > 0 {
      assert rs[..n][n-1] == rs[n-1];
      PricedIsBooked(o, rs[..n]);
    }
  }

  /** Over plausible reports, the booked value falls short of what the broker charged by exactly the drift. */
  lemma {:induction false} BookedFallsShortByDrift(cfg: LiveConfig, id: nat, start: Rows, rs: seq<Report>)
    requires LogIsPath(start.order) && Polled(start.order) && start.order.filledQty == 0 <= start.order.qty
    requires Plausible(start.order, rs) && Priced(rs) && rs != []
    ensures PollAll(cfg, id, start, rs).Ok? && |start.trades| <= |PollAll(cfg, id, start, rs).value.trades|
    ensures Charged(rs[|rs|-1]) - BookedWorth(PollAll(cfg, id, start, rs).value.trades, |start.trades|) == Drift(rs)
    decreases |rs|
  {
    hide LogIsPath, FilledOf, Plausible, Worth, PollAll, AverageOf, Polled;
    var n, from := |rs| - 1, |start.trades|;
    LastBooksIncrement(cfg, id, start, rs);
    if n == 0 {
      NothingPolled(cfg, id, start);
    } else {
      PlausiblePrefix(start.order, rs);
      assert rs[..n][n-1] == rs[n-1];
      BookedFallsShortByDrift(cfg, id, start, rs[..n]);
      var before, after := PollAll(cfg, id, start, rs[..n]).value, PollAll(cfg, id, start, rs).value;
      IncrementDrifts(rs[n-1], rs[n], BookedWorth(before.trades, from), BookedWorth(after.trades, from),
                      Drift(rs[..n]));
    }
  }

  lemma NothingPolled(cfg: LiveConfig, id: nat, start: Rows)
    ensures PollAll(cfg, id, start, []) == Ok(start) && BookedWorth(start.trades, |start.trades|) == 0.0
  {
  }

  /** The booked value is what the broker charged exactly when the average never drifted on balance. */
  lemma BookedValueRightIff(cfg: LiveConfig, id: nat, start: Rows, rs: seq<Report>)
    requires LogIsPath(start.order) && Polled(start.order) && start.order.filledQty == 0 <= start.order.qty
    requires Plausible(start.order, rs) && Priced(rs) && rs != []
    ensures PollAll(cfg, id, start, rs).Ok? && |start.trades| <= |PollAll(cfg, id, start, rs).value.trades|
    ensures var booked := BookedWorth(PollAll(cfg, id, start, rs).value.trades, |start.trades|);
      booked == Charged(rs[|rs|-1]) <==> Drift(rs) == 0.0
  {
    hide PollAll, Drift, Charged, BookedWorth, LogIsPath, Plausible;
    BookedFallsShortByDrift(cfg, id, start, rs);
  }

  const HALF_FILLED := Report(Some(2), Some(1), "open", Some(10.0))
  const ALL_FILLED := Report(Some(2), Some(2), "complete", Some(11.0))

  /** Two shares filled at 10 and 12: the broker charged 22, the books say 21. */
  lemma TwoFillsBookedShort(cfg: LiveConfig, id: nat, start: Rows)
    requires LogIsPath(start.order) && start.order.state == SUBMITTED
    requires start.order.filledQty == 0 && start.order.qty == 2
    ensures Plausible(start.order, [HALF_FILLED, ALL_FILLED])
    ensures var after := PollAll(cfg, id, start, [HALF_FILLED, ALL_FILLED]);
      && after.Ok? && after.value.order.state == FILLED
      && |start.trades| <= |after.value.trades| && BookedWorth(after.value.trades, |start.trades|) == 21.0
    ensures Charged(ALL_FILLED) == 22.0
  {
    hide PollAll, BookedWorth, LogIsPath, Lower, Drift;
    var rs := [HALF_FILLED, ALL_FILLED];
    TwoStatuses();
    TerminalIff(PARTIALLY_FILLED);
    PollingConverges(cfg, id, start, rs);
    BookedFallsShortByDrift(cfg, id, start, rs);
    assert Drift(rs) == 1.0 by { OneRupeeDrift(); }
  }

  lemma TwoStatuses()
    ensures StateOf(HALF_FILLED) == PARTIALLY_FILLED && StateOf(ALL_FILLED) == FILLED
  {
    assert Lower("open") == "open" && Lower("complete") == "complete";
  }

  lemma OneRupeeDrift()
    ensures Drift([HALF_FILLED, ALL_FILLED]) == 1.0
  {
    assert [HALF_FILLED, ALL_FILLED][..1] == [HALF_FILLED];
    assert Drift([HALF_FILLED]) == 0.0;
  }

  /** A report's filled quantity is the order's afterwards exactly when it shows nothing new or gives a price. */
  lemma ReportBookedIff(cfg: LiveConfig, id: nat, rows: Rows, r: Report)
    requires LogIsPath(rows.order) && ApplyReport(cfg, id, rows, r).Ok?
    ensures var before, after := rows.order.filledQty, ApplyReport(cfg, id, rows, r).value.0.order.filledQty;
      after == FilledOf(r) <==> FilledOf(r) == before || (FilledOf(r) > before && PriceOf(r).Some?)
  {
    hide ApplyReport, LogIsPath, StateOf, FilledOf, PriceOf, BookedAt;
    ReportEffect(cfg, id, rows, r);
  }

  /**
   * Over whole polling: the shares the last report shows are all booked exactly when they were before the first
   * report or some report that was still polled gave a price for all of them.
   */
  lemma PollingBooksAllIff(cfg: LiveConfig, id: nat, start: Rows, rs: seq<Report>)
    requires LogIsPath(start.order) && Polled(start.order) && 0 <= start.order.filledQty <= start.order.qty
    requires Plausible(start.order, rs) && rs != []
    ensures PollAll(cfg, id, start, rs).Ok?
    ensures var after, filled := PollAll(cfg, id, start, rs).value, FilledOf(rs[|rs|-1]);
      var all := filled == start.order.filledQty || exists k: nat :: k < |rs| && PricesAll(rs, k);
      && (after.order.filledQty == filled <==> all)
      && (after.position.qty == start.position.qty + SignedQty(start.order.side, filled - start.order.filledQty)
          <==> all)
      && |start.trades| <= |after.trades|
      && (TradedSince(after.trades, |start.trades|) == filled - start.order.filledQty <==> all)
  {
    hide PollAll, LogIsPath, Plausible, BookedFill, PricesAll, FilledOf, StateOf;
    PollingConverges(cfg, id, start, rs);
    AllBookedIff(start.order, rs);
  }

  const UNPRICED := Report(Some(2), Some(2), "complete", None)

  /**
   * A completion without an average price: the order is FILLED with nothing booked, and whatever is reported
   * afterwards changes nothing, because a finished order is not polled.
   */
  lemma UnpricedCompletionLosesFill(cfg: LiveConfig, id: nat, start: Rows, later: seq<Report>)
    requires LogIsPath(start.order) && start.order.state == SUBMITTED
    requires start.order.filledQty == 0 && start.order.qty == 2
    ensures StateOf(UNPRICED) == FILLED && FilledOf(UNPRICED) == 2
    ensures var after := PollAll(cfg, id, start, [UNPRICED] + later);
      && after.Ok? && after.value.order.state == FILLED && after.value.order.filledQty == 0
      && after.value.position == start.position && after.value.trades == start.trades
    decreases |later|
  {
    hide LogIsPath, CostsOnTurnover, ApplyFill;
    assert Lower("complete") == "complete";
    var rs := [UNPRICED] + later;
    if later == [] {
      assert rs[..0] == [] && PollAll(cfg, id, start, []) == Ok(start);
      ReportRaisesIff(cfg, id, start, UNPRICED);
    } else {
      assert rs[..|rs|-1] == [UNPRICED] + later[..|later|-1];
      UnpricedCompletionLosesFill(cfg, id, start, later[..|later|-1]);
    }
  }
}
