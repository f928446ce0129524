/** The live broker's local tables: placing, polling, and the rows each poll rewrites. */
module UpstoxBrokers {
  import opened Wrappers
  import opened Costs
  import opened OrderStates
  import opened PositionBook
  import opened TradeLog
  import opened UpstoxOrders

  /** The live rows of the state store. */
  datatype LiveTables = LiveTables(orders: seq<Order>, acked: set<nat>, positions: map<int, Position>,
                                   trades: seq<Trade>)

  function RowsOf(t: LiveTables, id: nat): Rows
    requires id < |t.orders|
  {
    Rows(t.orders[id], PositionOf(t.positions, t.orders[id].instrumentId), t.trades)
  }

  /** Write back; a position row appears only once something was booked. */
  function WriteBack(t: LiveTables, id: nat, r: Rows): LiveTables
    requires id < |t.orders|
  {
    t.(orders := t.orders[id := r.order],
       positions := if r.trades == t.trades then t.positions else t.positions[t.orders[id].instrumentId := r.position],
       trades := r.trades)
  }

  /** Poll each listed order that was acknowledged and whose request succeeded. Any exception ends the sweep. */
  function PollIds(cfg: LiveConfig, t: LiveTables, ids: seq<nat>, reports: map<nat, Report>): Result<LiveTables>
    requires forall k :: 0 <= k < |ids| ==> ids[k] < |t.orders|
    decreases |ids|
  {
    if ids == [] then Ok(t)
    else if ids[0] !in t.acked || ids[0] !in reports then PollIds(cfg, t, ids[1..], reports)
    else
      match ApplyReport(cfg, ids[0], RowsOf(t, ids[0]), reports[ids[0]])
      case Err(e) => Err(e)
      case Ok((rows, _)) => PollIds(cfg, WriteBack(t, ids[0], rows), ids[1..], reports)
  }

  /** Every order's log is a lifecycle path and its trades add up to its filled quantity. */
  ghost predicate TablesOk(t: LiveTables) {
    && (forall id: nat :: id < |t.orders| ==>
          && LogIsPath(t.orders[id]) && 0 <= t.orders[id].filledQty <= t.orders[id].qty
          && FilledBy(t.trades, id) == t.orders[id].filledQty)
    && (forall k :: 0 <= k < |t.trades| ==> t.trades[k].orderId < |t.orders|)
    && (forall id :: id in t.acked ==> id < |t.orders|)
  }

  lemma ReportKeepsTables(cfg: LiveConfig, t: LiveTables, id: nat, r: Report)
    requires TablesOk(t) && id < |t.orders| && ApplyReport(cfg, id, RowsOf(t, id), r).Ok?
    ensures TablesOk(WriteBack(t, id, ApplyReport(cfg, id, RowsOf(t, id), r).value.0))
  {
    hide ApplyReport, LogIsPath, StateOf, FilledOf, PriceOf;
    ReportEffect(cfg, id, RowsOf(t, id), r);
    var rows := ApplyReport(cfg, id, RowsOf(t, id), r).value.0;
    if |rows.trades| == |t.trades| + 1 {
      assert rows.trades[..|t.trades|] == t.trades;
    }
  }

  /** Whatever reports arrive, a poll that does not raise keeps Σ trade quantity = filled quantity for every order. */
  lemma {:induction false} PollKeepsTables(cfg: LiveConfig, t: LiveTables, ids: seq<nat>, reports: map<nat, Report>)
    requires TablesOk(t) && forall k :: 0 <= k < |ids| ==> ids[k] < |t.orders|
    requires PollIds(cfg, t, ids, reports).Ok?
    ensures TablesOk(PollIds(cfg, t, ids, reports).value)
    decreases |ids|
  {
    hide ApplyReport, TablesOk;
    if ids != [] {
      if ids[0] in t.acked && ids[0] in reports {
        ReportKeepsTables(cfg, t, ids[0], reports[ids[0]]);
        PollKeepsTables(cfg, WriteBack(t, ids[0], ApplyReport(cfg, ids[0], RowsOf(t, ids[0]), reports[ids[0]]).value.0),
                        ids[1..], reports);
      } else {
        PollKeepsTables(cfg, t, ids[1..], reports);
      }
    }
  }

  ghost predicate NewlyTraded(t: LiveTables, t': LiveTables, i: int) {
    exists k :: |t.trades| <= k < |t'.trades| && t'.trades[k].instrumentId == i
  }

  /** Position row `i` is there and is what it was, unless something was booked for it. */
  ghost predicate OnlyTraded(t: LiveTables, t': LiveTables, i: int) {
    || NewlyTraded(t, t', i)
    || ((i in t'.positions <==> i in t.positions) && (i in t.positions ==> t'.positions[i] == t.positions[i]))
  }

  lemma WriteBackTouches(cfg: LiveConfig, t: LiveTables, id: nat, r: Report, i: int)
    requires TablesOk(t) && id < |t.orders| && ApplyReport(cfg, id, RowsOf(t, id), r).Ok?
    ensures var t' := WriteBack(t, id, ApplyReport(cfg, id, RowsOf(t, id), r).value.0);
      |t'.trades| >= |t.trades| && t'.trades[..|t.trades|] == t.trades && OnlyTraded(t, t', i)
  {
    hide ApplyReport, LogIsPath, StateOf, FilledOf, PriceOf, FilledBy;
    ReportEffect(cfg, id, RowsOf(t, id), r);
    var t' := WriteBack(t, id, ApplyReport(cfg, id, RowsOf(t, id), r).value.0);
    if t'.trades != t.trades && i == t.orders[id].instrumentId {
      assert t'.trades[|t.trades|].instrumentId == i;
    }
  }

  lemma TouchesChain(t: LiveTables, m: LiveTables, t': LiveTables, i: int)
    requires |t.trades| <= |m.trades| <= |t'.trades| && t'.trades[..|m.trades|] == m.trades
    requires OnlyTraded(t, m, i) && OnlyTraded(m, t', i)
    ensures OnlyTraded(t, t', i)
  {
    if NewlyTraded(t, m, i) {
      var k :| |t.trades| <= k < |m.trades| && m.trades[k].instrumentId == i;
      assert t'.trades[k] == m.trades[k];
    }
  }

  /** A poll only adds trades, and touches only the position rows it adds trades for. */
  lemma {:induction false} PollTouches(cfg: LiveConfig, t: LiveTables, ids: seq<nat>, reports: map<nat, Report>, i: int)
    requires TablesOk(t) && forall k :: 0 <= k < |ids| ==> ids[k] < |t.orders|
    requires PollIds(cfg, t, ids, reports).Ok?
    ensures var t' := PollIds(cfg, t, ids, reports).value;
      |t'.trades| >= |t.trades| && t'.trades[..|t.trades|] == t.trades && OnlyTraded(t, t', i)
    decreases |ids|
  {
    hide ApplyReport, TablesOk, OnlyTraded;
    if ids == [] {
      NoneTouched(t, i);
    } else if ids[0] in t.acked && ids[0] in reports {
      var m := WriteBack(t, ids[0], ApplyReport(cfg, ids[0], RowsOf(t, ids[0]), reports[ids[0]]).value.0);
      ReportKeepsTables(cfg, t, ids[0], reports[ids[0]]);
      WriteBackTouches(cfg, t, ids[0], reports[ids[0]], i);
      PollTouches(cfg, m, ids[1..], reports, i);
      TouchesChain(t, m, PollIds(cfg, t, ids, reports).value, i);
    } else {
      PollTouches(cfg, t, ids[1..], reports, i);
    }
  }

  lemma NoneTouched(t: LiveTables, i: int)
    ensures OnlyTraded(t, t, i)
  {
  }

  lemma RecordFillAppends(cfg: LiveConfig, id: nat, rows: Rows, qty: int, price: real)
    ensures var r := RecordFill(cfg, id, rows, qty, price);
      r.Ok? ==> r.value.order == rows.order && r.value.trades != rows.trades
  {
    hide CostsOnTurnover, ApplyFill;
    var r := RecordFill(cfg, id, rows, qty, price);
    if r.Ok? { assert |r.value.trades| == |rows.trades| + 1; }
  }

  /** Both answers to a request leave the freshly created order's log a lifecycle path. */
  lemma SubmittingIsPath(created: Order)
    requires created.log == [OrderEvent(None, PENDING_RISK)] && created.state == PENDING_RISK
    ensures var submitting := Transition(created, SUBMITTING);
      && submitting.Ok? && LogIsPath(submitting.value) && submitting.value.state == SUBMITTING
      && forall to :: to == SUBMITTED || to == FAILED ==>
           Transition(submitting.value, to).Ok? && LogIsPath(Transition(submitting.value, to).value)
  {
    assert LogIsPath(created);
    TransitionKeepsPath(created, SUBMITTING);
    TransitionKeepsPath(Transition(created, SUBMITTING).value, FAILED);
    TransitionKeepsPath(Transition(created, SUBMITTING).value, SUBMITTED);
  }

  lemma NewRowKeepsTables(t: LiveTables, o: Order, ack: bool)
    requires TablesOk(t) && LogIsPath(o) && o.filledQty == 0 && o.qty > 0
    ensures TablesOk(t.(orders := t.orders + [o], acked := if ack then t.acked + {|t.orders|} else t.acked))
  {
    hide LogIsPath, FilledBy;
    NothingFilledYet(t.trades, |t.orders|);
  }

  lemma AdvanceKeepsFields(o: Order, to: OrderState)
    ensures Advance(o, to).Ok? ==>
      Advance(o, to).value == o.(state := Advance(o, to).value.state, log := Advance(o, to).value.log)
  {
    hide AllowedTransitions;
  }

  class UpstoxBroker {
    const cfg: LiveConfig
    const instruments: set<int>
    var orders: seq<Order>
    var acked: set<nat> // orders that carry a broker order id
    var positions: map<int, Position>
    var trades: seq<Trade>

    function State(): LiveTables
      reads this
    {
      LiveTables(orders, acked, positions, trades)
    }

    constructor (cfg: LiveConfig, instruments: set<int>)
      ensures this.cfg == cfg && this.instruments == instruments
      ensures State() == LiveTables([], {}, map[], []) && TablesOk(State())
    {
      this.cfg, this.instruments := cfg, instruments;
      orders, acked, positions, trades := [], {}, map[], [];
    }

    /**
     * Persist the intent before the request is sent; `ack` says whether the broker acknowledged it.
     * A failed request leaves the row FAILED.
     */
    method Place(r: OrderRequest, ack: bool) returns (result: Result<nat>)
      requires TablesOk(State())
      modifies this
      ensures TablesOk(State()) && trades == old(trades) && positions == old(positions)
      ensures r.instrumentId !in instruments || r.qty <= 0 ==> result.Err? && State() == old(State())
      ensures r.instrumentId in instruments && r.qty > 0 ==>
        && |orders| == |old(orders)| + 1 && orders[..|old(orders)|] == old(orders)
        && var id := |old(orders)|;
           && orders[id].state == (if ack then SUBMITTED else FAILED) && orders[id].filledQty == 0
           && orders[id].side == r.side && orders[id].qty == r.qty && orders[id].instrumentId == r.instrumentId
           && acked == (if ack then old(acked) + {id} else old(acked))
           && (result.Ok? <==> ack) && (ack ==> result.value == id)
    {
      hide LogIsPath, FilledBy, TablesOk;
      if r.instrumentId !in instruments { return Err(UnknownInstrument); }
      var created := RecordCreated(Order(r.instrumentId, r.side, r.orderType, r.qty, r.limitPrice, PENDING_RISK, 0,
                                         []));
      if created.Err? { return Err(created.error); }
      var id := |orders|;
      var submitting := Transition(created.value, SUBMITTING).value;
      SubmittingIsPath(created.value);
      NewRowKeepsTables(State(), Transition(submitting, if ack then SUBMITTED else FAILED).value, ack);
      if !ack {
        orders := orders + [Transition(submitting, FAILED).value];
        return Err(BrokerError);
      }
      orders := orders + [Transition(submitting, SUBMITTED).value];
      acked := acked + {id};
      result := Ok(id);
    }

    /** Book newly filled shares at the reported average price. */
    method BookFill(id: nat, qty: int, price: real) returns (error: Option<Error>)
      requires id < |orders|
      modifies this`positions, this`trades
      ensures match RecordFill(cfg, id, RowsOf(old(State()), id), qty, price)
              case Err(e) => error == Some(e) && State() == old(State())
              case Ok(rows) =>
                && error == None && trades == rows.trades
                && positions == old(positions)[orders[id].instrumentId := rows.position]
    {
      hide CostsOnTurnover, ApplyFill;
      var o := orders[id];
      var costs := CalculateCosts(o.side, price, qty, cfg.segment, cfg.rates);
      if costs.Err? { return Some(costs.error); }
      var (p, realized) := ApplyFill(PositionOf(positions, o.instrumentId), o.side, qty, costs.value.netAmount);
      positions := positions[o.instrumentId := p];
      trades := trades + [Trade(id, o.instrumentId, o.side, price, qty, costs.value, realized)];
      error := None;
    }

    method Move(id: nat, to: OrderState) returns (error: Option<Error>)
      requires id < |orders|
      modifies this`orders
      ensures match Transition(old(orders[id]), to)
              case Err(e) => error == Some(e) && orders == old(orders)
              case Ok(o) => error == None && orders == old(orders)[id := o]
    {
      var o := orders[id];
      if to !in AllowedTransitions(o.state) { return Some(InvalidOrderTransition); }
      orders := orders[id := o.(state := to, log := o.log + [OrderEvent(Some(o.state), to)])];
      error := None;
    }

    /** Take an order to its reported state, through OPEN when it was only SUBMITTED. */
    method Promote(id: nat, to: OrderState) returns (error: Option<Error>)
      requires id < |orders|
      modifies this`orders
      ensures |orders| == |old(orders)|
      ensures match Advance(old(orders[id]), to)
              case Err(e) => error == Some(e)
              case Ok(o) => error == None && orders == old(orders)[id := o]
    {
      hide AllowedTransitions;
      error := None;
      if to != orders[id].state {
        if orders[id].state == SUBMITTED && to !in {OPEN, REJECTED_BROKER, FAILED} {
          error := Move(id, OPEN);
          if error.Some? { return; }
        }
        error := Move(id, to);
      }
    }

    /** Apply one report step by step. After an exception the tables are as far as it got; the poll rolls them back. */
    method ApplyOrderUpdate(id: nat, r: Report) returns (result: Result<bool>)
      requires id < |orders|
      modifies this`orders, this`positions, this`trades
      ensures match ApplyReport(cfg, id, RowsOf(old(State()), id), r)
              case Err(e) => result == Err(e)
              case Ok((rows, changed)) => result == Ok(changed) && State() == WriteBack(old(State()), id, rows)
    {
      hide RecordFill, StateOf, FilledOf, PriceOf, Advance;
      var newState, newlyFilled := StateOf(r), FilledOf(r) - orders[id].filledQty;
      if newState == orders[id].state && newlyFilled <= 0 { return Ok(false); }
      var price := PriceOf(r);
      if newlyFilled > 0 && price.Some? {
        RecordFillAppends(cfg, id, RowsOf(State(), id), newlyFilled, price.value);
        var e := BookFill(id, newlyFilled, price.value);
        if e.Some? { return Err(e.value); }
        orders := orders[id := orders[id].(filledQty := FilledOf(r))];
      }
      AdvanceKeepsFields(orders[id], newState);
      var error := Promote(id, newState);
      if error.Some? { return Err(error.value); }
      if orders[id].filledQty < 0 || orders[id].filledQty > orders[id].qty { return Err(IntegrityError); }
      result := Ok(true);
    }

    /** Ask about every listed order and apply what changed; an exception rolls the whole sweep back. */
    method PollAndApplyFills(reports: map<nat, Report>) returns (error: Option<Error>)
      requires TablesOk(State())
      modifies this
      ensures TablesOk(State()) && acked == old(acked) && |orders| == |old(orders)|
      ensures match PollIds(cfg, old(State()), OpenIds(old(orders), |old(orders)|), reports)
              case Err(e) => error == Some(e) && State() == old(State())
              case Ok(t) => error == None && State() == t
    {
      hide ApplyReport, LogIsPath, FilledBy;
      var saved := State();
      var ids := OpenIds(orders, |orders|);
      var k := 0;
      while k < |ids|
        invariant 0 <= k <= |ids| && |orders| == |saved.orders| && acked == saved.acked && TablesOk(State())
        invariant PollIds(cfg, State(), ids[k..], reports) == PollIds(cfg, saved, ids, reports)
      {
        assert ids[k..][0] == ids[k] && ids[k..][1..] == ids[k+1..];
        var id := ids[k];
        if id in acked && id in reports {
          ghost var before := State();
          var applied := ApplyOrderUpdate(id, reports[id]);
          if applied.Err? {
            orders, positions, trades := saved.orders, saved.positions, saved.trades;
            return Some(applied.error);
          }
          ReportKeepsTables(cfg, before, id, reports[id]);
        }
        k := k + 1;
      }
      error := None;
    }
  }
}
