/** Whole sweeps of the live broker: many orders, some sharing an instrument, polled over and over. */
module PollingSweeps {
  import opened Wrappers
  import opened Costs
  import opened OrderStates
  import opened PositionBook
  import opened TradeLog
  import opened UpstoxOrders
  import opened UpstoxBrokers

  /** The answers one sweep gets; an order whose request failed has none. */
  type Answers = map<nat, Report>

  /** Sweep after sweep; an exception ends the run. */
  function PollSweeps(cfg: LiveConfig, t: LiveTables, sweeps: seq<Answers>): Result<LiveTables> {
    if sweeps == [] then Ok(t)
    else
      match PollSweeps(cfg, t, sweeps[..|sweeps|-1])
      case Err(e) => Err(e)
      case Ok(before) => PollIds(cfg, before, OpenIds(before.orders, |before.orders|), sweeps[|sweeps|-1])
  }

  /** The reports the sweeps brought for one order. */
  function Seen(sweeps: seq<Answers>, id: nat): seq<Report> {
    if sweeps == [] then []
    else
      var last := sweeps[|sweeps|-1];
      Seen(sweeps[..|sweeps|-1], id) + (if id in last then [last[id]] else [])
  }

  // ---- An order's fate depends on its own reports only ----

  /** An order on its own, with nothing else in the tables. */
  function Alone(o: Order): Rows { Rows(o, FLAT, []) }

  lemma ReportIgnoresRows(cfg: LiveConfig, id: nat, a: Rows, b: Rows, r: Report)
    requires a.order == b.order
    ensures ApplyReport(cfg, id, a, r).Ok? <==> ApplyReport(cfg, id, b, r).Ok?
    ensures ApplyReport(cfg, id, a, r).Ok? ==>
      ApplyReport(cfg, id, a, r).value.0.order == ApplyReport(cfg, id, b, r).value.0.order
  {
    hide CostsOnTurnover, ApplyFill, Advance, StateOf, FilledOf, PriceOf;
  }

  predicate Asked(t: LiveTables, id: nat, answers: Answers) { id in t.acked && id in answers }

  /** What one sweep does to one order row. */
  function OrderAfter(cfg: LiveConfig, id: nat, o: Order, r: Report): Order {
    var applied := ApplyReport(cfg, id, Alone(o), r);
    if applied.Ok? then applied.value.0.order else o
  }

  ghost predicate NoneRaises(cfg: LiveConfig, t: LiveTables, ids: seq<nat>, answers: Answers)
    requires forall k :: 0 <= k < |ids| ==> ids[k] < |t.orders|
  {
    forall k :: 0 <= k < |ids| && Asked(t, ids[k], answers) ==>
      ApplyReport(cfg, ids[k], Alone(t.orders[ids[k]]), answers[ids[k]]).Ok?
  }

  /** Row `id` after a sweep over `ids`. */
  ghost predicate RowSwept(cfg: LiveConfig, t: LiveTables, ids: seq<nat>, answers: Answers, t': LiveTables, id: nat)
    requires id < |t.orders| && |t'.orders| == |t.orders|
  {
    t'.orders[id] == if id in ids && Asked(t, id, answers) then OrderAfter(cfg, id, t.orders[id], answers[id])
                     else t.orders[id]
  }

  lemma {:induction false} SweepActsByOrder(cfg: LiveConfig, t: LiveTables, ids: seq<nat>, answers: Answers)
    requires forall k :: 0 <= k < |ids| ==> ids[k] < |t.orders|
    requires forall j, k :: 0 <= j < k < |ids| ==> ids[j] < ids[k]
    requires NoneRaises(cfg, t, ids, answers)
    ensures PollIds(cfg, t, ids, answers).Ok?
    ensures var t' := PollIds(cfg, t, ids, answers).value;
      && t'.acked == t.acked && |t'.orders| == |t.orders|
      && forall id: nat :: id < |t.orders| ==> RowSwept(cfg, t, ids, answers, t', id)
    decreases |ids|
  {
    hide ApplyReport;
    if ids != [] {
      var id, rest := ids[0], ids[1..];
      var next := t;
      if Asked(t, id, answers) {
        ReportIgnoresRows(cfg, id, RowsOf(t, id), Alone(t.orders[id]), answers[id]);
        next := WriteBack(t, id, ApplyReport(cfg, id, RowsOf(t, id), answers[id]).value.0);
      }
      forall k | 0 <= k < |rest| && Asked(next, rest[k], answers)
        ensures ApplyReport(cfg, rest[k], Alone(next.orders[rest[k]]), answers[rest[k]]).Ok?
      {
        assert rest[k] == ids[k+1] && Asked(t, ids[k+1], answers);
      }
      SweepActsByOrder(cfg, next, rest, answers);
      var t' := PollIds(cfg, t, ids, answers).value;
      forall k: nat | k < |t.orders| ensures RowSwept(cfg, t, ids, answers, t', k) {
        assert RowSwept(cfg, next, rest, answers, t', k);
        assert k in ids <==> k == id || k in rest;
        if k == id { assert k !in rest; }
      }
    }
  }

  // ---- Positions follow the filled quantities ----

  /** Signed shares filled by the orders of one instrument. */
  function HeldBy(orders: seq<Order>, i: int): int {
    if orders == [] then 0
    else
      var o := orders[|orders|-1];
      HeldBy(orders[..|orders|-1], i) + (if o.instrumentId == i then SignedQty(o.side, o.filledQty) else 0)
  }

  lemma {:induction false} HeldAfterWrite(orders: seq<Order>, id: nat, o: Order, i: int)
    requires id < |orders| && o.instrumentId == orders[id].instrumentId && o.side == orders[id].side
    ensures HeldBy(orders[id := o], i)
         == HeldBy(orders, i)
            + (if o.instrumentId == i then SignedQty(o.side, o.filledQty - orders[id].filledQty) else 0)
  {
    var n := |orders| - 1;
    if id < n {
      assert orders[id := o][..n] == orders[..n][id := o];
      HeldAfterWrite(orders[..n], id, o, i);
    } else {
      assert orders[id := o][..n] == orders[..n];
    }
  }

  /** The part of a position its orders do not account for. */
  function Unaccounted(t: LiveTables, i: int): int { QtyOf(t.positions, i) - HeldBy(t.orders, i) }

  lemma ReportKeepsAccount(cfg: LiveConfig, t: LiveTables, id: nat, r: Report, i: int)
    requires TablesOk(t) && id < |t.orders| && ApplyReport(cfg, id, RowsOf(t, id), r).Ok?
    ensures Unaccounted(WriteBack(t, id, ApplyReport(cfg, id, RowsOf(t, id), r).value.0), i) == Unaccounted(t, i)
  {
    hide ApplyReport, LogIsPath, StateOf, FilledOf, PriceOf, FilledBy, BookedAt, HeldBy;
    ReportEffect(cfg, id, RowsOf(t, id), r);
    var rows := ApplyReport(cfg, id, RowsOf(t, id), r).value.0;
    HeldAfterWrite(t.orders, id, rows.order, i);
  }

  lemma {:induction false} SweepKeepsAccount(cfg: LiveConfig, t: LiveTables, ids: seq<nat>, answers: Answers, i: int)
    requires TablesOk(t) && forall k :: 0 <= k < |ids| ==> ids[k] < |t.orders|
    requires PollIds(cfg, t, ids, answers).Ok?
    ensures Unaccounted(PollIds(cfg, t, ids, answers).value, i) == Unaccounted(t, i)
    decreases |ids|
  {
    hide ApplyReport, TablesOk, Unaccounted;
    if ids != [] {
      if ids[0] in t.acked && ids[0] in answers {
        ReportKeepsTables(cfg, t, ids[0], answers[ids[0]]);
        ReportKeepsAccount(cfg, t, ids[0], answers[ids[0]], i);
        var rows := ApplyReport(cfg, ids[0], RowsOf(t, ids[0]), answers[ids[0]]).value.0;
        SweepKeepsAccount(cfg, WriteBack(t, ids[0], rows), ids[1..], answers, i);
      } else {
        SweepKeepsAccount(cfg, t, ids[1..], answers, i);
      }
    }
  }

  // ---- Convergence of all orders together ----

  /** What the sweeps will say about an acknowledged live order is plausible, as far as it got already. */
  ghost predicate Ready(t: LiveTables, sweeps: seq<Answers>, id: nat)
    requires id < |t.orders|
  {
    id in t.acked && ListedOpen(t.orders[id].state) ==>
      Polled(t.orders[id]) && Plausible(t.orders[id], Seen(sweeps, id))
  }

  ghost predicate AllReady(t: LiveTables, sweeps: seq<Answers>) {
    forall id: nat :: id < |t.orders| ==> Ready(t, sweeps, id)
  }

  /** A finished order is not polled. */
  lemma {:induction false} FinishedIsLeft(cfg: LiveConfig, id: nat, start: Rows, rs: seq<Report>)
    requires !ListedOpen(start.order.state)
    ensures PollAll(cfg, id, start, rs) == Ok(start)
    decreases |rs|
  {
    hide ApplyReport;
    if rs != [] { FinishedIsLeft(cfg, id, start, rs[..|rs|-1]); }
  }

  /** Polling a ready order alone does not raise. */
  lemma ReadyConverges(cfg: LiveConfig, t: LiveTables, sweeps: seq<Answers>, id: nat)
    requires TablesOk(t) && AllReady(t, sweeps) && id < |t.orders| && id in t.acked
    ensures PollAll(cfg, id, Alone(t.orders[id]), Seen(sweeps, id)).Ok?
    ensures ListedOpen(t.orders[id].state) ==>
      var rs, o := Seen(sweeps, id), t.orders[id];
      CaughtUp(Alone(o), PollAll(cfg, id, Alone(o), rs).value, if rs == [] then o.state else StateOf(rs[|rs|-1]),
               BookedFill(o.filledQty, rs))
    ensures !ListedOpen(t.orders[id].state) ==>
      PollAll(cfg, id, Alone(t.orders[id]), Seen(sweeps, id)) == Ok(Alone(t.orders[id]))
  {
    hide Plausible, LogIsPath, FilledBy, Seen, PollAll, BookedFill, CaughtUp;
    assert Ready(t, sweeps, id);
    if ListedOpen(t.orders[id].state) {
      PollingConverges(cfg, id, Alone(t.orders[id]), Seen(sweeps, id));
    } else {
      FinishedIsLeft(cfg, id, Alone(t.orders[id]), Seen(sweeps, id));
    }
  }

  /** Row `id` is where polling it alone with its own reports would have led. */
  ghost predicate RowFollows(cfg: LiveConfig, t: LiveTables, sweeps: seq<Answers>, t': LiveTables, id: nat)
    requires id < |t.orders| && |t'.orders| == |t.orders|
  {
    if id in t.acked then
      var polled := PollAll(cfg, id, Alone(t.orders[id]), Seen(sweeps, id));
      polled.Ok? && t'.orders[id] == polled.value.order
    else t'.orders[id] == t.orders[id]
  }

  lemma ReadyBefore(t: LiveTables, sweeps: seq<Answers>)
    requires sweeps != [] && AllReady(t, sweeps)
    ensures AllReady(t, sweeps[..|sweeps|-1])
  {
    hide Plausible;
    var before := sweeps[..|sweeps|-1];
    forall id: nat | id < |t.orders| ensures Ready(t, before, id) {
      assert Ready(t, sweeps, id);
      var rs := Seen(sweeps, id);
      if id in sweeps[|sweeps|-1] {
        if id in t.acked && ListedOpen(t.orders[id].state) { PlausiblePrefix(t.orders[id], rs); }
        assert rs[..|rs|-1] == Seen(before, id);
      } else {
        assert Seen(before, id) + [] == Seen(before, id);
      }
    }
  }

  /** One more report for one order: polling it does not raise, and leads where polling it alone leads. */
  lemma NextReport(cfg: LiveConfig, t: LiveTables, sweeps: seq<Answers>, m: LiveTables, id: nat)
    requires TablesOk(t) && sweeps != [] && AllReady(t, sweeps) && id < |t.orders| && |m.orders| == |t.orders|
    requires RowFollows(cfg, t, sweeps[..|sweeps|-1], m, id) && id in t.acked
    ensures PollAll(cfg, id, Alone(t.orders[id]), Seen(sweeps, id)).Ok?
    ensures var next := PollAll(cfg, id, Alone(t.orders[id]), Seen(sweeps, id)).value.order;
      if id in sweeps[|sweeps|-1] && ListedOpen(m.orders[id].state) then
        && ApplyReport(cfg, id, Alone(m.orders[id]), sweeps[|sweeps|-1][id]).Ok?
        && next == OrderAfter(cfg, id, m.orders[id], sweeps[|sweeps|-1][id])
      else next == m.orders[id]
  {
    hide ApplyReport, Plausible, LogIsPath, FilledBy, CaughtUp, BookedFill, TablesOk, AllReady;
    var rs, before := Seen(sweeps, id), Seen(sweeps[..|sweeps|-1], id);
    ReadyConverges(cfg, t, sweeps, id);
    if id in sweeps[|sweeps|-1] {
      assert rs[..|rs|-1] == before;
      var polled := PollAll(cfg, id, Alone(t.orders[id]), before).value;
      ReportIgnoresRows(cfg, id, polled, Alone(m.orders[id]), sweeps[|sweeps|-1][id]);
    } else {
      assert rs == before;
    }
  }

  /** One more sweep. */
  lemma NextSweep(cfg: LiveConfig, t: LiveTables, sweeps: seq<Answers>, before: seq<Answers>, m: LiveTables)
    requires TablesOk(t) && TablesOk(m) && sweeps != [] && before == sweeps[..|sweeps|-1] && AllReady(t, sweeps)
    requires |m.orders| == |t.orders| && m.acked == t.acked
    requires forall id: nat :: id < |t.orders| ==> RowFollows(cfg, t, before, m, id)
    ensures var swept := PollIds(cfg, m, OpenIds(m.orders, |m.orders|), sweeps[|sweeps|-1]);
      && swept.Ok? && TablesOk(swept.value) && |swept.value.orders| == |t.orders| && swept.value.acked == t.acked
      && (forall id: nat :: id < |t.orders| ==> RowFollows(cfg, t, sweeps, swept.value, id))
      && (forall i :: Unaccounted(swept.value, i) == Unaccounted(m, i))
  {
    hide ApplyReport, TablesOk, AllReady, PollAll, Seen, PollIds, OrderAfter, Unaccounted, ListedOpen;
    var ids, answers := OpenIds(m.orders, |m.orders|), sweeps[|sweeps|-1];
    forall k | 0 <= k < |ids| && Asked(m, ids[k], answers)
      ensures ApplyReport(cfg, ids[k], Alone(m.orders[ids[k]]), answers[ids[k]]).Ok?
    {
      NextReport(cfg, t, sweeps, m, ids[k]);
    }
    SweepActsByOrder(cfg, m, ids, answers);
    PollKeepsTables(cfg, m, ids, answers);
    var m' := PollIds(cfg, m, ids, answers).value;
    forall id: nat | id < |t.orders| ensures RowFollows(cfg, t, sweeps, m', id) {
      assert RowSwept(cfg, m, ids, answers, m', id) && RowFollows(cfg, t, before, m, id);
      if id in t.acked { NextReport(cfg, t, sweeps, m, id); }
    }
    forall i ensures Unaccounted(m', i) == Unaccounted(m, i) {
      SweepKeepsAccount(cfg, m, ids, answers, i);
    }
  }

  lemma {:induction false} SweepsFollow(cfg: LiveConfig, t: LiveTables, sweeps: seq<Answers>)
    requires TablesOk(t) && AllReady(t, sweeps)
    ensures PollSweeps(cfg, t, sweeps).Ok?
    ensures var t' := PollSweeps(cfg, t, sweeps).value;
      && TablesOk(t') && |t'.orders| == |t.orders| && t'.acked == t.acked
      && (forall id: nat :: id < |t.orders| ==> RowFollows(cfg, t, sweeps, t', id))
      && (forall i :: Unaccounted(t', i) == Unaccounted(t, i))
    decreases |sweeps|
  {
    hide TablesOk, AllReady, PollIds, Unaccounted;
    if sweeps != [] {
      ReadyBefore(t, sweeps);
      var before := sweeps[..|sweeps|-1];
      SweepsFollow(cfg, t, before);
      NextSweep(cfg, t, sweeps, before, PollSweeps(cfg, t, before).value);
    }
  }

  /**
   * Polling converges for all orders together: whatever sweeps were made, whichever requests failed in them,
   * whichever orders share an instrument and however far each had got before, no sweep raises; each acknowledged
   * live order ends as the last report seen for it says, its trades adding up to the last fill that was priced;
   * and every position has moved by its orders' fills.
   */
  lemma SweepsConverge(cfg: LiveConfig, t: LiveTables, sweeps: seq<Answers>)
    requires TablesOk(t) && AllReady(t, sweeps)
    ensures PollSweeps(cfg, t, sweeps).Ok?
    ensures var t' := PollSweeps(cfg, t, sweeps).value;
      && TablesOk(t') && |t'.orders| == |t.orders| && t'.acked == t.acked
      && (forall id: nat :: id < |t.orders| ==> RowConverged(t, sweeps, t', id))
      && (forall i :: QtyOf(t'.positions, i) - QtyOf(t.positions, i) == HeldBy(t'.orders, i) - HeldBy(t.orders, i))
  {
    hide PollSweeps, HeldBy, QtyOf, TablesOk;
    SweepsFollow(cfg, t, sweeps);
    var t' := PollSweeps(cfg, t, sweeps).value;
    forall id: nat | id < |t.orders| ensures RowConverged(t, sweeps, t', id) {
      RowConverges(cfg, t, sweeps, t', id);
    }
    forall i ensures QtyOf(t'.positions, i) - QtyOf(t.positions, i) == HeldBy(t'.orders, i) - HeldBy(t.orders, i) {
      assert Unaccounted(t', i) == Unaccounted(t, i);
    }
  }

  /** An acknowledged live order is as the reports seen for it say; any other is untouched. */
  ghost predicate RowConverged(t: LiveTables, sweeps: seq<Answers>, t': LiveTables, id: nat)
    requires id < |t.orders| && |t'.orders| == |t.orders|
  {
    var rs, o := Seen(sweeps, id), t.orders[id];
    if id in t.acked && ListedOpen(o.state) && rs != [] then
      var filled := BookedFill(o.filledQty, rs);
      && t'.orders[id] == o.(state := StateOf(rs[|rs|-1]), filledQty := filled, log := t'.orders[id].log)
      && FilledBy(t'.trades, id) == filled
    else t'.orders[id] == o
  }

  lemma RowConverges(cfg: LiveConfig, t: LiveTables, sweeps: seq<Answers>, t': LiveTables, id: nat)
    requires TablesOk(t) && AllReady(t, sweeps) && TablesOk(t') && |t'.orders| == |t.orders| && id < |t.orders|
    requires RowFollows(cfg, t, sweeps, t', id)
    ensures RowConverged(t, sweeps, t', id)
  {
    hide Plausible, LogIsPath, FilledBy, Seen, TradedSince, AllReady, StateOf, BookedFill;
    if id in t.acked {
      ReadyConverges(cfg, t, sweeps, id);
      if Seen(sweeps, id) == [] { assert PollAll(cfg, id, Alone(t.orders[id]), []) == Ok(Alone(t.orders[id])); }
    }
  }

  // ---- Sessions: orders are placed between sweeps ----

  lemma {:induction false} SeenSplits(first: seq<Answers>, second: seq<Answers>, id: nat)
    ensures Seen(first + second, id) == Seen(first, id) + Seen(second, id)
  {
    if second == [] {
      assert first + second == first;
    } else {
      var n := |second| - 1;
      assert (first + second)[..|first + second|-1] == first + second[..n];
      SeenSplits(first, second[..n], id);
    }
  }

  /** After some sweeps the tables are ready for the rest, so convergence applies again from there. */
  lemma ReadyAgain(cfg: LiveConfig, t: LiveTables, first: seq<Answers>, second: seq<Answers>)
    requires TablesOk(t) && AllReady(t, first + second)
    ensures AllReady(t, first) && PollSweeps(cfg, t, first).Ok?
    ensures AllReady(PollSweeps(cfg, t, first).value, second)
  {
    hide TablesOk, Plausible, PollSweeps, Seen, HeldBy, QtyOf, BookedFill, StateOf, FilledBy;
    forall id: nat | id < |t.orders| ensures Ready(t, first, id) {
      assert Ready(t, first + second, id);
      SeenSplits(first, second, id);
      if id in t.acked && ListedOpen(t.orders[id].state) {
        var rs := Seen(first + second, id);
        PrefixOfPlausible(t.orders[id], rs, |Seen(first, id)|);
        assert rs[..|Seen(first, id)|] == Seen(first, id);
      }
    }
    SweepsConverge(cfg, t, first);
    var m := PollSweeps(cfg, t, first).value;
    forall id: nat | id < |m.orders| ensures Ready(m, second, id) {
      assert Ready(t, first + second, id) && RowConverged(t, first, m, id);
      RestIsReady(t, first, second, m, id);
    }
  }

  lemma RestIsReady(t: LiveTables, first: seq<Answers>, second: seq<Answers>, m: LiveTables, id: nat)
    requires id < |t.orders| && |m.orders| == |t.orders| && m.acked == t.acked
    requires Ready(t, first + second, id) && RowConverged(t, first, m, id)
    ensures Ready(m, second, id)
  {
    hide Plausible, Seen, BookedFill, StateOf, FilledBy, Terminal;
    SeenSplits(first, second, id);
    if id in t.acked && ListedOpen(t.orders[id].state) {
      var rs, n := Seen(first + second, id), |Seen(first, id)|;
      assert rs[..n] == Seen(first, id) && rs[n..] == Seen(second, id);
      if n > 0 {
        assert rs[n-1] == Seen(first, id)[n-1];
        PlausibleRest(t.orders[id], rs, n);
        TerminalIff(StateOf(rs[n-1]));
        ReportedStates(rs[n-1]);
        if !Terminal(StateOf(rs[n-1])) {
          PlausibleIgnoresLog(t.orders[id].(state := StateOf(rs[n-1]), filledQty := m.orders[id].filledQty),
                              m.orders[id], rs[n..]);
        }
      }
    }
  }

  lemma PlausibleIgnoresLog(o: Order, o': Order, rs: seq<Report>)
    requires Plausible(o, rs) && o' == o.(log := o'.log)
    ensures Plausible(o', rs)
  {
    hide StateOf, FilledOf, PriceOf, Terminal;
  }

  /** Placing an order between sweeps keeps the tables ready, if what will be reported about it is plausible. */
  lemma PlacingKeepsReady(t: LiveTables, o: Order, ack: bool, sweeps: seq<Answers>)
    requires TablesOk(t) && AllReady(t, sweeps) && LogIsPath(o) && o.filledQty == 0 && o.qty > 0
    requires o.state == (if ack then SUBMITTED else FAILED)
    requires ack ==> Plausible(o, Seen(sweeps, |t.orders|))
    ensures var t' := t.(orders := t.orders + [o], acked := if ack then t.acked + {|t.orders|} else t.acked);
      TablesOk(t') && AllReady(t', sweeps)
  {
    hide TablesOk, Plausible, Seen, FilledBy, LogIsPath;
    NewRowKeepsTables(t, o, ack);
    var t' := t.(orders := t.orders + [o], acked := if ack then t.acked + {|t.orders|} else t.acked);
    forall id: nat | id < |t'.orders| ensures Ready(t', sweeps, id) {
      if id < |t.orders| { assert Ready(t, sweeps, id) && t'.orders[id] == t.orders[id]; }
    }
  }
}
