/** Startup reconciliation: stuck orders, then positions, where the broker's word wins. */
module Reconciliation {
  import opened Wrappers
  import opened Costs
  import opened OrderStates
  import opened PositionBook
  import opened TradeLog
  import opened UpstoxOrders
  import opened UpstoxBrokers
  import opened KillSwitches
  import PaperLedger
  import PaperLifecycle

  /** A row of the broker's positions response; `instrumentId` is None when the token is not known locally. */
  datatype BrokerRow = BrokerRow(instrumentId: Option<int>, qty: int, avgPrice: real)

  datatype BrokerPosition = BrokerPosition(qty: int, avgPrice: real)

  type Book = map<int, BrokerPosition>

  datatype Finding = Finding(orderId: nat, wasState: OrderState)

  // ---- What reconciling positions must establish ----

  function BrokerQty(book: Book, i: int): int { if i in book then book[i].qty else 0 }

  function Divergence(positions: map<int, Position>, book: Book, i: int): nat {
    Abs(BrokerQty(book, i) - QtyOf(positions, i))
  }

  /** The instruments on which the two sides disagree. */
  ghost function Mismatched(positions: map<int, Position>, book: Book): set<int> {
    set i | i in positions.Keys + book.Keys && Divergence(positions, book, i) != 0
  }

  /** Those on which they disagree by more than the threshold. */
  ghost function Breached(positions: map<int, Position>, book: Book, threshold: nat): set<int> {
    set i | i in positions.Keys + book.Keys && Divergence(positions, book, i) > threshold
  }

  /** A corrected row keeps its realized P&L; a position the broker does not have costs nothing. */
  function Corrected(positions: map<int, Position>, book: Book, i: int): Position {
    PositionOf(positions, i).(qty := BrokerQty(book, i), avgPrice := if i in book then book[i].avgPrice else 0.0)
  }

  /** Instrument `i`'s row, once the instruments in `done` have been looked at. */
  ghost predicate RowIs(before: map<int, Position>, book: Book, done: set<int>, after: map<int, Position>, i: int) {
    if i in done && Divergence(before, book, i) != 0 then i in after && after[i] == Corrected(before, book, i)
    else (i in after <==> i in before) && (i in after ==> after[i] == before[i])
  }

  ghost predicate RowsCorrected(before: map<int, Position>, book: Book, done: set<int>, after: map<int, Position>) {
    forall i :: RowIs(before, book, done, after, i)
  }

  /** One event per mismatch, LIMIT_BREACH above the threshold and REJECTION otherwise, and the trips. */
  ghost predicate Counts(added: multiset<RiskEventKind>, mismatches: nat, breaches: nat, trips: nat) {
    && added[LIMIT_BREACH] == breaches
    && added[LIMIT_BREACH] + added[REJECTION] == mismatches
    && added[KILL_SWITCH] == trips
    && added[KILL_SWITCH_RESET] == 0
  }

  ghost predicate EventsAdded(k: KillState, mismatches: nat, breaches: nat, k': KillState) {
    && |k.events| <= |k'.events| && k'.events[..|k.events|] == k.events
    && Counts(multiset(k'.events[|k.events|..]), mismatches, breaches, if k'.tripped && !k.tripped then 1 else 0)
    && k'.consecutiveErrors == k.consecutiveErrors
    && (k'.tripped <==> k.tripped || breaches > 0)
  }

  /** What a run over the instruments in `done` has done, in whatever order it met them. */
  ghost predicate Reconciled(before: map<int, Position>, k: KillState, book: Book, threshold: nat, done: set<int>,
                             after: map<int, Position>, k': KillState)
  {
    && RowsCorrected(before, book, done, after)
    && EventsAdded(k, |Mismatched(before, book) * done|, |Breached(before, book, threshold) * done|, k')
  }

  ghost predicate FullyReconciled(before: map<int, Position>, k: KillState, book: Book, threshold: nat,
                                  after: map<int, Position>, k': KillState)
  {
    Reconciled(before, k, book, threshold, before.Keys + book.Keys, after, k')
  }

  /** The broker has more of the instrument than the local row, or less, by over the threshold. */
  predicate OffByMore(positions: map<int, Position>, book: Book, i: int, threshold: nat) {
    var theirs, ours := if i in book then book[i].qty else 0, if i in positions then positions[i].qty else 0;
    theirs > ours + threshold || ours > theirs + threshold
  }

  // ---- Convergence ----

  /**
   * Afterwards local and broker quantities agree for every instrument; there is one event per
   * mismatch; the switch is tripped exactly if it was or some divergence exceeds the threshold.
   */
  lemma ReconciliationConverges(before: map<int, Position>, k: KillState, book: Book, threshold: nat,
                                after: map<int, Position>, k': KillState)
    requires FullyReconciled(before, k, book, threshold, after, k')
    ensures forall i :: QtyOf(after, i) == if i in book then book[i].qty else 0
    ensures forall i :: PositionOf(after, i).realizedPnl == PositionOf(before, i).realizedPnl
    ensures forall i :: QtyOf(before, i) == BrokerQty(book, i) ==> PositionOf(after, i) == PositionOf(before, i)
    ensures forall i :: QtyOf(before, i) != BrokerQty(book, i) ==>
      PositionOf(after, i).avgPrice == if i in book then book[i].avgPrice else 0.0
    ensures |k'.events| == |k.events| + |Mismatched(before, book)| + (if k'.tripped && !k.tripped then 1 else 0)
    ensures k'.tripped <==> k.tripped || exists i :: OffByMore(before, book, i, threshold)
  {
    hide RowsCorrected, EventsAdded, Breached, Mismatched;
    forall i
      ensures QtyOf(after, i) == if i in book then book[i].qty else 0
      ensures PositionOf(after, i).realizedPnl == PositionOf(before, i).realizedPnl
      ensures QtyOf(before, i) == BrokerQty(book, i) ==> PositionOf(after, i) == PositionOf(before, i)
      ensures QtyOf(before, i) != BrokerQty(book, i) ==>
        PositionOf(after, i).avgPrice == if i in book then book[i].avgPrice else 0.0
    {
      QuantityAgrees(before, book, after, i);
    }
    AllMismatched(before, book);
    EventTotal(k, |Mismatched(before, book)|, |Breached(before, book, threshold) * (before.Keys + book.Keys)|, k');
    BreachExistsIff(before, book, threshold);
  }

  lemma AllMismatched(before: map<int, Position>, book: Book)
    ensures Mismatched(before, book) * (before.Keys + book.Keys) == Mismatched(before, book)
  {
  }

  lemma QuantityAgrees(before: map<int, Position>, book: Book, after: map<int, Position>, i: int)
    requires RowsCorrected(before, book, before.Keys + book.Keys, after)
    ensures QtyOf(after, i) == BrokerQty(book, i)
    ensures PositionOf(after, i).realizedPnl == PositionOf(before, i).realizedPnl
    ensures QtyOf(before, i) == BrokerQty(book, i) ==> PositionOf(after, i) == PositionOf(before, i)
    ensures QtyOf(before, i) != BrokerQty(book, i) ==>
      PositionOf(after, i).avgPrice == if i in book then book[i].avgPrice else 0.0
  {
    assert RowIs(before, book, before.Keys + book.Keys, after, i);
  }

  lemma EventTotal(k: KillState, mismatches: nat, breaches: nat, k': KillState)
    requires EventsAdded(k, mismatches, breaches, k')
    ensures |k'.events| == |k.events| + mismatches + (if k'.tripped && !k.tripped then 1 else 0)
    ensures k'.tripped <==> k.tripped || breaches > 0
  {
    CountKinds(k'.events[|k.events|..]);
  }

  lemma {:induction false} CountKinds(s: seq<RiskEventKind>)
    ensures |s| == multiset(s)[LIMIT_BREACH] + multiset(s)[REJECTION]
                   + multiset(s)[KILL_SWITCH] + multiset(s)[KILL_SWITCH_RESET]
  {
    if s == [] {
    } else {
      assert s == s[..|s|-1] + [s[|s|-1]];
      CountKinds(s[..|s|-1]);
      match s[|s|-1] { case LIMIT_BREACH => case KILL_SWITCH => case KILL_SWITCH_RESET => case REJECTION => }
    }
  }

  lemma BreachExistsIff(positions: map<int, Position>, book: Book, threshold: nat)
    ensures |Breached(positions, book, threshold) * (positions.Keys + book.Keys)| > 0
       <==> exists i :: OffByMore(positions, book, i, threshold)
  {
    var all := positions.Keys + book.Keys;
    var b := Breached(positions, book, threshold) * all;
    if i :| OffByMore(positions, book, i, threshold) {
      assert i in b;
    } else {
      forall i | i in all ensures i !in b {
        assert !OffByMore(positions, book, i, threshold);
      }
      assert b == {};
    }
  }

  /** A second run against the same broker state changes nothing at all. */
  lemma SecondRunIsNoOp(before: map<int, Position>, k: KillState, book: Book, threshold: nat,
                        m: map<int, Position>, mk: KillState, after: map<int, Position>, ak: KillState)
    requires FullyReconciled(before, k, book, threshold, m, mk)
    requires FullyReconciled(m, mk, book, threshold, after, ak)
    ensures after == m && ak == mk
  {
    hide EventsAdded, RowsCorrected, Mismatched, Breached;
    forall i ensures QtyOf(m, i) == BrokerQty(book, i) {
      QuantityAgrees(before, book, m, i);
    }
    NothingMismatched(m, book, threshold);
    NoEventsAdded(mk, ak);
    NoRowChanged(m, book, after);
  }

  lemma NothingMismatched(m: map<int, Position>, book: Book, threshold: nat)
    requires forall i :: QtyOf(m, i) == BrokerQty(book, i)
    ensures Mismatched(m, book) * (m.Keys + book.Keys) == {}
    ensures Breached(m, book, threshold) * (m.Keys + book.Keys) == {}
  {
    assert forall i :: Divergence(m, book, i) == 0;
  }

  lemma NoRowChanged(m: map<int, Position>, book: Book, after: map<int, Position>)
    requires forall i :: QtyOf(m, i) == BrokerQty(book, i)
    requires RowsCorrected(m, book, m.Keys + book.Keys, after)
    ensures after == m
  {
    hide QtyOf, BrokerQty, Corrected;
    forall i ensures (i in after <==> i in m) && (i in after ==> after[i] == m[i]) {
      assert RowIs(m, book, m.Keys + book.Keys, after, i);
    }
  }

  lemma NoEventsAdded(k: KillState, k': KillState)
    requires EventsAdded(k, 0, 0, k')
    ensures k' == k
  {
    EventTotal(k, 0, 0, k');
    assert k'.events == k.events;
  }

  /** The order in which the instruments are met decides only the order of the events. */
  lemma OrderOfInstrumentsIsIrrelevant(before: map<int, Position>, k: KillState, book: Book, threshold: nat,
                                       a: map<int, Position>, ak: KillState, b: map<int, Position>, bk: KillState)
    requires FullyReconciled(before, k, book, threshold, a, ak) && FullyReconciled(before, k, book, threshold, b, bk)
    ensures a == b && ak.tripped == bk.tripped && multiset(ak.events) == multiset(bk.events)
  {
    hide Mismatched, Breached, Divergence, Corrected;
    var all := before.Keys + book.Keys;
    forall i ensures (i in a <==> i in b) && (i in a ==> a[i] == b[i]) {
      assert RowIs(before, book, all, a, i) && RowIs(before, book, all, b, i);
    }
    SameEvents(k, |Mismatched(before, book) * all|, |Breached(before, book, threshold) * all|, ak, bk);
  }

  lemma SameEvents(k: KillState, mismatches: nat, breaches: nat, a: KillState, b: KillState)
    requires EventsAdded(k, mismatches, breaches, a) && EventsAdded(k, mismatches, breaches, b)
    ensures a.tripped == b.tripped && multiset(a.events) == multiset(b.events)
  {
    var more, other := a.events[|k.events|..], b.events[|k.events|..];
    assert a.events == k.events + more && b.events == k.events + other;
    forall e: RiskEventKind ensures multiset(more)[e] == multiset(other)[e] {
      match e { case LIMIT_BREACH => case KILL_SWITCH => case KILL_SWITCH_RESET => case REJECTION => }
    }
    assert multiset(more) == multiset(other);
  }

  // ---- One instrument ----

  lemma CountWith(s: set<int>, done: set<int>, i: int)
    requires i !in done
    ensures |s * (done + {i})| == |s * done| + (if i in s then 1 else 0)
  {
    if i in s {
      assert s * (done + {i}) == s * done + {i};
    } else {
      assert s * (done + {i}) == s * done;
    }
  }

  lemma AgreeingInstrument(before: map<int, Position>, k: KillState, book: Book, threshold: nat, done: set<int>,
                           after: map<int, Position>, k': KillState, i: int)
    requires Reconciled(before, k, book, threshold, done, after, k') && i !in done && Divergence(before, book, i) == 0
    ensures Reconciled(before, k, book, threshold, done + {i}, after, k')
  {
    hide EventsAdded, Corrected;
    CountWith(Mismatched(before, book), done, i);
    CountWith(Breached(before, book, threshold), done, i);
    forall j ensures RowIs(before, book, done + {i}, after, j) {
      assert RowIs(before, book, done, after, j);
    }
  }

  function AfterMismatch(k: KillState, divergence: nat, threshold: nat): KillState {
    if divergence > threshold then Trip(Log(k, LIMIT_BREACH)) else Log(k, REJECTION)
  }

  lemma MismatchAppends(k: KillState, divergence: nat, threshold: nat) returns (added: seq<RiskEventKind>)
    ensures var k' := AfterMismatch(k, divergence, threshold);
      && k'.events == k.events + added && k'.consecutiveErrors == k.consecutiveErrors
      && (k'.tripped <==> k.tripped || divergence > threshold)
    ensures Counts(multiset(added), 1, if divergence > threshold then 1 else 0,
                   if divergence > threshold && !k.tripped then 1 else 0)
  {
    added := if divergence <= threshold then [REJECTION]
             else if k.tripped then [LIMIT_BREACH]
             else [LIMIT_BREACH, KILL_SWITCH];
  }

  lemma MismatchEvents(k: KillState, mismatches: nat, breaches: nat, k': KillState, divergence: nat, threshold: nat)
    requires EventsAdded(k, mismatches, breaches, k')
    ensures EventsAdded(k, mismatches + 1, breaches + (if divergence > threshold then 1 else 0),
                        AfterMismatch(k', divergence, threshold))
  {
    hide AfterMismatch;
    var k'' := AfterMismatch(k', divergence, threshold);
    var added := MismatchAppends(k', divergence, threshold);
    assert k''.events[|k.events|..] == k'.events[|k.events|..] + added;
  }

  lemma DisagreeingInstrument(before: map<int, Position>, k: KillState, book: Book, threshold: nat, done: set<int>,
                              after: map<int, Position>, k': KillState, i: int)
    requires Reconciled(before, k, book, threshold, done, after, k')
    requires i in before.Keys + book.Keys && i !in done && Divergence(before, book, i) != 0
    ensures Reconciled(before, k, book, threshold, done + {i},
                       after[i := Corrected(before, book, i)],
                       AfterMismatch(k', Divergence(before, book, i), threshold))
  {
    hide EventsAdded, AfterMismatch, Corrected;
    CountWith(Mismatched(before, book), done, i);
    CountWith(Breached(before, book, threshold), done, i);
    MismatchEvents(k, |Mismatched(before, book) * done|, |Breached(before, book, threshold) * done|, k',
                   Divergence(before, book, i), threshold);
    var after' := after[i := Corrected(before, book, i)];
    forall j ensures RowIs(before, book, done + {i}, after', j) {
      assert RowIs(before, book, done, after, j);
    }
  }

  lemma MismatchKeepsSwitch(k: KillState, divergence: nat, threshold: nat, limit: nat)
    requires limit >= 1 && SwitchOk(k, limit)
    ensures SwitchOk(AfterMismatch(k, divergence, threshold), limit)
  {
    hide SwitchOk, Trip, Log;
    if divergence > threshold {
      OtherEventKeeps(k, LIMIT_BREACH, limit);
      TrippingKeeps(Log(k, LIMIT_BREACH), limit);
    } else {
      OtherEventKeeps(k, REJECTION, limit);
    }
  }

  lemma TrippingKeeps(k: KillState, limit: nat)
    requires limit >= 1 && SwitchOk(k, limit)
    ensures SwitchOk(Trip(k), limit)
  {
    hide SwitchEvents, Alternates, Trip;
    TripKeeps(k, limit);
  }

  // ---- Stuck orders ----

  predicate Stuck(s: OrderState) { s == SUBMITTING || s == SUBMITTED }

  /** Orders found mid-submission with no broker id, oldest first; in paper mode no order has one. */
  function StuckIds(orders: seq<Order>, acked: set<nat>, n: nat): (ids: seq<nat>)
    requires n <= |orders|
    ensures forall k :: 0 <= k < |ids| ==> ids[k] < n && Stuck(orders[ids[k]].state) && ids[k] !in acked
    ensures forall j, k :: 0 <= j < k < |ids| ==> ids[j] < ids[k]
    ensures forall id: nat :: id < n && Stuck(orders[id].state) && id !in acked ==> id in ids
  {
    if n == 0 then []
    else StuckIds(orders, acked, n - 1) + (if Stuck(orders[n-1].state) && n - 1 !in acked then [n - 1] else [])
  }

  /** In paper mode there is never anything to do: no reachable state has an order mid-submission. */
  lemma PaperNeverStuck(cfg: PaperLedger.Config, initialCash: real, ops: seq<PaperLedger.Op>)
    ensures var orders := PaperLedger.Run(cfg, PaperLedger.NewLedger(initialCash), ops).orders;
      StuckIds(orders, {}, |orders|) == []
  {
    hide *;
    PaperLifecycle.OrderLifecycle(cfg, initialCash, ops, PaperLedger.Cancel(0));
    NoneStuck(PaperLedger.Run(cfg, PaperLedger.NewLedger(initialCash), ops));
  }

  lemma NoneStuck(l: PaperLedger.Ledger)
    requires PaperLifecycle.Lifecycle(l)
    ensures StuckIds(l.orders, {}, |l.orders|) == []
  {
    hide LogIsPath;
    NothingStuck(l.orders, {}, |l.orders|);
  }

  lemma {:induction false} NothingStuck(orders: seq<Order>, acked: set<nat>, n: nat)
    requires n <= |orders| && forall id: nat :: id < n ==> !(Stuck(orders[id].state) && id !in acked)
    ensures StuckIds(orders, acked, n) == []
  {
    if n > 0 { NothingStuck(orders, acked, n - 1); }
  }

  /** A poll leaves orders without a broker id alone. */
  lemma {:induction false} PollLeavesUnacked(cfg: LiveConfig, t: LiveTables, ids: seq<nat>, reports: map<nat, Report>)
    requires forall k :: 0 <= k < |ids| ==> ids[k] < |t.orders|
    requires PollIds(cfg, t, ids, reports).Ok?
    ensures var t' := PollIds(cfg, t, ids, reports).value;
      && |t'.orders| == |t.orders| && t'.acked == t.acked
      && forall id: nat :: id < |t.orders| && id !in t.acked ==> t'.orders[id] == t.orders[id]
    decreases |ids|
  {
    hide ApplyReport;
    if ids != [] {
      if ids[0] in t.acked && ids[0] in reports {
        var rows := ApplyReport(cfg, ids[0], RowsOf(t, ids[0]), reports[ids[0]]).value.0;
        PollLeavesUnacked(cfg, WriteBack(t, ids[0], rows), ids[1..], reports);
      } else {
        PollLeavesUnacked(cfg, t, ids[1..], reports);
      }
    }
  }

  function Fail(o: Order): Order
    requires Stuck(o.state)
  {
    Transition(o, FAILED).value
  }

  /** The orders table with every stuck order without a broker id FAILED. */
  function FailStuck(orders: seq<Order>, acked: set<nat>): (r: seq<Order>)
    ensures |r| == |orders|
    ensures forall id: nat :: id < |orders| && Stuck(r[id].state) ==> id in acked
  {
    seq(|orders|, id requires 0 <= id < |orders| =>
      if Stuck(orders[id].state) && id !in acked then Fail(orders[id]) else orders[id])
  }

  lemma FailStuckRow(orders: seq<Order>, acked: set<nat>, id: nat)
    requires id < |orders|
    ensures FailStuck(orders, acked)[id]
         == if Stuck(orders[id].state) && id !in acked then Fail(orders[id]) else orders[id]
  {
  }

  /** An order fails exactly if it was mid-submission without a broker id, with one log row; no other field changes. */
  lemma StuckOrdersFail(orders: seq<Order>, acked: set<nat>, id: nat)
    requires id < |orders|
    ensures var o, o' := orders[id], FailStuck(orders, acked)[id];
      if (o.state == SUBMITTING || o.state == SUBMITTED) && id !in acked
      then o' == o.(state := FAILED, log := o.log + [OrderEvent(Some(o.state), FAILED)])
      else o' == o
  {
    FailStuckRow(orders, acked, id);
  }

  ghost predicate FindingsOf(orders: seq<Order>, ids: seq<nat>, findings: seq<Finding>)
    requires forall k :: 0 <= k < |ids| ==> ids[k] < |orders|
  {
    && |findings| == |ids|
    && forall k :: 0 <= k < |ids| ==> findings[k] == Finding(ids[k], orders[ids[k]].state)
  }

  ghost function WithRejections(k: KillState, n: nat): KillState { k.(events := k.events + seq(n, _ => REJECTION)) }

  /** The first `n` rows have been looked at. */
  ghost predicate FailedUpTo(before: seq<Order>, acked: set<nat>, n: nat, orders: seq<Order>, findings: seq<Finding>,
                             k: KillState, k': KillState)
    requires n <= |before|
  {
    && orders == FailStuck(before, acked)[..n] + before[n..]
    && FindingsOf(before, StuckIds(before, acked, n), findings)
    && k' == WithRejections(k, |findings|)
  }

  lemma NothingFailedYet(before: seq<Order>, acked: set<nat>, k: KillState)
    ensures FailedUpTo(before, acked, 0, before, [], k, k)
  {
    assert k.events + [] == k.events;
  }

  lemma AllFailed(before: seq<Order>, acked: set<nat>, orders: seq<Order>, findings: seq<Finding>, k: KillState,
                  k': KillState)
    requires FailedUpTo(before, acked, |before|, orders, findings, k, k')
    ensures orders == FailStuck(before, acked) && FindingsOf(before, StuckIds(before, acked, |before|), findings)
    ensures k' == WithRejections(k, |StuckIds(before, acked, |before|)|)
  {
  }

  lemma NextRow(before: seq<Order>, acked: set<nat>, n: nat, orders: seq<Order>, findings: seq<Finding>, k: KillState,
                k': KillState)
    requires n < |before| && FailedUpTo(before, acked, n, orders, findings, k, k')
    ensures |orders| == |before| && orders[n] == before[n]
    ensures if Stuck(before[n].state) && n !in acked
            then FailedUpTo(before, acked, n + 1, orders[n := Fail(before[n])],
                            findings + [Finding(n, before[n].state)], k, Log(k', REJECTION))
            else FailedUpTo(before, acked, n + 1, orders, findings, k, k')
  {
    hide Stuck, Fail, FailStuck, FindingsOf, WithRejections;
    FailStuckRow(before, acked, n);
    NextFinding(before, acked, n, findings);
    OneMoreRejection(k, |findings|);
  }

  lemma NextFinding(before: seq<Order>, acked: set<nat>, n: nat, findings: seq<Finding>)
    requires n < |before| && FindingsOf(before, StuckIds(before, acked, n), findings)
    ensures FindingsOf(before, StuckIds(before, acked, n + 1),
                       findings + (if Stuck(before[n].state) && n !in acked then [Finding(n, before[n].state)] else []))
    ensures findings + [] == findings
  {
    hide Stuck;
  }

  lemma OneMoreRejection(k: KillState, n: nat)
    ensures WithRejections(k, n + 1) == Log(WithRejections(k, n), REJECTION)
  {
    assert seq(n + 1, _ => REJECTION) == seq(n, _ => REJECTION) + [REJECTION];
    assert k.events + seq(n + 1, _ => REJECTION) == k.events + seq(n, _ => REJECTION) + [REJECTION];
  }

  lemma FailingKeepsTables(t: LiveTables, id: nat)
    requires TablesOk(t) && id < |t.orders| && Stuck(t.orders[id].state)
    ensures TablesOk(t.(orders := t.orders[id := Fail(t.orders[id])]))
  {
    hide FilledBy;
    TransitionKeepsPath(t.orders[id], FAILED);
  }

  // ---- Startup ----

  ghost predicate PollsTo(cfg: LiveConfig, t: LiveTables, reports: map<nat, Report>, t': LiveTables) {
    PollIds(cfg, t, OpenIds(t.orders, |t.orders|), reports) == Ok(t')
  }

  /** Every order still mid-submission has a broker id to ask about. */
  ghost predicate NothingStuckUnacked(t: LiveTables) {
    forall id: nat :: id < |t.orders| && Stuck(t.orders[id].state) ==> id in t.acked
  }

  lemma PollClearsStuck(cfg: LiveConfig, orders: seq<Order>, t: LiveTables, reports: map<nat, Report>, t': LiveTables)
    requires t.orders == FailStuck(orders, t.acked) && PollsTo(cfg, t, reports, t')
    ensures NothingStuckUnacked(t')
  {
    hide PollIds, Stuck, FailStuck;
    PollLeavesUnacked(cfg, t, OpenIds(t.orders, |t.orders|), reports);
  }

  lemma PositionsDoNotUnstick(t: LiveTables, positions: map<int, Position>)
    requires NothingStuckUnacked(t)
    ensures NothingStuckUnacked(t.(positions := positions)) && (TablesOk(t) ==> TablesOk(t.(positions := positions)))
  {
    hide LogIsPath, FilledBy;
  }

  ghost predicate Held(row: BrokerRow, i: int) { row.instrumentId == Some(i) && row.qty != 0 }

  /** The book's entry for `i` is the last non-flat row about it, if there is one. */
  ghost predicate LastRowWins(rows: seq<BrokerRow>, book: Book, i: int) {
    if i in book then
      exists k :: 0 <= k < |rows| && Held(rows[k], i) && book[i] == BrokerPosition(rows[k].qty, rows[k].avgPrice)
        && forall j :: k < j < |rows| ==> !Held(rows[j], i)
    else forall j :: 0 <= j < |rows| ==> !Held(rows[j], i)
  }

  /** Rows of unknown instruments and flat rows are dropped. */
  method BookOf(rows: seq<BrokerRow>) returns (book: Book)
    ensures forall i :: LastRowWins(rows, book, i)
  {
    book := map[];
    for n := 0 to |rows|
      invariant forall i :: LastRowWins(rows[..n], book, i)
    {
      var row := rows[n];
      ghost var before := book;
      if row.instrumentId.Some? && row.qty != 0 {
        book := book[row.instrumentId.value := BrokerPosition(row.qty, row.avgPrice)];
      }
      ghost var seen := rows[..n+1];
      forall i ensures LastRowWins(seen, book, i) {
        RowExtends(rows, n, before, book, i);
      }
    }
    assert rows[..|rows|] == rows;
  }

  lemma RowExtends(rows: seq<BrokerRow>, n: nat, before: Book, book: Book, i: int)
    requires n < |rows| && LastRowWins(rows[..n], before, i)
    requires book == if rows[n].instrumentId.Some? && rows[n].qty != 0
                     then before[rows[n].instrumentId.value := BrokerPosition(rows[n].qty, rows[n].avgPrice)]
                     else before
    ensures LastRowWins(rows[..n+1], book, i)
  {
    var seen := rows[..n+1];
    if Held(rows[n], i) {
      assert Held(seen[n], i);
    } else if i in before {
      var k :| 0 <= k < n && Held(rows[..n][k], i)
               && before[i] == BrokerPosition(rows[..n][k].qty, rows[..n][k].avgPrice)
               && forall j :: k < j < n ==> !Held(rows[..n][j], i);
      assert Held(seen[k], i);
      forall j | k < j < n + 1 ensures !Held(seen[j], i) {
        if j < n { assert !Held(rows[..n][j], i); }
      }
    } else {
      forall j | 0 <= j < n + 1 ensures !Held(seen[j], i) {
        if j < n { assert !Held(rows[..n][j], i); }
      }
    }
  }

  /** A local row that is flat and unknown to the broker needs no look. */
  lemma SkippedRowsAgree(before: map<int, Position>, k: KillState, book: Book, threshold: nat, done: set<int>,
                         after: map<int, Position>, k': KillState)
    requires Reconciled(before, k, book, threshold, done, after, k')
    requires done <= before.Keys + book.Keys
    requires forall i :: i in before && i !in done ==> Divergence(before, book, i) == 0
    requires book.Keys <= done
    ensures FullyReconciled(before, k, book, threshold, after, k')
  {
    hide EventsAdded, Corrected, Divergence;
    var all := before.Keys + book.Keys;
    assert Mismatched(before, book) * all == Mismatched(before, book) * done;
    AgreeingIsNoBreach(before, book, threshold, done);
    forall i ensures RowIs(before, book, all, after, i) {
      assert RowIs(before, book, done, after, i);
    }
  }

  lemma AgreeingIsNoBreach(before: map<int, Position>, book: Book, threshold: nat, done: set<int>)
    requires done <= before.Keys + book.Keys && book.Keys <= done
    requires forall i :: i in before && i !in done ==> Divergence(before, book, i) == 0
    ensures Breached(before, book, threshold) * (before.Keys + book.Keys) == Breached(before, book, threshold) * done
  {
    hide Divergence;
  }

  lemma NothingReconciledYet(before: map<int, Position>, k: KillState, book: Book, threshold: nat)
    ensures Reconciled(before, k, book, threshold, {}, before, k)
  {
    assert Mismatched(before, book) * {} == {} && Breached(before, book, threshold) * {} == {};
    assert k.events[..|k.events|] == k.events;
  }

  lemma RowUntouched(before: map<int, Position>, k: KillState, book: Book, threshold: nat, done: set<int>,
                     after: map<int, Position>, k': KillState, i: int)
    requires Reconciled(before, k, book, threshold, done, after, k') && i !in done
    ensures Divergence(after, book, i) == Divergence(before, book, i)
    ensures Corrected(after, book, i) == Corrected(before, book, i)
  {
    hide EventsAdded;
    assert RowIs(before, book, done, after, i);
  }

  /** The instruments with a position on either side. */
  function InPlay(positions: map<int, Position>, book: Book): (r: set<int>)
    ensures r <= positions.Keys + book.Keys
  {
    (set i | i in positions && positions[i].qty != 0) + book.Keys
  }

  lemma InPlayIsEnough(before: map<int, Position>, k: KillState, book: Book, threshold: nat, after: map<int, Position>,
                       k': KillState)
    requires Reconciled(before, k, book, threshold, InPlay(before, book), after, k')
    ensures FullyReconciled(before, k, book, threshold, after, k')
  {
    hide Reconciled;
    SkippedRowsAgree(before, k, book, threshold, InPlay(before, book), after, k');
  }

  class Reconciler {
    const broker: UpstoxBroker
    const killSwitch: KillSwitch

    constructor (broker: UpstoxBroker, killSwitch: KillSwitch)
      ensures this.broker == broker && this.killSwitch == killSwitch
    {
      this.broker, this.killSwitch := broker, killSwitch;
    }

    /** Bring one instrument's row into line and log the mismatch, tripping the switch on a breach. */
    method ReconcileInstrument(i: int, book: Book, threshold: nat)
      modifies broker`positions, killSwitch
      ensures var was := old(broker.positions);
        if Divergence(was, book, i) == 0 then broker.positions == was && killSwitch.State() == old(killSwitch.State())
        else
          && broker.positions == was[i := Corrected(was, book, i)]
          && killSwitch.State() == AfterMismatch(old(killSwitch.State()), Divergence(was, book, i), threshold)
    {
      var brokerQty, localQty := BrokerQty(book, i), QtyOf(broker.positions, i);
      if brokerQty == localQty { return; }
      var divergence := Abs(brokerQty - localQty);
      var row := PositionOf(broker.positions, i);
      row := row.(qty := brokerQty);
      if i in book {
        row := row.(avgPrice := book[i].avgPrice);
      } else if brokerQty == 0 {
        row := row.(avgPrice := 0.0);
      }
      broker.positions := broker.positions[i := row];
      killSwitch.DoLog(if divergence > threshold then LIMIT_BREACH else REJECTION);
      if divergence > threshold { killSwitch.DoTrip(); }
    }

    /** One turn of the loop below: `done` grows by `i`. */
    method Visit(i: int, book: Book, threshold: nat, ghost before: map<int, Position>, ghost k: KillState,
                 ghost done: set<int>, ghost limit: nat)
      requires i in before.Keys + book.Keys && i !in done
      requires Reconciled(before, k, book, threshold, done, broker.positions, killSwitch.State())
      requires limit >= 1 && SwitchOk(killSwitch.State(), limit)
      modifies broker`positions, killSwitch
      ensures Reconciled(before, k, book, threshold, done + {i}, broker.positions, killSwitch.State())
      ensures SwitchOk(killSwitch.State(), limit)
    {
      hide *;
      RowUntouched(before, k, book, threshold, done, broker.positions, killSwitch.State(), i);
      if Divergence(before, book, i) == 0 {
        AgreeingInstrument(before, k, book, threshold, done, broker.positions, killSwitch.State(), i);
      } else {
        DisagreeingInstrument(before, k, book, threshold, done, broker.positions, killSwitch.State(), i);
        MismatchKeepsSwitch(killSwitch.State(), Divergence(before, book, i), threshold, limit);
      }
      ReconcileInstrument(i, book, threshold);
    }

    /** Visit every instrument either side holds, in no particular order, and let the broker win. */
    method ReconcilePositions(book: Book, threshold: nat, ghost limit: nat)
      requires limit >= 1 && SwitchOk(killSwitch.State(), limit)
      modifies broker`positions, killSwitch
      ensures FullyReconciled(old(broker.positions), old(killSwitch.State()), book, threshold, broker.positions,
                              killSwitch.State())
      ensures SwitchOk(killSwitch.State(), limit)
    {
      hide *;
      ghost var before, k := broker.positions, killSwitch.State();
      var todo := InPlay(broker.positions, book);
      ghost var done: set<int> := {};
      NothingReconciledYet(before, k, book, threshold);
      while exists i :: i in todo
        invariant done + todo == InPlay(before, book) && done !! todo
        invariant Reconciled(before, k, book, threshold, done, broker.positions, killSwitch.State())
        invariant SwitchOk(killSwitch.State(), limit)
        decreases |todo|
      {
        var i :| i in todo;
        Visit(i, book, threshold, before, k, done, limit);
        todo := todo - {i};
        done := done + {i};
      }
      assert done == InPlay(before, book);
      InPlayIsEnough(before, k, book, threshold, broker.positions, killSwitch.State());
    }

    /** Mark the stuck orders FAILED, one risk event each. */
    method FailStuckOrders(ghost limit: nat) returns (findings: seq<Finding>)
      requires TablesOk(broker.State()) && limit >= 1 && SwitchOk(killSwitch.State(), limit)
      modifies broker`orders, killSwitch`events
      ensures TablesOk(broker.State()) && SwitchOk(killSwitch.State(), limit)
      ensures broker.orders == FailStuck(old(broker.orders), broker.acked)
      ensures var ids := StuckIds(old(broker.orders), broker.acked, |broker.orders|);
        && FindingsOf(old(broker.orders), ids, findings)
        && killSwitch.State() == WithRejections(old(killSwitch.State()), |ids|)
    {
      hide TablesOk, SwitchOk, Fail, FailedUpTo, FailStuck, StuckIds, FindingsOf, WithRejections;
      ghost var before, k := broker.orders, killSwitch.State();
      findings := [];
      NothingFailedYet(before, broker.acked, k);
      for n := 0 to |broker.orders|
        invariant |broker.orders| == |before|
        invariant FailedUpTo(before, broker.acked, n, broker.orders, findings, k, killSwitch.State())
        invariant TablesOk(broker.State()) && SwitchOk(killSwitch.State(), limit)
      {
        NextRow(before, broker.acked, n, broker.orders, findings, k, killSwitch.State());
        if Stuck(broker.orders[n].state) && n !in broker.acked {
          FailingKeepsTables(broker.State(), n);
          OtherEventKeeps(killSwitch.State(), REJECTION, limit);
          findings := findings + [Finding(n, broker.orders[n].state)];
          FailRow(n);
          killSwitch.DoLog(REJECTION);
        }
      }
      AllFailed(before, broker.acked, broker.orders, findings, k, killSwitch.State());
    }

    method FailRow(id: nat)
      requires id < |broker.orders| && Stuck(broker.orders[id].state)
      modifies broker`orders
      ensures broker.orders == old(broker.orders)[id := Fail(old(broker.orders)[id])]
    {
      var _ := broker.Move(id, FAILED);
    }

    /**
     * Live startup: fail what was never acknowledged, poll what was, let the broker win on positions. The
     * reports and position rows are what the broker answers; an exception rolls everything back.
     */
    method ReconcileOnStartup(reports: map<nat, Report>, rows: Result<seq<BrokerRow>>, threshold: nat, ghost limit: nat)
      returns (result: Result<seq<Finding>>, ghost polled: LiveTables, ghost book: Book)
      requires TablesOk(broker.State()) && limit >= 1 && SwitchOk(killSwitch.State(), limit)
      modifies broker, killSwitch
      ensures TablesOk(broker.State()) && SwitchOk(killSwitch.State(), limit)
      ensures result.Err? ==> broker.State() == old(broker.State()) && killSwitch.State() == old(killSwitch.State())
      ensures result.Ok? ==>
        var was := old(broker.State());
        var ids := StuckIds(was.orders, was.acked, |was.orders|);
        && rows.Ok? && (forall i :: LastRowWins(rows.value, book, i))
        && FindingsOf(was.orders, ids, result.value)
        && PollsTo(broker.cfg, was.(orders := FailStuck(was.orders, was.acked)), reports, polled)
        && broker.State() == polled.(positions := broker.positions)
        && FullyReconciled(polled.positions, WithRejections(old(killSwitch.State()), |ids|), book, threshold,
                           broker.positions, killSwitch.State())
        && NothingStuckUnacked(broker.State())
    {
      hide TablesOk, SwitchOk, FindingsOf, FailStuck, StuckIds, WithRejections, FullyReconciled, LastRowWins, PollIds,
           NothingStuckUnacked;
      polled, book := broker.State(), map[];
      var saved, savedKill := broker.State(), killSwitch.State();
      var findings := FailStuckOrders(limit);
      ghost var failed := broker.State();
      var error := broker.PollAndApplyFills(reports);
      if error.Some? || rows.Err? {
        broker.orders, broker.positions, broker.trades := saved.orders, saved.positions, saved.trades;
        killSwitch.Rollback(savedKill);
        result := Err(if error.Some? then error.value else rows.error);
        return;
      }
      polled := broker.State();
      PollClearsStuck(broker.cfg, saved.orders, failed, reports, polled);
      var found := BookOf(rows.value);
      book := found;
      ReconcilePositions(found, threshold, limit);
      PositionsDoNotUnstick(polled, broker.positions);
      result := Ok(findings);
    }
  }
}
