/** The trade journal: an independent replay of the trade log into closed round trips. */
module Journal {
  import opened Wrappers
  import opened Costs
  import opened PositionBook
  import opened TradeLog

  datatype JournalEntry = JournalEntry(
    side: Side,
    qty: int,
    entryPrice: real,
    exitPrice: real,
    realizedPnl: real,
    totalCosts: real)

  /** The legs of one round trip, and which stretch of the trade log they are. */
  datatype Episode = Episode(entry: seq<Trade>, exit: seq<Trade>, from: nat, to: nat)

  /** What the replay carries from one trade to the next. */
  datatype Tracker = Tracker(done: seq<Episode>, qty: int, entry: seq<Trade>, exit: seq<Trade>, from: nat)

  function TotalQty(legs: seq<Trade>): int {
    if legs == [] then 0 else TotalQty(legs[..|legs|-1]) + legs[|legs|-1].qty
  }

  function TotalValue(legs: seq<Trade>): real {
    if legs == [] then 0.0 else TotalValue(legs[..|legs|-1]) + Worth(legs[|legs|-1].price, legs[|legs|-1].qty)
  }

  function TradeCosts(t: Trade): real {
    t.costs.brokerage + t.costs.stt + t.costs.stampDuty + t.costs.gst + t.costs.exchangeCharges + t.costs.sebiCharges
  }

  function CostSum(legs: seq<Trade>): real {
    if legs == [] then 0.0 else CostSum(legs[..|legs|-1]) + TradeCosts(legs[|legs|-1])
  }

  lemma {:induction false} PositiveTotal(legs: seq<Trade>)
    requires PositiveLegs(legs)
    ensures TotalQty(legs) >= |legs|
  {
    if legs != [] { PositiveTotal(legs[..|legs|-1]); }
  }

  function BuildEntry(entry: seq<Trade>, exit: seq<Trade>): JournalEntry
    requires entry != [] && exit != [] && PositiveLegs(entry) && PositiveLegs(exit)
  {
    PositiveTotal(entry); PositiveTotal(exit);
    JournalEntry(
      entry[0].side,
      TotalQty(entry),
      TotalValue(entry) / TotalQty(entry) as real,
      TotalValue(exit) / TotalQty(exit) as real,
      RealizedSum(exit),
      CostSum(entry + exit))
  }

  // ---- What an entry's quantity and prices are ----

  /** The cheapest and the dearest leg bound the total value. */
  lemma {:induction false} LegsBoundValue(legs: seq<Trade>) returns (lo: nat, hi: nat)
    requires legs != [] && PositiveLegs(legs)
    ensures lo < |legs| && hi < |legs|
    ensures forall k :: 0 <= k < |legs| ==> legs[lo].price <= legs[k].price <= legs[hi].price
    ensures Worth(legs[lo].price, TotalQty(legs)) <= TotalValue(legs) <= Worth(legs[hi].price, TotalQty(legs))
  {
    hide Worth;
    var n := |legs| - 1;
    var last, before := legs[n], legs[..n];
    PositiveTotal(before);
    if n == 0 {
      lo, hi := 0, 0;
      assert TotalQty(before) == 0 && TotalValue(before) == 0.0;
    } else {
      lo, hi := LegsBoundValue(before);
      assert forall k :: 0 <= k < n ==> legs[k] == before[k];
      WorthMono(legs[lo].price, legs[hi].price, TotalQty(before));
      if last.price < legs[lo].price {
        WorthMono(last.price, legs[lo].price, TotalQty(before));
        lo := n;
      } else {
        WorthMono(legs[lo].price, last.price, last.qty);
      }
      if last.price > legs[hi].price {
        WorthMono(legs[hi].price, last.price, TotalQty(before));
        hi := n;
      } else {
        WorthMono(last.price, legs[hi].price, last.qty);
      }
      WorthOfLots(legs[lo].price, TotalQty(before), last.qty);
      WorthOfLots(legs[hi].price, TotalQty(before), last.qty);
    }
  }

  lemma WorthMono(a: real, b: real, qty: int)
    requires a <= b && qty >= 0
    ensures Worth(a, qty) <= Worth(b, qty)
  {
    MulMono(a, b, qty as real);
  }

  /** A price per share that pays for all legs together, and lies between the cheapest and the dearest of them. */
  ghost predicate AveragesLegs(price: real, legs: seq<Trade>) {
    && Worth(price, TotalQty(legs)) == TotalValue(legs)
    && (exists k :: 0 <= k < |legs| && legs[k].price <= price)
    && (exists k :: 0 <= k < |legs| && price <= legs[k].price)
  }

  lemma MeanAverages(legs: seq<Trade>)
    requires legs != [] && PositiveLegs(legs) && TotalQty(legs) > 0
    ensures AveragesLegs(TotalValue(legs) / TotalQty(legs) as real, legs)
  {
    hide Worth, TotalQty, TotalValue;
    var q, price := TotalQty(legs), TotalValue(legs) / TotalQty(legs) as real;
    var lo, hi := LegsBoundValue(legs);
    PerShareBack(TotalValue(legs), q);
    assert PerShare(TotalValue(legs), q) == price;
    if price < legs[lo].price { WorthStrict(price, legs[lo].price, q); }
    if price > legs[hi].price { WorthStrict(legs[hi].price, price, q); }
  }

  /** An entry's quantity is what its entry legs add up to, and each of its prices averages its legs. */
  lemma EntryAverages(entry: seq<Trade>, exit: seq<Trade>)
    requires entry != [] && exit != [] && PositiveLegs(entry) && PositiveLegs(exit)
    ensures var e := BuildEntry(entry, exit);
      && e.side == entry[0].side && e.qty == TotalQty(entry) && e.qty >= |entry|
      && AveragesLegs(e.entryPrice, entry) && AveragesLegs(e.exitPrice, exit)
      && e.realizedPnl == RealizedSum(exit) && e.totalCosts == CostSum(entry) + CostSum(exit)
  {
    hide TotalQty, TotalValue, CostSum, AveragesLegs;
    PositiveTotal(entry);
    PositiveTotal(exit);
    MeanAverages(entry);
    MeanAverages(exit);
    CostSumConcat(entry, exit);
  }

  /** A round trip of one leg in and one leg out has their own quantity and prices. */
  lemma SingleLegEntry(a: Trade, b: Trade)
    requires a.qty > 0 && b.qty > 0
    ensures var e := BuildEntry([a], [b]);
      && e.side == a.side && e.qty == a.qty && e.entryPrice == a.price && e.exitPrice == b.price
      && e.totalCosts == TradeCosts(a) + TradeCosts(b)
  {
    EntryAverages([a], [b]);
    assert [a][..0] == [] && [b][..0] == [];
    assert TotalQty([a]) == a.qty && CostSum([a]) == TradeCosts(a) && CostSum([b]) == TradeCosts(b);
  }

  function Track(s: Tracker, t: Trade, index: nat): Tracker {
    var signedQty := SignedQty(t.side, t.qty);
    if s.entry == [] then Tracker(s.done, signedQty, [t], s.exit, index)
    else if (s.qty > 0) == (t.side == BUY) then s.(entry := s.entry + [t], qty := s.qty + signedQty)
    else
      var exit := s.exit + [t];
      if s.qty + signedQty == 0 then
        Tracker(s.done + [Episode(s.entry, exit, s.from, index + 1)], 0, [], [], index + 1)
      else s.(exit := exit, qty := s.qty + signedQty)
  }

  function TrackAll(trades: seq<Trade>): Tracker {
    if trades == [] then Tracker([], 0, [], [], 0)
    else Track(TrackAll(trades[..|trades|-1]), trades[|trades|-1], |trades| - 1)
  }

  // ---- What the tracker knows after any booked trade log ----

  /** Trade `k` closes more than its instrument's position held just before it. */
  ghost predicate OverCloses(trades: seq<Trade>, k: nat)
    requires PositiveLegs(trades) && k < |trades|
  {
    !NotOverClosing(Replay(trades[..k]), trades[k].side, trades[k].qty)
  }

  ghost predicate NoneOverCloses(trades: seq<Trade>, from: nat, to: nat)
    requires PositiveLegs(trades) && to <= |trades|
  {
    forall k :: from <= k < to ==> !OverCloses(trades, k)
  }

  /** By how many shares the legs in a stretch overshoot flat. */
  ghost function Overshoot(trades: seq<Trade>, from: nat, to: nat): nat
    requires PositiveLegs(trades) && from <= to <= |trades|
  {
    if from == to then 0
    else
      Overshoot(trades, from, to - 1)
      + (if OverCloses(trades, to - 1) then trades[to-1].qty - Abs(Replay(trades[..to-1]).qty) else 0)
  }

  lemma {:induction false} OvershootZeroIff(trades: seq<Trade>, from: nat, to: nat)
    requires PositiveLegs(trades) && from <= to <= |trades|
    ensures Overshoot(trades, from, to) == 0 <==> NoneOverCloses(trades, from, to)
  {
    if from < to {
      OvershootZeroIff(trades, from, to - 1);
      if NoneOverCloses(trades, from, to - 1) && !OverCloses(trades, to - 1) {
        assert NoneOverCloses(trades, from, to);
      }
    }
  }

  ghost predicate AllOn(side: Side, legs: seq<Trade>) {
    forall k :: 0 <= k < |legs| ==> legs[k].side == side
  }

  function Opposite(side: Side): Side { if side == BUY then SELL else BUY }

  /** The legs collected over trades[from..to] account for all of the stretch's money and shares. */
  ghost predicate Accounts(trades: seq<Trade>, entry: seq<Trade>, exit: seq<Trade>, from: nat, to: nat)
    requires PositiveLegs(trades) && from <= to <= |trades|
  {
    var p := Replay(trades[..to]);
    && PositiveLegs(entry) && PositiveLegs(exit)
    && NetFlow(entry) + NetFlow(exit) + BookValue(p) == RealizedSum(exit)
    && Abs(p.qty) == TotalQty(entry) - TotalQty(exit) + 2 * Overshoot(trades, from, to)
    && (entry != [] && NoneOverCloses(trades, from, to) ==>
          && AllOn(entry[0].side, entry)
          && AllOn(Opposite(entry[0].side), exit)
          && (p.qty != 0 ==> (p.qty > 0) == (entry[0].side == BUY)))
  }

  lemma NetFlowAppend(legs: seq<Trade>, t: Trade)
    ensures NetFlow(legs + [t]) == NetFlow(legs) + CashFlow(t.side, t.costs.netAmount)
    ensures RealizedSum(legs + [t]) == RealizedSum(legs) + RealizedOf(t.realizedPnl)
    ensures TotalQty(legs + [t]) == TotalQty(legs) + t.qty
  {
    assert (legs + [t])[..|legs|] == legs;
  }

  /** What booking trade `k` does to the replayed position. */
  lemma LegEffect(trades: seq<Trade>, k: nat)
    requires PositiveLegs(trades) && Booked(trades) && k < |trades|
    ensures var before, after, t := Replay(trades[..k]), Replay(trades[..k+1]), trades[k];
      && CashFlow(t.side, t.costs.netAmount) + BookValue(after) == BookValue(before) + RealizedOf(t.realizedPnl)
      && after.qty == before.qty + SignedQty(t.side, t.qty)
      && (t.realizedPnl == None <==> Adding(before, t.side))
  {
    hide BookValue, CashFlow, Worth, PerShare;
    BookedPrefix(trades, k + 1);
    assert trades[..k+1][..k] == trades[..k];
    LastLegConserves(trades[..k+1]);
  }

  lemma EntryLegAccounts(trades: seq<Trade>, entry: seq<Trade>, exit: seq<Trade>, from: nat, to: nat)
    requires PositiveLegs(trades) && Booked(trades) && from <= to < |trades|
    requires Accounts(trades, entry, exit, from, to) && Adding(Replay(trades[..to]), trades[to].side)
    requires entry == [] <==> Replay(trades[..to]).qty == 0
    requires entry == [] ==> exit == []
    ensures Accounts(trades, entry + [trades[to]], exit, from, to + 1)
  {
    hide BookValue, CashFlow, Replay, Booked;
    LegEffect(trades, to);
    NetFlowAppend(entry, trades[to]);
    if NoneOverCloses(trades, from, to + 1) { assert NoneOverCloses(trades, from, to); }
  }

  lemma ExitLegAccounts(trades: seq<Trade>, entry: seq<Trade>, exit: seq<Trade>, from: nat, to: nat)
    requires PositiveLegs(trades) && Booked(trades) && from <= to < |trades|
    requires Accounts(trades, entry, exit, from, to) && !Adding(Replay(trades[..to]), trades[to].side)
    requires entry != []
    ensures Accounts(trades, entry, exit + [trades[to]], from, to + 1)
  {
    hide BookValue, CashFlow, Replay, Booked;
    LegEffect(trades, to);
    NetFlowAppend(exit, trades[to]);
    if NoneOverCloses(trades, from, to + 1) {
      assert NoneOverCloses(trades, from, to);
      assert !OverCloses(trades, to);
    }
  }

  ghost predicate Closed(trades: seq<Trade>, e: Episode)
    requires PositiveLegs(trades)
  {
    && e.from < e.to <= |trades| && e.entry != [] && e.exit != []
    && Replay(trades[..e.to]).qty == 0
    && Accounts(trades, e.entry, e.exit, e.from, e.to)
    && multiset(e.entry + e.exit) == multiset(trades[e.from..e.to])
  }

  /** The open tail: the legs collected since the journal was last flat. */
  ghost predicate TracksTail(trades: seq<Trade>, n: nat, s: Tracker)
    requires PositiveLegs(trades) && n <= |trades|
  {
    && s.qty == Replay(trades[..n]).qty
    && (s.entry == [] <==> s.qty == 0)
    && (s.entry == [] ==> s.exit == [] && s.from == n)
    && s.from <= n
    && Accounts(trades, s.entry, s.exit, s.from, n)
    && multiset(s.entry + s.exit) == multiset(trades[s.from..n])
  }

  /** The closed episodes are consecutive stretches of the log, from its start up to the tail. */
  ghost predicate TracksDone(trades: seq<Trade>, done: seq<Episode>, from: nat)
    requires PositiveLegs(trades)
  {
    && (forall k :: 0 <= k < |done| ==> Closed(trades, done[k]))
    && (|done| > 0 ==> done[0].from == 0)
    && (forall k :: 0 < k < |done| ==> done[k].from == done[k-1].to)
    && from == (if |done| == 0 then 0 else done[|done|-1].to)
  }

  ghost predicate Tracks(trades: seq<Trade>, n: nat, s: Tracker)
    requires PositiveLegs(trades) && n <= |trades|
  {
    TracksTail(trades, n, s) && TracksDone(trades, s.done, s.from)
  }

  lemma TrackEntryLeg(trades: seq<Trade>, n: nat, s: Tracker)
    requires PositiveLegs(trades) && Booked(trades) && n < |trades| && Tracks(trades, n, s)
    requires Adding(Replay(trades[..n]), trades[n].side)
    ensures Tracks(trades, n + 1, Track(s, trades[n], n))
  {
    hide BookValue, Replay, Booked, Accounts, TracksDone;
    var t := trades[n];
    LegEffect(trades, n);
    EntryLegAccounts(trades, s.entry, s.exit, s.from, n);
    assert trades[s.from..n+1] == trades[s.from..n] + [t];
    assert multiset(s.entry + [t] + s.exit) == multiset(s.entry + s.exit) + multiset{t};
    if s.entry == [] { assert s.entry + [t] == [t]; }
  }

  lemma DoneAppend(trades: seq<Trade>, done: seq<Episode>, e: Episode)
    requires PositiveLegs(trades) && TracksDone(trades, done, e.from) && Closed(trades, e)
    ensures TracksDone(trades, done + [e], e.to)
  {
    hide Closed;
    var all := done + [e];
    forall k | 0 <= k < |all| ensures Closed(trades, all[k]) {
      if k < |done| { assert all[k] == done[k]; }
    }
    forall k | 0 < k < |all| ensures all[k].from == all[k-1].to {
      assert all[k-1] == done[k-1];
    }
  }

  lemma TrackExitLeg(trades: seq<Trade>, n: nat, s: Tracker)
    requires PositiveLegs(trades) && Booked(trades) && n < |trades| && Tracks(trades, n, s)
    requires !Adding(Replay(trades[..n]), trades[n].side)
    ensures Tracks(trades, n + 1, Track(s, trades[n], n))
  {
    hide BookValue, Replay, Booked, Accounts, NoneOverCloses, TotalQty, NetFlow, RealizedSum, TracksDone;
    var t := trades[n];
    var exit := s.exit + [t];
    LegEffect(trades, n);
    ExitLegAccounts(trades, s.entry, s.exit, s.from, n);
    assert trades[s.from..n+1] == trades[s.from..n] + [t];
    assert s.entry + exit == s.entry + s.exit + [t];
    if s.qty + SignedQty(t.side, t.qty) == 0 {
      NothingOpen(trades, n + 1);
      DoneAppend(trades, s.done, Episode(s.entry, exit, s.from, n + 1));
      assert trades[n+1..n+1] == [];
    }
  }

  lemma NothingOpen(trades: seq<Trade>, n: nat)
    requires PositiveLegs(trades) && n <= |trades|
    ensures Replay(trades[..n]).qty == 0 ==> Accounts(trades, [], [], n, n)
  {
  }

  lemma NothingTracked(trades: seq<Trade>)
    requires PositiveLegs(trades)
    ensures Tracks(trades, 0, Tracker([], 0, [], [], 0))
  {
    assert trades[..0] == [] && trades[0..0] == [];
    NothingOpen(trades, 0);
  }

  lemma {:induction false} TracksAll(trades: seq<Trade>, n: nat)
    requires PositiveLegs(trades) && Booked(trades) && n <= |trades|
    ensures Tracks(trades, n, TrackAll(trades[..n]))
  {
    hide Booked, Track, Replay, Tracks, Adding;
    if n == 0 {
      NothingTracked(trades);
    } else {
      TracksAll(trades, n - 1);
      var s := TrackAll(trades[..n-1]);
      if Adding(Replay(trades[..n-1]), trades[n-1].side) {
        TrackEntryLeg(trades, n - 1, s);
      } else {
        TrackExitLeg(trades, n - 1, s);
      }
      assert trades[..n][..n-1] == trades[..n-1];
    }
  }

  // ---- What a journal entry says ----

  ghost predicate AllCosted(segment: Segment, rates: Rates, legs: seq<Trade>) {
    forall k :: 0 <= k < |legs| ==> Costed(segment, rates, legs[k])
  }

  /** Σ SELL turnover − Σ BUY turnover. */
  ghost function SignedValue(legs: seq<Trade>): real {
    if legs == [] then 0.0
    else
      var last := legs[|legs|-1];
      SignedValue(legs[..|legs|-1])
      + (if last.side == SELL then Worth(last.price, last.qty) else -Worth(last.price, last.qty))
  }

  lemma LegFlow(segment: Segment, rates: Rates, t: Trade)
    requires Costed(segment, rates, t)
    ensures CashFlow(t.side, t.costs.netAmount)
         == (if t.side == SELL then Worth(t.price, t.qty) else -Worth(t.price, t.qty)) - TradeCosts(t)
  {
  }

  lemma {:induction false} FlowIsValueLessCosts(segment: Segment, rates: Rates, legs: seq<Trade>)
    requires AllCosted(segment, rates, legs)
    ensures NetFlow(legs) == SignedValue(legs) - CostSum(legs)
  {
    hide CostsOnTurnover, CalculateCosts, CashFlow, Worth, TradeCosts;
    if legs != [] {
      FlowIsValueLessCosts(segment, rates, legs[..|legs|-1]);
      LegFlow(segment, rates, legs[|legs|-1]);
    }
  }

  lemma {:induction false} OneSidedValue(side: Side, legs: seq<Trade>)
    requires AllOn(side, legs)
    ensures SignedValue(legs) == if side == SELL then TotalValue(legs) else -TotalValue(legs)
  {
    hide Worth;
    if legs != [] { OneSidedValue(side, legs[..|legs|-1]); }
  }

  lemma {:induction false} CostSumConcat(a: seq<Trade>, b: seq<Trade>)
    ensures CostSum(a + b) == CostSum(a) + CostSum(b)
  {
    if b == [] {
      assert a + b == a;
    } else {
      assert (a + b)[..|a + b|-1] == a + b[..|b|-1];
      CostSumConcat(a, b[..|b|-1]);
    }
  }

  lemma LegsAreTrades(segment: Segment, rates: Rates, trades: seq<Trade>, e: Episode)
    requires PositiveLegs(trades) && AllCosted(segment, rates, trades) && Closed(trades, e)
    ensures AllCosted(segment, rates, e.entry) && AllCosted(segment, rates, e.exit)
  {
    hide Costed, Accounts, Replay;
    forall t | t in e.entry + e.exit ensures Costed(segment, rates, t) {
      assert t in multiset(e.entry + e.exit);
      assert t in trades[e.from..e.to];
    }
    assert forall k :: 0 <= k < |e.entry| ==> (e.entry + e.exit)[k] == e.entry[k];
    assert forall k :: 0 <= k < |e.exit| ==> (e.entry + e.exit)[|e.entry| + k] == e.exit[k];
  }

  /**
   * Every journal entry's realized P&L and costs add up to what its legs sold for less what they
   * cost to buy. Nothing is assumed about over-closing.
   */
  lemma EntryConservation(segment: Segment, rates: Rates, trades: seq<Trade>, e: Episode)
    requires PositiveLegs(trades) && AllCosted(segment, rates, trades) && Closed(trades, e)
    ensures var entry := BuildEntry(e.entry, e.exit);
      entry.realizedPnl == SignedValue(e.entry) + SignedValue(e.exit) - entry.totalCosts
  {
    hide Costed, Overshoot, TotalQty, TotalValue;
    LegsAreTrades(segment, rates, trades, e);
    FlowIsValueLessCosts(segment, rates, e.entry);
    FlowIsValueLessCosts(segment, rates, e.exit);
    CostSumConcat(e.entry, e.exit);
  }

  /** A journal entry buys as much as it sells exactly when none of its legs over-closed. */
  lemma EntryQtyMatchesIff(trades: seq<Trade>, e: Episode)
    requires PositiveLegs(trades) && Closed(trades, e)
    ensures TotalQty(e.entry) == TotalQty(e.exit) <==> NoneOverCloses(trades, e.from, e.to)
  {
    OvershootZeroIff(trades, e.from, e.to);
  }

  /**
   * Journal identity: with no over-closing leg, realized P&L is the signed price difference times
   * the quantity, less all costs, however many legs the round trip has and however they interleave.
   */
  lemma EntryIdentity(segment: Segment, rates: Rates, trades: seq<Trade>, e: Episode)
    requires PositiveLegs(trades) && AllCosted(segment, rates, trades) && Closed(trades, e)
    requires NoneOverCloses(trades, e.from, e.to)
    ensures var entry := BuildEntry(e.entry, e.exit);
      entry.realizedPnl
        == (if entry.side == BUY then entry.exitPrice - entry.entryPrice else entry.entryPrice - entry.exitPrice)
             * entry.qty as real - entry.totalCosts
  {
    hide Costed, Replay, Overshoot, TotalQty, TotalValue, SignedValue, CostSum, RealizedSum, NetFlow, NoneOverCloses;
    EntryConservation(segment, rates, trades, e);
    EntryQtyMatchesIff(trades, e);
    var side := e.entry[0].side;
    assert AllOn(side, e.entry) && AllOn(Opposite(side), e.exit);
    OneSidedValue(side, e.entry);
    OneSidedValue(Opposite(side), e.exit);
    PositiveTotal(e.entry);
    PriceDifference(TotalValue(e.entry), TotalValue(e.exit), TotalQty(e.entry));
  }

  lemma PriceDifference(a: real, b: real, q: int)
    requires q > 0
    ensures (b / q as real - a / q as real) * q as real == b - a
    ensures (a / q as real - b / q as real) * q as real == a - b
  {
  }

  // ---- The journal builder ----

  /** One entry per closed episode, in the order the episodes closed. */
  ghost predicate IsJournal(episodes: seq<Episode>, entries: seq<JournalEntry>) {
    && |entries| == |episodes|
    && forall k :: 0 <= k < |episodes| ==>
         && episodes[k].entry != [] && episodes[k].exit != []
         && PositiveLegs(episodes[k].entry) && PositiveLegs(episodes[k].exit)
         && entries[k] == BuildEntry(episodes[k].entry, episodes[k].exit)
  }

  lemma NothingJournaled()
    ensures IsJournal([], [])
  {
  }

  lemma JournalAppend(episodes: seq<Episode>, entries: seq<JournalEntry>, e: Episode)
    requires IsJournal(episodes, entries)
    requires e.entry != [] && e.exit != [] && PositiveLegs(e.entry) && PositiveLegs(e.exit)
    ensures IsJournal(episodes + [e], entries + [BuildEntry(e.entry, e.exit)])
  {
    hide BuildEntry;
  }

  method EpisodesForInstrument(trades: seq<Trade>) returns (entries: seq<JournalEntry>)
    requires PositiveLegs(trades)
    ensures IsJournal(TrackAll(trades).done, entries)
  {
    hide BuildEntry, IsJournal;
    NothingJournaled();
    entries := [];
    var qty := 0;
    var entryTrades: seq<Trade> := [];
    var exitTrades: seq<Trade> := [];
    for k := 0 to |trades|
      invariant PositiveLegs(entryTrades) && PositiveLegs(exitTrades)
      invariant var s := TrackAll(trades[..k]);
        s.qty == qty && s.entry == entryTrades && s.exit == exitTrades && IsJournal(s.done, entries)
    {
      assert trades[..k+1][..k] == trades[..k];
      var trade := trades[k];
      var signedQty := if trade.side == BUY then trade.qty else -trade.qty;
      if entryTrades == [] {
        entryTrades := [trade];
        qty := signedQty;
        continue;
      }
      if (qty > 0) == (trade.side == BUY) {
        entryTrades := entryTrades + [trade];
        qty := qty + signedQty;
      } else {
        exitTrades := exitTrades + [trade];
        qty := qty + signedQty;
        if qty == 0 {
          JournalAppend(TrackAll(trades[..k]).done, entries,
                        Episode(entryTrades, exitTrades, TrackAll(trades[..k]).from, k + 1));
          entries := entries + [BuildEntry(entryTrades, exitTrades)];
          entryTrades := [];
          exitTrades := [];
        }
      }
    }
    assert trades[..|trades|] == trades;
  }
}
